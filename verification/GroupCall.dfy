/** The batched group call as the client runs it, over the collections `unmapped`, `mapped` and `out`. */
module GroupCall {
  import opened Base
  import opened Order
  import opened Rounds
  import opened Boards
  import opened GroupLookup
  import opened GroupDriver

  /** The three collections at one moment. */
  datatype Collections<V> = Collections(unmapped: set<string>, mapped: map<string, Endpoint>,
                                        out: map<string, GroupResult<V>>) {
    /** No group is in two collections. */
    ghost predicate Disjoint() {
      unmapped !! mapped.Keys && unmapped !! out.Keys && mapped.Keys !! out.Keys
    }

    ghost function All(): set<string> {
      unmapped + mapped.Keys + out.Keys
    }
  }

  /** The collections hold exactly the groups of the board, each in the collection of its status. */
  ghost predicate Holds<V>(c: Collections<V>, b: GroupBoard<V>) {
    && (forall g :: g in c.unmapped <==> g in b && b[g].Unmapped?)
    && (forall g :: g in c.mapped <==> g in b && b[g].Mapped?)
    && (forall g | g in c.mapped :: b[g] == Mapped(c.mapped[g]))
    && (forall g :: g in c.out <==> g in b && b[g].Settled?)
    && (forall g | g in c.out :: b[g] == Settled(c.out[g]))
  }

  lemma HoldsIsPartition<V>(c: Collections<V>, b: GroupBoard<V>)
    requires Holds(c, b)
    ensures c.Disjoint() && c.All() == b.Keys
    ensures c.unmapped == Waiting(b)
    ensures c.unmapped == {} && c.mapped == map[] <==> Pending(b) == {}
  {
    if c.unmapped == {} && c.mapped == map[] {
      assert forall g | g in b :: g !in c.unmapped && g !in c.mapped;
    }
    if Pending(b) == {} {
      forall g ensures g !in c.unmapped && g !in c.mapped {
        assert g !in Pending(b);
      }
    }
  }

  /** The collections with `g` moved to the one of `status`. */
  ghost function Put<V>(c: Collections<V>, g: string, status: Status<Endpoint, V>): Collections<V> {
    Collections(
      if status.Unmapped? then c.unmapped + {g} else c.unmapped - {g},
      if status.Mapped? then c.mapped[g := status.at] else c.mapped - {g},
      if status.Settled? then c.out[g := status.result] else c.out - {g})
  }

  lemma PutHolds<V>(c: Collections<V>, b: GroupBoard<V>, g: string, status: Status<Endpoint, V>)
    requires Holds(c, b)
    ensures Holds(Put(c, g, status), b[g := status])
  {
  }

  /** A board on which the groups of `later` have no entry yet. */
  ghost function Without<V>(b: GroupBoard<V>, later: seq<string>): GroupBoard<V> {
    map g | g in b && g !in later :: b[g]
  }

  ghost function PlacedUpTo<V>(b: GroupBoard<V>, keys: seq<string>, lookups: seq<(string, Lookup)>, i: nat)
    : GroupBoard<V>
    requires i <= |keys| == |lookups|
  {
    Without(LookedUp(b, LookupMap(lookups[..i])), keys[i..])
  }

  lemma PlaceNext<V>(b: GroupBoard<V>, keys: seq<string>, lookups: seq<(string, Lookup)>, i: nat)
    requires i < |keys| == |lookups| && NoDuplicates(keys) && lookups[i].0 == keys[i]
    requires keys[i] in b && b[keys[i]].Unmapped?
    ensures keys[i] !in PlacedUpTo(b, keys, lookups, i)
    ensures PlacedUpTo(b, keys, lookups, i + 1) == PlacedUpTo(b, keys, lookups, i)[keys[i] := FromLookup(lookups[i].1)]
  {
    assert lookups[..i + 1][..i] == lookups[..i];
    assert keys[i..] == [keys[i]] + keys[i + 1..];
  }

  lemma PlacedEnds<V>(b: GroupBoard<V>, keys: seq<string>, lookups: seq<(string, Lookup)>)
    requires |keys| == |lookups|
    ensures PlacedUpTo(b, keys, lookups, 0) == Without(b, keys)
    ensures PlacedUpTo(b, keys, lookups, |keys|) == LookedUp(b, LookupMap(lookups))
  {
    assert lookups[..|keys|] == lookups && keys[|keys|..] == [];
    assert keys[0..] == keys && LookupMap(lookups[..0]) == map[];
  }

  method PlaceOne<V>(start: Collections<V>, group: string, lookup: Lookup, ghost b: GroupBoard<V>)
    returns (c: Collections<V>)
    requires Holds(start, b) && group !in b
    ensures Holds(c, b[group := FromLookup(lookup)])
  {
    c := start;
    match lookup {
      case Found(endpoint) => c := c.(mapped := c.mapped[group := endpoint]);
      case Again => c := c.(unmapped := c.unmapped + {group});
      case Failed(error) => c := c.(out := c.out[group := Err(error)]);
    }
    PutHolds(start, b, group, FromLookup(lookup));
    assert c == Put(start, group, FromLookup(lookup));
  }

  /** Moves each looked-up group into its collection. The lookup has taken all of `unmapped`. */
  method PlaceLookups<V>(keys: seq<string>, lookups: seq<(string, Lookup)>, start: Collections<V>,
                         ghost b: GroupBoard<V>)
    returns (c: Collections<V>)
    requires NoDuplicates(keys) && |lookups| == |keys| && forall i | 0 <= i < |keys| :: lookups[i].0 == keys[i]
    requires forall g :: g in keys <==> g in b && b[g].Unmapped?
    requires Holds(start, Without(b, keys))
    ensures Holds(c, LookedUp(b, LookupMap(lookups)))
  {
    c := start;
    PlacedEnds(b, keys, lookups);
    ghost var board := Without(b, keys);
    for i := 0 to |keys|
      invariant board == PlacedUpTo(b, keys, lookups, i) && Holds(c, board)
    {
      PlaceNext(b, keys, lookups, i);
      c := PlaceOne(c, lookups[i].0, lookups[i].1, board);
      board := board[keys[i] := FromLookup(lookups[i].1)];
    }
  }

  // ----- batches -----

  function Select(names: seq<string>, mapped: map<string, Endpoint>, address: string): seq<string> {
    if names == [] then []
    else
      var rest := Select(names[..|names| - 1], mapped, address);
      var g := names[|names| - 1];
      if g in mapped && AddressOf(mapped[g]) == address then rest + [g] else rest
  }

  lemma {:induction false} SelectAscends(names: seq<string>, mapped: map<string, Endpoint>, address: string)
    requires Ascends(NameLess, names) && forall g | g in names :: g in mapped
    ensures Ascends(NameLess, Select(names, mapped, address))
    ensures forall g :: g in Select(names, mapped, address) <==> g in names && AddressOf(mapped[g]) == address
  {
    if names != [] {
      var front, g := names[..|names| - 1], names[|names| - 1];
      assert names == front + [g];
      SelectAscends(front, mapped, address);
      var rest := Select(front, mapped, address);
      forall i | 0 <= i < |rest| ensures NameLess(rest[i], g) {
        assert rest[i] in front;
      }
    }
  }

  /** The groups of `mapped` at `address`, in order. */
  ghost function At(mapped: map<string, Endpoint>, address: string): seq<string> {
    SortedNames(set g | g in mapped && AddressOf(mapped[g]) == address)
  }

  lemma SelectIsAt(mapped: map<string, Endpoint>, address: string)
    ensures Select(SortedNames(mapped.Keys), mapped, address) == At(mapped, address)
  {
    NamesAreOrdered();
    SortedNamesAscend(mapped.Keys);
    SortedNamesAscend(set g | g in mapped && AddressOf(mapped[g]) == address);
    SelectAscends(SortedNames(mapped.Keys), mapped, address);
    AscendingIsUnique(NameLess, Select(SortedNames(mapped.Keys), mapped, address), At(mapped, address));
  }

  type Batches = map<string, (Endpoint, seq<string>)>

  /** `batches` groups `names`: each address with the endpoint of its first group. */
  ghost predicate Groups(batches: Batches, names: seq<string>, mapped: map<string, Endpoint>) {
    && (forall address :: address in batches <==> Select(names, mapped, address) != [])
    && (forall address | address in batches ::
          && batches[address].1 == Select(names, mapped, address) && batches[address].1[0] in mapped
          && batches[address].0 == mapped[batches[address].1[0]])
  }

  method AddToBatch(start: Batches, mapped: map<string, Endpoint>, ghost names: seq<string>, group: string)
    returns (batches: Batches)
    requires group in mapped && Groups(start, names, mapped)
    ensures Groups(batches, names + [group], mapped)
  {
    var coordinator := mapped[group];
    var address := AddressOf(coordinator);
    var batch := if address in start then start[address] else (coordinator, []);
    batches := start[address := (batch.0, batch.1 + [group])];
    assert (names + [group])[..|names|] == names;
  }

  /** One batch for each address, with all mapped groups at that address in order. */
  ghost predicate Batched(batches: Batches, mapped: map<string, Endpoint>) {
    && (forall address | address in batches :: IsBatch(batches[address], mapped, address))
    && (forall g | g in mapped :: AddressOf(mapped[g]) in batches)
  }

  ghost predicate IsBatch(batch: (Endpoint, seq<string>), mapped: map<string, Endpoint>, address: string) {
    batch.1 == At(mapped, address) && batch.1 != [] && batch.1[0] in mapped && batch.0 == mapped[batch.1[0]]
  }

  lemma GroupsAll(batches: Batches, mapped: map<string, Endpoint>)
    requires Groups(batches, SortedNames(mapped.Keys), mapped)
    ensures Batched(batches, mapped)
  {
    var names := SortedNames(mapped.Keys);
    forall address ensures Select(names, mapped, address) == At(mapped, address) {
      SelectIsAt(mapped, address);
    }
    forall g | g in mapped ensures AddressOf(mapped[g]) in batches {
      assert g in At(mapped, AddressOf(mapped[g]));
    }
  }

  method CollectBatches(names: seq<string>, mapped: map<string, Endpoint>) returns (batches: Batches)
    requires forall i | 0 <= i < |names| :: names[i] in mapped
    ensures Groups(batches, names, mapped)
  {
    batches := map[];
    for i := 0 to |names|
      invariant Groups(batches, names[..i], mapped)
    {
      batches := AddToBatch(batches, mapped, names[..i], names[i]);
      assert names[..i + 1] == names[..i] + [names[i]];
    }
    assert names[..|names|] == names;
  }

  /** Groups the mapped groups by the address of their coordinator. */
  method GroupByCoordinator(mapped: map<string, Endpoint>) returns (batches: Batches)
    ensures Batched(batches, mapped)
  {
    var names := SortedNames(mapped.Keys);
    assert forall i | 0 <= i < |names| :: names[i] in names;
    batches := CollectBatches(names, mapped);
    GroupsAll(batches, mapped);
  }

  // ----- answers -----

  ghost function Answered<V>(b: GroupBoard<V>, keys: seq<string>, answer: Answer<V>): GroupBoard<V> {
    map g | g in b :: if g in keys then AfterAnswer(g, b[g], answer) else b[g]
  }

  method ApplyToOne<V>(start: Collections<V>, key: string, answer: Answer<V>, ghost b: GroupBoard<V>)
    returns (c: Collections<V>)
    requires Holds(start, b) && key in b && b[key].Mapped?
    ensures Holds(c, b[key := AfterAnswer(key, b[key], answer)])
  {
    c := start;
    match answer {
      case None =>
      case Some(Err(error)) =>
        c := c.(mapped := c.mapped - {key});
        if IsConnectionFailure(error) {
          c := c.(unmapped := c.unmapped + {key});
        } else {
          c := c.(out := c.out[key := Err(GroupsKafkaError(error))]);
        }
      case Some(Ok(outcomes)) =>
        if key in outcomes {
          match outcomes[key] {
            case Done(result) => c := c.(mapped := c.mapped - {key}, out := c.out[key := result]);
            case Retry =>
            case Unmap => c := c.(mapped := c.mapped - {key}, unmapped := c.unmapped + {key});
          }
        }
    }
    PutHolds(start, b, key, AfterAnswer(key, b[key], answer));
    assert c == Put(start, key, AfterAnswer(key, b[key], answer));
  }

  /** Moves each group of one batch as the answer to the batch says. */
  method ApplyAnswer<V>(start: Collections<V>, keys: seq<string>, answer: Answer<V>, ghost b: GroupBoard<V>)
    returns (c: Collections<V>)
    requires Holds(start, b) && NoDuplicates(keys) && forall g | g in keys :: g in b && b[g].Mapped?
    ensures Holds(c, Answered(b, keys, answer))
  {
    c := start;
    ghost var board := b;
    for i := 0 to |keys|
      invariant board == Answered(b, keys[..i], answer) && Holds(c, board)
    {
      assert keys[..i + 1] == keys[..i] + [keys[i]];
      assert keys[i] !in keys[..i] && board[keys[i]] == b[keys[i]];
      c := ApplyToOne(c, keys[i], answer, board);
      board := board[keys[i] := AfterAnswer(keys[i], b[keys[i]], answer)];
    }
    assert keys[..|keys|] == keys;
  }

  /** The board on the way from `b` to `after`, when the batches of `addresses` have been answered. */
  ghost function AnsweredAt<V>(b: GroupBoard<V>, after: GroupBoard<V>, addresses: seq<string>): GroupBoard<V>
    requires b.Keys <= after.Keys
  {
    map g | g in b :: if b[g].Mapped? && AddressOf(b[g].at) in addresses then after[g] else b[g]
  }

  lemma AnswerNext<V>(b: GroupBoard<V>, after: GroupBoard<V>, addresses: seq<string>, address: string,
                      keys: seq<string>, answer: Answer<V>)
    requires b.Keys <= after.Keys && address !in addresses
    requires forall g :: g in keys <==> g in b && b[g].Mapped? && AddressOf(b[g].at) == address
    requires forall g | g in keys :: after[g] == AfterAnswer(g, b[g], answer)
    ensures forall g | g in keys :: AnsweredAt(b, after, addresses)[g] == b[g]
    ensures AnsweredAt(b, after, addresses + [address]) == Answered(AnsweredAt(b, after, addresses), keys, answer)
  {
  }

  /** The batch `keys` holds the groups at `address`, and `answer` leads each of them from `b` to `after`. */
  ghost predicate Leads<V>(b: GroupBoard<V>, after: GroupBoard<V>, address: string, keys: seq<string>,
                           answer: Answer<V>)
  {
    && b.Keys <= after.Keys && NoDuplicates(keys)
    && (forall g :: g in keys <==> g in b && b[g].Mapped? && AddressOf(b[g].at) == address)
    && (forall g | g in keys :: after[g] == AfterAnswer(g, b[g], answer))
  }

  lemma CallPhaseOf<V>(b: GroupBoard<V>, g: string, n: nat, world: World<V>)
    requires g in b && b[g].Mapped?
    ensures var keys := BatchAt(b, AddressOf(b[g].at));
            && keys != [] && keys[0] in b && b[keys[0]].Mapped?
            && CallPhase(b, n, world)[g] == AfterAnswer(g, b[g], world.call(n, b[keys[0]].at, keys))
  {
    var keys := BatchAt(b, AddressOf(b[g].at));
    assert g in keys;
    assert keys[0] in GroupsAt(b, AddressOf(b[g].at));
  }

  lemma BatchLeads<V>(b: GroupBoard<V>, address: string, n: nat, world: World<V>, e: Endpoint)
    requires var keys := BatchAt(b, address); keys != [] && keys[0] in b && b[keys[0]] == Mapped(e)
    ensures Leads(b, CallPhase(b, n, world), address, BatchAt(b, address), world.call(n, e, BatchAt(b, address)))
  {
    var keys, after := BatchAt(b, address), CallPhase(b, n, world);
    forall g | g in keys
      ensures g in b && b[g].Mapped? && AddressOf(b[g].at) == address
      ensures after[g] == AfterAnswer(g, b[g], world.call(n, e, keys))
    {
      assert g in GroupsAt(b, address);
      CallPhaseOf(b, g, n, world);
    }
  }

  lemma AtIsBatch<V>(c: Collections<V>, b: GroupBoard<V>, address: string)
    requires Holds(c, b)
    ensures At(c.mapped, address) == BatchAt(b, address)
  {
    assert (set g | g in c.mapped && AddressOf(c.mapped[g]) == address) == GroupsAt(b, address);
  }

  lemma BatchIsSent<V>(c: Collections<V>, b: GroupBoard<V>, batch: (Endpoint, seq<string>), address: string)
    requires Holds(c, b) && IsBatch(batch, c.mapped, address)
    ensures batch.1 == BatchAt(b, address) && batch.1 != [] && batch.1[0] in b && b[batch.1[0]] == Mapped(batch.0)
  {
    AtIsBatch(c, b, address);
  }

  lemma AllAnswered<V>(c: Collections<V>, b: GroupBoard<V>, after: GroupBoard<V>, batches: Batches)
    requires Holds(c, b) && Batched(batches, c.mapped) && b.Keys == after.Keys
    requires forall g | g in b && !b[g].Mapped? :: after[g] == b[g]
    ensures AnsweredAt(b, after, SortedNames(batches.Keys)) == after
  {
    forall g | g in b && b[g].Mapped? ensures AddressOf(b[g].at) in batches {
      assert g in c.mapped;
    }
  }

  method SendBatches<V>(start: Collections<V>, batches: Batches, n: nat, world: World<V>,
                        ghost b: GroupBoard<V>, ghost after: GroupBoard<V>)
    returns (c: Collections<V>)
    requires Holds(start, b) && b.Keys <= after.Keys
    requires forall address | address in batches ::
               Leads(b, after, address, batches[address].1, world.call(n, batches[address].0, batches[address].1))
    ensures Holds(c, AnsweredAt(b, after, SortedNames(batches.Keys)))
  {
    var addresses := SortedNames(batches.Keys);
    c := start;
    ghost var board := b;
    assert board == AnsweredAt(b, after, []);
    for i := 0 to |addresses|
      invariant board == AnsweredAt(b, after, addresses[..i]) && Holds(c, board)
    {
      var (endpoint, keys) := batches[addresses[i]];
      var answer := world.call(n, endpoint, keys);
      assert Leads(b, after, addresses[i], keys, answer);
      AnswerNext(b, after, addresses[..i], addresses[i], keys, answer);
      assert addresses[..i + 1] == addresses[..i] + [addresses[i]];
      c := ApplyAnswer(c, keys, answer, board);
      board := Answered(board, keys, answer);
    }
    assert addresses[..|addresses|] == addresses;
  }

  /** Sends each batch and applies its answer. */
  method CallBatches<V>(start: Collections<V>, n: nat, world: World<V>, ghost b: GroupBoard<V>)
    returns (c: Collections<V>)
    requires Holds(start, b)
    ensures Holds(c, CallPhase(b, n, world))
  {
    var batches := GroupByCoordinator(start.mapped);
    ghost var after := CallPhase(b, n, world);
    forall address | address in batches
      ensures Leads(b, after, address, batches[address].1, world.call(n, batches[address].0, batches[address].1))
    {
      assert IsBatch(batches[address], start.mapped, address);
      BatchIsSent(start, b, batches[address], address);
      BatchLeads(b, address, n, world, batches[address].0);
    }
    c := SendBatches(start, batches, n, world, b, after);
    AllAnswered(start, b, after, batches);
  }

  /** Looks up every unmapped group, or gives `None` when the deadline passes first. */
  method LookUp<V>(start: Collections<V>, n: nat, world: World<V>, ghost b: GroupBoard<V>)
    returns (c: Option<Collections<V>>)
    requires Holds(start, b)
    ensures c.None? <==> LookupPhase(b, n, world).None?
    ensures c.Some? ==> Holds(c.value, LookupPhase(b, n, world).value)
  {
    HoldsIsPartition(start, b);
    if start.unmapped == {} {
      return Some(start);
    }
    var keys := SortedNames(start.unmapped);
    var found := world.find(n, keys);
    match found {
      case None => return None;
      case Some(oracle) =>
        var lookups := FindCoordinators(keys, oracle);
        OneLookupPerKey(keys, oracle);
        TakenHolds(start, b, keys);
        var placed := PlaceLookups(keys, lookups, start.(unmapped := {}), b);
        return Some(placed);
    }
  }

  lemma TakenHolds<V>(c: Collections<V>, b: GroupBoard<V>, keys: seq<string>)
    requires Holds(c, b) && forall g :: g in keys <==> g in c.unmapped
    ensures Holds(c.(unmapped := {}), Without(b, keys))
  {
  }

  method InsertAll<V>(start: map<string, GroupResult<V>>, keys: seq<string>, result: GroupResult<V>)
    returns (out: map<string, GroupResult<V>>)
    ensures forall g :: g in out <==> g in start || g in keys
    ensures forall g | g in out :: out[g] == if g in keys then result else start[g]
  {
    out := start;
    for i := 0 to |keys|
      invariant forall g :: g in out <==> g in start || g in keys[..i]
      invariant forall g | g in out :: out[g] == if g in keys[..i] then result else start[g]
    {
      out := out[keys[i] := result];
      assert keys[..i + 1] == keys[..i] + [keys[i]];
    }
    assert keys[..|keys|] == keys;
  }

  /** Every group that is still pending times out. */
  method TimeOutPending<V>(c: Collections<V>, attempts: nat, ghost e: Ended<GroupBoard<V>>)
    returns (out: map<string, GroupResult<V>>)
    requires Holds(c, e.state) && e.attempts == attempts
    ensures out == Finish(e)
  {
    var error := TimeoutError(attempts);
    var mapped, unmapped := SortedNames(c.mapped.Keys), SortedNames(c.unmapped);
    out := InsertAll(c.out, mapped + unmapped, Err(error));
    FinishFills(c, e, mapped + unmapped, out);
  }

  lemma FinishFills<V>(c: Collections<V>, e: Ended<GroupBoard<V>>, keys: seq<string>, out: map<string, GroupResult<V>>)
    requires Holds(c, e.state) && forall g :: g in keys <==> g in c.mapped || g in c.unmapped
    requires forall g :: g in out <==> g in c.out || g in keys
    requires forall g | g in out :: out[g] == if g in keys then Err(TimeoutError(e.attempts)) else c.out[g]
    ensures out == Finish(e)
  {
    assert out.Keys == e.state.Keys;
  }

  /** One round over the collections: `None` when the deadline passes during its lookup. */
  method RunRound<V>(start: Collections<V>, n: nat, world: World<V>, ghost loop: Loop<GroupBoard<V>>,
                     ghost b: GroupBoard<V>)
    returns (c: Option<Collections<V>>, ghost looked: GroupBoard<V>)
    requires Holds(start, b) && loop == GroupLoop(world)
    ensures c.None? ==> loop.lookup(n, b).None?
    ensures c.Some? ==> loop.lookup(n, b) == Some(looked) && Holds(c.value, loop.call(n, looked))
    ensures c.Some? ==> loop.call(n, looked).Keys == b.Keys
  {
    looked := b;
    var found := LookUp(start, n, world, b);
    if found.None? {
      return None, looked;
    }
    looked := LookupPhase(b, n, world).value;
    var called := CallBatches(found.value, n, world, looked);
    GroupRoundIsSteady(Round(b, looked, CallPhase(looked, n, world)), n, world);
    return Some(called), looked;
  }

  lemma CompleteIsEmpty<V>(c: Collections<V>, b: GroupBoard<V>, loop: Loop<GroupBoard<V>>, world: World<V>)
    requires Holds(c, b) && loop == GroupLoop(world)
    ensures loop.complete(b) <==> c.unmapped == {} && c.mapped == map[]
    ensures c.Disjoint() && c.All() == b.Keys
    ensures loop.beforeBackoff == world.beforeBackoff && loop.afterBackoff == world.afterBackoff
  {
    HoldsIsPartition(c, b);
  }

  /** The proof state of the loop: the board of the collections, the rounds so far, and every loop head. */
  datatype Track<V> = Track(b: GroupBoard<V>, rounds: seq<Round<GroupBoard<V>>>, heads: seq<Collections<V>>)

  ghost predicate HeadsHold<V>(t: Track<V>, groups: set<string>) {
    && |t.rounds| <= |t.heads|
    && (forall i | 0 <= i < |t.rounds| :: Holds(t.heads[i], t.rounds[i].before))
    && (forall head | head in t.heads :: head.Disjoint() && head.All() == groups)
  }

  lemma HeadsGrow<V>(t: Track<V>, c: Collections<V>, looked: GroupBoard<V>, after: GroupBoard<V>)
    requires |t.heads| == |t.rounds| && HeadsHold(t, t.b.Keys) && Holds(c, t.b) && c.Disjoint() && c.All() == t.b.Keys
    ensures HeadsHold(Track(t.b, t.rounds, t.heads + [c]), t.b.Keys)
    ensures HeadsHold(Track(after, t.rounds + [Round(t.b, looked, after)], t.heads + [c]), t.b.Keys)
  {
  }

  /** Runs one iteration of the loop. The run goes on from the new board unless the loop stops. */
  method Iterate<V>(start: Collections<V>, deadline: RetryDeadline, n: nat, world: World<V>,
                    ghost loop: Loop<GroupBoard<V>>, ghost t: Track<V>)
    returns (c: Collections<V>, stop: bool, ghost u: Track<V>)
    requires loop == GroupLoop(world) && Holds(start, t.b) && !loop.complete(t.b)
    requires |t.heads| == |t.rounds| && HeadsHold(t, t.b.Keys)
    ensures Holds(c, u.b) && u.b.Keys == t.b.Keys && HeadsHold(u, t.b.Keys)
    ensures stop ==> Continued(t.rounds, Drive(t.b, n, deadline, loop)) == Ended(u.b, n + 1, u.rounds)
    ensures !stop ==> |u.heads| == |u.rounds| && deadline.retries < deadline.maxRetries
    ensures !stop ==> Continued(t.rounds, Drive(t.b, n, deadline, loop)) ==
                      Continued(u.rounds, Drive(u.b, n + 1, deadline.AfterBackoff(), loop))
  {
    u := Track(t.b, t.rounds, t.heads + [start]);
    CompleteIsEmpty(start, t.b, loop, world);
    var next, looked := RunRound(start, n, world, loop, t.b);
    HeadsGrow(t, start, looked, loop.call(n, looked));
    if next.None? {
      DriveStops(t.rounds, t.b, n, deadline, loop);
      return start, true, u;
    }
    c := next.value;
    DriveGoesOn(t.rounds, t.b, n, deadline, loop, looked);
    ghost var after := loop.call(n, looked);
    u := Track(after, t.rounds + [Round(t.b, looked, after)], t.heads + [start]);
    CompleteIsEmpty(c, after, loop, world);
    stop := (c.unmapped == {} && c.mapped == map[]) || deadline.Exhausted(world.beforeBackoff(n));
    if !stop {
      stop := deadline.AfterBackoff().Expired(world.afterBackoff(n));
    }
  }

  /** The batched group call. Its result is the result of the run of its groups, and at every loop head the
      three collections are pairwise disjoint and hold exactly the requested groups. */
  method CallGroupCoordinators<V>(groups: seq<string>, start: RetryDeadline, world: World<V>)
    returns (out: map<string, GroupResult<V>>, ghost heads: seq<Collections<V>>)
    ensures out == Finish(Run(groups, start, world)) && out.Keys == Elements(groups)
    ensures forall head | head in heads :: head.Disjoint() && head.All() == Elements(groups)
    ensures |Run(groups, start, world).rounds| <= |heads|
    ensures forall i | 0 <= i < |Run(groups, start, world).rounds| ::
              Holds(heads[i], Run(groups, start, world).rounds[i].before)
  {
    var c := Collections(Elements(groups), map[], map[]);
    var deadline, attempts, stop := start, 0, false;
    ghost var t := Track(StartBoard<V>(groups), [], []);
    ghost var loop := GroupLoop(world);
    ghost var ended := Run(groups, start, world);
    while !(c.unmapped == {} && c.mapped == map[])
      invariant Holds(c, t.b) && t.b.Keys == Elements(groups)
      invariant |t.heads| == |t.rounds| && HeadsHold(t, t.b.Keys)
      invariant ended == Continued(t.rounds, Drive(t.b, attempts, deadline, loop))
      decreases deadline.maxRetries - deadline.retries
    {
      CompleteIsEmpty(c, t.b, loop, world);
      c, stop, t := Iterate(c, deadline, attempts, world, loop, t);
      attempts := attempts + 1;
      if stop {
        break;
      }
      deadline := deadline.AfterBackoff();
    }
    CompleteIsEmpty(c, t.b, loop, world);
    DriveStops(t.rounds, t.b, attempts, deadline, loop);
    out := TimeOutPending(c, attempts, ended);
    heads := t.heads;
    OneResultPerGroup(groups, start, world);
  }
}
