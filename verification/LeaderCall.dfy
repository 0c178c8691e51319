/** The leader-routed call as the client runs it, over `pending`, `retry`, the batches by leader, and `out`. */
module LeaderCall {
  import opened Base
  import opened Order
  import opened Rounds
  import opened Boards
  import opened LeaderDriver

  type Finals<!V> = PartitionKey -> Option<Result<V, KafkaError>>

  /** `out` is `start` with a result for each key that `finals` gives one. */
  ghost predicate Adds<V>(start: PartitionResults<V>, out: PartitionResults<V>, finals: Finals<V>) {
    && (forall k :: k in out <==> k in start || finals(k).Some?)
    && (forall k | k in out :: out[k] == if finals(k).Some? then finals(k).value else start[k])
  }

  /** Inserts the result of each of `keys` that has one. */
  method InsertFinals<V>(start: PartitionResults<V>, keys: seq<PartitionKey>, finals: Finals<V>)
    returns (out: PartitionResults<V>)
    requires forall k | finals(k).Some? :: k in keys
    ensures Adds(start, out, finals)
  {
    out := start;
    for i := 0 to |keys|
      invariant forall k :: k in out <==> k in start || (k in keys[..i] && finals(k).Some?)
      invariant forall k | k in out :: out[k] == if k in keys[..i] && finals(k).Some? then finals(k).value else start[k]
    {
      if finals(keys[i]).Some? {
        out := out[keys[i] := finals(keys[i]).value];
      }
      assert keys[..i + 1] == keys[..i] + [keys[i]];
    }
    assert keys[..|keys|] == keys;
  }

  /** Gives every key that `results` omits an error and drops the entries that nobody asked for. */
  method CompleteResults<V>(keys: seq<PartitionKey>, results: PartitionResults<V>) returns (out: PartitionResults<V>)
    ensures out == map k | k in keys :: Completed(k, results)
  {
    out := map k | k in results && k in keys :: results[k];
    for i := 0 to |keys|
      invariant forall k :: k in out <==> k in keys && (k in results || k in keys[..i])
      invariant forall k | k in out :: out[k] == Completed(k, results)
    {
      if keys[i] !in out {
        out := out[keys[i] := Err(KafkaError(UNKNOWN_SERVER_ERROR, Own(NotAnswered)))];
      }
      assert keys[..i + 1] == keys[..i] + [keys[i]];
    }
    assert keys[..|keys|] == keys;
  }

  /** The results that one answered batch settles. */
  function SettledBy<V>(batch: seq<PartitionKey>, answer: LeaderAnswer<V>, retryCode: int -> bool): Finals<V> {
    (k: PartitionKey) =>
      if k in batch && AfterAnswer(k, answer, retryCode).Settled? then Some(AfterAnswer(k, answer, retryCode).result)
      else None
  }

  method RetryInOrder<V>(order: seq<PartitionKey>, completed: PartitionResults<V>, retryCode: int -> bool)
    returns (retry: seq<PartitionKey>)
    requires forall k | k in order :: k in completed
    ensures retry == Filter((k: PartitionKey) => k in completed && Retries(completed[k], retryCode), order)
  {
    var retries := (k: PartitionKey) => k in completed && Retries(completed[k], retryCode);
    retry := [];
    for i := 0 to |order|
      invariant retry == Filter(retries, order[..i])
    {
      assert order[..i + 1][..i] == order[..i];
      if Retries(completed[order[i]], retryCode) {
        retry := retry + [order[i]];
      }
    }
    assert order[..|order|] == order;
  }

  lemma {:induction false} FilterAscends(p: PartitionKey -> bool, q: seq<PartitionKey>)
    requires Ascends(KeyLess, q)
    ensures Ascends(KeyLess, Filter(p, q))
  {
    if q != [] {
      var front, last := q[..|q| - 1], q[|q| - 1];
      FilterAscends(p, front);
      var rest := Filter(p, front);
      forall i | 0 <= i < |rest| ensures KeyLess(rest[i], last) {
        assert rest[i] in front;
      }
    }
  }

  lemma FilterOfSorted(p: PartitionKey -> bool, all: set<PartitionKey>, some: set<PartitionKey>)
    requires forall k :: k in some <==> k in all && p(k)
    ensures Filter(p, SortedKeys(all)) == SortedKeys(some)
  {
    KeysAreOrdered();
    SortedKeysAscend(all);
    SortedKeysAscend(some);
    FilterAscends(p, SortedKeys(all));
    AscendingIsUnique(KeyLess, Filter(p, SortedKeys(all)), SortedKeys(some));
  }

  /** The partitions of a delivered answer that go back to the lookup, walked in key order. */
  method RetriesOfResults<V>(batch: seq<PartitionKey>, results: PartitionResults<V>, retryCode: int -> bool)
    returns (retry: seq<PartitionKey>, completed: PartitionResults<V>)
    ensures retry == RetriesOf(batch, Some(Ok(results)), retryCode)
    ensures completed == map k | k in batch :: Completed(k, results)
  {
    completed := CompleteResults(batch, results);
    retry := RetryInOrder(SortedKeys(completed.Keys), completed, retryCode);
    FilterOfSorted((k: PartitionKey) => k in completed && Retries(completed[k], retryCode), completed.Keys,
                   set k | k in batch && Retries(Completed(k, results), retryCode));
  }

  /** The same result for each of `keys`. */
  function FailedWith<V>(keys: seq<PartitionKey>, error: AdminError): Finals<V> {
    (k: PartitionKey) => if k in keys then Some(Err(CallError(error))) else None
  }

  /** The completed results that do not go back to the lookup. */
  function FinalOf<V>(completed: PartitionResults<V>, retryCode: int -> bool): Finals<V> {
    (k: PartitionKey) => if k in completed && !Retries(completed[k], retryCode) then Some(completed[k]) else None
  }

  lemma FinalIsSettled<V>(batch: seq<PartitionKey>, results: PartitionResults<V>, retryCode: int -> bool,
                          completed: PartitionResults<V>, k: PartitionKey)
    requires completed == map k | k in batch :: Completed(k, results)
    ensures FinalOf(completed, retryCode)(k) == SettledBy(batch, Some(Ok(results)), retryCode)(k)
  {
  }

  lemma AddsSame<V>(start: PartitionResults<V>, out: PartitionResults<V>, f: Finals<V>, g: Finals<V>)
    requires Adds(start, out, f) && forall k :: f(k) == g(k)
    ensures Adds(start, out, g)
  {
  }

  method ApplyResults<V>(batch: seq<PartitionKey>, results: PartitionResults<V>, retryCode: int -> bool,
                         start: PartitionResults<V>)
    returns (retry: seq<PartitionKey>, out: PartitionResults<V>)
    ensures retry == RetriesOf(batch, Some(Ok(results)), retryCode)
    ensures Adds(start, out, SettledBy(batch, Some(Ok(results)), retryCode))
  {
    var completed;
    retry, completed := RetriesOfResults(batch, results, retryCode);
    out := InsertFinals(start, batch, FinalOf(completed, retryCode));
    forall k ensures FinalOf(completed, retryCode)(k) == SettledBy(batch, Some(Ok(results)), retryCode)(k) {
      FinalIsSettled(batch, results, retryCode, completed, k);
    }
    AddsSame(start, out, FinalOf(completed, retryCode), SettledBy(batch, Some(Ok(results)), retryCode));
  }

  /** Applies the answer of one leader to its batch. */
  method ApplyAnswer<V>(batch: seq<PartitionKey>, answer: LeaderAnswer<V>, retryCode: int -> bool,
                        start: PartitionResults<V>)
    returns (retry: seq<PartitionKey>, out: PartitionResults<V>)
    ensures retry == RetriesOf(batch, answer, retryCode)
    ensures Adds(start, out, SettledBy(batch, answer, retryCode))
  {
    match answer {
      case None =>
        retry, out := batch, start;
      case Some(Err(error)) =>
        if IsConnectionFailure(error) {
          retry, out := batch, start;
        } else {
          retry := [];
          out := InsertFinals(start, batch, FailedWith(batch, error));
          AddsSame(start, out, FailedWith(batch, error), SettledBy(batch, answer, retryCode));
        }
      case Some(Ok(results)) =>
        retry, out := ApplyResults(batch, results, retryCode, start);
    }
  }

  // ----- the batches of a round -----

  type Batches = map<string, seq<PartitionKey>>

  function AddToBatch(batches: Batches, address: string, k: PartitionKey): Batches {
    batches[address := (if address in batches then batches[address] else []) + [k]]
  }

  function LedFrom(metadata: Metadata, address: string): PartitionKey -> bool {
    (k: PartitionKey) => LookupLeader(k, metadata) == Leader(address)
  }

  function Leaderless(metadata: Metadata): PartitionKey -> bool {
    (k: PartitionKey) => LookupLeader(k, metadata) == LeaderAgain
  }

  function FailedIn<V>(pending: seq<PartitionKey>, metadata: Metadata): Finals<V> {
    (k: PartitionKey) =>
      if k in pending && LookupLeader(k, metadata).LeaderFailed? then Some(Err(LookupLeader(k, metadata).error))
      else None
  }

  /** Each batch lists the partitions that its address leads, and `retry` those without a leader. */
  ghost predicate Sorted(pending: seq<PartitionKey>, metadata: Metadata, batches: Batches, retry: seq<PartitionKey>) {
    && retry == Filter(Leaderless(metadata), pending)
    && (forall address | address in batches ::
          batches[address] == Filter(LedFrom(metadata, address), pending) && batches[address] != [])
    && (forall k | k in pending && LookupLeader(k, metadata).Leader? :: LookupLeader(k, metadata).address in batches)
  }

  /** Where one partition goes. */
  function SortedWith(k: PartitionKey, lookup: LeaderLookup, batches: Batches, retry: seq<PartitionKey>)
    : (Batches, seq<PartitionKey>)
  {
    match lookup
    case Leader(address) => (AddToBatch(batches, address, k), retry)
    case LeaderAgain => (batches, retry + [k])
    case LeaderFailed(_) => (batches, retry)
  }

  lemma SortNext(pending: seq<PartitionKey>, k: PartitionKey, metadata: Metadata, batches: Batches,
                 retry: seq<PartitionKey>)
    requires Sorted(pending, metadata, batches, retry)
    ensures var next := SortedWith(k, LookupLeader(k, metadata), batches, retry);
            Sorted(pending + [k], metadata, next.0, next.1)
  {
    assert (pending + [k])[..|pending|] == pending;
    match LookupLeader(k, metadata)
    case Leader(address) =>
      if address !in batches {
        assert forall h | h in pending :: !LedFrom(metadata, address)(h);
        FilterNone(LedFrom(metadata, address), pending);
      }
    case LeaderAgain =>
    case LeaderFailed(_) =>
  }

  lemma {:induction false} FilterNone(p: PartitionKey -> bool, q: seq<PartitionKey>)
    requires forall k | k in q :: !p(k)
    ensures Filter(p, q) == []
  {
    if q != [] { FilterNone(p, q[..|q| - 1]); }
  }

  /** The same, as the rows of the metadata say it. */
  ghost predicate SortedByRows(pending: seq<PartitionKey>, metadata: Metadata, batches: Batches,
                               retry: seq<PartitionKey>)
  {
    && (forall k :: k in retry <==> k in pending && NoLeaderYet(k, metadata))
    && (forall address, k ::
          address in batches && k in batches[address] <==> k in pending && LedBy(k, metadata, address))
  }

  lemma RetriesSayRows(pending: seq<PartitionKey>, metadata: Metadata, k: PartitionKey)
    ensures k in Filter(Leaderless(metadata), pending) <==> k in pending && NoLeaderYet(k, metadata)
  {
    LookupLeaderMeans(k, metadata, "", KafkaError(0, FromBroker(None)));
  }

  lemma BatchSaysRows(pending: seq<PartitionKey>, metadata: Metadata, batches: Batches, retry: seq<PartitionKey>,
                      address: string, k: PartitionKey)
    requires Sorted(pending, metadata, batches, retry)
    ensures address in batches && k in batches[address] <==> k in pending && LedBy(k, metadata, address)
  {
    LookupLeaderMeans(k, metadata, address, KafkaError(0, FromBroker(None)));
  }

  lemma SortedSaysRows(pending: seq<PartitionKey>, metadata: Metadata, batches: Batches, retry: seq<PartitionKey>)
    requires Sorted(pending, metadata, batches, retry)
    ensures SortedByRows(pending, metadata, batches, retry)
  {
    forall k ensures k in retry <==> k in pending && NoLeaderYet(k, metadata) { RetriesSayRows(pending, metadata, k); }
    forall address, k
      ensures address in batches && k in batches[address] <==> k in pending && LedBy(k, metadata, address)
    {
      BatchSaysRows(pending, metadata, batches, retry, address, k);
    }
  }

  /** Sorts the pending partitions by what the metadata says about their leader. */
  method SortByLeader(pending: seq<PartitionKey>, metadata: Metadata)
    returns (batches: Batches, retry: seq<PartitionKey>)
    ensures Sorted(pending, metadata, batches, retry) && SortedByRows(pending, metadata, batches, retry)
  {
    batches, retry := map[], [];
    for i := 0 to |pending|
      invariant Sorted(pending[..i], metadata, batches, retry)
    {
      assert pending[..i + 1] == pending[..i] + [pending[i]];
      SortNext(pending[..i], pending[i], metadata, batches, retry);
      var next := SortedWith(pending[i], LookupLeader(pending[i], metadata), batches, retry);
      batches, retry := next.0, next.1;
    }
    assert pending[..|pending|] == pending;
    SortedSaysRows(pending, metadata, batches, retry);
  }

  lemma {:induction false} FilterSame(p: PartitionKey -> bool, r: PartitionKey -> bool, q: seq<PartitionKey>)
    requires forall k | k in q :: p(k) == r(k)
    ensures Filter(p, q) == Filter(r, q)
  {
    if q != [] { FilterSame(p, r, q[..|q| - 1]); }
  }

  lemma LookedUpAt<V>(q: Queue<V>, metadata: Metadata, l: Queue<V>, k: PartitionKey)
    requires Sound(q) && l == Queue(q.order, LookedUp(q.board, Ok(metadata))) && k in q.order
    ensures k in l.board && l.board[k] == FromLeader(LookupLeader(k, metadata))
  {
  }

  lemma WaitingIsLeaderless<V>(q: Queue<V>, metadata: Metadata, l: Queue<V>)
    requires Sound(q) && l == Queue(q.order, LookedUp(q.board, Ok(metadata)))
    ensures Filter(Leaderless(metadata), q.order) == WaitingIn(l)
  {
    var waits := (k: PartitionKey) => k in l.board && l.board[k].Unmapped?;
    forall k | k in q.order ensures Leaderless(metadata)(k) == waits(k) {
      LookedUpAt(q, metadata, l, k);
    }
    FilterSame(Leaderless(metadata), waits, q.order);
  }

  lemma BatchIsLed<V>(q: Queue<V>, metadata: Metadata, l: Queue<V>, address: string)
    requires Sound(q) && l == Queue(q.order, LookedUp(q.board, Ok(metadata)))
    ensures Filter(LedFrom(metadata, address), q.order) == BatchAt(l, address)
  {
    var led := (k: PartitionKey) => k in l.board && l.board[k] == Mapped(address);
    forall k | k in q.order ensures LedFrom(metadata, address)(k) == led(k) {
      LookedUpAt(q, metadata, l, k);
    }
    FilterSame(LedFrom(metadata, address), led, q.order);
  }

  lemma AddressesAreLed<V>(q: Queue<V>, metadata: Metadata, l: Queue<V>, address: string)
    requires Sound(q) && l == Queue(q.order, LookedUp(q.board, Ok(metadata)))
    ensures address in Addresses(l) <==> exists k | k in q.order :: LookupLeader(k, metadata) == Leader(address)
  {
    if k :| k in q.order && LookupLeader(k, metadata) == Leader(address) {
      LookedUpAt(q, metadata, l, k);
      assert k in l.order;
    }
    if address in Addresses(l) {
      var k :| k in l.order && k in l.board && l.board[k].Mapped? && l.board[k].at == address;
      LookedUpAt(q, metadata, l, k);
    }
  }

  /** Sorting by leader computes the batches of the looked-up queue. */
  lemma SortedIsLookedUp<V>(q: Queue<V>, metadata: Metadata, l: Queue<V>, batches: Batches, retry: seq<PartitionKey>)
    requires Sound(q) && l == Queue(q.order, LookedUp(q.board, Ok(metadata)))
    requires Sorted(q.order, metadata, batches, retry)
    ensures retry == WaitingIn(l)
    ensures batches.Keys == Addresses(l)
    ensures forall address | address in batches :: batches[address] == BatchAt(l, address)
  {
    WaitingIsLeaderless(q, metadata, l);
    forall address | address in batches ensures batches[address] == BatchAt(l, address) {
      BatchIsLed(q, metadata, l, address);
    }
    forall address ensures address in batches <==> address in Addresses(l) {
      AddressesAreLed(q, metadata, l, address);
      if address in batches {
        assert batches[address][0] in batches[address];
      }
    }
  }

  /** `out` holds the results of the settled partitions of `b`. */
  ghost predicate Holds<V>(out: PartitionResults<V>, b: LeaderBoard<V>) {
    && (forall k :: k in out <==> k in b && b[k].Settled?)
    && (forall k | k in out :: out[k] == b[k].result)
  }

  /** The board on the way from `b` to `after`, when the leaders at `addresses` have been heard. */
  ghost function HeardFrom<V>(b: LeaderBoard<V>, after: LeaderBoard<V>, addresses: seq<string>): LeaderBoard<V>
    requires b.Keys <= after.Keys
  {
    map k | k in b :: if b[k].Mapped? && b[k].at in addresses then after[k] else b[k]
  }

  lemma HeardNobody<V>(b: LeaderBoard<V>, after: LeaderBoard<V>)
    requires b.Keys <= after.Keys
    ensures HeardFrom(b, after, []) == b
  {
  }

  lemma HearNext<V>(b: LeaderBoard<V>, after: LeaderBoard<V>, addresses: seq<string>, address: string,
                    batch: seq<PartitionKey>, answer: LeaderAnswer<V>, retryCode: int -> bool,
                    start: PartitionResults<V>, out: PartitionResults<V>)
    requires b.Keys <= after.Keys && address !in addresses
    requires forall k :: k in batch <==> k in b && b[k] == Mapped(address)
    requires forall k | k in batch :: after[k] == AfterAnswer(k, answer, retryCode)
    requires Holds(start, HeardFrom(b, after, addresses)) && Adds(start, out, SettledBy(batch, answer, retryCode))
    ensures Holds(out, HeardFrom(b, after, addresses + [address]))
  {
  }

  lemma AllHeard<V>(l: Queue<V>, after: LeaderBoard<V>)
    requires Listed(l) && after.Keys == l.board.Keys
    requires forall k | k in l.board && !l.board[k].Mapped? :: after[k] == l.board[k]
    ensures HeardFrom(l.board, after, SortedNames(Addresses(l))) == after
  {
    forall k | k in l.board && l.board[k].Mapped? ensures l.board[k].at in SortedNames(Addresses(l)) {
      AddressesCover(l, k);
    }
  }

  ghost predicate BatchLeads<V>(b: LeaderBoard<V>, after: LeaderBoard<V>, address: string, batch: seq<PartitionKey>,
                                answer: LeaderAnswer<V>, retryCode: int -> bool)
  {
    && b.Keys <= after.Keys
    && (forall k :: k in batch <==> k in b && b[k] == Mapped(address))
    && (forall k | k in batch :: after[k] == AfterAnswer(k, answer, retryCode))
  }

  lemma CallBoardLeads<V>(l: Queue<V>, address: string, n: nat, world: World<V>)
    requires Listed(l)
    ensures BatchLeads(l.board, CallBoard(l, n, world), address, BatchAt(l, address), AnswerAt(l, address, n, world),
                       world.retryCode)
  {
    BatchHolds(l, address);
  }

  lemma JoinedNext(waiting: seq<PartitionKey>, addresses: seq<string>, address: string,
                   back: string -> seq<PartitionKey>)
    ensures waiting + Joined(addresses + [address], back) == (waiting + Joined(addresses, back)) + back(address)
  {
    assert (addresses + [address])[..|addresses|] == addresses;
    assert waiting + (Joined(addresses, back) + back(address)) == (waiting + Joined(addresses, back)) + back(address);
  }

  /** Calls one leader and applies its answer. */
  method HearLeader<V>(address: string, batches: Batches, n: nat, world: World<V>,
                       soFar: seq<PartitionKey>, start: PartitionResults<V>, ghost board: LeaderBoard<V>,
                       ghost b: LeaderBoard<V>, ghost after: LeaderBoard<V>, ghost addresses: seq<string>,
                       ghost back: string -> seq<PartitionKey>, ghost waiting: seq<PartitionKey>)
    returns (retry: seq<PartitionKey>, out: PartitionResults<V>)
    requires b.Keys <= after.Keys && address !in addresses && board == HeardFrom(b, after, addresses) &&
             Holds(start, board)
    requires address in batches && Leading(batches, b, after, n, world, back, address)
    requires soFar == waiting + Joined(addresses, back)
    ensures retry == waiting + Joined(addresses + [address], back)
    ensures Holds(out, HeardFrom(b, after, addresses + [address]))
  {
    var batch := batches[address];
    var answer := world.call(n, address, batch);
    var more;
    more, out := ApplyAnswer(batch, answer, world.retryCode, start);
    HearNext(b, after, addresses, address, batch, answer, world.retryCode, start, out);
    JoinedNext(waiting, addresses, address, back);
    retry := soFar + more;
  }

  ghost predicate Leading<V>(batches: Batches, b: LeaderBoard<V>, after: LeaderBoard<V>, n: nat, world: World<V>,
                             back: string -> seq<PartitionKey>, address: string)
    requires address in batches
  {
    var answer := world.call(n, address, batches[address]);
    BatchLeads(b, after, address, batches[address], answer, world.retryCode) &&
    back(address) == RetriesOf(batches[address], answer, world.retryCode)
  }

  /** Calls the leaders in their order and applies their answers. */
  method CallEach<V>(addresses: seq<string>, batches: Batches, waiting: seq<PartitionKey>, start: PartitionResults<V>,
                     n: nat, world: World<V>, ghost b: LeaderBoard<V>, ghost after: LeaderBoard<V>,
                     ghost back: string -> seq<PartitionKey>)
    returns (retry: seq<PartitionKey>, out: PartitionResults<V>)
    requires Holds(start, b) && b.Keys <= after.Keys && NoDuplicates(addresses)
    requires forall i | 0 <= i < |addresses| ::
               addresses[i] in batches && Leading(batches, b, after, n, world, back, addresses[i])
    ensures retry == waiting + Joined(addresses, back)
    ensures Holds(out, HeardFrom(b, after, addresses))
  {
    retry, out := waiting, start;
    HeardNobody(b, after);
    ghost var board := b;
    for i := 0 to |addresses|
      invariant retry == waiting + Joined(addresses[..i], back)
      invariant board == HeardFrom(b, after, addresses[..i]) && Holds(out, board)
    {
      retry, out := HearLeader(addresses[i], batches, n, world, retry, out, board, b, after, addresses[..i], back,
                               waiting);
      assert addresses[..i + 1] == addresses[..i] + [addresses[i]];
      board := HeardFrom(b, after, addresses[..i + 1]);
    }
    assert addresses[..|addresses|] == addresses;
  }

  /** Calls every leader and applies its answer. */
  method CallLeaders<V>(batches: Batches, waiting: seq<PartitionKey>, start: PartitionResults<V>, n: nat,
                        world: World<V>,
                        ghost b: LeaderBoard<V>, ghost after: LeaderBoard<V>, ghost back: string -> seq<PartitionKey>)
    returns (retry: seq<PartitionKey>, out: PartitionResults<V>)
    requires Holds(start, b) && b.Keys <= after.Keys
    requires forall address | address in batches :: Leading(batches, b, after, n, world, back, address)
    ensures retry == waiting + Joined(SortedNames(batches.Keys), back)
    ensures Holds(out, HeardFrom(b, after, SortedNames(batches.Keys)))
  {
    var addresses := SortedNames(batches.Keys);
    assert forall i | 0 <= i < |addresses| :: addresses[i] in addresses;
    retry, out := CallEach(addresses, batches, waiting, start, n, world, b, after, back);
  }

  lemma FailureStays<V>(start: PartitionResults<V>, error: AdminError, q: Queue<V>, b: LeaderBoard<V>)
    requires Sound(q) && Holds(start, q.board) && b == LookedUp(q.board, Err(error)) && IsConnectionFailure(error)
    ensures Holds(start, b)
  {
  }

  lemma FailureSettles<V>(start: PartitionResults<V>, out: PartitionResults<V>, error: AdminError, q: Queue<V>,
                          b: LeaderBoard<V>)
    requires Sound(q) && Holds(start, q.board) && b == LookedUp(q.board, Err(error)) && !IsConnectionFailure(error)
    requires Adds(start, out, FailedWith(q.order, error))
    ensures Holds(out, b)
  {
  }

  /** The rest of a round whose metadata request failed. */
  method AfterFailedMetadata<V>(pending: seq<PartitionKey>, start: PartitionResults<V>, error: AdminError,
                                ghost q: Queue<V>, ghost b: LeaderBoard<V>)
    returns (retry: seq<PartitionKey>, out: PartitionResults<V>)
    requires pending == q.order && Sound(q) && Holds(start, q.board) && b == LookedUp(q.board, Err(error))
    ensures retry == if IsConnectionFailure(error) then q.order else []
    ensures Holds(out, b)
  {
    if IsConnectionFailure(error) {
      FailureStays(start, error, q, b);
      return pending, start;
    }
    out := InsertFinals(start, pending, FailedWith(pending, error));
    FailureSettles(start, out, error, q, b);
    return [], out;
  }

  /** The rest of a round with its metadata. */
  method AfterMetadataOf<V>(pending: seq<PartitionKey>, start: PartitionResults<V>, metadata: Metadata, n: nat,
                            world: World<V>,
                            ghost q: Queue<V>, ghost l: Queue<V>)
    returns (retry: seq<PartitionKey>, out: PartitionResults<V>)
    requires pending == q.order && Sound(q) && Holds(start, q.board) &&
             l == Queue(q.order, LookedUp(q.board, Ok(metadata)))
    requires Listed(l)
    ensures retry == CallPhase(l, n, world).order && Holds(out, CallPhase(l, n, world).board)
  {
    var batches, waiting := SortByLeader(pending, metadata);
    out := InsertFinals(start, pending, FailedIn(pending, metadata));
    SortedIsLookedUp(q, metadata, l, batches, waiting);
    LookedUpHolds(q, metadata, start, out);
    retry, out := HearAll(batches, waiting, out, n, world, l);
  }

  /** One round: `None` when the deadline passes during the metadata request. */
  method RunRound<V>(pending: seq<PartitionKey>, start: PartitionResults<V>, n: nat, world: World<V>, ghost q: Queue<V>)
    returns (next: Option<(seq<PartitionKey>, PartitionResults<V>)>, ghost l: Queue<V>)
    requires pending == q.order && Sound(q) && Holds(start, q.board)
    ensures next.None? ==> LookupPhase(q, n, world).None?
    ensures next.Some? ==> LookupPhase(q, n, world) == Some(l)
    ensures next.Some? ==>
              next.value.0 == CallPhase(l, n, world).order && Holds(next.value.1, CallPhase(l, n, world).board)
  {
    l := q;
    var metadata := world.metadata(n, RequestTopics(pending));
    if metadata.None? {
      return None, l;
    }
    l := Queue(q.order, LookedUp(q.board, metadata.value));
    var retry, out;
    match metadata.value {
      case Err(error) =>
        retry, out := AfterFailedMetadata(pending, start, error, q, l.board);
        NothingToCall(q, error, n, world, l);
      case Ok(md) =>
        LookupLists(q, n, world, l);
        retry, out := AfterMetadataOf(pending, start, md, n, world, q, l);
    }
    next := Some((retry, out));
  }

  lemma LookedUpHolds<V>(q: Queue<V>, metadata: Metadata, start: PartitionResults<V>, out: PartitionResults<V>)
    requires Sound(q) && Holds(start, q.board) && Adds(start, out, FailedIn(q.order, metadata))
    ensures Holds(out, LookedUp(q.board, Ok(metadata)))
  {
  }

  method HearAll<V>(batches: Batches, waiting: seq<PartitionKey>, start: PartitionResults<V>, n: nat, world: World<V>,
                    ghost l: Queue<V>)
    returns (retry: seq<PartitionKey>, out: PartitionResults<V>)
    requires Listed(l) && Holds(start, l.board) && waiting == WaitingIn(l) && batches.Keys == Addresses(l)
    requires forall address | address in batches :: batches[address] == BatchAt(l, address)
    ensures retry == CallPhase(l, n, world).order && Holds(out, CallPhase(l, n, world).board)
  {
    ghost var after := CallBoard(l, n, world);
    forall address | address in batches
      ensures Leading(batches, l.board, after, n, world, SentBack(l, n, world), address)
    {
      CallBoardLeads(l, address, n, world);
    }
    retry, out := CallLeaders(batches, waiting, start, n, world, l.board, after, SentBack(l, n, world));
    AllHeard(l, after);
  }

  /** After a failed metadata request no partition has a leader to call. */
  lemma NothingToCall<V>(q: Queue<V>, error: AdminError, n: nat, world: World<V>, l: Queue<V>)
    requires Sound(q) && l == Queue(q.order, LookedUp(q.board, Err(error)))
    ensures CallPhase(l, n, world).order == if IsConnectionFailure(error) then q.order else []
    ensures CallPhase(l, n, world).board == l.board
  {
    assert Addresses(l) == {};
    assert SortedNames({}) == [];
    var waits := (k: PartitionKey) => k in l.board && l.board[k].Unmapped?;
    if IsConnectionFailure(error) {
      FilterAll(waits, q.order);
    } else {
      FilterNone(waits, q.order);
    }
  }

  lemma {:induction false} FilterAll(p: PartitionKey -> bool, q: seq<PartitionKey>)
    requires forall k | k in q :: p(k)
    ensures Filter(p, q) == q
  {
    if q != [] { FilterAll(p, q[..|q| - 1]); }
  }

  // ----- the whole call -----

  lemma LoopOf<V>(world: World<V>, loop: Loop<Queue<V>>, q: Queue<V>, n: nat)
    requires loop == LeaderLoop(world)
    ensures loop.complete(q) <==> q.order == []
    ensures loop.lookup(n, q) == LookupPhase(q, n, world) && loop.call(n, q) == CallPhase(q, n, world)
    ensures loop.beforeBackoff == world.beforeBackoff && loop.afterBackoff == world.afterBackoff
  {
  }

  /** Runs one iteration of the loop. The run goes on from the new queue unless the loop stops. */
  method Iterate<V>(pending: seq<PartitionKey>, start: PartitionResults<V>, deadline: RetryDeadline, n: nat,
                    world: World<V>,
                    ghost loop: Loop<Queue<V>>, ghost q: Queue<V>, ghost rounds: seq<LeaderRound<V>>)
    returns (left: seq<PartitionKey>, out: PartitionResults<V>, stop: bool, ghost r: Queue<V>,
             ghost done: seq<LeaderRound<V>>)
    requires loop == LeaderLoop(world) && pending == q.order && pending != [] && Sound(q) && Holds(start, q.board)
    ensures left == r.order && Sound(r) && Holds(out, r.board)
    ensures stop ==> Continued(rounds, Drive(q, n, deadline, loop)) == Ended(r, n + 1, done)
    ensures !stop ==> deadline.retries < deadline.maxRetries
    ensures !stop ==> Continued(rounds, Drive(q, n, deadline, loop)) ==
                      Continued(done, Drive(r, n + 1, deadline.AfterBackoff(), loop))
  {
    LoopOf(world, loop, q, n);
    var next, l := RunRound(pending, start, n, world, q);
    if next.None? {
      DriveStops(rounds, q, n, deadline, loop);
      return pending, start, true, q, rounds;
    }
    left, out := next.value.0, next.value.1;
    LoopOf(world, loop, l, n);
    DriveGoesOn(rounds, q, n, deadline, loop, l);
    LookupLists(q, n, world, l);
    CallKeepsSound(l, n, world);
    r, done := loop.call(n, l), rounds + [Round(q, l, loop.call(n, l))];
    LoopOf(world, loop, r, n);
    stop := left == [] || deadline.Exhausted(world.beforeBackoff(n));
    if !stop {
      stop := deadline.AfterBackoff().Expired(world.afterBackoff(n));
    }
  }

  lemma FinishFills<V>(e: Ended<Queue<V>>, settled: PartitionResults<V>, out: PartitionResults<V>)
    requires Sound(e.state) && Holds(settled, e.state.board)
    requires Adds(settled, out, (k: PartitionKey) =>
                    if k in e.state.order then Some(Err(TimeoutError(e.attempts))) else None)
    ensures out == Finish(e)
  {
    assert out.Keys == e.state.board.Keys;
  }

  /** The leader-routed call. Its result is the result of the run of its partitions. */
  method CallPartitionLeaders<V>(keys: seq<PartitionKey>, start: RetryDeadline, world: World<V>)
    returns (out: PartitionResults<V>)
    ensures out == Finish(Run(keys, start, world)) && out.Keys == Elements(keys)
  {
    var pending := SortedKeys(Elements(keys));
    var deadline, attempts, stop := start, 0, false;
    out := map[];
    ghost var loop, q, rounds := LeaderLoop(world), StartQueue<V>(keys), [];
    ghost var ended := Run(keys, start, world);
    StartIsSound<V>(keys);
    while pending != []
      invariant pending == q.order && Sound(q) && Holds(out, q.board)
      invariant ended == Continued(rounds, Drive(q, attempts, deadline, loop))
      decreases deadline.maxRetries - deadline.retries
    {
      pending, out, stop, q, rounds := Iterate(pending, out, deadline, attempts, world, loop, q, rounds);
      attempts := attempts + 1;
      if stop {
        break;
      }
      deadline := deadline.AfterBackoff();
    }
    LoopOf(world, loop, q, attempts);
    DriveStops(rounds, q, attempts, deadline, loop);
    ghost var settled := out;
    var error := TimeoutError(attempts);
    out := InsertFinals(out, pending, (k: PartitionKey) => if k in pending then Some(Err(error)) else None);
    FinishFills(ended, settled, out);
    KeysAreConserved(keys, start, world, ended);
  }
}
