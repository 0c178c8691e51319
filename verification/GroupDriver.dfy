/** The batched group call, seen from each group: an automaton that waits for a coordinator, is sent to
    it, and settles. The theorems are about every run, for every answer and every clock. */
module GroupDriver {
  import opened Base
  import opened Order
  import opened HostPort
  import opened Rounds
  import opened Boards
  import opened GroupLookup

  type GroupResult<V> = Result<V, KafkaError>

  type GroupBoard<V> = Board<string, Endpoint, V>

  /** What one coordinator answer means for one group. */
  datatype Outcome<V> = Done(result: GroupResult<V>) | Retry | Unmap

  /** The answer to one batch: `None` when the deadline passed first. */
  type Answer<V> = Option<Result<map<string, Outcome<V>>, AdminError>>

  /** The environment of one call. Each round looks up once and sends each batch once, so functions of
      the round number and of the request cover every behaviour of brokers, network and clock. */
  datatype World<V> = World(
    find: (nat, seq<string>) -> Option<FindOracle>,
    call: (nat, Endpoint, seq<string>) -> Answer<V>,
    beforeBackoff: nat -> int,
    afterBackoff: nat -> int)

  /** A group error code: load-in-progress and `retryCodes` stay, a moved coordinator unmaps. */
  function GroupErrorOutcome<V>(code: int, message: Option<string>, retryCodes: set<int>): Outcome<V> {
    if code == COORDINATOR_LOAD_IN_PROGRESS || code in retryCodes then Retry
    else if code == COORDINATOR_NOT_AVAILABLE || code == NOT_COORDINATOR then Unmap
    else Done(Err(KafkaError(code, FromBroker(message))))
  }

  function FromLookup<V>(lookup: Lookup): Status<Endpoint, V> {
    match lookup
    case Found(endpoint) => Mapped(endpoint)
    case Again => Unmapped
    case Failed(error) => Settled(Err(error))
  }

  function LookedUp<V>(b: GroupBoard<V>, found: map<string, Lookup>): GroupBoard<V> {
    map g | g in b :: if b[g].Unmapped? && g in found then FromLookup(found[g]) else b[g]
  }

  /** The board after the lookup of a round, or `None` when the deadline passed first. */
  function LookupPhase<V>(b: GroupBoard<V>, n: nat, world: World<V>): Option<GroupBoard<V>> {
    if Waiting(b) == {} then Some(b)
    else
      var keys := SortedNames(Waiting(b));
      match world.find(n, keys)
      case None => None
      case Some(oracle) => Some(LookedUp(b, LookupMap(FindCoordinators(keys, oracle))))
  }

  function AddressOf(e: Endpoint): string {
    FormatHostPort(e.host, e.port)
  }

  function GroupsAt<V>(b: GroupBoard<V>, address: string): set<string> {
    set g | g in b && b[g].Mapped? && AddressOf(b[g].at) == address
  }

  /** The groups sent to `address`, in order. */
  function BatchAt<V>(b: GroupBoard<V>, address: string): seq<string> {
    SortedNames(GroupsAt(b, address))
  }

  /** The answer to the batch of `g`, which is sent to the endpoint of the first group of the batch. */
  function AnswerFor<V>(b: GroupBoard<V>, g: string, n: nat, world: World<V>): Answer<V>
    requires g in b && b[g].Mapped?
  {
    var keys := BatchAt(b, AddressOf(b[g].at));
    assert g in keys;
    assert keys[0] in GroupsAt(b, AddressOf(b[g].at));
    world.call(n, b[keys[0]].at, keys)
  }

  function AfterAnswer<V>(g: string, status: Status<Endpoint, V>, answer: Answer<V>): Status<Endpoint, V> {
    match answer
    case None => status
    case Some(Err(error)) =>
      if IsConnectionFailure(error) then Unmapped else Settled(Err(GroupsKafkaError(error)))
    case Some(Ok(outcomes)) =>
      if g !in outcomes then status
      else
        match outcomes[g]
        case Done(result) => Settled(result)
        case Retry => status
        case Unmap => Unmapped
  }

  function CallPhase<V>(b: GroupBoard<V>, n: nat, world: World<V>): GroupBoard<V> {
    map g | g in b :: if b[g].Mapped? then AfterAnswer(g, b[g], AnswerFor(b, g, n, world)) else b[g]
  }

  function GroupLoop<V>(world: World<V>): Loop<GroupBoard<V>> {
    Loop((b: GroupBoard<V>) => Pending(b) == {},
         (n: nat, b: GroupBoard<V>) => LookupPhase(b, n, world),
         (n: nat, b: GroupBoard<V>) => CallPhase(b, n, world),
         world.beforeBackoff, world.afterBackoff)
  }

  function StartBoard<V>(groups: seq<string>): GroupBoard<V> {
    map g | g in groups :: Unmapped
  }

  function Run<V>(groups: seq<string>, deadline: RetryDeadline, world: World<V>): Ended<GroupBoard<V>> {
    Drive(StartBoard(groups), 0, deadline, GroupLoop(world))
  }

  function Finish<V>(ended: Ended<GroupBoard<V>>): map<string, GroupResult<V>> {
    map g | g in ended.state ::
      if ended.state[g].Settled? then ended.state[g].result else Err(TimeoutError(ended.attempts))
  }

  // ----- what every run keeps -----

  lemma LookupMoves<V>(b: GroupBoard<V>, n: nat, world: World<V>, looked: GroupBoard<V>)
    requires LookupPhase(b, n, world) == Some(looked)
    ensures looked.Keys == b.Keys && forall g | g in b && !b[g].Unmapped? :: looked[g] == b[g]
  {
  }

  lemma AnswerMoves<V>(g: string, status: Status<Endpoint, V>, answer: Answer<V>)
    ensures AfterAnswer(g, status, answer).Mapped? ==> AfterAnswer(g, status, answer) == status
  {
  }

  lemma CallMoves<V>(b: GroupBoard<V>, n: nat, world: World<V>, g: string)
    requires g in b
    ensures CallPhase(b, n, world).Keys == b.Keys
    ensures !b[g].Mapped? || CallPhase(b, n, world)[g].Mapped? ==> CallPhase(b, n, world)[g] == b[g]
  {
    if b[g].Mapped? {
      AnswerMoves(g, b[g], AnswerFor(b, g, n, world));
    }
  }

  lemma GroupRoundIsSteady<V>(round: Round<GroupBoard<V>>, m: nat, world: World<V>)
    requires LookupPhase(round.before, m, world) == Some(round.looked)
    requires round.after == CallPhase(round.looked, m, world)
    ensures Steady(round)
  {
    LookupMoves(round.before, m, world, round.looked);
    assert round.after.Keys == round.looked.Keys;
    forall g | g in round.before ensures MovesKey(round, g) {
      CallMoves(round.looked, m, world, g);
    }
  }

  lemma GroupRoundFollows<V>(round: Round<GroupBoard<V>>, m: nat, world: World<V>)
    requires Follows(round, m, GroupLoop(world))
    ensures LookupPhase(round.before, m, world) == Some(round.looked)
    ensures round.after == CallPhase(round.looked, m, world)
  {
  }

  lemma GroupStepIsSteady<V>(round: Round<GroupBoard<V>>, m: nat, world: World<V>)
    ensures Follows(round, m, GroupLoop(world)) ==> Steady(round)
  {
    if Follows(round, m, GroupLoop(world)) {
      GroupRoundFollows(round, m, world);
      GroupRoundIsSteady(round, m, world);
    }
  }

  /** Every run of the group call is a chain of steady rounds from a board with nothing mapped. */
  lemma RunIsAChain<V>(groups: seq<string>, deadline: RetryDeadline, world: World<V>)
    ensures Chain(StartBoard(groups), Run(groups, deadline, world).rounds)
    ensures Run(groups, deadline, world).state == LastState(StartBoard(groups), Run(groups, deadline, world).rounds)
  {
    var rounds := Run(groups, deadline, world).rounds;
    RunIsLinked(StartBoard(groups), 0, deadline, GroupLoop(world));
    forall i | 0 <= i < |rounds| ensures Follows(rounds[i], 0 + i, GroupLoop(world)) ==> Steady(rounds[i]) {
      GroupStepIsSteady(rounds[i], 0 + i, world);
    }
    LinkedIsAChain(StartBoard(groups), 0, rounds, GroupLoop(world));
  }

  /** Every requested group gets exactly one result, and nothing else does. */
  lemma OneResultPerGroup<V>(groups: seq<string>, deadline: RetryDeadline, world: World<V>)
    ensures Finish(Run(groups, deadline, world)).Keys == Run(groups, deadline, world).state.Keys == Elements(groups)
  {
    RunIsAChain(groups, deadline, world);
    LastKeysStay(StartBoard<V>(groups), Run(groups, deadline, world).rounds);
  }

  /** Each group that has a coordinator is in the batch of one address and of no other, and two groups
      share a batch exactly when their coordinators have the same port and the same host up to the
      brackets of an IPv6 address. */
  lemma BatchesPartition<V>(b: GroupBoard<V>, g: string, h: string, address: string)
    requires g in b && b[g].Mapped? && h in b && b[h].Mapped?
    ensures g in BatchAt(b, address) <==> address == AddressOf(b[g].at)
    ensures NoDuplicates(BatchAt(b, address))
    ensures h in BatchAt(b, AddressOf(b[g].at)) <==>
            var p, q := b[g].at, b[h].at;
            p.port == q.port &&
            (p.host == q.host || (IsBareV6(p.host) && q.host == "[" + p.host + "]") ||
             (IsBareV6(q.host) && p.host == "[" + q.host + "]"))
  {
    AddressesAgree(b[g].at.host, b[g].at.port, b[h].at.host, b[h].at.port);
  }

  /** Once a round settles a group, that is its final value, and no later lookup or batch names the group. */
  lemma SettledGroupIsNotAskedAgain<V>(groups: seq<string>, deadline: RetryDeadline, world: World<V>,
                                       i: nat, g: string)
    requires i < |Run(groups, deadline, world).rounds|
    requires var after := Run(groups, deadline, world).rounds[i].after; g in after && after[g].Settled?
    ensures var e := Run(groups, deadline, world);
            && g in Finish(e) && Finish(e)[g] == e.rounds[i].after[g].result
            && forall j | i < j < |e.rounds| ::
                 && g !in SortedNames(Waiting(e.rounds[j].before))
                 && forall address :: g !in BatchAt(e.rounds[j].looked, address)
  {
    var e := Run(groups, deadline, world);
    RunIsAChain(groups, deadline, world);
    forall j | i < j < |e.rounds|
      ensures g in e.rounds[j].after && e.rounds[j].after[g] == e.rounds[i].after[g]
      ensures g !in Waiting(e.rounds[j].before) && g !in Pending(e.rounds[j].looked)
    {
      SettledStays(StartBoard(groups), e.rounds, i, j, g);
    }
  }

  /** Every group of every batch was found at the address of the batch by its latest lookup, and each round
      since then kept it there. */
  lemma BatchesFollowTheLatestLookup<V>(groups: seq<string>, deadline: RetryDeadline, world: World<V>,
                                        j: nat, g: string, address: string)
    requires j < |Run(groups, deadline, world).rounds|
    requires g in BatchAt(Run(groups, deadline, world).rounds[j].looked, address)
    ensures var rounds := Run(groups, deadline, world).rounds;
            exists i, at | 0 <= i <= j && AddressOf(at) == address ::
              FoundIn(rounds[i], g, at) && forall m | i < m <= j :: StaysAt(rounds[m], g, at)
  {
    var rounds := Run(groups, deadline, world).rounds;
    RunIsAChain(groups, deadline, world);
    assert g in GroupsAt(rounds[j].looked, address);
    CallsFollowTheLatestLookup(StartBoard(groups), rounds, j, g, rounds[j].looked[g].at);
  }

  /** Where a value that round `m` gives can come from: a failed lookup, an error of the call that is not a
      connection failure, or a `Done` outcome. */
  ghost predicate HasSource<V>(round: Round<GroupBoard<V>>, m: nat, world: World<V>, g: string, result: GroupResult<V>)
  {
    || (result.Err? && LookupFailedWith(round, m, world, g, result.error))
    || (g in round.looked && round.looked[g].Mapped? &&
        var answer := AnswerFor(round.looked, g, m, world);
        answer.Some? &&
        match answer.value
        case Err(error) => !IsConnectionFailure(error) && result == Err(GroupsKafkaError(error))
        case Ok(outcomes) => g in outcomes && outcomes[g] == Done(result))
  }

  ghost predicate LookupFailedWith<V>(round: Round<GroupBoard<V>>, m: nat, world: World<V>, g: string,
                                      error: KafkaError)
  {
    var keys := SortedNames(Waiting(round.before));
    g in keys && world.find(m, keys).Some? &&
    (g, Failed(error)) in FindCoordinators(keys, world.find(m, keys).value)
  }

  lemma {:induction false} LookupMapHas(lookups: seq<(string, Lookup)>, key: string)
    requires key in LookupMap(lookups)
    ensures (key, LookupMap(lookups)[key]) in lookups
  {
    var last := lookups[|lookups| - 1];
    if key != last.0 {
      LookupMapHas(lookups[..|lookups| - 1], key);
    }
  }

  lemma LookedUpSettles<V>(b: GroupBoard<V>, lookups: seq<(string, Lookup)>, g: string, result: GroupResult<V>)
    requires g in b && b[g].Unmapped? && LookedUp(b, LookupMap(lookups))[g] == Settled(result)
    ensures result.Err? && (g, Failed(result.error)) in lookups
  {
    LookupMapHas(lookups, g);
  }

  lemma LookupSettles<V>(round: Round<GroupBoard<V>>, m: nat, world: World<V>, g: string, result: GroupResult<V>)
    requires LookupPhase(round.before, m, world) == Some(round.looked)
    requires g in round.before && round.before[g].Unmapped?
    requires g in round.looked && round.looked[g] == Settled(result)
    ensures result.Err? && LookupFailedWith(round, m, world, g, result.error)
  {
    assert g in Waiting(round.before);
    var keys := SortedNames(Waiting(round.before));
    LookedUpSettles(round.before, FindCoordinators(keys, world.find(m, keys).value), g, result);
  }

  lemma RoundSettles<V>(round: Round<GroupBoard<V>>, m: nat, world: World<V>, g: string, result: GroupResult<V>)
    requires LookupPhase(round.before, m, world) == Some(round.looked)
    requires round.after == CallPhase(round.looked, m, world)
    requires SettlesIn(round, g, result)
    ensures HasSource(round, m, world, g, result)
  {
    GroupRoundIsSteady(round, m, world);
    assert MovesKey(round, g);
    if round.looked[g].Mapped? {
      assert round.after[g] == AfterAnswer(g, round.looked[g], AnswerFor(round.looked, g, m, world));
    } else {
      LookupSettles(round, m, world, g, result);
    }
  }

  /** Each final value is a `Done` outcome, a failed lookup or an error of the call that is not a
      connection failure, from one round of the run; or it is the timeout, and then the group was still
      pending when the run stopped at its limit. */
  lemma EveryResultHasASource<V>(groups: seq<string>, deadline: RetryDeadline, world: World<V>, g: string)
    requires g in groups
    ensures var e := Run(groups, deadline, world);
            g in Finish(e) &&
            if g in Pending(e.state) then
              Finish(e)[g] == Err(TimeoutError(e.attempts)) && AtItsLimit(e, 0, deadline, GroupLoop(world))
            else
              exists i | 0 <= i < |e.rounds| :: HasSource(e.rounds[i], i, world, g, Finish(e)[g])
  {
    var e := Run(groups, deadline, world);
    OneResultPerGroup(groups, deadline, world);
    if g in Pending(e.state) {
      IncompleteOnlyAtTheLimit(StartBoard(groups), 0, deadline, GroupLoop(world));
    } else {
      SettledFromARound(groups, deadline, world, g);
    }
  }

  lemma SettledFromARound<V>(groups: seq<string>, deadline: RetryDeadline, world: World<V>, g: string)
    requires g in groups
    requires var e := Run(groups, deadline, world); g in e.state && e.state[g].Settled?
    ensures var e := Run(groups, deadline, world);
            exists i | 0 <= i < |e.rounds| :: HasSource(e.rounds[i], i, world, g, e.state[g].result)
  {
    var e := Run(groups, deadline, world);
    RunIsAChain(groups, deadline, world);
    RunIsLinked(StartBoard(groups), 0, deadline, GroupLoop(world));
    var i := SettlingRound(StartBoard(groups), 0, e.rounds, GroupLoop(world), g);
    GroupRoundFollows(e.rounds[i], i, world);
    RoundSettles(e.rounds[i], i, world, g, e.state[g].result);
  }
}
