/** What each answer does to a group in a run of the group call, and to its result. */
module GroupEffects {
  import opened Base
  import opened Order
  import opened Rounds
  import opened Boards
  import opened GroupLookup
  import opened GroupDriver

  // ----- codes -----

  /** Which group error codes are asked again, which look the coordinator up again, and which are final. */
  lemma OutcomesByCode<V>(code: int, message: Option<string>, retryCodes: set<int>, result: GroupResult<V>)
    ensures GroupErrorOutcome<V>(code, message, retryCodes) == Retry <==> code == 14 || code in retryCodes
    ensures GroupErrorOutcome<V>(code, message, retryCodes) == Unmap <==> code in {15, 16} - retryCodes
    ensures GroupErrorOutcome(code, message, retryCodes) == Done(result) <==>
            code !in {14, 15, 16} + retryCodes && result == Err(KafkaError(code, FromBroker(message)))
  {
  }

  /** Which coordinator entries are taken, looked up again, and final. */
  lemma LookupsByCode(row: Row, endpoint: Endpoint, error: KafkaError)
    ensures Classify(row) == Found(endpoint) <==> row.code == 0 && endpoint == row.endpoint
    ensures Classify(row) == Again <==> row.code in {14, 15}
    ensures Classify(row) == Failed(error) <==>
            row.code !in {0, 14, 15} && error == KafkaError(row.code, FromBroker(row.message))
  {
  }

  /** The lookups of a request that failed. */
  lemma FailedRequestLookups(keys: seq<string>, error: AdminError, i: nat)
    requires i < |keys|
    ensures FailedLookups(keys, error)[i] ==
            (keys[i], if IsConnectionFailure(error) then Again else Failed(GroupsKafkaError(error)))
  {
  }

  // ----- one round -----

  /** The board at the loop head after round `i`, or at the end of the run. */
  function NextHead<V>(e: Ended<GroupBoard<V>>, i: nat): GroupBoard<V>
    requires i < |e.rounds|
  {
    if i + 1 < |e.rounds| then e.rounds[i + 1].before else e.state
  }

  lemma HeadOfChain<V>(start: GroupBoard<V>, e: Ended<GroupBoard<V>>, i: nat)
    requires Chain(start, e.rounds) && e.state == LastState(start, e.rounds) && i < |e.rounds|
    ensures NextHead(e, i) == e.rounds[i].after && NextHead(e, i).Keys == e.rounds[i].looked.Keys == start.Keys
  {
    KeysStay(start, e.rounds, i);
  }

  lemma RoundOfRun<V>(groups: seq<string>, deadline: RetryDeadline, world: World<V>, e: Ended<GroupBoard<V>>, i: nat)
    requires e == Run(groups, deadline, world) && i < |e.rounds|
    ensures LookupPhase(e.rounds[i].before, i, world) == Some(e.rounds[i].looked)
    ensures e.rounds[i].after == CallPhase(e.rounds[i].looked, i, world)
  {
    RunIsLinked(StartBoard(groups), 0, deadline, GroupLoop(world));
    assert Follows(e.rounds[i], 0 + i, GroupLoop(world));
    GroupRoundFollows(e.rounds[i], i, world);
  }

  lemma NextHeadIsAfter<V>(groups: seq<string>, deadline: RetryDeadline, world: World<V>, e: Ended<GroupBoard<V>>,
                           i: nat)
    requires e == Run(groups, deadline, world) && i < |e.rounds|
    ensures NextHead(e, i) == e.rounds[i].after && NextHead(e, i).Keys == e.rounds[i].looked.Keys
    ensures LookupPhase(e.rounds[i].before, i, world) == Some(e.rounds[i].looked)
    ensures e.rounds[i].after == CallPhase(e.rounds[i].looked, i, world)
  {
    RunIsAChain(groups, deadline, world);
    HeadOfChain(StartBoard(groups), e, i);
    RoundOfRun(groups, deadline, world, e, i);
  }

  /** The group keeps its coordinator: it is at the same endpoint at the next loop head, and not looked up there. */
  ghost predicate Keeps<V>(e: Ended<GroupBoard<V>>, i: nat, g: string)
    requires i < |e.rounds|
  {
    && g in e.rounds[i].looked && g in NextHead(e, i)
    && NextHead(e, i)[g] == e.rounds[i].looked[g] && g !in Waiting(NextHead(e, i))
  }

  /** The group loses its coordinator: it is to be looked up at the next loop head. */
  ghost predicate Loses<V>(e: Ended<GroupBoard<V>>, i: nat, g: string)
    requires i < |e.rounds|
  {
    g in Waiting(NextHead(e, i))
  }

  /** The group has `result` for good. */
  ghost predicate Gets<V>(e: Ended<GroupBoard<V>>, g: string, result: GroupResult<V>) {
    g in Finish(e) && Finish(e)[g] == result
  }

  lemma SettledGets<V>(groups: seq<string>, deadline: RetryDeadline, world: World<V>, e: Ended<GroupBoard<V>>, i: nat,
                       g: string)
    requires e == Run(groups, deadline, world) && i < |e.rounds|
    requires g in e.rounds[i].after && e.rounds[i].after[g].Settled?
    ensures Gets(e, g, e.rounds[i].after[g].result)
  {
    SettledGroupIsNotAskedAgain(groups, deadline, world, i, g);
  }

  lemma AnswerOfBatch<V>(looked: GroupBoard<V>, n: nat, world: World<V>, g: string, address: string)
    requires g in BatchAt(looked, address)
    ensures var batch := BatchAt(looked, address);
            && g in looked && looked[g].Mapped? && batch[0] in looked && looked[batch[0]].Mapped?
            && AnswerFor(looked, g, n, world) == world.call(n, looked[batch[0]].at, batch)
  {
    var batch := BatchAt(looked, address);
    assert g in GroupsAt(looked, address) && batch[0] in GroupsAt(looked, address);
  }

  lemma MovesTo<V>(g: string, status: Status<Endpoint, V>, answer: Answer<V>)
    ensures AfterAnswer(g, status, answer) ==
            match answer
            case None => status
            case Some(Err(error)) =>
              if IsConnectionFailure(error) then Unmapped else Settled(Err(GroupsKafkaError(error)))
            case Some(Ok(outcomes)) =>
              if g !in outcomes || outcomes[g].Retry? then status
              else if outcomes[g].Unmap? then Unmapped
              else Settled(outcomes[g].result)
  {
  }

  /** Every answer has its effect on every group of its batch: a done outcome is the result of the group, and so is an
      error of the call that is no connection failure; a retried or omitted group, and one whose batch was not answered
      in time, keeps its coordinator; an unmapped group, and one whose connection failed, loses it. */
  lemma AnswerTakesEffect<V>(groups: seq<string>, deadline: RetryDeadline, world: World<V>, e: Ended<GroupBoard<V>>,
                             i: nat, address: string, g: string)
    requires e == Run(groups, deadline, world) && i < |e.rounds| && g in BatchAt(e.rounds[i].looked, address)
    ensures var looked, batch := e.rounds[i].looked, BatchAt(e.rounds[i].looked, address);
            && batch[0] in looked && looked[batch[0]].Mapped?
            && match world.call(i, looked[batch[0]].at, batch)
               case None => Keeps(e, i, g)
               case Some(Err(error)) =>
                 if IsConnectionFailure(error) then Loses(e, i, g) else Gets(e, g, Err(GroupsKafkaError(error)))
               case Some(Ok(outcomes)) =>
                 if g !in outcomes then Keeps(e, i, g)
                 else
                   match outcomes[g]
                   case Done(result) => Gets(e, g, result)
                   case Retry => Keeps(e, i, g)
                   case Unmap => Loses(e, i, g)
  {
    NextHeadIsAfter(groups, deadline, world, e, i);
    var looked := e.rounds[i].looked;
    AnswerOfBatch(looked, i, world, g, address);
    MovesTo(g, looked[g], AnswerFor(looked, g, i, world));
    if e.rounds[i].after[g].Settled? { SettledGets(groups, deadline, world, e, i, g); }
  }

  lemma {:induction false} LookupMapOf(lookups: seq<(string, Lookup)>, j: nat)
    requires j < |lookups| && forall k | 0 <= k < |lookups| && k != j :: lookups[k].0 != lookups[j].0
    ensures lookups[j].0 in LookupMap(lookups) && LookupMap(lookups)[lookups[j].0] == lookups[j].1
  {
    if j < |lookups| - 1 {
      assert forall k | 0 <= k < |lookups| - 1 :: lookups[..|lookups| - 1][k] == lookups[k];
      LookupMapOf(lookups[..|lookups| - 1], j);
    }
  }

  /** Every lookup has its effect on its group: a found coordinator is where the group is sent in that round, a final
      error is its result, and otherwise it is to be looked up again. */
  lemma LookupTakesEffect<V>(groups: seq<string>, deadline: RetryDeadline, world: World<V>, e: Ended<GroupBoard<V>>,
                             i: nat, j: nat)
    requires e == Run(groups, deadline, world) && i < |e.rounds| && j < |SortedNames(Waiting(e.rounds[i].before))|
    ensures var keys := SortedNames(Waiting(e.rounds[i].before));
            var g, looked := keys[j], e.rounds[i].looked;
            && world.find(i, keys).Some?
            && |FindCoordinators(keys, world.find(i, keys).value)| == |keys|
            && match FindCoordinators(keys, world.find(i, keys).value)[j].1
               case Found(endpoint) =>
                 g in looked && looked[g] == Mapped(endpoint) && g in BatchAt(looked, AddressOf(endpoint))
               case Again => Loses(e, i, g)
               case Failed(error) => Gets(e, g, Err(error))
  {
    NextHeadIsAfter(groups, deadline, world, e, i);
    var round, keys := e.rounds[i], SortedNames(Waiting(e.rounds[i].before));
    var g := keys[j];
    assert g in keys && g in Waiting(round.before);
    var lookups := FindCoordinators(keys, world.find(i, keys).value);
    OneLookupPerKey(keys, world.find(i, keys).value);
    LookupMapOf(lookups, j);
    LookedUpTo(round.before, LookupMap(lookups), g);
    CallMoves(round.looked, i, world, g);
    if round.looked[g].Settled? { SettledGets(groups, deadline, world, e, i, g); }
    if round.looked[g].Mapped? {
      BatchesPartition(round.looked, g, g, AddressOf(round.looked[g].at));
    }
  }

  lemma LookedUpTo<V>(b: GroupBoard<V>, found: map<string, Lookup>, g: string)
    requires g in b && b[g].Unmapped? && g in found
    ensures g in LookedUp(b, found)
    ensures LookedUp(b, found)[g] ==
            match found[g]
            case Found(endpoint) => Mapped(endpoint)
            case Again => Unmapped
            case Failed(error) => Settled(Err(error))
  {
  }
}
