/** What each answer does to a partition in a run of the leader-routed call, and to its result. */
module LeaderEffects {
  import opened Base
  import opened Order
  import opened Rounds
  import opened Boards
  import opened LeaderDriver

  /** The error of a failed call keeps what the broker said. */
  lemma CallErrorsByKind(error: AdminError, code: int, message: Option<string>)
    ensures CallError(error) == KafkaError(code, FromBroker(message)) <==> error == Broker(code, message)
    ensures !error.Broker? ==> CallError(error) == KafkaError(-1, Own(Because(error)))
  {
  }

  /** The queue at the loop head after round `i`, or at the end of the run. */
  function NextHead<V>(e: Ended<Queue<V>>, i: nat): Queue<V>
    requires i < |e.rounds|
  {
    if i + 1 < |e.rounds| then e.rounds[i + 1].before else e.state
  }

  /** The partition goes back to the lookup. */
  ghost predicate GoesBack<V>(e: Ended<Queue<V>>, i: nat, k: PartitionKey)
    requires i < |e.rounds|
  {
    k in NextHead(e, i).order
  }

  /** The partition has `result` for good. */
  ghost predicate Gets<V>(e: Ended<Queue<V>>, k: PartitionKey, result: Result<V, KafkaError>) {
    k in Finish(e) && Finish(e)[k] == result
  }

  lemma HeadOfChain<V>(start: Queue<V>, e: Ended<Queue<V>>, i: nat)
    requires SoundChain(start, e.rounds) && e.state == LastState(start, e.rounds) && i < |e.rounds|
    ensures NextHead(e, i) == e.rounds[i].after
  {
  }

  lemma RoundOfRun<V>(keys: seq<PartitionKey>, deadline: RetryDeadline, world: World<V>, e: Ended<Queue<V>>, i: nat)
    requires e == Run(keys, deadline, world) && i < |e.rounds|
    ensures NextHead(e, i) == e.rounds[i].after && Sound(e.rounds[i].before) && Sound(e.rounds[i].after)
    ensures LeaderFollows(e.rounds[i], i, world)
  {
    RunIsLinked(StartQueue(keys), 0, deadline, LeaderLoop(world));
    RunIsASoundChain(keys, deadline, world);
    HeadOfChain(StartQueue(keys), e, i);
    QueuesAreSound(keys, e.rounds, world, i);
  }

  lemma SettledInChain<V>(start: Queue<V>, e: Ended<Queue<V>>, i: nat, k: PartitionKey)
    requires Chain(start.board, BoardRounds(e.rounds)) && e.state == LastState(start, e.rounds) && i < |e.rounds|
    requires k in e.rounds[i].after.board && e.rounds[i].after.board[k].Settled?
    ensures Gets(e, k, e.rounds[i].after.board[k].result)
  {
    var last := |e.rounds| - 1;
    if i < last { SettledStays(start.board, BoardRounds(e.rounds), i, last, k); }
  }

  lemma SettledGets<V>(keys: seq<PartitionKey>, deadline: RetryDeadline, world: World<V>, e: Ended<Queue<V>>, i: nat,
                       k: PartitionKey)
    requires e == Run(keys, deadline, world) && i < |e.rounds|
    requires k in e.rounds[i].after.board && e.rounds[i].after.board[k].Settled?
    ensures Gets(e, k, e.rounds[i].after.board[k].result)
  {
    RunIsAChain(keys, deadline, world, e);
    RunIsLinked(StartQueue(keys), 0, deadline, LeaderLoop(world));
    SettledInChain(StartQueue(keys), e, i, k);
  }

  /** What round `i` does with a partition, by where its call leaves it. */
  lemma EffectOfRound<V>(keys: seq<PartitionKey>, deadline: RetryDeadline, world: World<V>, e: Ended<Queue<V>>, i: nat,
                         k: PartitionKey)
    requires e == Run(keys, deadline, world) && i < |e.rounds| && k in e.rounds[i].after.board
    ensures match e.rounds[i].after.board[k]
            case Unmapped => GoesBack(e, i, k)
            case Settled(result) => Gets(e, k, result)
            case Mapped(_) => false
  {
    RoundOfRun(keys, deadline, world, e, i);
    if e.rounds[i].after.board[k].Settled? { SettledGets(keys, deadline, world, e, i, k); }
  }

  lemma MovesTo<V>(k: PartitionKey, answer: LeaderAnswer<V>, retryCode: int -> bool)
    ensures AfterAnswer(k, answer, retryCode) ==
            match answer
            case None => Unmapped
            case Some(Err(error)) => if IsConnectionFailure(error) then Unmapped else Settled(Err(CallError(error)))
            case Some(Ok(results)) =>
              if k !in results then
                if retryCode(-1) then Unmapped else Settled(Err(KafkaError(-1, Own(NotAnswered))))
              else if results[k].Err? && retryCode(results[k].error.code) then Unmapped
              else Settled(results[k])
  {
  }

  /** Every answer has its effect on every partition of its batch: a result whose code does not retry is the result
      of the partition, and so is an error of the call that is no connection failure; a code that retries, a failed
      connection, and a batch not answered in time send the partition back to the lookup; an omitted partition
      counts as one with the error -1. */
  lemma AnswerTakesEffect<V>(keys: seq<PartitionKey>, deadline: RetryDeadline, world: World<V>, e: Ended<Queue<V>>,
                             i: nat, address: string, k: PartitionKey)
    requires e == Run(keys, deadline, world) && i < |e.rounds| && k in BatchAt(e.rounds[i].looked, address)
    ensures match world.call(i, address, BatchAt(e.rounds[i].looked, address))
            case None => GoesBack(e, i, k)
            case Some(Err(error)) =>
              if IsConnectionFailure(error) then GoesBack(e, i, k) else Gets(e, k, Err(CallError(error)))
            case Some(Ok(results)) =>
              if k !in results then
                if world.retryCode(-1) then GoesBack(e, i, k) else Gets(e, k, Err(KafkaError(-1, Own(NotAnswered))))
              else if results[k].Err? && world.retryCode(results[k].error.code) then GoesBack(e, i, k)
              else Gets(e, k, results[k])
  {
    RoundOfRun(keys, deadline, world, e, i);
    LookupLists(e.rounds[i].before, i, world, e.rounds[i].looked);
    BatchHolds(e.rounds[i].looked, address);
    MovesTo(k, world.call(i, address, BatchAt(e.rounds[i].looked, address)), world.retryCode);
    EffectOfRound(keys, deadline, world, e, i, k);
  }

  /** Where the lookup of round `i` leaves a pending partition. */
  lemma LookupOfRound<V>(keys: seq<PartitionKey>, deadline: RetryDeadline, world: World<V>, e: Ended<Queue<V>>, i: nat,
                         k: PartitionKey)
    requires e == Run(keys, deadline, world) && i < |e.rounds| && k in e.rounds[i].before.order
    ensures world.metadata(i, RequestTopics(e.rounds[i].before.order)).Some?
    ensures match AfterMetadata<V>(k, world.metadata(i, RequestTopics(e.rounds[i].before.order)).value)
            case Mapped(address) => k in BatchAt(e.rounds[i].looked, address)
            case Unmapped => GoesBack(e, i, k)
            case Settled(result) => Gets(e, k, result)
  {
    RoundOfRun(keys, deadline, world, e, i);
    var round := e.rounds[i];
    LookupLists(round.before, i, world, round.looked);
    assert round.looked.board[k] == AfterMetadata(k, world.metadata(i, RequestTopics(round.before.order)).value);
    CallBoardMoves(round.looked, i, world, k);
    EffectOfRound(keys, deadline, world, e, i, k);
  }

  /** A partition whose leader the metadata gives is sent there in the same round. */
  lemma LeaderIsSent<V>(keys: seq<PartitionKey>, deadline: RetryDeadline, world: World<V>, e: Ended<Queue<V>>, i: nat,
                        k: PartitionKey, metadata: Metadata, address: string)
    requires e == Run(keys, deadline, world) && i < |e.rounds| && k in e.rounds[i].before.order
    requires world.metadata(i, RequestTopics(e.rounds[i].before.order)) == Some(Ok(metadata))
    requires LedBy(k, metadata, address)
    ensures k in BatchAt(e.rounds[i].looked, address)
  {
    LookupOfRound(keys, deadline, world, e, i, k);
    LookupPutsAt<V>(k, metadata, address);
  }

  /** A partition without a leader goes back to the lookup. */
  lemma LeaderlessGoesBack<V>(keys: seq<PartitionKey>, deadline: RetryDeadline, world: World<V>, e: Ended<Queue<V>>,
                              i: nat, k: PartitionKey, metadata: Metadata)
    requires e == Run(keys, deadline, world) && i < |e.rounds| && k in e.rounds[i].before.order
    requires world.metadata(i, RequestTopics(e.rounds[i].before.order)) == Some(Ok(metadata))
    requires NoLeaderYet(k, metadata)
    ensures GoesBack(e, i, k)
  {
    LookupOfRound(keys, deadline, world, e, i, k);
    LookupLeaderMeans(k, metadata, "", KafkaError(0, FromBroker(None)));
  }

  /** A final error of the topic or the partition is the result of the partition. */
  lemma FinalErrorIsGiven<V>(keys: seq<PartitionKey>, deadline: RetryDeadline, world: World<V>, e: Ended<Queue<V>>,
                             i: nat, k: PartitionKey, metadata: Metadata, error: KafkaError)
    requires e == Run(keys, deadline, world) && i < |e.rounds| && k in e.rounds[i].before.order
    requires world.metadata(i, RequestTopics(e.rounds[i].before.order)) == Some(Ok(metadata))
    requires FailsWith(k, metadata, error)
    ensures Gets(e, k, Err(error))
  {
    LookupOfRound(keys, deadline, world, e, i, k);
    LookupSettlesWith<V>(k, metadata, Err(error));
  }

  /** A failed metadata request fails every pending partition, unless only the connection failed. */
  lemma FailedMetadataTakesEffect<V>(keys: seq<PartitionKey>, deadline: RetryDeadline, world: World<V>,
                                     e: Ended<Queue<V>>, i: nat, k: PartitionKey, error: AdminError)
    requires e == Run(keys, deadline, world) && i < |e.rounds| && k in e.rounds[i].before.order
    requires world.metadata(i, RequestTopics(e.rounds[i].before.order)) == Some(Err(error))
    ensures if IsConnectionFailure(error) then GoesBack(e, i, k) else Gets(e, k, Err(CallError(error)))
  {
    LookupOfRound(keys, deadline, world, e, i, k);
  }
}
