/** The calls of `describe_consumer_groups` as the batched group call starts them: one for each batch of a round, and a
    round after all the calls of the one before it have returned. */
module ConsumerRounds {
  import opened Base
  import opened Boards
  import opened GroupDriver
  import opened ConsumerDescribe
  import opened ConsumerRuns

  /** The calls so far, the board of the round, and the address that each call of the round was sent to. */
  datatype Driven<V> = Driven(s: State<V>, board: GroupBoard<V>, sentTo: map<nat, string>)

  /** What the driver does: it calls a coordinator of the round, a call goes on, or the next round has its board. */
  datatype Turn<V> =
    | CallAt(call: nat, address: string, supported: bool)
    | GoOn(step: Step<V>)
    | NextRound(board: GroupBoard<V>)

  ghost predicate CanTake<V>(d: Driven<V>, turn: Turn<V>) {
    match turn
    case CallAt(call, address, supported) =>
      call !in d.s.calls && forall other | other in d.sentTo :: d.sentTo[other] != address
    case GoOn(step) => !step.Start? && Possible(d.s, step)
    case NextRound(board) => forall call | call in d.s.calls :: d.s.calls[call].Returned?
  }

  /** The step of the calls that a turn makes. */
  function StepOf<V>(d: Driven<V>, turn: Turn<V>): Option<Step<V>> {
    match turn
    case CallAt(call, address, supported) => Some(Start(call, BatchAt(d.board, address), supported))
    case GoOn(step) => Some(step)
    case NextRound(_) => None
  }

  function AfterTurn<V>(d: Driven<V>, turn: Turn<V>): Driven<V>
    requires CanTake(d, turn)
  {
    match turn
    case CallAt(call, address, supported) =>
      Driven(After(d.s, Start(call, BatchAt(d.board, address), supported)), d.board, d.sentTo[call := address])
    case GoOn(step) => d.(s := After(d.s, step))
    case NextRound(board) => Driven(d.s, board, map[])
  }

  /** Every running call has the batch of its own address. */
  ghost predicate HasItsBatch<V>(d: Driven<V>) {
    && (forall call | call in d.s.calls && !d.s.calls[call].Returned? ::
          call in d.sentTo && d.s.calls[call].keys == BatchAt(d.board, d.sentTo[call]))
    && (forall call | call in d.sentTo :: call in d.s.calls)
  }

  /** The batches of two addresses have no group in common. */
  lemma BatchesAreApart<V>(board: GroupBoard<V>, a: string, b: string)
    requires a != b
    ensures Apart(BatchAt(board, a), BatchAt(board, b)) && NoDuplicates(BatchAt(board, a))
  {
    forall g | g in BatchAt(board, a) ensures g !in BatchAt(board, b) {
      BatchesPartition(board, g, g, a);
      BatchesPartition(board, g, g, b);
    }
  }

  lemma KeysOfStep<V>(s: State<V>, step: Step<V>, call: nat)
    requires Possible(s, step) && call in s.calls
    ensures call in After(s, step).calls && After(s, step).calls[call].keys == s.calls[call].keys
    ensures s.calls[call].Returned? ==> After(s, step).calls[call].Returned?
  {
  }

  lemma NoNewCall<V>(s: State<V>, step: Step<V>)
    requires Possible(s, step)
    ensures After(s, step).calls.Keys == s.calls.Keys + if step.Start? then {step.call} else {}
    ensures step.Start? ==> After(s, step).calls[step.call].keys == step.keys
  {
  }

  /** A call that the driver starts has groups of its own, distinct and in no running call. */
  lemma DriverStartsApart<V>(d: Driven<V>, call: nat, address: string, supported: bool)
    requires HasItsBatch(d) && CanTake(d, CallAt(call, address, supported))
    ensures StartsApart(d.s, BatchAt(d.board, address))
  {
    forall other | other in d.s.calls && !d.s.calls[other].Returned?
      ensures Apart(BatchAt(d.board, address), d.s.calls[other].keys)
    {
      BatchesAreApart(d.board, address, d.sentTo[other]);
    }
  }

  lemma TurnKeepsBatches<V>(d: Driven<V>, turn: Turn<V>)
    requires HasItsBatch(d) && CanTake(d, turn)
    ensures HasItsBatch(AfterTurn(d, turn))
  {
    var e := AfterTurn(d, turn);
    if StepOf(d, turn).Some? {
      var step := StepOf(d, turn).value;
      NoNewCall(d.s, step);
      forall call | call in d.s.calls ensures e.s.calls[call].keys == d.s.calls[call].keys
                                      ensures d.s.calls[call].Returned? ==> e.s.calls[call].Returned?
      {
        KeysOfStep(d.s, step, call);
      }
    }
  }

  // ----- whole runs of the driver -----

  /** The turns lead from `d` to `e`, and every answer names each asked group at most once and no other. */
  ghost predicate TurnsTo<V>(d: Driven<V>, turns: seq<Turn<V>>, e: Driven<V>)
    decreases |turns|
  {
    if turns == [] then d == e
    else CanTake(d, turns[0]) && AnswersAsAsked(d, turns[0]) && TurnsTo(AfterTurn(d, turns[0]), turns[1..], e)
  }

  ghost predicate AnswersAsAsked<V>(d: Driven<V>, turn: Turn<V>)
    requires CanTake(d, turn)
  {
    turn.GoOn? ==> WellFormed(d.s, turn.step)
  }

  lemma TurnKeepsInv<V>(d: Driven<V>, turn: Turn<V>)
    requires Inv(d.s) && HasItsBatch(d) && CanTake(d, turn) && AnswersAsAsked(d, turn)
    ensures Inv(AfterTurn(d, turn).s)
  {
    match turn
    case CallAt(call, address, supported) =>
      DriverStartsApart(d, call, address, supported);
      StepKeepsInv(d.s, Start(call, BatchAt(d.board, address), supported));
    case GoOn(step) => StepKeepsInv(d.s, step);
    case NextRound(_) =>
  }

  lemma {:induction false} TurnsKeepInv<V>(d: Driven<V>, turns: seq<Turn<V>>, e: Driven<V>)
    requires Inv(d.s) && HasItsBatch(d) && TurnsTo(d, turns, e)
    ensures Inv(e.s)
    decreases |turns|
  {
    if turns != [] {
      TurnKeepsInv(d, turns[0]);
      TurnKeepsBatches(d, turns[0]);
      TurnsKeepInv(AfterTurn(d, turns[0]), turns[1..], e);
    }
  }

  /** In every run of the driver whose answers name each asked group at most once and no other: a call gives a group at
      most one outcome, from the classic API once the group moved, and a final `GROUP_ID_NOT_FOUND` carries the message
      of the `ConsumerGroupDescribe` answer when there was one. */
  lemma DescribeRunIsSafe<V>(board: GroupBoard<V>, turns: seq<Turn<V>>, e: Driven<V>, i: nat, j: nat)
    requires TurnsTo(Driven(Nothing(), board, map[]), turns, e) && i < j < |e.s.log|
    ensures SafeAt(e.s.log, i, j)
  {
    TurnsKeepInv(Driven(Nothing(), board, map[]), turns, e);
    OrderlyIsSafe(e.s.log, i, j);
  }
}
