/** The round loop that the batched calls share: look up, call, and retry with the backoff until nothing
    is pending or the call is at its limit. */
module Rounds {
  import opened Base

  /** One full round: the state before it, after its lookup, and after its calls. */
  datatype Round<S> = Round(before: S, looked: S, after: S)

  /** How a run ended: the last state, the number of attempts, and its full rounds. */
  datatype Ended<S> = Ended(state: S, attempts: nat, rounds: seq<Round<S>>)

  /** A call, by what its round number `n` does to a state. `lookup` gives `None` when the deadline passes
      first. The clock is read before and after the backoff of each round. */
  datatype Loop<!S> = Loop(
    complete: S -> bool,
    lookup: (nat, S) -> Option<S>,
    call: (nat, S) -> S,
    beforeBackoff: nat -> int,
    afterBackoff: nat -> int)

  function Drive<S>(s: S, n: nat, deadline: RetryDeadline, loop: Loop<S>): Ended<S>
    decreases deadline.maxRetries - deadline.retries
  {
    if loop.complete(s) then Ended(s, n, [])
    else
      match loop.lookup(n, s)
      case None => Ended(s, n + 1, [])
      case Some(looked) =>
        var round := Round(s, looked, loop.call(n, looked));
        if StopsAfter(round.after, n, deadline, loop) then Ended(round.after, n + 1, [round])
        else
          var rest := Drive(round.after, n + 1, deadline.AfterBackoff(), loop);
          rest.(rounds := [round] + rest.rounds)
  }

  predicate StopsAfter<S>(s: S, n: nat, deadline: RetryDeadline, loop: Loop<S>) {
    loop.complete(s) || deadline.Exhausted(loop.beforeBackoff(n)) ||
    deadline.AfterBackoff().Expired(loop.afterBackoff(n))
  }

  /** A run with the rounds `done` before it. */
  ghost function Continued<S>(done: seq<Round<S>>, e: Ended<S>): Ended<S> {
    e.(rounds := done + e.rounds)
  }

  lemma DriveStops<S>(done: seq<Round<S>>, s: S, n: nat, deadline: RetryDeadline, loop: Loop<S>)
    ensures loop.complete(s) ==> Continued(done, Drive(s, n, deadline, loop)) == Ended(s, n, done)
    ensures !loop.complete(s) && loop.lookup(n, s).None? ==>
              Continued(done, Drive(s, n, deadline, loop)) == Ended(s, n + 1, done)
  {
    assert done + [] == done;
  }

  lemma DriveGoesOn<S>(done: seq<Round<S>>, s: S, n: nat, deadline: RetryDeadline, loop: Loop<S>, looked: S)
    requires !loop.complete(s) && loop.lookup(n, s) == Some(looked)
    ensures var round := Round(s, looked, loop.call(n, looked));
            Continued(done, Drive(s, n, deadline, loop)) ==
            if StopsAfter(round.after, n, deadline, loop) then Ended(round.after, n + 1, done + [round])
            else Continued(done + [round], Drive(round.after, n + 1, deadline.AfterBackoff(), loop))
  {
    var round := Round(s, looked, loop.call(n, looked));
    var rest := Drive(round.after, n + 1, deadline.AfterBackoff(), loop).rounds;
    assert done + ([round] + rest) == done + [round] + rest;
  }

  /** Round number `m` follows from the answers of its number. */
  ghost predicate Follows<S>(round: Round<S>, m: nat, loop: Loop<S>) {
    loop.lookup(m, round.before) == Some(round.looked) && round.after == loop.call(m, round.looked)
  }

  /** The rounds of a run from `start`, the first of them with number `n`. */
  ghost predicate Linked<S>(start: S, n: nat, rounds: seq<Round<S>>, loop: Loop<S>) {
    && (rounds != [] ==> rounds[0].before == start)
    && (forall i | 0 < i < |rounds| :: rounds[i].before == rounds[i - 1].after)
    && (forall i | 0 <= i < |rounds| :: Follows(rounds[i], n + i, loop))
  }

  function LastState<S>(start: S, rounds: seq<Round<S>>): S {
    if rounds == [] then start else rounds[|rounds| - 1].after
  }

  lemma LinkOneMore<S>(round: Round<S>, n: nat, rest: seq<Round<S>>, loop: Loop<S>)
    requires Follows(round, n, loop) && Linked(round.after, n + 1, rest, loop)
    ensures Linked(round.before, n, [round] + rest, loop)
  {
    var rounds := [round] + rest;
    forall i | 0 <= i < |rounds| ensures Follows(rounds[i], n + i, loop) {
      if i > 0 {
        assert rounds[i] == rest[i - 1] && n + i == n + 1 + (i - 1);
      }
    }
  }

  /** Every run is a chain of rounds. */
  lemma {:induction false} RunIsLinked<S>(s: S, n: nat, deadline: RetryDeadline, loop: Loop<S>)
    ensures Linked(s, n, Drive(s, n, deadline, loop).rounds, loop)
    ensures Drive(s, n, deadline, loop).state == LastState(s, Drive(s, n, deadline, loop).rounds)
    decreases deadline.maxRetries - deadline.retries
  {
    var e := Drive(s, n, deadline, loop);
    if |e.rounds| > 0 {
      var after := e.rounds[0].after;
      if !StopsAfter(after, n, deadline, loop) {
        RunIsLinked(after, n + 1, deadline.AfterBackoff(), loop);
        LinkOneMore(e.rounds[0], n, Drive(after, n + 1, deadline.AfterBackoff(), loop).rounds, loop);
      }
    }
  }

  /** The rounds of a call are bounded by the retries that its policy allows. */
  lemma {:induction false} RoundsAreBounded<S>(s: S, n: nat, deadline: RetryDeadline, loop: Loop<S>)
    requires deadline.retries <= deadline.maxRetries
    ensures |Drive(s, n, deadline, loop).rounds| <= Drive(s, n, deadline, loop).attempts - n
    ensures Drive(s, n, deadline, loop).attempts - n <= deadline.maxRetries - deadline.retries + 1
    decreases deadline.maxRetries - deadline.retries
  {
    var e := Drive(s, n, deadline, loop);
    if |e.rounds| > 0 && !StopsAfter(e.rounds[0].after, n, deadline, loop) {
      RoundsAreBounded(e.rounds[0].after, n + 1, deadline.AfterBackoff(), loop);
    }
  }

  /** Why a run may stop incomplete: its lookup was in flight at the deadline, its deadline passed, or its
      retries were used up. */
  ghost predicate AtItsLimit<S>(e: Ended<S>, n: nat, deadline: RetryDeadline, loop: Loop<S>) {
    n < e.attempts &&
    var last := e.attempts - 1;
    if |e.rounds| == e.attempts - n then
      || loop.beforeBackoff(last) >= deadline.deadline
      || loop.afterBackoff(last) >= deadline.deadline
      || deadline.retries + (last - n) >= deadline.maxRetries
    else
      |e.rounds| == last - n && loop.lookup(last, e.state).None?
  }

  lemma {:induction false} IncompleteOnlyAtTheLimit<S>(s: S, n: nat, deadline: RetryDeadline, loop: Loop<S>)
    requires !loop.complete(Drive(s, n, deadline, loop).state)
    ensures AtItsLimit(Drive(s, n, deadline, loop), n, deadline, loop)
    decreases deadline.maxRetries - deadline.retries
  {
    var e := Drive(s, n, deadline, loop);
    if |e.rounds| > 0 && !StopsAfter(e.rounds[0].after, n, deadline, loop) {
      var rest := Drive(e.rounds[0].after, n + 1, deadline.AfterBackoff(), loop);
      IncompleteOnlyAtTheLimit(e.rounds[0].after, n + 1, deadline.AfterBackoff(), loop);
      assert |e.rounds| == 1 + |rest.rounds|;
    }
  }

  /** A round was followed by another: it ended before the deadline, the backoff after it did too, and there was a retry
      left. */
  ghost predicate HadTime<S>(i: nat, n: nat, deadline: RetryDeadline, loop: Loop<S>) {
    && loop.beforeBackoff(n + i) < deadline.deadline && loop.afterBackoff(n + i) < deadline.deadline
    && deadline.retries + i < deadline.maxRetries
  }

  /** No round follows one that ended at the deadline or used up the retries, and none follows a complete state. */
  lemma {:induction false} RoundsGoOnOnlyInTime<S>(s: S, n: nat, deadline: RetryDeadline, loop: Loop<S>, i: nat)
    requires i + 1 < |Drive(s, n, deadline, loop).rounds|
    ensures HadTime(i, n, deadline, loop) && !loop.complete(Drive(s, n, deadline, loop).rounds[i].after)
    decreases i
  {
    var e := Drive(s, n, deadline, loop);
    if i > 0 {
      RoundsGoOnOnlyInTime(e.rounds[0].after, n + 1, deadline.AfterBackoff(), loop, i - 1);
      assert n + i == n + 1 + (i - 1);
    }
  }
}
