/** A board says where each key of a batched call stands. The lemmas are about every chain of rounds that
    moves keys only as a round may. */
module Boards {
  import opened Base
  import opened Rounds

  /** One key: without a target, sent to the target `at`, or settled for good. */
  datatype Status<A, V> = Unmapped | Mapped(at: A) | Settled(result: Result<V, KafkaError>)

  type Board<K, A, V> = map<K, Status<A, V>>

  function Waiting<K, A, V>(b: Board<K, A, V>): set<K> {
    set k | k in b && b[k].Unmapped?
  }

  function Pending<K, A, V>(b: Board<K, A, V>): set<K> {
    set k | k in b && !b[k].Settled?
  }

  /** What a round may do with one key: a lookup touches only a key without a target, a call touches only
      a key with one and never moves it to another target. */
  ghost predicate MovesKey<K, A, V>(round: Round<Board<K, A, V>>, k: K) {
    k in round.before && k in round.looked && k in round.after &&
    (!round.before[k].Unmapped? ==> round.looked[k] == round.before[k]) &&
    (!round.looked[k].Mapped? ==> round.after[k] == round.looked[k]) &&
    (round.after[k].Mapped? ==> round.after[k] == round.looked[k])
  }

  ghost predicate Steady<K, A, V>(round: Round<Board<K, A, V>>) {
    && round.before.Keys == round.looked.Keys == round.after.Keys
    && forall k | k in round.before :: MovesKey(round, k)
  }

  /** Steady rounds, each from the board that the one before it left. */
  ghost predicate Chain<K, A, V>(start: Board<K, A, V>, rounds: seq<Round<Board<K, A, V>>>) {
    && (rounds != [] ==> rounds[0].before == start)
    && (forall i | 0 < i < |rounds| :: rounds[i].before == rounds[i - 1].after)
    && (forall i | 0 <= i < |rounds| :: Steady(rounds[i]))
  }

  /** No round gains or loses a key. */
  lemma {:induction false} KeysStay<K, A, V>(start: Board<K, A, V>, rounds: seq<Round<Board<K, A, V>>>, i: nat)
    requires Chain(start, rounds) && i < |rounds|
    ensures rounds[i].before.Keys == rounds[i].looked.Keys == rounds[i].after.Keys == start.Keys
  {
    assert Steady(rounds[i]);
    if i > 0 {
      KeysStay(start, rounds, i - 1);
    }
  }

  /** A settled key keeps its result, is in no later lookup, and is sent nowhere again. */
  lemma {:induction false} SettledStays<K, A, V>(start: Board<K, A, V>, rounds: seq<Round<Board<K, A, V>>>,
                                                 i: nat, j: nat, k: K)
    requires Chain(start, rounds) && i < j < |rounds|
    requires k in rounds[i].after && rounds[i].after[k].Settled?
    ensures k in rounds[j].before && k in rounds[j].looked && k in rounds[j].after
    ensures rounds[j].before[k] == rounds[j].looked[k] == rounds[j].after[k] == rounds[i].after[k]
    ensures k !in Waiting(rounds[j].before) && k !in Pending(rounds[j].looked)
  {
    if i < j - 1 {
      SettledStays(start, rounds, i, j - 1, k);
    }
    assert Steady(rounds[j]);
    assert MovesKey(rounds[j], k);
  }

  /** The round looked `k` up and found the target `a`. */
  ghost predicate FoundIn<K, A, V>(round: Round<Board<K, A, V>>, k: K, a: A) {
    k in Waiting(round.before) && k in round.looked && round.looked[k] == Mapped(a)
  }

  /** `k` had the target `a` at the head of the round, so the round did not look it up. */
  ghost predicate StaysAt<K, A, V>(round: Round<Board<K, A, V>>, k: K, a: A) {
    k in round.before && round.before[k] == Mapped(a) && k !in Waiting(round.before)
  }

  /** A key is sent only to the target of its latest lookup, and every round since that lookup kept it
      there: a retried or omitted key is not looked up again, and a key that lost its target is not sent
      before a new lookup finds one. */
  lemma {:induction false} CallsFollowTheLatestLookup<K, A, V>(
      start: Board<K, A, V>, rounds: seq<Round<Board<K, A, V>>>, j: nat, k: K, a: A)
    requires Chain(start, rounds) && j < |rounds|
    requires forall h | h in start :: start[h].Unmapped?
    requires k in rounds[j].looked && rounds[j].looked[k] == Mapped(a)
    ensures exists i | 0 <= i <= j :: FoundIn(rounds[i], k, a) && forall m | i < m <= j :: StaysAt(rounds[m], k, a)
  {
    KeysStay(start, rounds, j);
    assert MovesKey(rounds[j], k);
    if k in Waiting(rounds[j].before) {
      assert FoundIn(rounds[j], k, a);
    } else {
      KeysStay(start, rounds, j - 1);
      assert MovesKey(rounds[j - 1], k);
      CallsFollowTheLatestLookup(start, rounds, j - 1, k, a);
      var i :| 0 <= i <= j - 1 && FoundIn(rounds[i], k, a) && forall m | i < m <= j - 1 :: StaysAt(rounds[m], k, a);
      assert StaysAt(rounds[j], k, a);
    }
  }

  /** The round settles `k` with `result`. */
  ghost predicate SettlesIn<K, A, V>(round: Round<Board<K, A, V>>, k: K, result: Result<V, KafkaError>) {
    k in round.before && !round.before[k].Settled? && k in round.after && round.after[k] == Settled(result)
  }

  /** A settled key was settled with its result by a round of the run. */
  lemma {:induction false} SettledOnce<K, A, V>(start: Board<K, A, V>, rounds: seq<Round<Board<K, A, V>>>, k: K)
    requires Chain(start, rounds) && |rounds| > 0
    requires forall h | h in start :: start[h].Unmapped?
    requires k in start && rounds[|rounds| - 1].after.Keys == start.Keys
    requires rounds[|rounds| - 1].after[k].Settled?
    ensures exists i | 0 <= i < |rounds| :: SettlesIn(rounds[i], k, rounds[|rounds| - 1].after[k].result)
  {
    var j := |rounds| - 1;
    KeysStay(start, rounds, j);
    assert MovesKey(rounds[j], k);
    if rounds[j].before[k].Settled? {
      KeysStay(start, rounds, j - 1);
      SettledOnce(start, rounds[..j], k);
      var i :| 0 <= i < j && SettlesIn(rounds[..j][i], k, rounds[j - 1].after[k].result);
      assert SettlesIn(rounds[i], k, rounds[j].after[k].result);
    } else {
      assert SettlesIn(rounds[j], k, rounds[j].after[k].result);
    }
  }

  /** No key is settled in two rounds. */
  lemma NoSecondSettling<K, A, V>(start: Board<K, A, V>, rounds: seq<Round<Board<K, A, V>>>, i: nat, j: nat, k: K,
                                  first: Result<V, KafkaError>, second: Result<V, KafkaError>)
    requires Chain(start, rounds) && i < |rounds| && j < |rounds|
    requires SettlesIn(rounds[i], k, first) && SettlesIn(rounds[j], k, second)
    ensures i == j
  {
    if i < j { SettledStays(start, rounds, i, j, k); }
    if j < i { SettledStays(start, rounds, j, i, k); }
  }

  lemma LastKeysStay<K, A, V>(start: Board<K, A, V>, rounds: seq<Round<Board<K, A, V>>>)
    requires Chain(start, rounds)
    ensures LastState(start, rounds).Keys == start.Keys
  {
    if rounds != [] {
      KeysStay(start, rounds, |rounds| - 1);
    }
  }

  /** The round of a run that settled `k`. */
  lemma SettlingRound<K, A, V>(start: Board<K, A, V>, n: nat, rounds: seq<Round<Board<K, A, V>>>,
                               loop: Loop<Board<K, A, V>>, k: K) returns (i: nat)
    requires Chain(start, rounds) && Linked(start, n, rounds, loop)
    requires forall h | h in start :: start[h].Unmapped?
    requires k in start && k in LastState(start, rounds) && LastState(start, rounds)[k].Settled?
    ensures i < |rounds| && Follows(rounds[i], n + i, loop)
    ensures SettlesIn(rounds[i], k, LastState(start, rounds)[k].result)
  {
    LastKeysStay(start, rounds);
    SettledOnce(start, rounds, k);
    i :| 0 <= i < |rounds| && SettlesIn(rounds[i], k, rounds[|rounds| - 1].after[k].result);
  }

  lemma LinkedIsAChain<K, A, V>(start: Board<K, A, V>, n: nat, rounds: seq<Round<Board<K, A, V>>>,
                                loop: Loop<Board<K, A, V>>)
    requires Linked(start, n, rounds, loop)
    requires forall i | 0 <= i < |rounds| :: Follows(rounds[i], n + i, loop) ==> Steady(rounds[i])
    ensures Chain(start, rounds)
  {
  }
}
