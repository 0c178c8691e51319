/** What the answers to a describe call leave, from their rows alone, and the segments as the client runs them. */
module ConsumerAnswers {
  import opened Base
  import opened GroupDriver
  import opened ConsumerDescribe

  // ----- what the rows of an answer leave -----

  /** What a row of `DescribeGroups` says about its group, by its code; `notFound` is the message with which the group
      moved to this API. */
  ghost predicate ClassicSays<V>(row: ClassicRow<V>, notFound: Option<string>, outcome: Outcome<V>) {
    if row.code == 14 then outcome == Retry
    else if row.code in {15, 16} then outcome == Unmap
    else if row.code == 69 then
      outcome == Done(Err(KafkaError(69, FromBroker(if notFound.Some? then notFound else row.message))))
    else if row.code != 0 then outcome == Done(Err(KafkaError(row.code, FromBroker(row.message))))
    else if row.protocolType in {"consumer", ""} && row.decoded.Some? then outcome == Done(Ok(row.decoded.value))
    else outcome == Done(Err(KafkaError(-1, Own(Malformed))))
  }

  /** What a row of `ConsumerGroupDescribe` that does not move its group says about it. */
  ghost predicate ConsumerSays<V>(row: ConsumerRow<V>, outcome: Outcome<V>) {
    if row.code == 0 then outcome == Done(Ok(row.description))
    else if row.code == 14 then outcome == Retry
    else if row.code in {15, 16} then outcome == Unmap
    else outcome == Done(Err(KafkaError(row.code, FromBroker(row.message))))
  }

  /** Every group of a request that failed, other than by its version. */
  ghost predicate FailureSays<V>(error: ClientError, outcome: Outcome<V>) {
    if IsConnectionFailure(Transport(error)) then outcome == Unmap
    else outcome == Done(Err(GroupsKafkaError(Transport(error))))
  }

  ghost predicate MovesOn<V>(row: ConsumerRow<V>, g: string) {
    row.id == g && row.code in {35, 69}
  }

  ghost predicate StaysOn<V>(row: ConsumerRow<V>, g: string) {
    row.id == g && row.code !in {35, 69}
  }

  /** `m` has for `g` what `n` has. */
  ghost predicate SameAt<V>(m: map<string, V>, n: map<string, V>, g: string) {
    (g in m <==> g in n) && (g in m ==> m[g] == n[g])
  }

  /** Row `j` is the last one of its group. */
  ghost predicate LastClassic<V>(rows: seq<ClassicRow<V>>, j: int)
    requires 0 <= j < |rows|
  {
    forall k | j < k < |rows| :: rows[k].id != rows[j].id
  }

  /** The last row of each group decides its outcome, and no other group changes. */
  ghost predicate ClassicRowsGive<V>(rows: seq<ClassicRow<V>>, classic: map<string, Option<string>>,
                                     before: map<string, Outcome<V>>, after: map<string, Outcome<V>>)
  {
    && (forall j | 0 <= j < |rows| && LastClassic(rows, j) ::
          && rows[j].id in after
          && ClassicSays(rows[j], if rows[j].id in classic then classic[rows[j].id] else None, after[rows[j].id]))
    && (forall g | NoClassic(rows, g) :: SameAt(after, before, g))
  }

  ghost predicate NoClassic<V>(rows: seq<ClassicRow<V>>, g: string) {
    forall j | 0 <= j < |rows| :: rows[j].id != g
  }

  lemma ClassicRowsNext<V>(rows: seq<ClassicRow<V>>, row: ClassicRow<V>, classic: map<string, Option<string>>,
                           before: map<string, Outcome<V>>, mid: map<string, Outcome<V>>, outcome: Outcome<V>)
    requires ClassicRowsGive(rows, classic, before, mid)
    requires ClassicSays(row, if row.id in classic then classic[row.id] else None, outcome)
    ensures ClassicRowsGive(rows + [row], classic, before, mid[row.id := outcome])
  {
    var all, after := rows + [row], mid[row.id := outcome];
    forall j | 0 <= j < |all| && LastClassic(all, j)
      ensures all[j].id in after
      ensures ClassicSays(all[j], if all[j].id in classic then classic[all[j].id] else None, after[all[j].id])
    {
      if j < |rows| {
        assert all[|rows|].id != all[j].id;
        assert LastClassic(rows, j) by { assert forall k | j < k < |rows| :: rows[k] == all[k]; }
      }
    }
    forall g | NoClassic(all, g) ensures SameAt(after, before, g) {
      assert all[|rows|].id != g;
      assert NoClassic(rows, g) by { assert forall j | 0 <= j < |rows| :: rows[j] == all[j]; }
    }
  }

  lemma ClassicOutcomeSays<V>(row: ClassicRow<V>, notFound: Option<string>)
    ensures ClassicSays(row, notFound, ClassicOutcome(row, notFound))
  {
  }

  lemma {:induction false} ClassicRowsSay<V>(w: Work<V>, call: nat, rows: seq<ClassicRow<V>>)
    ensures ReadClassicRows(w, call, rows).classic == w.classic
    ensures ClassicRowsGive(rows, w.classic, w.outcomes, ReadClassicRows(w, call, rows).outcomes)
  {
    if rows != [] {
      var front, row := rows[..|rows| - 1], rows[|rows| - 1];
      assert front + [row] == rows;
      ClassicRowsSay(w, call, front);
      var outcome := ClassicOutcome(row, NotFoundOf(w.classic, row.id));
      ClassicOutcomeSays(row, NotFoundOf(w.classic, row.id));
      ClassicRowsNext(front, row, w.classic, w.outcomes, ReadClassicRows(w, call, front).outcomes, outcome);
    }
  }

  /** Each of `keys` has the outcome of the failed request, and no other group changes. */
  ghost predicate FailureGives<V>(error: ClientError, keys: seq<string>, before: map<string, Outcome<V>>,
                                  after: map<string, Outcome<V>>)
  {
    && (forall g | g in keys :: g in after && FailureSays(error, after[g]))
    && (forall g | g !in keys :: SameAt(after, before, g))
  }

  lemma {:induction false} FailureSaysAll<V>(w: Work<V>, call: nat, keys: seq<string>, api: Api, error: ClientError)
    ensures FailureGives(error, keys, w.outcomes, GiveAll(w, call, keys, api, RequestErrorOutcome(error)).outcomes)
    ensures GiveAll(w, call, keys, api, RequestErrorOutcome(error)).classic == w.classic
    ensures GiveAll(w, call, keys, api, RequestErrorOutcome(error)).classicKeys == w.classicKeys
  {
    if keys != [] {
      FailureSaysAll(w, call, keys[..|keys| - 1], api, error);
      assert forall g :: g in keys <==> g in keys[..|keys| - 1] || g == keys[|keys| - 1];
    }
  }

  /** What a call returns after the answer to `DescribeGroups`, from the answer itself. */
  ghost predicate ClassicGives<V>(classic: map<string, Option<string>>, c: Call<V>,
                                  answer: Result<seq<ClassicRow<V>>, ClientError>, next: Call<V>)
    requires c.AwaitsClassic?
  {
    && next.Returned? && next.keys == c.keys && next.answer.Ok?
    && match answer
       case Ok(rows) => ClassicRowsGive(rows, classic, c.outcomes, next.answer.value)
       case Err(error) => FailureGives(error, c.classicKeys, c.outcomes, next.answer.value)
  }

  /** The returned outcomes are those of the rows, or of the failed request. */
  lemma OnClassicGives<V>(classic: map<string, Option<string>>, log: Log<V>, call: nat, c: Call<V>,
                          answer: Result<seq<ClassicRow<V>>, ClientError>)
    requires c.AwaitsClassic?
    ensures ClassicGives(classic, c, answer, OnClassic(classic, log, call, c, answer).1)
    ensures OnClassic(classic, log, call, c, answer).0.classic == classic
  {
    var w := Work(classic, log, [], c.outcomes);
    match answer
    case Ok(rows) => ClassicRowsSay(w, call, rows);
    case Err(error) => FailureSaysAll(w, call, c.classicKeys, ClassicApi, error);
  }

  /** Row `j` is the last one that moves its group. */
  ghost predicate LastMove<V>(rows: seq<ConsumerRow<V>>, j: int)
    requires 0 <= j < |rows|
  {
    rows[j].code in {35, 69} && forall k | j < k < |rows| :: !MovesOn(rows[k], rows[j].id)
  }

  /** Row `j` is the last one that gives its group an outcome. */
  ghost predicate LastStay<V>(rows: seq<ConsumerRow<V>>, j: int)
    requires 0 <= j < |rows|
  {
    rows[j].code !in {35, 69} && forall k | j < k < |rows| :: !StaysOn(rows[k], rows[j].id)
  }

  /** Exactly the groups of a row with code 35 or 69 move, and keep the message of a row with code 69. */
  ghost predicate ConsumerRowsMove<V>(rows: seq<ConsumerRow<V>>, before: map<string, Option<string>>,
                                      keysBefore: seq<string>, after: map<string, Option<string>>,
                                      keysAfter: seq<string>)
  {
    && (forall j | 0 <= j < |rows| && LastMove(rows, j) ::
          rows[j].id in after && after[rows[j].id] == if rows[j].code == 69 then rows[j].message else None)
    && (forall g | NoMove(rows, g) :: SameAt(after, before, g))
    && (forall g :: g in keysAfter <==> g in keysBefore || !NoMove(rows, g))
  }

  ghost predicate NoMove<V>(rows: seq<ConsumerRow<V>>, g: string) {
    forall j | 0 <= j < |rows| :: !MovesOn(rows[j], g)
  }

  lemma NoMoveNext<V>(rows: seq<ConsumerRow<V>>, row: ConsumerRow<V>, g: string)
    ensures NoMove(rows + [row], g) <==> NoMove(rows, g) && !MovesOn(row, g)
  {
    var all := rows + [row];
    assert all[|rows|] == row && forall j | 0 <= j < |rows| :: all[j] == rows[j];
  }

  lemma LastMoveNext<V>(rows: seq<ConsumerRow<V>>, row: ConsumerRow<V>, j: int)
    requires 0 <= j < |rows| && LastMove(rows + [row], j)
    ensures LastMove(rows, j) && !MovesOn(row, rows[j].id)
  {
    var all := rows + [row];
    assert all[|rows|] == row && forall k | 0 <= k < |rows| :: all[k] == rows[k];
  }

  lemma ConsumerRowsMoveNext<V>(rows: seq<ConsumerRow<V>>, row: ConsumerRow<V>, w: Work<V>, mid: Work<V>, r: Work<V>)
    requires ConsumerRowsMove(rows, w.classic, w.classicKeys, mid.classic, mid.classicKeys)
    requires row.code in {35, 69} ==>
               && r.classic == mid.classic[row.id := if row.code == 69 then row.message else None]
               && r.classicKeys == mid.classicKeys + [row.id]
    requires row.code !in {35, 69} ==> r.classic == mid.classic && r.classicKeys == mid.classicKeys
    ensures ConsumerRowsMove(rows + [row], w.classic, w.classicKeys, r.classic, r.classicKeys)
  {
    var all := rows + [row];
    forall j | 0 <= j < |all| && LastMove(all, j)
      ensures all[j].id in r.classic
      ensures r.classic[all[j].id] == if all[j].code == 69 then all[j].message else None
    {
      if j < |rows| { LastMoveNext(rows, row, j); }
    }
    forall g
      ensures NoMove(all, g) ==> SameAt(r.classic, w.classic, g)
      ensures g in r.classicKeys <==> g in w.classicKeys || !NoMove(all, g)
    {
      NoMoveNext(rows, row, g);
    }
  }

  /** Every other row gives its group an outcome, and no other group has one. */
  ghost predicate ConsumerRowsGive<V>(rows: seq<ConsumerRow<V>>, after: map<string, Outcome<V>>) {
    && (forall j | 0 <= j < |rows| && LastStay(rows, j) ::
          rows[j].id in after && ConsumerSays(rows[j], after[rows[j].id]))
    && (forall g | g in after :: exists j | 0 <= j < |rows| :: StaysOn(rows[j], g))
  }

  lemma ConsumerAnswerSays<V>(row: ConsumerRow<V>)
    ensures ConsumerAnswerOf(row).MoveToClassic? <==> row.code in {35, 69}
    ensures row.code in {35, 69} ==>
              ConsumerAnswerOf(row) == MoveToClassic(if row.code == 69 then row.message else None)
    ensures ConsumerAnswerOf(row).Final? ==> ConsumerSays(row, ConsumerAnswerOf(row).outcome)
  {
  }

  lemma {:induction false} ConsumerRowsMoveOn<V>(w: Work<V>, call: nat, rows: seq<ConsumerRow<V>>)
    ensures var r := ReadConsumerRows(w, call, rows);
            ConsumerRowsMove(rows, w.classic, w.classicKeys, r.classic, r.classicKeys)
  {
    if rows != [] {
      var front, row := rows[..|rows| - 1], rows[|rows| - 1];
      assert front + [row] == rows;
      ConsumerRowsMoveOn(w, call, front);
      ConsumerAnswerSays(row);
      ConsumerRowsMoveNext(front, row, w, ReadConsumerRows(w, call, front), ReadConsumerRows(w, call, rows));
    }
  }

  lemma {:induction false} ConsumerRowsGiveOut<V>(w: Work<V>, call: nat, rows: seq<ConsumerRow<V>>)
    requires w.outcomes == map[]
    ensures ConsumerRowsGive(rows, ReadConsumerRows(w, call, rows).outcomes)
  {
    if rows != [] {
      var n := |rows| - 1;
      var front, row := rows[..n], rows[n];
      ConsumerRowsGiveOut(w, call, front);
      ConsumerAnswerSays(row);
      var after := ReadConsumerRows(w, call, rows).outcomes;
      forall j | 0 <= j < |rows| && LastStay(rows, j)
        ensures rows[j].id in after && ConsumerSays(rows[j], after[rows[j].id])
      {
        if j < n { assert LastStay(front, j) && front[j] == rows[j] && !StaysOn(row, rows[j].id); }
      }
      forall g | g in after ensures exists j | 0 <= j < |rows| :: StaysOn(rows[j], g) {
        if g in ReadConsumerRows(w, call, front).outcomes {
          var j :| 0 <= j < n && StaysOn(front[j], g);
          assert StaysOn(rows[j], g);
        } else {
          assert StaysOn(rows[n], g);
        }
      }
    }
  }

  /** Every one of `keys` is classic now, no classic group changes, and all of them are asked there. */
  ghost predicate AllMove(keys: seq<string>, before: map<string, Option<string>>, keysBefore: seq<string>,
                          after: map<string, Option<string>>, keysAfter: seq<string>)
  {
    && (forall g | g in keys && g !in before :: g in after && after[g] == None)
    && (forall g | g in before || g !in keys :: SameAt(after, before, g))
    && (forall g :: g in keysAfter <==> g in keysBefore || g in keys)
  }

  lemma {:induction false} MoveAllMoves<V>(w: Work<V>, keys: seq<string>)
    ensures AllMove(keys, w.classic, w.classicKeys, MoveAll(w, keys).classic, MoveAll(w, keys).classicKeys)
    ensures MoveAll(w, keys).outcomes == w.outcomes
  {
    if keys != [] {
      MoveAllMoves(w, keys[..|keys| - 1]);
      assert forall g :: g in keys <==> g in keys[..|keys| - 1] || g == keys[|keys| - 1];
    }
  }

  /** A call without groups for `DescribeGroups` returns its outcomes, any other asks there. */
  ghost predicate GoesOn<V>(keys: seq<string>, next: Call<V>, classicKeys: seq<string>,
                            outcomes: map<string, Outcome<V>>)
  {
    next == if classicKeys == [] then Returned(keys, Ok(outcomes)) else AwaitsClassic(keys, classicKeys, outcomes)
  }

  function ClassicKeysOf<V>(c: Call<V>): seq<string> {
    if c.AwaitsClassic? then c.classicKeys else []
  }

  function OutcomesOf<V>(c: Call<V>): map<string, Outcome<V>> {
    if c.AwaitsClassic? then c.outcomes else if c.Returned? && c.answer.Ok? then c.answer.value else map[]
  }

  /** What a call does after the answer to `ConsumerGroupDescribe`, from the answer itself. */
  ghost predicate ConsumerGives<V>(before: map<string, Option<string>>, c: Call<V>,
                                   answer: Result<seq<ConsumerRow<V>>, ClientError>,
                                   after: map<string, Option<string>>, next: Call<V>)
    requires c.AwaitsConsumer?
  {
    var keys, outcomes := ClassicKeysOf(next), OutcomesOf(next);
    if answer.Err? && IsConnectionFailure(Transport(answer.error)) then
      after == before && next == Returned(c.keys, Err(Transport(answer.error)))
    else
      && GoesOn(c.keys, next, keys, outcomes)
      && match answer
         case Ok(rows) =>
           ConsumerRowsMove(rows, before, c.classicKeys, after, keys) && ConsumerRowsGive(rows, outcomes)
         case Err(error) =>
           if error.IncompatibleVersion? then
             AllMove(c.consumerKeys, before, c.classicKeys, after, keys) && outcomes == map[]
           else after == before && keys == c.classicKeys && FailureGives(error, c.consumerKeys, map[], outcomes)
  }

  lemma ToClassicGoesOn<V>(w: Work<V>, call: nat, keys: seq<string>)
    ensures var (v, next) := ToClassic(w, call, keys);
            && v.classic == w.classic && GoesOn(keys, next, w.classicKeys, w.outcomes)
            && ClassicKeysOf(next) == w.classicKeys && OutcomesOf(next) == w.outcomes
  {
  }

  /** The groups that move, the outcomes, and the groups asked next are those of the rows, or of the failed request. */
  lemma OnConsumerGives<V>(classic: map<string, Option<string>>, log: Log<V>, call: nat, c: Call<V>,
                           answer: Result<seq<ConsumerRow<V>>, ClientError>)
    requires c.AwaitsConsumer?
    ensures var (w, next) := OnConsumer(classic, log, call, c, answer);
            ConsumerGives(classic, c, answer, w.classic, next)
  {
    var w := Work(classic, log, c.classicKeys, map[]);
    match answer
    case Ok(rows) =>
      ConsumerRowsMoveOn(w, call, rows);
      ConsumerRowsGiveOut(w, call, rows);
      ToClassicGoesOn(ReadConsumerRows(w, call, rows), call, c.keys);
    case Err(error) =>
      MoveAllMoves(w, c.consumerKeys);
      FailureSaysAll(w, call, c.consumerKeys, ConsumerApi, error);
      ToClassicGoesOn(MoveAll(w, c.consumerKeys), call, c.keys);
      ToClassicGoesOn(GiveAll(w, call, c.consumerKeys, ConsumerApi, RequestErrorOutcome(error)), call, c.keys);
  }

  /** What a call does first: the groups that are classic are not asked on `ConsumerGroupDescribe`, every other one is,
      and all of them become classic when the coordinator does not know that request. */
  ghost predicate StartGives<V>(before: map<string, Option<string>>, keys: seq<string>, supported: bool,
                                after: map<string, Option<string>>, next: Call<V>)
  {
    if supported && exists g | g in keys :: g !in before then
      && after == before && next.AwaitsConsumer? && next.keys == keys
      && (forall g :: g in next.consumerKeys <==> g in keys && g !in before)
      && (forall g :: g in next.classicKeys <==> g in keys && g in before)
    else
      && GoesOn(keys, next, ClassicKeysOf(next), map[])
      && (forall g :: g in ClassicKeysOf(next) <==> g in keys)
      && (forall g | g in keys && g !in before :: g in after && after[g] == None)
      && (forall g | g in before || g !in keys :: SameAt(after, before, g))
  }

  lemma BeginGives<V>(classic: map<string, Option<string>>, log: Log<V>, call: nat, keys: seq<string>, supported: bool)
    ensures var (w, next) := Begin(classic, log, call, keys, supported);
            StartGives(classic, keys, supported, w.classic, next)
  {
    var consumerKeys := Keep(keys, classic, false);
    var w := Work(classic, log, Keep(keys, classic, true), map[]);
    if !supported {
      MoveAllMoves(w, consumerKeys);
      ToClassicGoesOn(MoveAll(w, consumerKeys), call, keys);
    } else if consumerKeys != [] {
      assert consumerKeys[0] in consumerKeys;
    } else {
      ToClassicGoesOn(w, call, keys);
    }
  }

  /** Where each group of a call is: it has an outcome, or the call still asks for it. */
  ghost predicate Accounted<V>(c: Call<V>, g: string) {
    match c
    case AwaitsConsumer(_, consumerKeys, classicKeys) => g in consumerKeys || g in classicKeys
    case AwaitsClassic(_, classicKeys, outcomes) => g in classicKeys || g in outcomes
    case Returned(_, answer) => answer.Ok? ==> g in answer.value
  }

  /** No group of a call is lost when the answers name every asked group: each is asked, and has an outcome when the
      call returns one map. */
  lemma StartAccounts<V>(before: map<string, Option<string>>, keys: seq<string>, supported: bool,
                         after: map<string, Option<string>>, next: Call<V>, g: string)
    requires StartGives(before, keys, supported, after, next) && g in keys
    ensures Accounted(next, g)
  {
    assert supported && g !in before ==> exists h | h in keys :: h !in before;
  }

  lemma {:induction false} SomeLastStay<V>(rows: seq<ConsumerRow<V>>, g: string)
    requires exists j | 0 <= j < |rows| :: StaysOn(rows[j], g)
    ensures exists j | 0 <= j < |rows| :: rows[j].id == g && LastStay(rows, j)
  {
    var n := |rows| - 1;
    if StaysOn(rows[n], g) {
      assert LastStay(rows, n);
    } else {
      var k :| 0 <= k < |rows| && StaysOn(rows[k], g);
      assert StaysOn(rows[..n][k], g);
      SomeLastStay(rows[..n], g);
      var j :| 0 <= j < n && rows[..n][j].id == g && LastStay(rows[..n], j);
      assert forall k | j < k < n :: !StaysOn(rows[..n][k], g);
      assert LastStay(rows, j);
    }
  }

  lemma {:induction false} SomeLastClassic<V>(rows: seq<ClassicRow<V>>, g: string)
    requires exists j | 0 <= j < |rows| :: rows[j].id == g
    ensures exists j | 0 <= j < |rows| :: rows[j].id == g && LastClassic(rows, j)
  {
    var n := |rows| - 1;
    if rows[n].id == g {
      assert LastClassic(rows, n);
    } else {
      var k :| 0 <= k < |rows| && rows[k].id == g;
      assert rows[..n][k].id == g;
      SomeLastClassic(rows[..n], g);
      var j :| 0 <= j < n && rows[..n][j].id == g && LastClassic(rows[..n], j);
      assert forall k | j < k < n :: rows[..n][k].id != g;
      assert LastClassic(rows, j);
    }
  }

  lemma ConsumerAccounts<V>(before: map<string, Option<string>>, c: Call<V>,
                            answer: Result<seq<ConsumerRow<V>>, ClientError>,
                            after: map<string, Option<string>>, next: Call<V>, g: string)
    requires c.AwaitsConsumer? && ConsumerGives(before, c, answer, after, next) && Accounted(c, g)
    requires answer.Ok? ==> forall h | h in c.consumerKeys :: h in ConsumerIds(answer.value)
    ensures Accounted(next, g)
  {
    if answer.Ok? && g !in c.classicKeys {
      var rows := answer.value;
      var j :| 0 <= j < |rows| && ConsumerIds(rows)[j] == g;
      assert MovesOn(rows[j], g) || StaysOn(rows[j], g);
      if StaysOn(rows[j], g) { SomeLastStay(rows, g); }
    }
  }

  lemma ClassicAccounts<V>(classic: map<string, Option<string>>, c: Call<V>,
                           answer: Result<seq<ClassicRow<V>>, ClientError>, next: Call<V>, g: string)
    requires c.AwaitsClassic? && ClassicGives(classic, c, answer, next) && Accounted(c, g)
    requires answer.Ok? ==> forall h | h in c.classicKeys :: h in ClassicIds(answer.value)
    ensures Accounted(next, g)
  {
    if answer.Ok? {
      var rows := answer.value;
      if exists j | 0 <= j < |rows| :: rows[j].id == g {
        SomeLastClassic(rows, g);
      } else {
        assert g !in ClassicIds(rows);
        assert SameAt(next.answer.value, c.outcomes, g);
      }
    }
  }

  /** The client side of the segments: the shared set, which each segment updates in place. */
  class ClassicGroups<V> {
    var classic: map<string, Option<string>>

    constructor ()
      ensures classic == map[]
    {
      classic := map[];
    }

    method MoveGroups(moved: seq<string>, classicKeys: seq<string>, ghost w: Work<V>) returns (keys: seq<string>)
      requires w.classic == classic && w.classicKeys == classicKeys
      modifies this
      ensures classic == MoveAll(w, moved).classic && keys == MoveAll(w, moved).classicKeys
    {
      keys := classicKeys;
      for i := 0 to |moved|
        invariant classic == MoveAll(w, moved[..i]).classic && keys == MoveAll(w, moved[..i]).classicKeys
      {
        assert moved[..i + 1][..i] == moved[..i];
        if moved[i] !in classic {
          classic := classic[moved[i] := None];
        }
        keys := keys + [moved[i]];
      }
      assert moved[..|moved|] == moved;
    }

    method ReadConsumer(rows: seq<ConsumerRow<V>>, classicKeys: seq<string>, ghost w: Work<V>, ghost call: nat)
      returns (keys: seq<string>, outcomes: map<string, Outcome<V>>)
      requires w.classic == classic && w.classicKeys == classicKeys && w.outcomes == map[]
      modifies this
      ensures var r := ReadConsumerRows(w, call, rows);
              classic == r.classic && keys == r.classicKeys && outcomes == r.outcomes
    {
      keys, outcomes := classicKeys, map[];
      for i := 0 to |rows|
        invariant var r := ReadConsumerRows(w, call, rows[..i]);
                  classic == r.classic && keys == r.classicKeys && outcomes == r.outcomes
      {
        assert rows[..i + 1][..i] == rows[..i];
        match ConsumerAnswerOf(rows[i]) {
          case Final(outcome) => outcomes := outcomes[rows[i].id := outcome];
          case MoveToClassic(notFound) =>
            classic := classic[rows[i].id := notFound];
            keys := keys + [rows[i].id];
        }
      }
      assert rows[..|rows|] == rows;
    }

    method GiveEach(given: seq<string>, start: map<string, Outcome<V>>, outcome: Outcome<V>,
                    ghost w: Work<V>, ghost call: nat, ghost api: Api)
      returns (outcomes: map<string, Outcome<V>>)
      requires w.outcomes == start
      ensures outcomes == GiveAll(w, call, given, api, outcome).outcomes
    {
      outcomes := start;
      for i := 0 to |given|
        invariant outcomes == GiveAll(w, call, given[..i], api, outcome).outcomes
      {
        assert given[..i + 1][..i] == given[..i];
        outcomes := outcomes[given[i] := outcome];
      }
      assert given[..|given|] == given;
    }

    /** Runs the first segment of a call. */
    method StartCall(keys: seq<string>, supported: bool, ghost log: Log<V>, ghost call: nat) returns (next: Call<V>)
      modifies this
      ensures var (w, c) := Begin(old(classic), log, call, keys, supported); classic == w.classic && next == c
      ensures StartGives(old(classic), keys, supported, classic, next)
    {
      BeginGives(classic, log, call, keys, supported);
      var classicKeys, consumerKeys := Keep(keys, classic, true), Keep(keys, classic, false);
      ghost var w: Work<V> := Work(classic, log, classicKeys, map[]);
      if supported && consumerKeys != [] {
        return AwaitsConsumer(keys, consumerKeys, classicKeys);
      }
      if !supported {
        classicKeys := MoveGroups(consumerKeys, classicKeys, w);
        MoveAllMoves(w, consumerKeys);
      }
      next := if classicKeys == [] then Returned(keys, Ok(map[])) else AwaitsClassic(keys, classicKeys, map[]);
    }

    /** Runs the segment after the `ConsumerGroupDescribe` answer. */
    method ConsumerAnswered(c: Call<V>, answer: Result<seq<ConsumerRow<V>>, ClientError>, ghost log: Log<V>,
                            ghost call: nat)
      returns (next: Call<V>)
      requires c.AwaitsConsumer?
      modifies this
      ensures var (w, d) := OnConsumer(old(classic), log, call, c, answer); classic == w.classic && next == d
      ensures ConsumerGives(old(classic), c, answer, classic, next)
    {
      OnConsumerGives(classic, log, call, c, answer);
      ghost var w: Work<V> := Work(classic, log, c.classicKeys, map[]);
      var classicKeys, outcomes := c.classicKeys, map[];
      match answer {
        case Ok(rows) => classicKeys, outcomes := ReadConsumer(rows, classicKeys, w, call);
        case Err(error) =>
          if error.IncompatibleVersion? {
            classicKeys := MoveGroups(c.consumerKeys, classicKeys, w);
            MoveAllMoves(w, c.consumerKeys);
          } else if IsConnectionFailure(Transport(error)) {
            return Returned(c.keys, Err(Transport(error)));
          } else {
            outcomes := GiveEach(c.consumerKeys, outcomes, RequestErrorOutcome(error), w, call, ConsumerApi);
            FailureSaysAll(w, call, c.consumerKeys, ConsumerApi, error);
          }
      }
      next := if classicKeys == [] then Returned(c.keys, Ok(outcomes))
              else AwaitsClassic(c.keys, classicKeys, outcomes);
    }

    /** Runs the segment after the `DescribeGroups` answer. The set of classic groups is only read. */
    method ClassicAnswered(c: Call<V>, answer: Result<seq<ClassicRow<V>>, ClientError>, ghost log: Log<V>,
                           ghost call: nat)
      returns (next: Call<V>)
      requires c.AwaitsClassic?
      ensures next == OnClassic(classic, log, call, c, answer).1
      ensures ClassicGives(classic, c, answer, next)
    {
      OnClassicGives(classic, log, call, c, answer);
      ghost var w: Work<V> := Work(classic, log, [], c.outcomes);
      var outcomes := c.outcomes;
      match answer {
        case Ok(rows) =>
          for i := 0 to |rows|
            invariant outcomes == ReadClassicRows(w, call, rows[..i]).outcomes
            invariant ReadClassicRows(w, call, rows[..i]).classic == classic
          {
            assert rows[..i + 1][..i] == rows[..i];
            outcomes := outcomes[rows[i].id := ClassicOutcome(rows[i], NotFoundOf(classic, rows[i].id))];
          }
          assert rows[..|rows|] == rows;
        case Err(error) =>
          outcomes := GiveEach(c.classicKeys, outcomes, RequestErrorOutcome(error), w, call, ClassicApi);
      }
      next := Returned(c.keys, Ok(outcomes));
    }
  }
}
