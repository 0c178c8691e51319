/** What holds of every run of `describe_consumer_groups`, whatever the answers name, and exactly when the rest does. */
module ConsumerRuns {
  import opened Base
  import opened GroupDriver
  import opened ConsumerDescribe

  // ----- what every event of every run keeps -----

  /** `e` may follow `log` in any run: a moved group is in no later `ConsumerGroupDescribe`, only moved groups are in
      a `DescribeGroups`, and a final `GROUP_ID_NOT_FOUND` comes from there with the latest message of the move. */
  ghost predicate MayAlways<V>(log: Log<V>, e: Event<V>) {
    match e
    case AskedConsumer(call, keys) => forall g | g in keys :: g !in MovedIn(log)
    case Moved(group, _) => true
    case AskedClassic(call, keys) => forall g | g in keys :: g in MovedIn(log)
    case Gave(call, group, api, outcome) =>
      IsNotFound(outcome) ==>
        api.ClassicApi? && (group in MovedIn(log) && MovedIn(log)[group].Some? ==>
                              outcome.result.error.message == FromBroker(MovedIn(log)[group]))
  }

  ghost predicate Asks<V>(log: Log<V>) {
    log == [] || (Asks(log[..|log| - 1]) && MayAlways(log[..|log| - 1], log[|log| - 1]))
  }

  lemma OneMore<V>(log: Log<V>, e: Event<V>)
    ensures MovedIn(log + [e]) == if e.Moved? then MovedIn(log)[e.group := e.notFound] else MovedIn(log)
    ensures forall call :: GivenBy(log + [e], call) ==
                           GivenBy(log, call) + if e.Gave? && e.call == call then {e.group} else {}
    ensures Asks(log + [e]) <==> Asks(log) && MayAlways(log, e)
    ensures Orderly(log + [e]) <==> Orderly(log) && MayFollow(log, e)
  {
    assert (log + [e])[..|log|] == log;
  }

  lemma OrderlyMore<V>(log: Log<V>, e: Event<V>)
    ensures Orderly(log + [e]) <==> Orderly(log) && MayFollow(log, e)
  {
    assert (log + [e])[..|log|] == log;
  }

  /** The work of `call` agrees with its log, whatever it was answered. */
  ghost predicate Plain<V>(w: Work<V>, call: nat) {
    && w.classic == MovedIn(w.log) && Asks(w.log) && w.outcomes.Keys == GivenBy(w.log, call)
    && forall g | g in w.classicKeys :: g in w.classic
  }

  /** `w` came from `v` by work of `call`. No classic group is lost. */
  ghost predicate Grows<V>(v: Work<V>, w: Work<V>, call: nat) {
    && v.log <= w.log && v.classic.Keys <= w.classic.Keys
    && forall other | other != call :: GivenBy(w.log, other) == GivenBy(v.log, other)
  }

  lemma MoveIsPlain<V>(w: Work<V>, call: nat, g: string, notFound: Option<string>)
    requires Plain(w, call)
    ensures Plain(MoveOne(w, g, notFound), call) && Grows(w, MoveOne(w, g, notFound), call)
  {
    OneMore(w.log, Moved(g, notFound));
  }

  lemma GiveIsPlain<V>(w: Work<V>, call: nat, g: string, api: Api, outcome: Outcome<V>)
    requires Plain(w, call) && MayAlways(w.log, Gave(call, g, api, outcome))
    ensures Plain(GiveOne(w, call, g, api, outcome), call) && Grows(w, GiveOne(w, call, g, api, outcome), call)
  {
    OneMore(w.log, Gave(call, g, api, outcome));
  }

  lemma {:induction false} MoveAllIsPlain<V>(w: Work<V>, call: nat, moved: seq<string>)
    requires Plain(w, call)
    ensures Plain(MoveAll(w, moved), call) && Grows(w, MoveAll(w, moved), call)
    ensures MoveAll(w, moved).outcomes == w.outcomes
    ensures Orderly(MoveAll(w, moved).log) <==> Orderly(w.log)
  {
    if moved != [] {
      var rest, g := MoveAll(w, moved[..|moved| - 1]), moved[|moved| - 1];
      MoveAllIsPlain(w, call, moved[..|moved| - 1]);
      if g !in rest.classic {
        MoveIsPlain(rest, call, g, None);
        OneMore(rest.log, Moved(g, None));
      }
    }
  }

  /** A row that moves its group to the classic API. */
  predicate Moves<V>(row: ConsumerRow<V>) {
    ConsumerAnswerOf(row).MoveToClassic?
  }

  function EventOf<V>(call: nat, row: ConsumerRow<V>): Event<V> {
    match ConsumerAnswerOf(row)
    case Final(outcome) => Gave(call, row.id, ConsumerApi, outcome)
    case MoveToClassic(notFound) => Moved(row.id, notFound)
  }

  lemma ConsumerRowIsPlain<V>(w: Work<V>, call: nat, row: ConsumerRow<V>)
    requires Plain(w, call)
    ensures var r := ReadConsumerRow(w, call, row);
            Plain(r, call) && Grows(w, r, call) && r.log == w.log + [EventOf(call, row)]
  {
    match ConsumerAnswerOf(row)
    case Final(outcome) => GiveIsPlain(w, call, row.id, ConsumerApi, outcome);
    case MoveToClassic(notFound) => MoveIsPlain(w, call, row.id, notFound);
  }

  lemma {:induction false} ConsumerRowsArePlain<V>(w: Work<V>, call: nat, rows: seq<ConsumerRow<V>>)
    requires Plain(w, call)
    ensures Plain(ReadConsumerRows(w, call, rows), call) && Grows(w, ReadConsumerRows(w, call, rows), call)
  {
    if rows != [] {
      ConsumerRowsArePlain(w, call, rows[..|rows| - 1]);
      ConsumerRowIsPlain(ReadConsumerRows(w, call, rows[..|rows| - 1]), call, rows[|rows| - 1]);
    }
  }

  lemma {:induction false} ClassicRowsArePlain<V>(w: Work<V>, call: nat, rows: seq<ClassicRow<V>>)
    requires Plain(w, call)
    ensures var r := ReadClassicRows(w, call, rows);
            Plain(r, call) && Grows(w, r, call) && r.classic == w.classic && r.classicKeys == w.classicKeys
  {
    if rows != [] {
      var rest, row := ReadClassicRows(w, call, rows[..|rows| - 1]), rows[|rows| - 1];
      ClassicRowsArePlain(w, call, rows[..|rows| - 1]);
      GiveIsPlain(rest, call, row.id, ClassicApi, ClassicOutcome(row, NotFoundOf(rest.classic, row.id)));
    }
  }

  lemma {:induction false} GiveAllIsPlain<V>(w: Work<V>, call: nat, keys: seq<string>, api: Api, error: ClientError)
    requires Plain(w, call)
    ensures var r := GiveAll(w, call, keys, api, RequestErrorOutcome(error));
            Plain(r, call) && Grows(w, r, call) && r.classic == w.classic && r.classicKeys == w.classicKeys
  {
    if keys != [] {
      GiveAllIsPlain(w, call, keys[..|keys| - 1], api, error);
      var rest := GiveAll(w, call, keys[..|keys| - 1], api, RequestErrorOutcome(error));
      GiveIsPlain(rest, call, keys[|keys| - 1], api, RequestErrorOutcome(error));
    }
  }

  // ----- every step of every run -----

  /** A call agrees with the shared state, whatever it was answered. */
  ghost predicate CallIsPlain<V>(classic: map<string, Option<string>>, log: Log<V>, call: nat, c: Call<V>) {
    match c
    case AwaitsConsumer(keys, consumerKeys, classicKeys) => Plain(Work(classic, log, classicKeys, map[]), call)
    case AwaitsClassic(keys, classicKeys, outcomes) => Plain(Work(classic, log, classicKeys, outcomes), call)
    case Returned(keys, answer) => true
  }

  ghost predicate PlainState<V>(s: State<V>) {
    && s.classic == MovedIn(s.log) && Asks(s.log)
    && (forall call | call in s.calls :: CallIsPlain(s.classic, s.log, call, s.calls[call]))
    && (forall call | call !in s.calls :: GivenBy(s.log, call) == {})
  }

  /** What every segment of `call` does, from `w` on, when the log that it leaves is orderly exactly as `fine` says. */
  ghost predicate Segment<V>(w: Work<V>, done: (Work<V>, Call<V>), call: nat, fine: bool) {
    && Grows(w, done.0, call) && done.0.classic == MovedIn(done.0.log) && Asks(done.0.log)
    && CallIsPlain(done.0.classic, done.0.log, call, done.1)
    && (Orderly(done.0.log) <==> Orderly(w.log) && fine)
  }

  lemma ToClassicIsPlain<V>(v: Work<V>, w: Work<V>, call: nat, keys: seq<string>, fine: bool)
    requires Plain(w, call) && Grows(v, w, call) && (Orderly(w.log) <==> Orderly(v.log) && fine)
    ensures Segment(v, ToClassic(w, call, keys), call, fine)
  {
    OneMore(w.log, AskedClassic(call, w.classicKeys));
  }

  lemma BeginIsPlain<V>(classic: map<string, Option<string>>, log: Log<V>, call: nat, keys: seq<string>,
                        supported: bool)
    requires classic == MovedIn(log) && Asks(log) && GivenBy(log, call) == {}
    ensures Segment(Work(classic, log, [], map[]), Begin(classic, log, call, keys, supported), call, true)
  {
    var v: Work<V> := Work(classic, log, [], map[]);
    var consumerKeys := Keep(keys, classic, false);
    var w := Work(classic, log, Keep(keys, classic, true), map[]);
    if !supported {
      MoveAllIsPlain(w, call, consumerKeys);
      ToClassicIsPlain(v, MoveAll(w, consumerKeys), call, keys, true);
    } else if consumerKeys != [] {
      OneMore(log, AskedConsumer(call, consumerKeys));
    } else {
      ToClassicIsPlain(v, w, call, keys, true);
    }
  }

  // ----- which answers keep the log orderly -----

  /** Row `j` names a group that is not classic, and no row before it names the same group, unless that one gave the
      outcome and this one only moves. */
  ghost predicate FineRow<V>(rows: seq<ConsumerRow<V>>, j: nat, classic: map<string, Option<string>>)
    requires j < |rows|
  {
    && rows[j].id !in classic
    && forall i | 0 <= i < j && rows[i].id == rows[j].id :: Moves(rows[j]) && !Moves(rows[i])
  }

  /** Row `j` names a classic group without an outcome, which no row before it names. */
  ghost predicate FineClassicRow<V>(rows: seq<ClassicRow<V>>, j: nat, classic: map<string, Option<string>>,
                                    outcomes: map<string, Outcome<V>>)
    requires j < |rows|
  {
    rows[j].id in classic && rows[j].id !in outcomes && forall i | 0 <= i < j :: rows[i].id != rows[j].id
  }

  /** What reading the rows leaves: the groups that a row moved, and those that a row gave an outcome. */
  lemma {:induction false} ConsumerRowsLeave<V>(w: Work<V>, call: nat, rows: seq<ConsumerRow<V>>, g: string)
    requires Plain(w, call)
    ensures var r := ReadConsumerRows(w, call, rows);
            && (g in r.classic <==> g in w.classic || exists i | 0 <= i < |rows| :: rows[i].id == g && Moves(rows[i]))
            && (g in r.outcomes <==>
                g in w.outcomes || exists i | 0 <= i < |rows| :: rows[i].id == g && !Moves(rows[i]))
  {
    if rows != [] {
      var front := rows[..|rows| - 1];
      ConsumerRowsLeave(w, call, front, g);
      assert forall i | 0 <= i < |front| :: front[i] == rows[i];
    }
  }

  lemma RowMayFollow<V>(w: Work<V>, call: nat, rows: seq<ConsumerRow<V>>, n: nat)
    requires Plain(w, call) && w.outcomes == map[] && n < |rows|
    ensures MayFollow(ReadConsumerRows(w, call, rows[..n]).log, EventOf(call, rows[n])) <==> FineRow(rows, n, w.classic)
  {
    var r := ReadConsumerRows(w, call, rows[..n]);
    ConsumerRowsArePlain(w, call, rows[..n]);
    ConsumerRowsLeave(w, call, rows[..n], rows[n].id);
    assert forall i | 0 <= i < n :: rows[..n][i] == rows[i];
    assert r.classic == MovedIn(r.log) && r.outcomes.Keys == GivenBy(r.log, call);
  }

  lemma {:induction false} ConsumerRowsOrderly<V>(w: Work<V>, call: nat, rows: seq<ConsumerRow<V>>, n: nat)
    requires Plain(w, call) && w.outcomes == map[] && n <= |rows|
    ensures Orderly(ReadConsumerRows(w, call, rows[..n]).log) <==>
            Orderly(w.log) && forall j | 0 <= j < n :: FineRow(rows, j, w.classic)
  {
    if n > 0 {
      ConsumerRowsOrderly(w, call, rows, n - 1);
      RowMayFollow(w, call, rows, n - 1);
      var r := ReadConsumerRows(w, call, rows[..n - 1]);
      assert rows[..n][..n - 1] == rows[..n - 1];
      ConsumerRowsArePlain(w, call, rows[..n - 1]);
      ConsumerRowIsPlain(r, call, rows[n - 1]);
      OrderlyMore(r.log, EventOf(call, rows[n - 1]));
    }
  }

  lemma {:induction false} ClassicRowsLeave<V>(w: Work<V>, call: nat, rows: seq<ClassicRow<V>>, g: string)
    ensures g in ReadClassicRows(w, call, rows).outcomes <==>
            g in w.outcomes || exists i | 0 <= i < |rows| :: rows[i].id == g
  {
    if rows != [] {
      var front := rows[..|rows| - 1];
      ClassicRowsLeave(w, call, front, g);
      assert forall i | 0 <= i < |front| :: front[i] == rows[i];
    }
  }

  lemma ClassicRowMayFollow<V>(w: Work<V>, call: nat, rows: seq<ClassicRow<V>>, n: nat, outcome: Outcome<V>)
    requires Plain(w, call) && n < |rows| && outcome == ClassicOutcome(rows[n], NotFoundOf(w.classic, rows[n].id))
    ensures MayFollow(ReadClassicRows(w, call, rows[..n]).log, Gave(call, rows[n].id, ClassicApi, outcome)) <==>
            FineClassicRow(rows, n, w.classic, w.outcomes)
  {
    var r := ReadClassicRows(w, call, rows[..n]);
    ClassicRowsArePlain(w, call, rows[..n]);
    ClassicRowsLeave(w, call, rows[..n], rows[n].id);
    assert forall i | 0 <= i < n :: rows[..n][i] == rows[i];
    assert r.classic == MovedIn(r.log) && r.outcomes.Keys == GivenBy(r.log, call);
  }

  ghost predicate FineUpTo<V>(rows: seq<ClassicRow<V>>, n: nat, classic: map<string, Option<string>>,
                              outcomes: map<string, Outcome<V>>)
    requires n <= |rows|
  {
    forall j | 0 <= j < n :: FineClassicRow(rows, j, classic, outcomes)
  }

  lemma FineMore<V>(rows: seq<ClassicRow<V>>, n: nat, classic: map<string, Option<string>>,
                    outcomes: map<string, Outcome<V>>)
    requires 0 < n <= |rows|
    ensures FineUpTo(rows, n, classic, outcomes) <==>
            FineUpTo(rows, n - 1, classic, outcomes) && FineClassicRow(rows, n - 1, classic, outcomes)
  {
  }

  lemma ClassicRowLogged<V>(w: Work<V>, call: nat, rows: seq<ClassicRow<V>>, n: nat)
    requires n < |rows|
    ensures var r := ReadClassicRows(w, call, rows[..n]);
            ReadClassicRows(w, call, rows[..n + 1]).log ==
            r.log + [Gave(call, rows[n].id, ClassicApi, ClassicOutcome(rows[n], NotFoundOf(r.classic, rows[n].id)))]
  {
    assert rows[..n + 1][..n] == rows[..n];
  }

  lemma ClassicRowOrderly<V>(w: Work<V>, call: nat, rows: seq<ClassicRow<V>>, n: nat)
    requires Plain(w, call) && n < |rows|
    ensures Orderly(ReadClassicRows(w, call, rows[..n + 1]).log) <==>
            Orderly(ReadClassicRows(w, call, rows[..n]).log) && FineClassicRow(rows, n, w.classic, w.outcomes)
  {
    var row := rows[n];
    ClassicRowsArePlain(w, call, rows[..n]);
    var r := ReadClassicRows(w, call, rows[..n]);
    var outcome := ClassicOutcome(row, NotFoundOf(r.classic, row.id));
    ClassicRowMayFollow(w, call, rows, n, outcome);
    ClassicRowLogged(w, call, rows, n);
    OrderlyMore(r.log, Gave(call, row.id, ClassicApi, outcome));
  }

  lemma {:induction false} ClassicRowsOrderly<V>(w: Work<V>, call: nat, rows: seq<ClassicRow<V>>, n: nat)
    requires Plain(w, call) && n <= |rows|
    ensures Orderly(ReadClassicRows(w, call, rows[..n]).log) <==>
            Orderly(w.log) && FineUpTo(rows, n, w.classic, w.outcomes)
  {
    if n > 0 {
      ClassicRowsOrderly(w, call, rows, n - 1);
      ClassicRowOrderly(w, call, rows, n - 1);
      FineMore(rows, n, w.classic, w.outcomes);
    }
  }

  /** The groups of a failed request are distinct, have no outcome, and are classic exactly when the request was. */
  ghost predicate FineKeys<V>(keys: seq<string>, api: Api, classic: map<string, Option<string>>,
                              outcomes: map<string, Outcome<V>>)
  {
    NoDuplicates(keys) && forall g | g in keys :: g !in outcomes && (g in classic <==> api.ClassicApi?)
  }

  lemma {:induction false} GiveAllLeaves<V>(w: Work<V>, call: nat, keys: seq<string>, api: Api, outcome: Outcome<V>,
                                            g: string)
    ensures g in GiveAll(w, call, keys, api, outcome).outcomes <==> g in w.outcomes || g in keys
  {
    if keys != [] { GiveAllLeaves(w, call, keys[..|keys| - 1], api, outcome, g); }
  }

  lemma FineKeysGrow<V>(keys: seq<string>, api: Api, classic: map<string, Option<string>>,
                        outcomes: map<string, Outcome<V>>)
    requires keys != []
    ensures var front, g := keys[..|keys| - 1], keys[|keys| - 1];
            FineKeys(keys, api, classic, outcomes) <==>
            && FineKeys(front, api, classic, outcomes)
            && g !in front && g !in outcomes && (g in classic <==> api.ClassicApi?)
  {
    var front, g := keys[..|keys| - 1], keys[|keys| - 1];
    assert keys == front + [g];
    if FineKeys(keys, api, classic, outcomes) {
      forall i, j | 0 <= i < j < |front| ensures front[i] != front[j] { assert keys[i] != keys[j]; }
      forall i | 0 <= i < |front| ensures front[i] != g { assert keys[i] != keys[|keys| - 1]; }
    }
  }

  lemma GiveMayFollow<V>(w: Work<V>, call: nat, front: seq<string>, g: string, api: Api, error: ClientError)
    requires Plain(w, call)
    ensures MayFollow(GiveAll(w, call, front, api, RequestErrorOutcome(error)).log,
                      Gave(call, g, api, RequestErrorOutcome<V>(error))) <==>
            g !in front && g !in w.outcomes && (g in w.classic <==> api.ClassicApi?)
  {
    GiveAllIsPlain(w, call, front, api, error);
    GiveAllLeaves(w, call, front, api, RequestErrorOutcome(error), g);
    var r := GiveAll(w, call, front, api, RequestErrorOutcome(error));
    assert r.classic == MovedIn(r.log) && r.outcomes.Keys == GivenBy(r.log, call);
  }

  lemma {:induction false} GiveAllOrderly<V>(w: Work<V>, call: nat, keys: seq<string>, api: Api, error: ClientError)
    requires Plain(w, call)
    ensures Orderly(GiveAll(w, call, keys, api, RequestErrorOutcome(error)).log) <==>
            Orderly(w.log) && FineKeys(keys, api, w.classic, w.outcomes)
  {
    if keys != [] {
      var front, g, outcome := keys[..|keys| - 1], keys[|keys| - 1], RequestErrorOutcome<V>(error);
      GiveAllOrderly(w, call, front, api, error);
      GiveMayFollow(w, call, front, g, api, error);
      OrderlyMore(GiveAll(w, call, front, api, outcome).log, Gave(call, g, api, outcome));
      FineKeysGrow(keys, api, w.classic, w.outcomes);
    }
  }

  /** The answers that keep a run orderly. They are looked at row by row, against the set of classic groups and the
      outcomes of the call. */
  ghost predicate Fine<V>(s: State<V>, step: Step<V>)
    requires Possible(s, step)
  {
    match step
    case Start(_, _, _) => true
    case Drop(_) => true
    case ConsumerReply(call, Ok(rows)) => forall j | 0 <= j < |rows| :: FineRow(rows, j, s.classic)
    case ConsumerReply(call, Err(error)) =>
      error.IncompatibleVersion? || IsConnectionFailure(Transport(error)) ||
      FineKeys<V>(s.calls[call].consumerKeys, ConsumerApi, s.classic, map[])
    case ClassicReply(call, Ok(rows)) => FineUpTo(rows, |rows|, s.classic, s.calls[call].outcomes)
    case ClassicReply(call, Err(error)) =>
      FineKeys(s.calls[call].classicKeys, ClassicApi, s.classic, s.calls[call].outcomes)
  }

  lemma OnConsumerIsPlain<V>(s: State<V>, call: nat, answer: Result<seq<ConsumerRow<V>>, ClientError>)
    requires PlainState(s) && Possible(s, ConsumerReply(call, answer))
    ensures Segment(Work(s.classic, s.log, [], map[]), OnConsumer(s.classic, s.log, call, s.calls[call], answer), call,
                    Fine(s, ConsumerReply(call, answer)))
  {
    var c, v: Work<V> := s.calls[call], Work(s.classic, s.log, [], map[]);
    var w: Work<V> := Work(s.classic, s.log, c.classicKeys, map[]);
    assert CallIsPlain(s.classic, s.log, call, c);
    match answer
    case Ok(rows) =>
      ConsumerRowsArePlain(w, call, rows);
      ConsumerRowsOrderly(w, call, rows, |rows|);
      assert rows[..|rows|] == rows;
      ToClassicIsPlain(v, ReadConsumerRows(w, call, rows), call, c.keys, Fine(s, ConsumerReply(call, answer)));
    case Err(error) =>
      if error.IncompatibleVersion? {
        MoveAllIsPlain(w, call, c.consumerKeys);
        ToClassicIsPlain(v, MoveAll(w, c.consumerKeys), call, c.keys, true);
      } else if !IsConnectionFailure(Transport(error)) {
        var given := GiveAll(w, call, c.consumerKeys, ConsumerApi, RequestErrorOutcome(error));
        GiveAllIsPlain(w, call, c.consumerKeys, ConsumerApi, error);
        GiveAllOrderly(w, call, c.consumerKeys, ConsumerApi, error);
        ToClassicIsPlain(v, given, call, c.keys, FineKeys<V>(c.consumerKeys, ConsumerApi, s.classic, map[]));
      }
  }

  lemma OnClassicIsPlain<V>(s: State<V>, call: nat, answer: Result<seq<ClassicRow<V>>, ClientError>)
    requires PlainState(s) && Possible(s, ClassicReply(call, answer))
    ensures Segment(Work(s.classic, s.log, [], map[]), OnClassic(s.classic, s.log, call, s.calls[call], answer), call,
                    Fine(s, ClassicReply(call, answer)))
  {
    var c := s.calls[call];
    assert CallIsPlain(s.classic, s.log, call, c);
    var w := Work(s.classic, s.log, [], c.outcomes);
    match answer
    case Ok(rows) =>
      ClassicRowsArePlain(w, call, rows);
      ClassicRowsOrderly(w, call, rows, |rows|);
      assert rows[..|rows|] == rows;
    case Err(error) =>
      GiveAllIsPlain(w, call, c.classicKeys, ClassicApi, error);
      GiveAllOrderly(w, call, c.classicKeys, ClassicApi, error);
  }

  lemma SegmentIsPlain<V>(s: State<V>, call: nat, done: (Work<V>, Call<V>), fine: bool)
    requires PlainState(s) && Segment(Work(s.classic, s.log, [], map[]), done, call, fine)
    ensures PlainState(Record(s, call, done)) && s.log <= Record(s, call, done).log
    ensures s.classic.Keys <= Record(s, call, done).classic.Keys
    ensures Orderly(Record(s, call, done).log) <==> Orderly(s.log) && fine
  {
    var t := Record(s, call, done);
    forall other | other in t.calls ensures CallIsPlain(t.classic, t.log, other, t.calls[other]) {
      if other != call { assert CallIsPlain(s.classic, s.log, other, s.calls[other]); }
    }
  }

  /** Whatever is answered, a step loses no classic group, and it keeps the log orderly exactly when its answer is
      fine. */
  lemma AnyStepKeepsClassic<V>(s: State<V>, step: Step<V>)
    requires PlainState(s) && Possible(s, step)
    ensures PlainState(After(s, step)) && s.log <= After(s, step).log
    ensures s.classic.Keys <= After(s, step).classic.Keys
    ensures Orderly(After(s, step).log) <==> Orderly(s.log) && Fine(s, step)
  {
    match step
    case Start(call, keys, supported) =>
      BeginIsPlain(s.classic, s.log, call, keys, supported);
      SegmentIsPlain(s, call, Begin(s.classic, s.log, call, keys, supported), true);
    case ConsumerReply(call, answer) =>
      OnConsumerIsPlain(s, call, answer);
      SegmentIsPlain(s, call, OnConsumer(s.classic, s.log, call, s.calls[call], answer), Fine(s, step));
    case ClassicReply(call, answer) =>
      OnClassicIsPlain(s, call, answer);
      SegmentIsPlain(s, call, OnClassic(s.classic, s.log, call, s.calls[call], answer), Fine(s, step));
    case Drop(call) =>
      var t := After(s, step);
      forall other | other in t.calls ensures CallIsPlain(t.classic, t.log, other, t.calls[other]) {
        if other != call { assert CallIsPlain(s.classic, s.log, other, s.calls[other]); }
      }
  }

  // ----- whole runs -----

  /** Every answer of the run is fine where it arrives. */
  ghost predicate AllFine<V>(s: State<V>, steps: seq<Step<V>>)
    decreases |steps|
  {
    steps == [] ||
    (Possible(s, steps[0]) && Fine(s, steps[0]) && AllFine(After(s, steps[0]), steps[1..]))
  }

  lemma {:induction false} StepsKeepClassic<V>(s: State<V>, steps: seq<Step<V>>, t: State<V>)
    requires PlainState(s) && Reaches(s, steps, t)
    ensures PlainState(t) && s.log <= t.log && s.classic.Keys <= t.classic.Keys
    ensures Orderly(t.log) <==> Orderly(s.log) && AllFine(s, steps)
    decreases |steps|
  {
    if steps != [] {
      AnyStepKeepsClassic(s, steps[0]);
      StepsKeepClassic(After(s, steps[0]), steps[1..], t);
    }
  }

  lemma {:induction false} AsksAt<V>(log: Log<V>, j: nat)
    requires Asks(log) && j < |log|
    ensures Asks(log[..j]) && MayAlways(log[..j], log[j])
  {
    if j < |log| - 1 {
      AsksAt(log[..|log| - 1], j);
      assert log[..|log| - 1][..j] == log[..j];
    }
  }

  lemma {:induction false} MovedIsIn<V>(log: Log<V>, i: nat)
    requires i < |log| && log[i].Moved?
    ensures log[i].group in MovedIn(log)
  {
    if i < |log| - 1 { MovedIsIn(log[..|log| - 1], i); }
  }

  /** No later event moves `g` again. */
  ghost predicate NoMoveAfter<V>(log: Log<V>, i: nat, g: string) {
    forall m | i < m < |log| :: !(log[m].Moved? && log[m].group == g)
  }

  lemma {:induction false} LatestMoveCounts<V>(log: Log<V>, g: string, i: nat)
    requires i < |log| && log[i].Moved? && log[i].group == g && NoMoveAfter(log, i, g)
    ensures g in MovedIn(log) && MovedIn(log)[g] == log[i].notFound
  {
    if i < |log| - 1 {
      var front := log[..|log| - 1];
      assert forall m | i < m < |front| :: front[m] == log[m];
      LatestMoveCounts(front, g, i);
    }
  }

  /** In every run, whatever the answers name: the classic set never loses a group; a group that moved is in no later
      `ConsumerGroupDescribe`; a `DescribeGroups` names only groups that moved; and a final `GROUP_ID_NOT_FOUND` comes
      from there and carries the message of the latest move of the group, when that had one. */
  lemma AnyRunKeepsClassic<V>(steps: seq<Step<V>>, t: State<V>, i: nat, j: nat)
    requires Reaches(Nothing(), steps, t) && i < j < |t.log|
    ensures t.log[i].Moved? ==> t.log[i].group in t.classic
    ensures t.log[i].Moved? && t.log[j].AskedConsumer? ==> t.log[i].group !in t.log[j].keys
    ensures t.log[j].AskedClassic? ==> forall g | g in t.log[j].keys :: g in MovedIn(t.log[..j])
    ensures t.log[j].Gave? && IsNotFound(t.log[j].outcome) ==> t.log[j].api.ClassicApi?
    ensures t.log[i].Moved? && t.log[j].Gave? && t.log[j].group == t.log[i].group &&
            NoMoveAfter(t.log[..j], i, t.log[i].group) &&
            t.log[i].notFound.Some? && IsNotFound(t.log[j].outcome)
            ==> t.log[j].outcome.result.error.message == FromBroker(t.log[i].notFound)
  {
    StepsKeepClassic(Nothing(), steps, t);
    AsksAt(t.log, j);
    var before := t.log[..j];
    assert before[i] == t.log[i];
    if t.log[i].Moved? {
      MovedIsIn(t.log, i);
      MovedIsIn(before, i);
      if NoMoveAfter(before, i, t.log[i].group) { LatestMoveCounts(before, t.log[i].group, i); }
    }
  }

  /** A run is orderly exactly when every answer of it is fine: that is, when every row of a `ConsumerGroupDescribe`
      names a group that is not classic and that no row before it names, unless that one gave its outcome and this one
      moves it, and every row of a `DescribeGroups` names a classic group without an outcome that no row before it
      names. */
  lemma RunIsOrderlyExactlyWhen<V>(steps: seq<Step<V>>, t: State<V>)
    requires Reaches(Nothing(), steps, t)
    ensures Orderly(t.log) <==> AllFine(Nothing(), steps)
  {
    StepsKeepClassic(Nothing(), steps, t);
  }

  /** What two events of an orderly log keep: a call gives a group at most one outcome, from the classic API once the
      group moved, and a final `GROUP_ID_NOT_FOUND` carries the message of the `ConsumerGroupDescribe` answer when
      there was one. */
  ghost predicate SafeAt<V>(log: Log<V>, i: nat, j: nat)
    requires i < j < |log|
  {
    && (log[i].Gave? && log[j].Gave? && log[i].call == log[j].call ==> log[i].group != log[j].group)
    && (log[i].Moved? && log[j].Gave? && log[i].group == log[j].group ==> log[j].api.ClassicApi?)
    && (log[i].Moved? && log[i].notFound.Some? && log[j].Gave? && log[j].group == log[i].group &&
        IsNotFound(log[j].outcome)
        ==> log[j].outcome.result.error.message == FromBroker(log[i].notFound))
    && (log[i].Gave? && log[j].Moved? && log[i].group == log[j].group ==> log[i].api.ConsumerApi?)
  }

  lemma OrderlyIsSafe<V>(log: Log<V>, i: nat, j: nat)
    requires Orderly(log) && i < j < |log|
    ensures SafeAt(log, i, j)
  {
    OrderlyAt(log, j);
    var before := log[..j];
    assert before[i] == log[i];
    if before[i].Moved? { MovedStays(before, i); }
    if before[i].Gave? {
      GivenStays(before, i);
      if log[j].Moved? { GaveByApi(before, i); }
    }
  }

  /** Every run whose answers are all fine is safe. */
  lemma FineRunIsSafe<V>(steps: seq<Step<V>>, t: State<V>, i: nat, j: nat)
    requires Reaches(Nothing(), steps, t) && AllFine(Nothing(), steps) && i < j < |t.log|
    ensures SafeAt(t.log, i, j)
  {
    RunIsOrderlyExactlyWhen(steps, t);
    OrderlyIsSafe(t.log, i, j);
  }

  // ----- how often a call gives a group an outcome -----

  /** How many outcomes `call` gave `g`. */
  function Outcomes<V>(log: Log<V>, call: nat, g: string): nat {
    if log == [] then 0
    else
      var last := log[|log| - 1];
      Outcomes(log[..|log| - 1], call, g) + if last.Gave? && last.call == call && last.group == g then 1 else 0
  }

  /** How many rows give `g` an outcome. */
  function FinalRows<V>(rows: seq<ConsumerRow<V>>, g: string): nat {
    if rows == [] then 0
    else
      FinalRows(rows[..|rows| - 1], g) + if rows[|rows| - 1].id == g && !Moves(rows[|rows| - 1]) then 1 else 0
  }

  function RowsNaming<V>(rows: seq<ClassicRow<V>>, g: string): nat {
    if rows == [] then 0 else RowsNaming(rows[..|rows| - 1], g) + if rows[|rows| - 1].id == g then 1 else 0
  }

  lemma OneMoreOutcome<V>(log: Log<V>, e: Event<V>, call: nat, g: string)
    ensures Outcomes(log + [e], call, g) ==
            Outcomes(log, call, g) + if e.Gave? && e.call == call && e.group == g then 1 else 0
  {
    assert (log + [e])[..|log|] == log;
  }

  function Times(keys: seq<string>, g: string): nat {
    if keys == [] then 0 else Times(keys[..|keys| - 1], g) + if keys[|keys| - 1] == g then 1 else 0
  }

  lemma {:induction false} MoveAllGives<V>(w: Work<V>, moved: seq<string>, call: nat, g: string)
    ensures Outcomes(MoveAll(w, moved).log, call, g) == Outcomes(w.log, call, g)
  {
    if moved != [] {
      MoveAllGives(w, moved[..|moved| - 1], call, g);
      OneMoreOutcome(MoveAll(w, moved[..|moved| - 1]).log, Moved(moved[|moved| - 1], None), call, g);
    }
  }

  lemma ConsumerRowGives<V>(w: Work<V>, who: nat, row: ConsumerRow<V>, call: nat, g: string)
    ensures Outcomes(ReadConsumerRow(w, who, row).log, call, g) ==
            Outcomes(w.log, call, g) + if who == call && row.id == g && !Moves(row) then 1 else 0
  {
    OneMoreOutcome(w.log, EventOf(who, row), call, g);
  }

  lemma {:induction false} ConsumerRowsGive<V>(w: Work<V>, who: nat, rows: seq<ConsumerRow<V>>, call: nat, g: string)
    ensures Outcomes(ReadConsumerRows(w, who, rows).log, call, g) ==
            Outcomes(w.log, call, g) + if who == call then FinalRows(rows, g) else 0
  {
    if rows != [] {
      ConsumerRowsGive(w, who, rows[..|rows| - 1], call, g);
      ConsumerRowGives(ReadConsumerRows(w, who, rows[..|rows| - 1]), who, rows[|rows| - 1], call, g);
    }
  }

  lemma {:induction false} ClassicRowsGive<V>(w: Work<V>, who: nat, rows: seq<ClassicRow<V>>, call: nat, g: string)
    ensures Outcomes(ReadClassicRows(w, who, rows).log, call, g) ==
            Outcomes(w.log, call, g) + if who == call then RowsNaming(rows, g) else 0
  {
    if rows != [] {
      ClassicRowsGive(w, who, rows[..|rows| - 1], call, g);
      var rest, row := ReadClassicRows(w, who, rows[..|rows| - 1]), rows[|rows| - 1];
      var outcome := ClassicOutcome(row, NotFoundOf(rest.classic, row.id));
      OneMoreOutcome(rest.log, Gave(who, row.id, ClassicApi, outcome), call, g);
    }
  }

  lemma {:induction false} GiveAllGives<V>(w: Work<V>, who: nat, keys: seq<string>, api: Api, outcome: Outcome<V>,
                                           call: nat, g: string)
    ensures Outcomes(GiveAll(w, who, keys, api, outcome).log, call, g) ==
            Outcomes(w.log, call, g) + if who == call then Times(keys, g) else 0
  {
    if keys != [] {
      GiveAllGives(w, who, keys[..|keys| - 1], api, outcome, call, g);
      var rest := GiveAll(w, who, keys[..|keys| - 1], api, outcome);
      OneMoreOutcome(rest.log, Gave(who, keys[|keys| - 1], api, outcome), call, g);
    }
  }

  lemma ToClassicGives<V>(w: Work<V>, who: nat, keys: seq<string>, call: nat, g: string)
    ensures Outcomes(ToClassic(w, who, keys).0.log, call, g) == Outcomes(w.log, call, g)
  {
    OneMoreOutcome(w.log, AskedClassic(who, w.classicKeys), call, g);
  }

  /** How many final rows for `g` a step of `call` holds. The groups of a failed request count as its rows. */
  function FinalsOf<V>(s: State<V>, step: Step<V>, call: nat, g: string): nat
    requires Possible(s, step)
  {
    match step
    case Start(_, _, _) => 0
    case Drop(_) => 0
    case ConsumerReply(who, answer) => if who == call then ConsumerFinals(answer, s.calls[who].consumerKeys, g) else 0
    case ClassicReply(who, answer) => if who == call then ClassicFinals(answer, s.calls[who].classicKeys, g) else 0
  }

  function ConsumerFinals<V>(answer: Result<seq<ConsumerRow<V>>, ClientError>, keys: seq<string>, g: string): nat {
    match answer
    case Ok(rows) => FinalRows(rows, g)
    case Err(error) => if error.IncompatibleVersion? || IsConnectionFailure(Transport(error)) then 0 else Times(keys, g)
  }

  function ClassicFinals<V>(answer: Result<seq<ClassicRow<V>>, ClientError>, keys: seq<string>, g: string): nat {
    match answer
    case Ok(rows) => RowsNaming(rows, g)
    case Err(_) => Times(keys, g)
  }

  lemma BeginGives<V>(classic: map<string, Option<string>>, log: Log<V>, who: nat, keys: seq<string>, supported: bool,
                      call: nat, g: string)
    ensures Outcomes(Begin(classic, log, who, keys, supported).0.log, call, g) == Outcomes(log, call, g)
  {
    var consumerKeys := Keep(keys, classic, false);
    var w := Work(classic, log, Keep(keys, classic, true), map[]);
    MoveAllGives(w, consumerKeys, call, g);
    ToClassicGives(MoveAll(w, consumerKeys), who, keys, call, g);
    ToClassicGives(w, who, keys, call, g);
    OneMoreOutcome(log, AskedConsumer(who, consumerKeys), call, g);
  }

  lemma OnConsumerGives<V>(classic: map<string, Option<string>>, log: Log<V>, who: nat, c: Call<V>,
                           answer: Result<seq<ConsumerRow<V>>, ClientError>, call: nat, g: string)
    requires c.AwaitsConsumer?
    ensures Outcomes(OnConsumer(classic, log, who, c, answer).0.log, call, g) ==
            Outcomes(log, call, g) + if who == call then ConsumerFinals(answer, c.consumerKeys, g) else 0
  {
    var w: Work<V> := Work(classic, log, c.classicKeys, map[]);
    match answer
    case Ok(rows) =>
      ConsumerRowsGive(w, who, rows, call, g);
      ToClassicGives(ReadConsumerRows(w, who, rows), who, c.keys, call, g);
    case Err(error) =>
      if error.IncompatibleVersion? {
        MoveAllGives(w, c.consumerKeys, call, g);
        ToClassicGives(MoveAll(w, c.consumerKeys), who, c.keys, call, g);
      } else if !IsConnectionFailure(Transport(error)) {
        var outcome := RequestErrorOutcome<V>(error);
        GiveAllGives(w, who, c.consumerKeys, ConsumerApi, outcome, call, g);
        ToClassicGives(GiveAll(w, who, c.consumerKeys, ConsumerApi, outcome), who, c.keys, call, g);
      }
  }

  lemma OnClassicGives<V>(classic: map<string, Option<string>>, log: Log<V>, who: nat, c: Call<V>,
                          answer: Result<seq<ClassicRow<V>>, ClientError>, call: nat, g: string)
    requires c.AwaitsClassic?
    ensures Outcomes(OnClassic(classic, log, who, c, answer).0.log, call, g) ==
            Outcomes(log, call, g) + if who == call then ClassicFinals(answer, c.classicKeys, g) else 0
  {
    var w: Work<V> := Work(classic, log, [], c.outcomes);
    match answer
    case Ok(rows) => ClassicRowsGive(w, who, rows, call, g);
    case Err(error) => GiveAllGives(w, who, c.classicKeys, ClassicApi, RequestErrorOutcome(error), call, g);
  }

  lemma StepGives<V>(s: State<V>, step: Step<V>, call: nat, g: string)
    requires Possible(s, step)
    ensures Outcomes(After(s, step).log, call, g) == Outcomes(s.log, call, g) + FinalsOf(s, step, call, g)
  {
    match step
    case Start(who, keys, supported) => BeginGives(s.classic, s.log, who, keys, supported, call, g);
    case ConsumerReply(who, answer) => OnConsumerGives(s.classic, s.log, who, s.calls[who], answer, call, g);
    case ClassicReply(who, answer) => OnClassicGives(s.classic, s.log, who, s.calls[who], answer, call, g);
    case Drop(_) =>
  }

  /** The final rows for `g` over all the answers that `call` gets in a run. */
  ghost function FinalsIn<V>(s: State<V>, steps: seq<Step<V>>, call: nat, g: string): nat
    decreases |steps|
  {
    if steps == [] || !Possible(s, steps[0]) then 0
    else FinalsOf(s, steps[0], call, g) + FinalsIn(After(s, steps[0]), steps[1..], call, g)
  }

  lemma {:induction false} StepsGive<V>(s: State<V>, steps: seq<Step<V>>, t: State<V>, call: nat, g: string)
    requires Reaches(s, steps, t)
    ensures Outcomes(t.log, call, g) == Outcomes(s.log, call, g) + FinalsIn(s, steps, call, g)
    decreases |steps|
  {
    if steps != [] {
      StepGives(s, steps[0], call, g);
      StepsGive(After(s, steps[0]), steps[1..], t, call, g);
    }
  }

  lemma {:induction false} GivenTwice<V>(log: Log<V>, call: nat, g: string)
    ensures Outcomes(log, call, g) >= 1 <==> exists i | 0 <= i < |log| :: IsOutcome(log[i], call, g)
    ensures Outcomes(log, call, g) > 1 <==>
            exists i, j | 0 <= i < j < |log| :: IsOutcome(log[i], call, g) && IsOutcome(log[j], call, g)
  {
    if log != [] {
      var n := |log| - 1;
      GivenTwice(log[..n], call, g);
      assert forall i | 0 <= i < n :: log[..n][i] == log[i];
    }
  }

  ghost predicate IsOutcome<V>(e: Event<V>, call: nat, g: string) {
    e.Gave? && e.call == call && e.group == g
  }

  /** In every run, whatever the answers name: a call gives a group two outcomes exactly when the answers that the call
      gets hold more than one final row for the group. */
  lemma TwoOutcomesExactlyWhenTwoFinalRows<V>(steps: seq<Step<V>>, t: State<V>, call: nat, g: string)
    requires Reaches(Nothing(), steps, t)
    ensures (exists i, j | 0 <= i < j < |t.log| :: IsOutcome(t.log[i], call, g) && IsOutcome(t.log[j], call, g)) <==>
            FinalsIn(Nothing(), steps, call, g) > 1
  {
    StepsGive(Nothing(), steps, t, call, g);
    GivenTwice(t.log, call, g);
  }

  // ----- both halves of the usual assumption are needed -----

  /** An answer that names a group twice, once as found and once as not
      found, gives the group an outcome and asks the classic API for it too. */
  lemma NamingAGroupTwiceAsksBothApis(description: int)
    ensures var rows := [ConsumerRow("g", 0, None, description),
                         ConsumerRow("g", GROUP_ID_NOT_FOUND, None, description)];
            var c := OnConsumer(map[], [], 0, AwaitsConsumer(["g"], ["g"], []), Ok(rows)).1;
            c.AwaitsClassic? && "g" in c.outcomes && "g" in c.classicKeys
  {
    var found := ConsumerRow("g", 0, None, description);
    var notFound := ConsumerRow("g", GROUP_ID_NOT_FOUND, None, description);
    var w: Work<int> := Work(map[], [], [], map[]);
    assert [found, notFound][..1] == [found];
    assert ReadConsumerRows(w, 0, [found]) == GiveOne(w, 0, "g", ConsumerApi, Done(Ok(description))) by {
      assert [found][..0] == [];
    }
  }

  /** A `DescribeGroups` answer that names a group nobody asked it about replaces the outcome that
      `ConsumerGroupDescribe` gave that group. */
  lemma NamingAnUnaskedGroupReplacesItsOutcome(description: int)
    ensures var c := OnConsumer(map[], [], 0, AwaitsConsumer(["g", "h"], ["g", "h"], []),
                                Ok([ConsumerRow("g", 0, None, description),
                                    ConsumerRow("h", GROUP_ID_NOT_FOUND, None, description)])).1;
            && c.AwaitsClassic? && c.classicKeys == ["h"]
            && "g" in c.outcomes && c.outcomes["g"] == Done(Ok(description))
            && var d := OnClassic(map["h" := None], [], 0, c,
                                  Ok([ClassicRow("g", GROUP_ID_NOT_FOUND, None, "", None)])).1;
               d.answer.Ok? && "g" in d.answer.value && IsNotFound(d.answer.value["g"])
  {
    var found := ConsumerRow("g", 0, None, description);
    var missing := ConsumerRow("h", GROUP_ID_NOT_FOUND, None, description);
    var w: Work<int> := Work(map[], [], [], map[]);
    assert [found, missing][..1] == [found];
    assert ReadConsumerRows(w, 0, [found]) == GiveOne(w, 0, "g", ConsumerApi, Done(Ok(description))) by {
      assert [found][..0] == [];
    }
    var row: ClassicRow<int> := ClassicRow("g", GROUP_ID_NOT_FOUND, None, "", None);
    assert [row][..0] == [];
  }
}
