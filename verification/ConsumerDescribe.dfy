/** Describing consumer groups: a group that is not a KIP-848 group moves to the classic API for good. Calls
    to the coordinators of a round interleave at each request, and share the set of classic groups. */
module ConsumerDescribe {
  import opened Base
  import opened GroupDriver

  datatype Api = ConsumerApi | ClassicApi

  /** One group of a `ConsumerGroupDescribe` answer, with the description that the client reads from it. */
  datatype ConsumerRow<V> = ConsumerRow(id: string, code: int, message: Option<string>, description: V)

  /** One group of a `DescribeGroups` answer. `decoded` is `None` when a member assignment does not decode. */
  datatype ClassicRow<V> = ClassicRow(id: string, code: int, message: Option<string>, protocolType: string,
                                      decoded: Option<V>)

  /** What `ConsumerGroupDescribe` means for one group. */
  datatype ConsumerAnswer<V> = Final(outcome: Outcome<V>) | MoveToClassic(notFound: Option<string>)

  const CONSUMER_PROTOCOL := "consumer"

  function ConsumerAnswerOf<V>(row: ConsumerRow<V>): ConsumerAnswer<V> {
    if row.code == 0 then Final(Done(Ok(row.description)))
    else if row.code == UNSUPPORTED_VERSION then MoveToClassic(None)
    else if row.code == GROUP_ID_NOT_FOUND then MoveToClassic(row.message)
    else Final(GroupErrorOutcome(row.code, row.message, {}))
  }

  function ClassicOutcome<V>(row: ClassicRow<V>, notFound: Option<string>): Outcome<V> {
    if row.code == GROUP_ID_NOT_FOUND then
      Done(Err(KafkaError(GROUP_ID_NOT_FOUND, FromBroker(if notFound.Some? then notFound else row.message))))
    else if row.code != 0 then GroupErrorOutcome(row.code, row.message, {})
    else if (row.protocolType != CONSUMER_PROTOCOL && row.protocolType != "") || row.decoded.None? then
      Done(Err(KafkaError(UNKNOWN_SERVER_ERROR, Own(Malformed))))
    else Done(Ok(row.decoded.value))
  }

  /** The outcome of each of `keys` after a request failed as a whole. */
  function RequestErrorOutcome<V>(error: ClientError): Outcome<V> {
    if IsConnectionFailure(Transport(error)) then Unmap else Done(Err(GroupsKafkaError(Transport(error))))
  }

  // ----- the log of a whole run -----

  datatype Event<V> =
    | AskedConsumer(call: nat, keys: seq<string>)
    | Moved(group: string, notFound: Option<string>)
    | AskedClassic(call: nat, keys: seq<string>)
    | Gave(call: nat, group: string, api: Api, outcome: Outcome<V>)

  type Log<V> = seq<Event<V>>

  /** The groups that moved to the classic API, with the message of their `GROUP_ID_NOT_FOUND` answer. */
  function MovedIn<V>(log: Log<V>): map<string, Option<string>> {
    if log == [] then map[]
    else
      var before, last := MovedIn(log[..|log| - 1]), log[|log| - 1];
      if last.Moved? then before[last.group := last.notFound] else before
  }

  /** The groups that `call` gave an outcome. */
  function GivenBy<V>(log: Log<V>, call: nat): set<string> {
    if log == [] then {}
    else
      var before, last := GivenBy(log[..|log| - 1], call), log[|log| - 1];
      if last.Gave? && last.call == call then before + {last.group} else before
  }

  /** `e` may follow `log`. */
  ghost predicate MayFollow<V>(log: Log<V>, e: Event<V>) {
    match e
    case AskedConsumer(call, keys) => forall g | g in keys :: g !in MovedIn(log)
    case Moved(group, _) => group !in MovedIn(log)
    case AskedClassic(call, keys) => forall g | g in keys :: g in MovedIn(log)
    case Gave(call, group, api, outcome) =>
      && group !in GivenBy(log, call)
      && (api.ConsumerApi? ==> group !in MovedIn(log))
      && (api.ClassicApi? ==> group in MovedIn(log))
      && (outcome.Done? && outcome.result.Err? && outcome.result.error.code == GROUP_ID_NOT_FOUND ==>
            && api.ClassicApi?
            && (MovedIn(log)[group].Some? ==> outcome.result.error.message == FromBroker(MovedIn(log)[group])))
  }

  ghost predicate Orderly<V>(log: Log<V>) {
    log == [] || (Orderly(log[..|log| - 1]) && MayFollow(log[..|log| - 1], log[|log| - 1]))
  }

  lemma Append<V>(log: Log<V>, e: Event<V>)
    requires Orderly(log) && MayFollow(log, e)
    ensures Orderly(log + [e])
    ensures MovedIn(log + [e]) == if e.Moved? then MovedIn(log)[e.group := e.notFound] else MovedIn(log)
    ensures forall call :: GivenBy(log + [e], call) ==
                           GivenBy(log, call) + if e.Gave? && e.call == call then {e.group} else {}
  {
    assert (log + [e])[..|log|] == log;
  }

  // ----- the atomic segments of one call -----

  /** One call: it waits for `ConsumerGroupDescribe`, then for `DescribeGroups`, and returns. */
  datatype Call<V> =
    | AwaitsConsumer(keys: seq<string>, consumerKeys: seq<string>, classicKeys: seq<string>)
    | AwaitsClassic(keys: seq<string>, classicKeys: seq<string>, outcomes: map<string, Outcome<V>>)
    | Returned(keys: seq<string>, answer: Result<map<string, Outcome<V>>, AdminError>)

  /** The shared set of classic groups with the log, and the parts of the running call. */
  datatype Work<V> = Work(classic: map<string, Option<string>>, log: Log<V>, classicKeys: seq<string>,
                          outcomes: map<string, Outcome<V>>)

  function MoveOne<V>(w: Work<V>, g: string, notFound: Option<string>): Work<V> {
    w.(classic := w.classic[g := notFound], log := w.log + [Moved(g, notFound)], classicKeys := w.classicKeys + [g])
  }

  function GiveOne<V>(w: Work<V>, call: nat, g: string, api: Api, outcome: Outcome<V>): Work<V> {
    w.(log := w.log + [Gave(call, g, api, outcome)], outcomes := w.outcomes[g := outcome])
  }

  /** Moves every one of `keys`, as a coordinator without `ConsumerGroupDescribe` makes the client do. */
  function MoveAll<V>(w: Work<V>, keys: seq<string>): Work<V> {
    if keys == [] then w
    else
      var rest := MoveAll(w, keys[..|keys| - 1]);
      var g := keys[|keys| - 1];
      if g in rest.classic then rest.(classicKeys := rest.classicKeys + [g]) else MoveOne(rest, g, None)
  }

  function ReadConsumerRow<V>(w: Work<V>, call: nat, row: ConsumerRow<V>): Work<V> {
    match ConsumerAnswerOf(row)
    case Final(outcome) => GiveOne(w, call, row.id, ConsumerApi, outcome)
    case MoveToClassic(notFound) => MoveOne(w, row.id, notFound)
  }

  function ReadConsumerRows<V>(w: Work<V>, call: nat, rows: seq<ConsumerRow<V>>): Work<V> {
    if rows == [] then w
    else ReadConsumerRow(ReadConsumerRows(w, call, rows[..|rows| - 1]), call, rows[|rows| - 1])
  }

  function NotFoundOf(classic: map<string, Option<string>>, g: string): Option<string> {
    if g in classic then classic[g] else None
  }

  function ReadClassicRows<V>(w: Work<V>, call: nat, rows: seq<ClassicRow<V>>): Work<V> {
    if rows == [] then w
    else
      var rest := ReadClassicRows(w, call, rows[..|rows| - 1]);
      var row := rows[|rows| - 1];
      GiveOne(rest, call, row.id, ClassicApi, ClassicOutcome(row, NotFoundOf(rest.classic, row.id)))
  }

  /** Gives every one of `keys` the outcome of a failed request. */
  function GiveAll<V>(w: Work<V>, call: nat, keys: seq<string>, api: Api, outcome: Outcome<V>): Work<V> {
    if keys == [] then w
    else GiveOne(GiveAll(w, call, keys[..|keys| - 1], api, outcome), call, keys[|keys| - 1], api, outcome)
  }

  /** Sends the groups that are left to `DescribeGroups`, or returns. */
  function ToClassic<V>(w: Work<V>, call: nat, keys: seq<string>): (Work<V>, Call<V>) {
    if w.classicKeys == [] then (w, Returned(keys, Ok(w.outcomes)))
    else (w.(log := w.log + [AskedClassic(call, w.classicKeys)]), AwaitsClassic(keys, w.classicKeys, w.outcomes))
  }

  function Keep(keys: seq<string>, classic: map<string, Option<string>>, inClassic: bool): (q: seq<string>)
    ensures forall g :: g in q <==> g in keys && (g in classic <==> inClassic)
    ensures NoDuplicates(keys) ==> NoDuplicates(q)
  {
    if keys == [] then []
    else
      var rest := Keep(keys[..|keys| - 1], classic, inClassic);
      if keys[|keys| - 1] in classic <==> inClassic then rest + [keys[|keys| - 1]] else rest
  }

  /** The segment after the connection is open: `supported` says whether the coordinator advertises
      `ConsumerGroupDescribe`. */
  function Begin<V>(classic: map<string, Option<string>>, log: Log<V>, call: nat, keys: seq<string>, supported: bool)
    : (Work<V>, Call<V>)
  {
    var consumerKeys := Keep(keys, classic, false);
    var w := Work(classic, log, Keep(keys, classic, true), map[]);
    if !supported then ToClassic(MoveAll(w, consumerKeys), call, keys)
    else if consumerKeys != [] then
      (w.(log := log + [AskedConsumer(call, consumerKeys)]), AwaitsConsumer(keys, consumerKeys, w.classicKeys))
    else ToClassic(w, call, keys)
  }

  /** The segment after the answer to `ConsumerGroupDescribe`. */
  function OnConsumer<V>(classic: map<string, Option<string>>, log: Log<V>, call: nat, c: Call<V>,
                         answer: Result<seq<ConsumerRow<V>>, ClientError>): (Work<V>, Call<V>)
    requires c.AwaitsConsumer?
  {
    var w := Work(classic, log, c.classicKeys, map[]);
    match answer
    case Ok(rows) => ToClassic(ReadConsumerRows(w, call, rows), call, c.keys)
    case Err(error) =>
      if error.IncompatibleVersion? then ToClassic(MoveAll(w, c.consumerKeys), call, c.keys)
      else if IsConnectionFailure(Transport(error)) then (w, Returned(c.keys, Err(Transport(error))))
      else ToClassic(GiveAll(w, call, c.consumerKeys, ConsumerApi, RequestErrorOutcome(error)), call, c.keys)
  }

  /** The segment after the answer to `DescribeGroups`. */
  function OnClassic<V>(classic: map<string, Option<string>>, log: Log<V>, call: nat, c: Call<V>,
                        answer: Result<seq<ClassicRow<V>>, ClientError>): (Work<V>, Call<V>)
    requires c.AwaitsClassic?
  {
    var w := Work(classic, log, [], c.outcomes);
    var done :=
      match answer
      case Ok(rows) => ReadClassicRows(w, call, rows)
      case Err(error) => GiveAll(w, call, c.classicKeys, ClassicApi, RequestErrorOutcome(error));
    (done, Returned(c.keys, Ok(done.outcomes)))
  }

  // ----- what a segment keeps -----

  /** The work of `call`, which was asked about `keys`, agrees with its log. */
  ghost predicate Agrees<V>(w: Work<V>, call: nat, keys: seq<string>) {
    && Orderly(w.log)
    && w.classic == MovedIn(w.log)
    && w.outcomes.Keys == GivenBy(w.log, call)
    && (forall g | g in w.outcomes :: g in keys)
    && NoDuplicates(w.classicKeys)
    && (forall g | g in w.classicKeys :: g in keys && g in w.classic && g !in w.outcomes)
  }

  /** `w` came from `v` by work of `call` on `keys` only. No classic group is lost or changed. */
  ghost predicate Extends<V>(v: Work<V>, w: Work<V>, call: nat, keys: seq<string>) {
    && v.log <= w.log
    && (forall g | g in v.classic :: g in w.classic && w.classic[g] == v.classic[g])
    && (forall g | g in w.classic && g !in v.classic :: g in keys)
    && (forall other | other != call :: GivenBy(w.log, other) == GivenBy(v.log, other))
  }

  lemma MoveOneKeeps<V>(w: Work<V>, call: nat, keys: seq<string>, g: string, notFound: Option<string>)
    requires Agrees(w, call, keys) && g in keys && g !in w.classic && g !in w.outcomes
    ensures Agrees(MoveOne(w, g, notFound), call, keys) && Extends(w, MoveOne(w, g, notFound), call, keys)
  {
    Append(w.log, Moved(g, notFound));
  }

  lemma GiveOneKeeps<V>(w: Work<V>, call: nat, keys: seq<string>, g: string, api: Api, outcome: Outcome<V>)
    requires Agrees(w, call, keys) && g in keys && g !in w.outcomes && MayFollow(w.log, Gave(call, g, api, outcome))
    requires g !in w.classicKeys
    ensures Agrees(GiveOne(w, call, g, api, outcome), call, keys)
    ensures Extends(w, GiveOne(w, call, g, api, outcome), call, keys)
  {
    Append(w.log, Gave(call, g, api, outcome));
  }

  lemma ExtendsTransitive<V>(u: Work<V>, v: Work<V>, w: Work<V>, call: nat, keys: seq<string>)
    requires Extends(u, v, call, keys) && Extends(v, w, call, keys)
    ensures Extends(u, w, call, keys)
  {
  }

  lemma {:induction false} MoveAllKeeps<V>(w: Work<V>, call: nat, keys: seq<string>, moved: seq<string>)
    requires Agrees(w, call, keys) && NoDuplicates(moved)
    requires forall g | g in moved :: g in keys && g !in w.classic && g !in w.outcomes
    ensures Agrees(MoveAll(w, moved), call, keys) && Extends(w, MoveAll(w, moved), call, keys)
    ensures MoveAll(w, moved).outcomes == w.outcomes
    ensures forall g | g in MoveAll(w, moved).classic :: g in w.classic || g in moved
  {
    if moved != [] {
      var front, g := moved[..|moved| - 1], moved[|moved| - 1];
      MoveAllKeeps(w, call, keys, front);
      var rest := MoveAll(w, front);
      MoveOneKeeps(rest, call, keys, g, None);
      ExtendsTransitive(w, rest, MoveOne(rest, g, None), call, keys);
    }
  }

  /** The answer names only groups of `asked`, each at most once. */
  ghost predicate NamesOnly(ids: seq<string>, asked: seq<string>) {
    NoDuplicates(ids) && forall id | id in ids :: id in asked
  }

  function ConsumerIds<V>(rows: seq<ConsumerRow<V>>): (ids: seq<string>)
    ensures |ids| == |rows| && forall i | 0 <= i < |rows| :: ids[i] == rows[i].id
  {
    seq(|rows|, i requires 0 <= i < |rows| => rows[i].id)
  }

  function ClassicIds<V>(rows: seq<ClassicRow<V>>): (ids: seq<string>)
    ensures |ids| == |rows| && forall i | 0 <= i < |rows| :: ids[i] == rows[i].id
  {
    seq(|rows|, i requires 0 <= i < |rows| => rows[i].id)
  }

  lemma ReadConsumerRowKeeps<V>(w: Work<V>, call: nat, keys: seq<string>, row: ConsumerRow<V>)
    requires Agrees(w, call, keys) && row.id in keys && row.id !in w.classic && row.id !in w.outcomes
    ensures Agrees(ReadConsumerRow(w, call, row), call, keys) && Extends(w, ReadConsumerRow(w, call, row), call, keys)
    ensures forall g | g in ReadConsumerRow(w, call, row).classic :: g in w.classic || g == row.id
    ensures forall g | g in ReadConsumerRow(w, call, row).outcomes :: g in w.outcomes || g == row.id
  {
    match ConsumerAnswerOf(row)
    case Final(outcome) => GiveOneKeeps(w, call, keys, row.id, ConsumerApi, outcome);
    case MoveToClassic(notFound) => MoveOneKeeps(w, call, keys, row.id, notFound);
  }

  lemma {:induction false} ReadConsumerRowsKeeps<V>(w: Work<V>, call: nat, keys: seq<string>, rows: seq<ConsumerRow<V>>,
                                                    ids: seq<string>)
    requires Agrees(w, call, keys) && ids == ConsumerIds(rows) && NamesOnly(ids, keys)
    requires forall g | g in ids :: g !in w.classic && g !in w.outcomes
    ensures var r := ReadConsumerRows(w, call, rows);
            && Agrees(r, call, keys) && Extends(w, r, call, keys)
            && (forall g | g in r.classic :: g in w.classic || g in ids)
            && (forall g | g in r.outcomes :: g in w.outcomes || g in ids)
  {
    if rows != [] {
      var front, row := rows[..|rows| - 1], rows[|rows| - 1];
      assert ConsumerIds(front) == ids[..|rows| - 1] && ids[|rows| - 1] == row.id;
      ReadConsumerRowsKeeps(w, call, keys, front, ConsumerIds(front));
      var rest := ReadConsumerRows(w, call, front);
      assert row.id in ids && row.id !in ConsumerIds(front);
      ReadConsumerRowKeeps(rest, call, keys, row);
      ExtendsTransitive(w, rest, ReadConsumerRow(rest, call, row), call, keys);
    }
  }

  lemma {:induction false} ReadClassicRowsKeeps<V>(w: Work<V>, call: nat, keys: seq<string>, rows: seq<ClassicRow<V>>,
                                                   ids: seq<string>)
    requires Agrees(w, call, keys) && w.classicKeys == [] && ids == ClassicIds(rows) && NamesOnly(ids, keys)
    requires forall g | g in ids :: g in w.classic && g !in w.outcomes
    ensures var r := ReadClassicRows(w, call, rows);
            && Agrees(r, call, keys) && Extends(w, r, call, keys) && r.classicKeys == [] && r.classic == w.classic
            && (forall g | g in r.outcomes :: g in w.outcomes || g in ids)
  {
    if rows != [] {
      var front, row := rows[..|rows| - 1], rows[|rows| - 1];
      assert ClassicIds(front) == ids[..|rows| - 1] && ids[|rows| - 1] == row.id;
      ReadClassicRowsKeeps(w, call, keys, front, ClassicIds(front));
      var rest := ReadClassicRows(w, call, front);
      assert row.id in ids && row.id !in ClassicIds(front);
      var outcome := ClassicOutcome(row, NotFoundOf(rest.classic, row.id));
      GiveOneKeeps(rest, call, keys, row.id, ClassicApi, outcome);
      ExtendsTransitive(w, rest, GiveOne(rest, call, row.id, ClassicApi, outcome), call, keys);
    }
  }

  lemma {:induction false} GiveAllKeeps<V>(w: Work<V>, call: nat, keys: seq<string>, given: seq<string>, api: Api,
                                           error: ClientError)
    requires Agrees(w, call, keys) && NamesOnly(given, keys)
    requires forall g | g in given :: g !in w.outcomes && g !in w.classicKeys && (g in w.classic <==> api.ClassicApi?)
    ensures var r := GiveAll(w, call, given, api, RequestErrorOutcome(error));
            && Agrees(r, call, keys) && Extends(w, r, call, keys)
            && r.classicKeys == w.classicKeys && r.classic == w.classic
            && (forall g | g in r.outcomes :: g in w.outcomes || g in given)
  {
    if given != [] {
      var front, g := given[..|given| - 1], given[|given| - 1];
      GiveAllKeeps(w, call, keys, front, api, error);
      var rest := GiveAll(w, call, front, api, RequestErrorOutcome(error));
      GiveOneKeeps(rest, call, keys, g, api, RequestErrorOutcome(error));
      ExtendsTransitive(w, rest, GiveOne(rest, call, g, api, RequestErrorOutcome(error)), call, keys);
    }
  }

  // ----- interleaved runs -----

  /** The shared state of one `describe_consumer_groups`: every call that was started, by its number. */
  datatype State<V> = State(classic: map<string, Option<string>>, log: Log<V>, calls: map<nat, Call<V>>)

  /** One atomic step: a call starts, or an answer to it arrives, or the deadline drops it. */
  datatype Step<V> =
    | Start(call: nat, keys: seq<string>, supported: bool)
    | ConsumerReply(call: nat, consumer: Result<seq<ConsumerRow<V>>, ClientError>)
    | ClassicReply(call: nat, classic: Result<seq<ClassicRow<V>>, ClientError>)
    | Drop(call: nat)

  /** Which steps can happen, with any answer to any request. */
  ghost predicate Possible<V>(s: State<V>, step: Step<V>) {
    match step
    case Start(call, keys, supported) => call !in s.calls
    case ConsumerReply(call, answer) => call in s.calls && s.calls[call].AwaitsConsumer?
    case ClassicReply(call, answer) => call in s.calls && s.calls[call].AwaitsClassic?
    case Drop(call) => call in s.calls
  }

  /** A call starts with groups that no running call has, and an answer names each asked group at most once and no
      other group. */
  ghost predicate WellFormed<V>(s: State<V>, step: Step<V>)
    requires Possible(s, step)
  {
    match step
    case Start(call, keys, supported) => StartsApart(s, keys)
    case ConsumerReply(call, answer) => answer.Ok? ==> NamesOnly(ConsumerIds(answer.value), s.calls[call].consumerKeys)
    case ClassicReply(call, answer) => answer.Ok? ==> NamesOnly(ClassicIds(answer.value), s.calls[call].classicKeys)
    case Drop(call) => true
  }

  ghost predicate StartsApart<V>(s: State<V>, keys: seq<string>) {
    NoDuplicates(keys) &&
    forall other | other in s.calls && !s.calls[other].Returned? :: Apart(keys, s.calls[other].keys)
  }

  ghost predicate Apart(p: seq<string>, q: seq<string>) {
    forall g | g in p :: g !in q
  }

  /** What the deadline leaves of a call. */
  function Dropped<V>(c: Call<V>): Call<V> {
    Returned(c.keys, Err(Transport(Timeout)))
  }

  function After<V>(s: State<V>, step: Step<V>): State<V>
    requires Possible(s, step)
  {
    match step
    case Start(call, keys, supported) => Record(s, call, Begin(s.classic, s.log, call, keys, supported))
    case ConsumerReply(call, answer) => Record(s, call, OnConsumer(s.classic, s.log, call, s.calls[call], answer))
    case ClassicReply(call, answer) => Record(s, call, OnClassic(s.classic, s.log, call, s.calls[call], answer))
    case Drop(call) => s.(calls := s.calls[call := Dropped(s.calls[call])])
  }

  function Record<V>(s: State<V>, call: nat, done: (Work<V>, Call<V>)): State<V> {
    State(done.0.classic, done.0.log, s.calls[call := done.1])
  }

  /** A running call agrees with the shared state. */
  ghost predicate CallAgrees<V>(s: State<V>, call: nat, c: Call<V>) {
    match c
    case AwaitsConsumer(keys, consumerKeys, classicKeys) =>
      && Agrees(Work(s.classic, s.log, classicKeys, map[]), call, keys)
      && NamesOnly(consumerKeys, keys)
      && forall g | g in consumerKeys :: g !in s.classic
    case AwaitsClassic(keys, classicKeys, outcomes) => Agrees(Work(s.classic, s.log, classicKeys, outcomes), call, keys)
    case Returned(keys, answer) => true
  }

  ghost predicate Inv<V>(s: State<V>) {
    && Orderly(s.log) && s.classic == MovedIn(s.log)
    && (forall call | call in s.calls :: CallAgrees(s, call, s.calls[call]))
    && (forall call, other | call in s.calls && other in s.calls && call != other &&
                             !s.calls[call].Returned? && !s.calls[other].Returned? ::
          Apart(s.calls[call].keys, s.calls[other].keys))
    && (forall call | call !in s.calls :: GivenBy(s.log, call) == {})
  }

  lemma ToClassicKeeps<V>(w: Work<V>, call: nat, keys: seq<string>)
    requires Agrees(w, call, keys)
    ensures var (r, c) := ToClassic(w, call, keys);
            && c.keys == keys && !c.AwaitsConsumer? && Extends(w, r, call, keys)
            && Orderly(r.log) && r.classic == MovedIn(r.log)
            && (c.AwaitsClassic? ==> Agrees(Work(r.classic, r.log, c.classicKeys, c.outcomes), call, keys))
  {
    if w.classicKeys != [] {
      Append(w.log, AskedClassic(call, w.classicKeys));
    }
  }

  /** What every segment of `call` keeps, from the shared state `v` on. */
  ghost predicate SegmentKeeps<V>(v: Work<V>, done: (Work<V>, Call<V>), call: nat, keys: seq<string>) {
    && Extends(v, done.0, call, keys)
    && Orderly(done.0.log) && done.0.classic == MovedIn(done.0.log)
    && done.1.keys == keys
    && CallAgrees(State(done.0.classic, done.0.log, map[]), call, done.1)
  }

  /** The start of a call, before any of its groups moves. */
  lemma StartAgrees<V>(classic: map<string, Option<string>>, log: Log<V>, call: nat, keys: seq<string>)
    requires Orderly(log) && classic == MovedIn(log) && GivenBy(log, call) == {} && NoDuplicates(keys)
    ensures Agrees(Work(classic, log, Keep(keys, classic, true), map[]), call, keys)
  {
  }

  lemma AskConsumerKeeps<V>(w: Work<V>, call: nat, keys: seq<string>, consumerKeys: seq<string>)
    requires Agrees(w, call, keys) && w.outcomes == map[] && NamesOnly(consumerKeys, keys)
    requires forall g | g in consumerKeys :: g !in w.classic
    ensures var asked := w.(log := w.log + [AskedConsumer(call, consumerKeys)]);
            SegmentKeeps(Work(w.classic, w.log, [], map[]), (asked, AwaitsConsumer(keys, consumerKeys, w.classicKeys)),
                         call, keys)
  {
    Append(w.log, AskedConsumer(call, consumerKeys));
  }

  lemma BeginKeeps<V>(classic: map<string, Option<string>>, log: Log<V>, call: nat, keys: seq<string>, supported: bool)
    requires Orderly(log) && classic == MovedIn(log) && GivenBy(log, call) == {} && NoDuplicates(keys)
    ensures SegmentKeeps(Work(classic, log, [], map[]), Begin(classic, log, call, keys, supported), call, keys)
  {
    var consumerKeys := Keep(keys, classic, false);
    var w := Work(classic, log, Keep(keys, classic, true), map[]);
    StartAgrees(classic, log, call, keys);
    if !supported {
      MoveAllKeeps(w, call, keys, consumerKeys);
      ToClassicKeeps(MoveAll(w, consumerKeys), call, keys);
    } else if consumerKeys != [] {
      AskConsumerKeeps(w, call, keys, consumerKeys);
    } else {
      ToClassicKeeps(w, call, keys);
    }
  }

  lemma OnConsumerKeeps<V>(s: State<V>, call: nat, c: Call<V>, answer: Result<seq<ConsumerRow<V>>, ClientError>)
    requires c.AwaitsConsumer? && CallAgrees(s, call, c)
    requires answer.Ok? ==> NamesOnly(ConsumerIds(answer.value), c.consumerKeys)
    ensures SegmentKeeps(Work(s.classic, s.log, [], map[]), OnConsumer(s.classic, s.log, call, c, answer), call, c.keys)
  {
    var w := Work(s.classic, s.log, c.classicKeys, map[]);
    match answer
    case Ok(rows) =>
      ReadConsumerRowsKeeps(w, call, c.keys, rows, ConsumerIds(rows));
      ToClassicKeeps(ReadConsumerRows(w, call, rows), call, c.keys);
    case Err(error) =>
      if error.IncompatibleVersion? {
        MoveAllKeeps(w, call, c.keys, c.consumerKeys);
        ToClassicKeeps(MoveAll(w, c.consumerKeys), call, c.keys);
      } else if !IsConnectionFailure(Transport(error)) {
        GiveAllKeeps(w, call, c.keys, c.consumerKeys, ConsumerApi, error);
        ToClassicKeeps(GiveAll(w, call, c.consumerKeys, ConsumerApi, RequestErrorOutcome(error)), call, c.keys);
      }
  }

  lemma OnClassicKeeps<V>(s: State<V>, call: nat, c: Call<V>, answer: Result<seq<ClassicRow<V>>, ClientError>)
    requires c.AwaitsClassic? && CallAgrees(s, call, c)
    requires answer.Ok? ==> NamesOnly(ClassicIds(answer.value), c.classicKeys)
    ensures SegmentKeeps(Work(s.classic, s.log, [], map[]), OnClassic(s.classic, s.log, call, c, answer), call, c.keys)
  {
    var w := Work(s.classic, s.log, [], c.outcomes);
    match answer
    case Ok(rows) => ReadClassicRowsKeeps(w, call, c.keys, rows, ClassicIds(rows));
    case Err(error) => GiveAllKeeps(w, call, c.keys, c.classicKeys, ClassicApi, error);
  }

  /** A segment of one call leaves every other running call in agreement. */
  lemma OtherCallsAgree<V>(s: State<V>, call: nat, keys: seq<string>, done: (Work<V>, Call<V>), other: nat)
    requires SegmentKeeps(Work(s.classic, s.log, [], map[]), done, call, keys)
    requires other in s.calls && other != call && CallAgrees(s, other, s.calls[other])
    requires !s.calls[other].Returned? ==> Apart(keys, s.calls[other].keys)
    ensures CallAgrees(Record(s, call, done), other, s.calls[other])
  {
  }

  lemma SegmentKeepsInv<V>(s: State<V>, call: nat, keys: seq<string>, done: (Work<V>, Call<V>))
    requires Inv(s) && SegmentKeeps(Work(s.classic, s.log, [], map[]), done, call, keys)
    requires forall other | other in s.calls && other != call && !s.calls[other].Returned? ::
               Apart(keys, s.calls[other].keys)
    ensures Inv(Record(s, call, done))
  {
    var t := Record(s, call, done);
    forall other | other in t.calls ensures CallAgrees(t, other, t.calls[other]) {
      if other != call {
        OtherCallsAgree(s, call, keys, done, other);
      }
    }
  }

  /** Every well-formed step of every interleaving keeps the invariant, and never drops or changes a classic group. */
  lemma StepKeepsInv<V>(s: State<V>, step: Step<V>)
    requires Inv(s) && Possible(s, step) && WellFormed(s, step)
    ensures Inv(After(s, step)) && s.log <= After(s, step).log
    ensures forall g | g in s.classic :: g in After(s, step).classic && After(s, step).classic[g] == s.classic[g]
  {
    match step
    case Start(call, keys, supported) =>
      BeginKeeps(s.classic, s.log, call, keys, supported);
      SegmentKeepsInv(s, call, keys, Begin(s.classic, s.log, call, keys, supported));
    case ConsumerReply(call, answer) =>
      OnConsumerKeeps(s, call, s.calls[call], answer);
      SegmentKeepsInv(s, call, s.calls[call].keys, OnConsumer(s.classic, s.log, call, s.calls[call], answer));
    case ClassicReply(call, answer) =>
      OnClassicKeeps(s, call, s.calls[call], answer);
      SegmentKeepsInv(s, call, s.calls[call].keys, OnClassic(s.classic, s.log, call, s.calls[call], answer));
    case Drop(call) =>
      DropKeepsInv(s, call);
  }

  lemma DropKeepsInv<V>(s: State<V>, call: nat)
    requires Inv(s) && call in s.calls
    ensures Inv(After(s, Drop(call)))
  {
    var t := After(s, Drop(call));
    forall other | other in t.calls ensures CallAgrees(t, other, t.calls[other]) {
      assert other != call ==> CallAgrees(s, other, s.calls[other]);
    }
  }

  /** A call that the deadline drops gives no outcome, and what it moved stays moved. */
  lemma DroppedGivesNothing<V>(s: State<V>, call: nat)
    requires call in s.calls
    ensures var t := After(s, Drop(call));
            && t.classic == s.classic && t.log == s.log && t.calls.Keys == s.calls.Keys
            && t.calls[call] == Returned(s.calls[call].keys, Err(Transport(Timeout)))
            && forall other | other in s.calls && other != call :: t.calls[other] == s.calls[other]
  {
  }

  /** `steps` lead from `s` to `t`. */
  ghost predicate Reaches<V>(s: State<V>, steps: seq<Step<V>>, t: State<V>)
    decreases |steps|
  {
    if steps == [] then s == t else Possible(s, steps[0]) && Reaches(After(s, steps[0]), steps[1..], t)
  }

  function Nothing<V>(): State<V> {
    State(map[], [], map[])
  }

  lemma {:induction false} MovedStays<V>(log: Log<V>, i: nat)
    requires Orderly(log) && i < |log| && log[i].Moved?
    ensures log[i].group in MovedIn(log) && MovedIn(log)[log[i].group] == log[i].notFound
  {
    if i < |log| - 1 {
      MovedStays(log[..|log| - 1], i);
    }
  }

  lemma {:induction false} GivenStays<V>(log: Log<V>, i: nat)
    requires i < |log| && log[i].Gave?
    ensures log[i].group in GivenBy(log, log[i].call)
  {
    if i < |log| - 1 {
      GivenStays(log[..|log| - 1], i);
    }
  }

  lemma {:induction false} OrderlyAt<V>(log: Log<V>, j: nat)
    requires Orderly(log) && j < |log|
    ensures Orderly(log[..j]) && MayFollow(log[..j], log[j])
  {
    if j < |log| - 1 {
      OrderlyAt(log[..|log| - 1], j);
      assert log[..|log| - 1][..j] == log[..j];
    }
  }

  ghost predicate IsNotFound<V>(outcome: Outcome<V>) {
    outcome.Done? && outcome.result.Err? && outcome.result.error.code == GROUP_ID_NOT_FOUND
  }

  lemma GaveByApi<V>(log: Log<V>, i: nat)
    requires Orderly(log) && i < |log| && log[i].Gave?
    ensures log[i].api.ClassicApi? ==> log[i].group in MovedIn(log)
  {
    OrderlyAt(log, i);
    if log[i].api.ClassicApi? {
      MovedGrows(log, i, log[i].group);
    }
  }

  lemma {:induction false} MovedGrows<V>(log: Log<V>, i: nat, g: string)
    requires i <= |log| && g in MovedIn(log[..i])
    ensures g in MovedIn(log)
  {
    if i == |log| {
      assert log[..i] == log;
    } else {
      assert log[..|log| - 1][..i] == log[..i];
      MovedGrows(log[..|log| - 1], i, g);
    }
  }
}
