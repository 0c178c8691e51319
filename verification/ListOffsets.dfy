/** Looking partition offsets up at their leaders, with the version that each kind of lookup needs. */
module ListOffsets {
  import opened Base
  import opened Order
  import opened Rounds
  import L = LeaderDriver
  import E = LeaderEffects
  import opened ByTopic
  import LeaderCall

  datatype OffsetSpec =
    | Earliest | Latest | MaxTimestamp | EarliestLocal | LatestTiered | EarliestPendingUpload
    | ForTimestamp(timestamp: int)

  datatype Isolation = ReadUncommitted | ReadCommitted

  type Specs = map<PartitionKey, OffsetSpec>

  function WireTimestamp(spec: OffsetSpec): int {
    match spec
    case Earliest => -2
    case Latest => -1
    case MaxTimestamp => -3
    case EarliestLocal => -4
    case LatestTiered => -5
    case EarliestPendingUpload => -6
    case ForTimestamp(timestamp) => timestamp
  }

  /** Only a timestamp lookup can have the wire value of another spec. */
  lemma SpecsCollide(a: OffsetSpec, b: OffsetSpec)
    ensures a != b && WireTimestamp(a) == WireTimestamp(b) <==>
            || (a == ForTimestamp(WireTimestamp(b)) && !b.ForTimestamp?)
            || (b == ForTimestamp(WireTimestamp(a)) && !a.ForTimestamp?)
  {
  }

  function MinVersion(spec: OffsetSpec): int {
    match spec
    case Earliest => 1
    case Latest => 1
    case ForTimestamp(_) => 1
    case MaxTimestamp => 7
    case EarliestLocal => 8
    case LatestTiered => 9
    case EarliestPendingUpload => 11
  }

  /** What a leader makes of a timestamp: the special values by their meaning, any other as a time. */
  function SpecOfWire(timestamp: int): OffsetSpec {
    if timestamp == -1 then Latest
    else if timestamp == -2 then Earliest
    else if timestamp == -3 then MaxTimestamp
    else if timestamp == -4 then EarliestLocal
    else if timestamp == -5 then LatestTiered
    else if timestamp == -6 then EarliestPendingUpload
    else ForTimestamp(timestamp)
  }

  /** The leader reads every spec back, except a time that is one of the special values. */
  lemma SpecReadsBack(spec: OffsetSpec, timestamp: int)
    ensures SpecOfWire(WireTimestamp(spec)) == spec <==> !(spec.ForTimestamp? && -6 <= spec.timestamp < 0)
    ensures WireTimestamp(SpecOfWire(timestamp)) == timestamp
  {
  }

  /** The versions of the request at which a leader knows a timestamp: the special values came one by one. */
  predicate Understands(version: int, timestamp: int) {
    || (version >= 1 && timestamp >= -2)
    || (version >= 7 && timestamp == -3)
    || (version >= 8 && timestamp == -4)
    || (version >= 9 && timestamp == -5)
    || (version >= 11 && timestamp == -6)
  }

  /** The version of a spec is the least at which a leader knows its timestamp, for exactly the specs that are not a
      time below the first special values. */
  lemma MinVersionIsLeastExactlyWhen(spec: OffsetSpec)
    ensures (forall version :: MinVersion(spec) <= version <==> Understands(version, WireTimestamp(spec))) <==>
            !(spec.ForTimestamp? && spec.timestamp < -2)
  {
    if spec.ForTimestamp? && spec.timestamp < -2 {
      assert !Understands(1, WireTimestamp(spec));
    }
  }

  function RequiredVersion(spec: OffsetSpec, isolation: Isolation): int {
    var isolationVersion := if isolation.ReadCommitted? then 2 else 1;
    if MinVersion(spec) > isolationVersion then MinVersion(spec) else isolationVersion
  }

  /** A version that answers the spec answers it at the isolation too, which came with version 2. */
  lemma RequiredVersionIsBoth(spec: OffsetSpec, isolation: Isolation, version: int)
    ensures RequiredVersion(spec, isolation) <= version <==>
            MinVersion(spec) <= version && (isolation.ReadCommitted? ==> 2 <= version)
  {
  }

  function SpecOf(specs: Specs, k: PartitionKey): OffsetSpec {
    if k in specs then specs[k] else Latest
  }

  /** The codes that send a partition back to the leader lookup. */
  predicate RetryCode(code: int) {
    code in {2, 3, 5, 6, 7, 9, 13, 14, 15, 16, 19, 20, 41, 51, 56, 70, 71, 72, 74, 75, 78, 80, 83, 88, 100, 103}
  }

  /** `topics` holds the wire timestamp of each partition. */
  datatype Request = Request(isolation: int, topics: seq<Topic<int>>, timeoutMs: int)

  datatype OffsetRow = OffsetRow(code: int, offset: int, timestamp: int, epoch: int)

  datatype ListedOffset = ListedOffset(offset: int, timestamp: int, epoch: Option<int>)

  type Results = L.PartitionResults<ListedOffset>

  /** One lookup call: what every partition of it asks, at which isolation, and the latest version of the
      request that the client knows. */
  datatype Ask = Ask(specs: Specs, isolation: Isolation, timeoutMs: int, latest: int)

  /** One leader during one call: the error of the dial, the highest advertised version, and the answers. */
  datatype Leader = Leader(
    refused: Option<AdminError>,
    advertised: Option<int>,
    respond: Request -> Result<seq<Topic<OffsetRow>>, AdminError>)

  function HighestVersion(ask: Ask, leader: Leader): int {
    match leader.advertised
    case None => -1
    case Some(highest) => if highest <= ask.latest then highest else ask.latest
  }

  // ----- the request -----

  function Timestamped(keys: seq<PartitionKey>, specs: Specs): (rows: seq<Row<int>>)
    ensures |rows| == |keys|
    ensures forall i | 0 <= i < |keys| :: rows[i] == (keys[i], WireTimestamp(SpecOf(specs, keys[i])))
  {
    seq(|keys|, i requires 0 <= i < |keys| => (keys[i], WireTimestamp(SpecOf(specs, keys[i]))))
  }

  function RequestFor(keys: seq<PartitionKey>, ask: Ask): Request {
    Request(if ask.isolation.ReadCommitted? then 1 else 0, Grouped(Timestamped(keys, ask.specs)), ask.timeoutMs)
  }

  method BuildRequest(keys: seq<PartitionKey>, ask: Ask) returns (request: Request)
    ensures request == RequestFor(keys, ask)
  {
    var topics := GroupByTopic(Timestamped(keys, ask.specs));
    request := Request(if ask.isolation.ReadCommitted? then 1 else 0, topics, ask.timeoutMs);
  }

  /** The leader reads exactly the asked partitions, each with its own timestamp. */
  lemma RequestFlattensBack(keys: seq<PartitionKey>, ask: Ask, k: PartitionKey, timestamp: int)
    ensures multiset(Flatten(RequestFor(keys, ask).topics)) == multiset(Timestamped(keys, ask.specs))
    ensures (k, timestamp) in Flatten(RequestFor(keys, ask).topics) <==>
            k in keys && timestamp == WireTimestamp(SpecOf(ask.specs, k))
  {
    var rows := Timestamped(keys, ask.specs);
    FlattenGrouped(rows);
    assert (k, timestamp) in Flatten(Grouped(rows)) <==> (k, timestamp) in rows by {
      assert (k, timestamp) in multiset(Flatten(Grouped(rows))) <==> (k, timestamp) in multiset(rows);
    }
    if k in keys {
      var i :| 0 <= i < |keys| && keys[i] == k;
      assert rows[i] == (k, WireTimestamp(SpecOf(ask.specs, k)));
    }
  }

  /** What a leader makes of the isolation field. */
  function IsolationOf(level: int): Isolation {
    if level == 1 then ReadCommitted else ReadUncommitted
  }

  /** The leader reads the isolation of the lookup, and for each asked partition the timestamp of the spec that was
      asked for it. */
  lemma RequestSaysTheAsk(asked: seq<PartitionKey>, ask: Ask, k: PartitionKey, timestamp: int)
    requires k in asked && k in ask.specs
    ensures IsolationOf(RequestFor(asked, ask).isolation) == ask.isolation
    ensures (k, timestamp) in Flatten(RequestFor(asked, ask).topics) <==> timestamp == WireTimestamp(ask.specs[k])
  {
    RequestFlattensBack(asked, ask, k, timestamp);
  }

  // ----- which partitions the leader can answer -----

  predicate Supports(k: PartitionKey, ask: Ask, highest: int) {
    RequiredVersion(SpecOf(ask.specs, k), ask.isolation) <= highest
  }

  function Supported(keys: seq<PartitionKey>, ask: Ask, highest: int): seq<PartitionKey> {
    Filter((k: PartitionKey) => Supports(k, ask, highest), keys)
  }

  function UnsupportedError(k: PartitionKey, ask: Ask, highest: int): KafkaError {
    KafkaError(UNSUPPORTED_VERSION, Own(Unsupported(RequiredVersion(SpecOf(ask.specs, k), ask.isolation), highest)))
  }

  method SplitSupported(keys: seq<PartitionKey>, ask: Ask, highest: int)
    returns (supported: seq<PartitionKey>, unsupported: Results)
    ensures supported == Supported(keys, ask, highest)
    ensures unsupported == map k | k in keys && !Supports(k, ask, highest) :: Err(UnsupportedError(k, ask, highest))
  {
    supported, unsupported := [], map[];
    for i := 0 to |keys|
      invariant supported == Supported(keys[..i], ask, highest)
      invariant forall k :: k in unsupported <==> k in keys[..i] && !Supports(k, ask, highest)
      invariant forall k | k in unsupported :: unsupported[k] == Err(UnsupportedError(k, ask, highest))
    {
      assert keys[..i + 1][..i] == keys[..i] && keys[..i + 1] == keys[..i] + [keys[i]];
      if Supports(keys[i], ask, highest) {
        supported := supported + [keys[i]];
      } else {
        unsupported := unsupported[keys[i] := Err(UnsupportedError(keys[i], ask, highest))];
      }
    }
    assert keys[..|keys|] == keys;
  }

  // ----- the answer -----

  function ResultOf(row: OffsetRow): Result<ListedOffset, KafkaError> {
    if row.code == 0 then Ok(ListedOffset(row.offset, row.timestamp, if row.epoch != -1 then Some(row.epoch) else None))
    else Err(KafkaError(row.code, FromBroker(None)))
  }

  /** The last row of each partition counts. */
  function LastResults(rows: seq<Row<OffsetRow>>): Results {
    if rows == [] then map[]
    else LastResults(rows[..|rows| - 1])[rows[|rows| - 1].0 := ResultOf(rows[|rows| - 1].1)]
  }

  lemma {:induction false} FlattenSplits<V>(topics: seq<Topic<V>>, i: nat)
    requires i < |topics|
    ensures Flatten(topics[..i + 1]) == Flatten(topics[..i]) + Tagged(topics[i].name, topics[i].partitions)
  {
    assert topics[..i + 1][..i] == topics[..i];
  }

  method ReadRows(topics: seq<Topic<OffsetRow>>) returns (out: Results)
    ensures out == LastResults(Flatten(topics))
  {
    out := map[];
    for i := 0 to |topics|
      invariant out == LastResults(Flatten(topics[..i]))
    {
      FlattenSplits(topics, i);
      out := ReadTopic(out, topics[i], Flatten(topics[..i]));
    }
    assert topics[..|topics|] == topics;
  }

  method ReadTopic(start: Results, topic: Topic<OffsetRow>, ghost before: seq<Row<OffsetRow>>) returns (out: Results)
    requires start == LastResults(before)
    ensures out == LastResults(before + Tagged(topic.name, topic.partitions))
  {
    out := start;
    var rows := topic.partitions;
    assert before + [] == before;
    for j := 0 to |rows|
      invariant out == LastResults(before + Tagged(topic.name, rows[..j]))
    {
      var row: Row<OffsetRow> := ((topic.name, rows[j].0), rows[j].1);
      ghost var read := before + Tagged(topic.name, rows[..j]);
      assert rows[..j + 1][..j] == rows[..j];
      assert before + Tagged(topic.name, rows[..j + 1]) == read + [row];
      assert (read + [row])[..|read|] == read;
      out := out[row.0 := ResultOf(row.1)];
    }
    assert rows[..|rows|] == rows;
  }

  /** The result of `k` is that of its last row, and there is none without a row. */
  lemma {:induction false} LastRowCounts(rows: seq<Row<OffsetRow>>, k: PartitionKey)
    ensures k in LastResults(rows) <==> exists i | 0 <= i < |rows| :: rows[i].0 == k
    ensures k in LastResults(rows) ==>
              exists i | 0 <= i < |rows| :: rows[i].0 == k && LastResults(rows)[k] == ResultOf(rows[i].1) &&
                                            forall j | i < j < |rows| :: rows[j].0 != k
  {
    if rows != [] {
      var n := |rows| - 1;
      LastRowCounts(rows[..n], k);
      if rows[n].0 != k && k in LastResults(rows[..n]) {
        var i :| 0 <= i < n && rows[..n][i].0 == k && LastResults(rows[..n])[k] == ResultOf(rows[..n][i].1) &&
                 forall j | i < j < n :: rows[..n][j].0 != k;
        assert rows[i].0 == k;
        forall j | i < j < |rows| ensures rows[j].0 != k {
          if j < n { assert rows[..n][j].0 != k; }
        }
      }
    }
  }

  // ----- one leader -----

  /** The results of one call to a leader, and the request that went out, if one did. */
  datatype Called = Called(answer: Result<Results, AdminError>, request: Option<Request>)

  /** The result that a leader's answer, or the version gate, gives one partition. */
  function Answered(k: PartitionKey, ask: Ask, highest: int, topics: seq<Topic<OffsetRow>>)
    : Result<ListedOffset, KafkaError>
  {
    if Supports(k, ask, highest) then L.Completed(k, LastResults(Flatten(topics)))
    else Err(UnsupportedError(k, ask, highest))
  }

  function AllAnswered(keys: seq<PartitionKey>, ask: Ask, highest: int, topics: seq<Topic<OffsetRow>>): Results {
    map k | k in keys :: Answered(k, ask, highest, topics)
  }

  function CallOf(keys: seq<PartitionKey>, ask: Ask, leader: Leader): Called {
    if leader.refused.Some? then Called(Err(leader.refused.value), None)
    else
      var highest := HighestVersion(ask, leader);
      var supported := Supported(keys, ask, highest);
      if supported == [] then Called(Ok(AllAnswered(keys, ask, highest, [])), None)
      else
        var request := RequestFor(supported, ask);
        match leader.respond(request)
        case Err(error) => Called(Err(error), Some(request))
        case Ok(topics) => Called(Ok(AllAnswered(keys, ask, highest, topics)), Some(request))
  }

  /** The results of the keys that went out join the ones that failed at the version gate. */
  lemma ExtendsToAll(keys: seq<PartitionKey>, ask: Ask, highest: int, topics: seq<Topic<OffsetRow>>,
                     unsupported: Results, read: Results)
    requires unsupported == map k | k in keys && !Supports(k, ask, highest) :: Err(UnsupportedError(k, ask, highest))
    requires read == map k | k in Supported(keys, ask, highest) :: L.Completed(k, LastResults(Flatten(topics)))
    ensures unsupported + read == AllAnswered(keys, ask, highest, topics)
  {
  }

  /** The call that the client makes to one leader. */
  method ListOffsetsOnLeader(keys: seq<PartitionKey>, ask: Ask, leader: Leader) returns (called: Called)
    ensures called == CallOf(keys, ask, leader)
  {
    if leader.refused.Some? {
      return Called(Err(leader.refused.value), None);
    }
    var highest := HighestVersion(ask, leader);
    var supported, out := SplitSupported(keys, ask, highest);
    if supported == [] {
      ExtendsToAll(keys, ask, highest, [], out, map[]);
      assert out + map[] == out;
      return Called(Ok(out), None);
    }
    var request := BuildRequest(supported, ask);
    match leader.respond(request)
    case Err(error) => called := Called(Err(error), Some(request));
    case Ok(topics) =>
      var rows := ReadRows(topics);
      var read := LeaderCall.CompleteResults(supported, rows);
      ExtendsToAll(keys, ask, highest, topics, out, read);
      called := Called(Ok(out + read), Some(request));
  }

  /** What goes out to a leader names exactly the partitions whose lookup the leader's version can answer, each
      with its own timestamp. */
  lemma OnlySupportedKeysGoOut(keys: seq<PartitionKey>, ask: Ask, leader: Leader, k: PartitionKey, timestamp: int)
    requires CallOf(keys, ask, leader).request.Some?
    ensures (k, timestamp) in Flatten(CallOf(keys, ask, leader).request.value.topics) <==>
            && k in keys && Supports(k, ask, HighestVersion(ask, leader))
            && timestamp == WireTimestamp(SpecOf(ask.specs, k))
  {
    RequestFlattensBack(Supported(keys, ask, HighestVersion(ask, leader)), ask, k, timestamp);
  }

  lemma {:induction false} SupportedTwice(keys: seq<PartitionKey>, ask: Ask, highest: int)
    ensures Supported(Supported(keys, ask, highest), ask, highest) == Supported(keys, ask, highest)
  {
    if keys != [] {
      SupportedTwice(keys[..|keys| - 1], ask, highest);
      var rest := Supported(keys[..|keys| - 1], ask, highest);
      assert (rest + [keys[|keys| - 1]])[..|rest|] == rest;
    }
  }

  /** A partition that the leader cannot answer fails alone: without it and its like, the same request goes out
      and every other partition gets the same result. */
  lemma UnsupportedKeysFailAlone(keys: seq<PartitionKey>, ask: Ask, leader: Leader)
    requires leader.refused.None?
    ensures var supported := Supported(keys, ask, HighestVersion(ask, leader));
            var with, without := CallOf(keys, ask, leader), CallOf(supported, ask, leader);
            && with.request == without.request
            && with.answer.Ok? == without.answer.Ok?
            && (with.answer.Err? ==> with.answer == without.answer)
            && (with.answer.Ok? ==>
                  && with.answer.value.Keys == Elements(keys)
                  && (forall k | k in supported ::
                        k in without.answer.value && with.answer.value[k] == without.answer.value[k])
                  && (forall k | k in keys && k !in supported ::
                        with.answer.value[k] == Err(UnsupportedError(k, ask, HighestVersion(ask, leader)))))
  {
    SupportedTwice(keys, ask, HighestVersion(ask, leader));
  }

  // ----- the whole lookup -----

  /** The cluster of one lookup: its metadata answers and clock, its leaders, and which calls end in time. */
  datatype Cluster = Cluster(
    metadata: (nat, seq<string>) -> Option<Result<L.Metadata, AdminError>>,
    leaders: (nat, string) -> Leader,
    inTime: (nat, string) -> bool,
    beforeBackoff: nat -> int,
    afterBackoff: nat -> int)

  function CallIn(cluster: Cluster, ask: Ask, n: nat, address: string, keys: seq<PartitionKey>)
    : L.LeaderAnswer<ListedOffset>
  {
    if cluster.inTime(n, address) then Some(CallOf(keys, ask, cluster.leaders(n, address)).answer) else None
  }

  function WorldOf(cluster: Cluster, ask: Ask): L.World<ListedOffset> {
    L.World(cluster.metadata,
            (n: nat, address: string, keys: seq<PartitionKey>) => CallIn(cluster, ask, n, address, keys),
            (code: int) => RetryCode(code), cluster.beforeBackoff, cluster.afterBackoff)
  }

  function Lookup(ask: Ask, deadline: RetryDeadline, cluster: Cluster): Ended<L.Queue<ListedOffset>> {
    L.Run(SortedKeys(ask.specs.Keys), deadline, WorldOf(cluster, ask))
  }

  /** Where the result that a leader gives in round `i` comes from: its refusal or failed answer, the version gate,
      or its last row, and then never a code that retries. */
  ghost predicate LeaderGives(k: PartitionKey, ask: Ask, leader: Leader, batch: seq<PartitionKey>,
                              result: Result<ListedOffset, KafkaError>)
  {
    match CallOf(batch, ask, leader).answer
    case Err(error) => !IsConnectionFailure(error) && result == Err(L.CallError(error))
    case Ok(results) =>
      if Supports(k, ask, HighestVersion(ask, leader)) then
        && k in results && result == results[k] && (result.Err? ==> !RetryCode(result.error.code))
      else result == Err(UnsupportedError(k, ask, HighestVersion(ask, leader)))
  }

  ghost predicate LookupGives(round: L.LeaderRound<ListedOffset>, i: nat, ask: Ask, cluster: Cluster, k: PartitionKey,
                              result: Result<ListedOffset, KafkaError>)
  {
    var metadata := cluster.metadata(i, L.RequestTopics(round.before.order));
    metadata.Some? &&
    match metadata.value
    case Err(error) => !IsConnectionFailure(error) && result == Err(L.CallError(error))
    case Ok(md) =>
      || (result.Err? && L.FailsWith(k, md, result.error))
      || exists address ::
           && L.LedBy(k, md, address) && k in L.BatchAt(round.looked, address)
           && LeaderGives(k, ask, cluster.leaders(i, address), L.BatchAt(round.looked, address), result)
  }

  lemma AnswerIsGiven(k: PartitionKey, ask: Ask, leader: Leader, batch: seq<PartitionKey>,
                      result: Result<ListedOffset, KafkaError>)
    requires k in batch
    requires L.GivenBy(k, Some(CallOf(batch, ask, leader).answer), (code: int) => RetryCode(code), result)
    ensures LeaderGives(k, ask, leader, batch, result)
  {
  }

  lemma LeaderIsGiven(round: L.LeaderRound<ListedOffset>, i: nat, ask: Ask, cluster: Cluster, k: PartitionKey,
                      md: L.Metadata, address: string, result: Result<ListedOffset, KafkaError>)
    requires L.Sound(round.before) && L.LeaderFollows(round, i, WorldOf(cluster, ask)) && k in round.before.order
    requires cluster.metadata(i, L.RequestTopics(round.before.order)) == Some(Ok(md)) && L.LedBy(k, md, address)
    requires L.GivenBy(k, L.AnswerAt(round.looked, address, i, WorldOf(cluster, ask)), WorldOf(cluster, ask).retryCode,
                       result)
    ensures k in L.BatchAt(round.looked, address)
    ensures LeaderGives(k, ask, cluster.leaders(i, address), L.BatchAt(round.looked, address), result)
  {
    L.BatchesFollowMetadata(round.before, i, WorldOf(cluster, ask), round.looked, address, k);
    var batch := L.BatchAt(round.looked, address);
    assert L.AnswerAt(round.looked, address, i, WorldOf(cluster, ask)) == CallIn(cluster, ask, i, address, batch);
    AnswerIsGiven(k, ask, cluster.leaders(i, address), batch, result);
  }

  lemma SourceIsGiven(round: L.LeaderRound<ListedOffset>, i: nat, ask: Ask, cluster: Cluster, k: PartitionKey,
                      result: Result<ListedOffset, KafkaError>)
    requires L.Sound(round.before) && L.LeaderFollows(round, i, WorldOf(cluster, ask))
    requires L.HasSource(round, i, WorldOf(cluster, ask), k, result)
    ensures LookupGives(round, i, ask, cluster, k, result)
  {
    var world := WorldOf(cluster, ask);
    var metadata := cluster.metadata(i, L.RequestTopics(round.before.order));
    if metadata.value.Ok? && !(result.Err? && L.FailsWith(k, metadata.value.value, result.error)) {
      var address :| L.LedBy(k, metadata.value.value, address) &&
                     L.GivenBy(k, L.AnswerAt(round.looked, address, i, world), world.retryCode, result);
      LeaderIsGiven(round, i, ask, cluster, k, metadata.value.value, address, result);
    }
  }

  ghost predicate SoundSource<V>(round: L.LeaderRound<V>, i: nat, world: L.World<V>, k: PartitionKey,
                                 result: Result<V, KafkaError>)
  {
    L.HasSource(round, i, world, k, result) && L.Sound(round.before) && L.LeaderFollows(round, i, world)
  }

  /** The partition is pending when the run stops at its limit, and gets the timeout. */
  ghost predicate TimesOut<V>(e: Ended<L.Queue<V>>, deadline: RetryDeadline, world: L.World<V>, k: PartitionKey) {
    && k in e.state.order && AtItsLimit(e, 0, deadline, L.LeaderLoop(world))
    && k in L.Finish(e) && L.Finish(e)[k] == Err(TimeoutError(e.attempts))
  }

  /** A settled partition has its source in a round that starts from a sound queue. */
  lemma SettledSoundly<V>(keys: seq<PartitionKey>, deadline: RetryDeadline, world: L.World<V>, e: Ended<L.Queue<V>>,
                          k: PartitionKey)
    requires e == L.Run(keys, deadline, world) && k in keys
    ensures L.Finish(e).Keys == Elements(keys)
    ensures TimesOut(e, deadline, world, k) ||
            exists i | 0 <= i < |e.rounds| :: SoundSource(e.rounds[i], i, world, k, L.Finish(e)[k])
  {
    L.KeysAreConserved(keys, deadline, world, e);
    L.EveryResultHasASource(keys, deadline, world, e, k);
    if k !in e.state.order {
      var i :| 0 <= i < |e.rounds| && L.HasSource(e.rounds[i], i, world, k, L.Finish(e)[k]);
      RunIsLinked(L.StartQueue(keys), 0, deadline, L.LeaderLoop(world));
      L.QueuesAreSound(keys, e.rounds, world, i);
      assert SoundSource(e.rounds[i], i, world, k, L.Finish(e)[k]);
    }
  }

  lemma SourcesAreGiven(rounds: seq<L.LeaderRound<ListedOffset>>, ask: Ask, cluster: Cluster, k: PartitionKey,
                        result: Result<ListedOffset, KafkaError>)
    requires exists i | 0 <= i < |rounds| :: SoundSource(rounds[i], i, WorldOf(cluster, ask), k, result)
    ensures exists i | 0 <= i < |rounds| :: LookupGives(rounds[i], i, ask, cluster, k, result)
  {
    var i :| 0 <= i < |rounds| && SoundSource(rounds[i], i, WorldOf(cluster, ask), k, result);
    SourceIsGiven(rounds[i], i, ask, cluster, k, result);
  }

  /** The lookup answers every asked partition once. A result comes from one round, by way of the metadata, the
      version gate or the leader, and a leader's code that retries is never final; or it is the timeout, and then the
      partition was pending when the lookup stopped at its limit. */
  lemma LookupIsRight(ask: Ask, deadline: RetryDeadline, cluster: Cluster, e: Ended<L.Queue<ListedOffset>>,
                      k: PartitionKey)
    requires e == Lookup(ask, deadline, cluster) && k in ask.specs
    ensures L.Finish(e).Keys == ask.specs.Keys
    ensures TimesOut(e, deadline, WorldOf(cluster, ask), k) ||
            exists i | 0 <= i < |e.rounds| :: LookupGives(e.rounds[i], i, ask, cluster, k, L.Finish(e)[k])
  {
    SettledSoundly(SortedKeys(ask.specs.Keys), deadline, WorldOf(cluster, ask), e, k);
    if !TimesOut(e, deadline, WorldOf(cluster, ask), k) {
      SourcesAreGiven(e.rounds, ask, cluster, k, L.Finish(e)[k]);
    }
  }

  /** Row `j` is the last one of the partition. */
  ghost predicate LastRowAt(rows: seq<Row<OffsetRow>>, k: PartitionKey, j: int) {
    0 <= j < |rows| && rows[j].0 == k && forall i | j < i < |rows| :: rows[i].0 != k
  }

  lemma LastRowGives(rows: seq<Row<OffsetRow>>, k: PartitionKey, j: int)
    requires LastRowAt(rows, k, j)
    ensures k in LastResults(rows) && LastResults(rows)[k] == ResultOf(rows[j].1)
  {
    LastRowCounts(rows, k);
  }

  /** The leader of a batch answers in time, at a version that answers the lookup of `k`. */
  ghost predicate AnswersAt(ask: Ask, leader: Leader, batch: seq<PartitionKey>, k: PartitionKey,
                            topics: seq<Topic<OffsetRow>>)
  {
    && leader.refused.None? && leader.advertised.Some?
    && RequiredVersion(SpecOf(ask.specs, k), ask.isolation) <= leader.advertised.value
    && RequiredVersion(SpecOf(ask.specs, k), ask.isolation) <= ask.latest
    && leader.respond(RequestFor(Supported(batch, ask, HighestVersion(ask, leader)), ask)) == Ok(topics)
  }

  lemma AnsweredResult(ask: Ask, leader: Leader, batch: seq<PartitionKey>, k: PartitionKey,
                       topics: seq<Topic<OffsetRow>>, j: int)
    requires k in batch && AnswersAt(ask, leader, batch, k, topics) && LastRowAt(Flatten(topics), k, j)
    ensures CallOf(batch, ask, leader).answer.Ok? && k in CallOf(batch, ask, leader).answer.value
    ensures CallOf(batch, ask, leader).answer.value[k] == ResultOf(Flatten(topics)[j].1)
  {
    assert k in Supported(batch, ask, HighestVersion(ask, leader));
    LastRowGives(Flatten(topics), k, j);
  }

  /** What the answer of a leader in time gives a partition of its batch. */
  lemma AnswerGives(ask: Ask, deadline: RetryDeadline, cluster: Cluster, e: Ended<L.Queue<ListedOffset>>, i: nat,
                    address: string, k: PartitionKey, results: Results)
    requires e == Lookup(ask, deadline, cluster) && i < |e.rounds| && k in L.BatchAt(e.rounds[i].looked, address)
    requires cluster.inTime(i, address) && k in results
    requires CallOf(L.BatchAt(e.rounds[i].looked, address), ask, cluster.leaders(i, address)).answer == Ok(results)
    ensures if results[k].Err? && RetryCode(results[k].error.code) then E.GoesBack(e, i, k)
            else E.Gets(e, k, results[k])
  {
    var batch, world := L.BatchAt(e.rounds[i].looked, address), WorldOf(cluster, ask);
    assert world.call(i, address, batch) == CallIn(cluster, ask, i, address, batch);
    E.AnswerTakesEffect(SortedKeys(ask.specs.Keys), deadline, world, e, i, address, k);
  }

  /** The last row that a leader sends for a partition decides it: without an error it is the offset of the partition,
      a code that retries sends it back to the leader lookup, and any other code is its error. */
  lemma RowTakesEffect(ask: Ask, deadline: RetryDeadline, cluster: Cluster, e: Ended<L.Queue<ListedOffset>>, i: nat,
                       address: string, k: PartitionKey, topics: seq<Topic<OffsetRow>>, j: int)
    requires e == Lookup(ask, deadline, cluster) && i < |e.rounds| && k in L.BatchAt(e.rounds[i].looked, address)
    requires cluster.inTime(i, address)
    requires AnswersAt(ask, cluster.leaders(i, address), L.BatchAt(e.rounds[i].looked, address), k, topics)
    requires LastRowAt(Flatten(topics), k, j)
    ensures var row := Flatten(topics)[j].1;
            if row.code == 0 then
              E.Gets(e, k, Ok(ListedOffset(row.offset, row.timestamp,
                                           if row.epoch == -1 then None else Some(row.epoch))))
            else if RetryCode(row.code) then E.GoesBack(e, i, k)
            else E.Gets(e, k, Err(KafkaError(row.code, FromBroker(None))))
  {
    var batch := L.BatchAt(e.rounds[i].looked, address);
    AnsweredResult(ask, cluster.leaders(i, address), batch, k, topics, j);
    AnswerGives(ask, deadline, cluster, e, i, address, k, CallOf(batch, ask, cluster.leaders(i, address)).answer.value);
  }

  /** A leader that cannot be dialled, or does not answer, fails its batch, unless only the connection failed. */
  lemma FailureTakesEffect(ask: Ask, deadline: RetryDeadline, cluster: Cluster, e: Ended<L.Queue<ListedOffset>>, i: nat,
                           address: string, k: PartitionKey, error: AdminError)
    requires e == Lookup(ask, deadline, cluster) && i < |e.rounds| && k in L.BatchAt(e.rounds[i].looked, address)
    requires cluster.inTime(i, address)
    requires var leader := cluster.leaders(i, address);
             var supported := Supported(L.BatchAt(e.rounds[i].looked, address), ask, HighestVersion(ask, leader));
             || leader.refused == Some(error)
             || (leader.refused.None? && supported != [] && leader.respond(RequestFor(supported, ask)) == Err(error))
    ensures if IsConnectionFailure(error) then E.GoesBack(e, i, k) else E.Gets(e, k, Err(L.CallError(error)))
  {
    var batch, world := L.BatchAt(e.rounds[i].looked, address), WorldOf(cluster, ask);
    assert world.call(i, address, batch) == CallIn(cluster, ask, i, address, batch);
    E.AnswerTakesEffect(SortedKeys(ask.specs.Keys), deadline, world, e, i, address, k);
  }

  /** The leader of a batch answers in time, but at a version that cannot answer the lookup of `k`. */
  ghost predicate AnswersBelow(ask: Ask, leader: Leader, batch: seq<PartitionKey>, k: PartitionKey) {
    && CallOf(batch, ask, leader).answer.Ok?
    && (leader.advertised.Some? ==>
          RequiredVersion(SpecOf(ask.specs, k), ask.isolation) >
          (if leader.advertised.value <= ask.latest then leader.advertised.value else ask.latest))
  }

  /** A lookup that its leader cannot answer fails with the version that it needs. */
  lemma VersionGateTakesEffect(ask: Ask, deadline: RetryDeadline, cluster: Cluster, e: Ended<L.Queue<ListedOffset>>,
                               i: nat, address: string, k: PartitionKey)
    requires e == Lookup(ask, deadline, cluster) && i < |e.rounds| && k in L.BatchAt(e.rounds[i].looked, address)
    requires cluster.inTime(i, address)
    requires AnswersBelow(ask, cluster.leaders(i, address), L.BatchAt(e.rounds[i].looked, address), k)
    ensures E.Gets(e, k, Err(KafkaError(35, Own(Unsupported(RequiredVersion(SpecOf(ask.specs, k), ask.isolation),
                                                            HighestVersion(ask, cluster.leaders(i, address)))))))
  {
    var batch, leader := L.BatchAt(e.rounds[i].looked, address), cluster.leaders(i, address);
    var results := CallOf(batch, ask, leader).answer.value;
    assert k in results && results[k] == Err(UnsupportedError(k, ask, HighestVersion(ask, leader))) by {
      GateResult(ask, leader, batch, k);
    }
    AnswerGives(ask, deadline, cluster, e, i, address, k, results);
  }

  lemma VersionsArePositive(spec: OffsetSpec, isolation: Isolation)
    ensures RequiredVersion(spec, isolation) >= 1
  {
  }

  lemma GateResult(ask: Ask, leader: Leader, batch: seq<PartitionKey>, k: PartitionKey)
    requires k in batch && AnswersBelow(ask, leader, batch, k)
    ensures k in CallOf(batch, ask, leader).answer.value
    ensures CallOf(batch, ask, leader).answer.value[k] == Err(UnsupportedError(k, ask, HighestVersion(ask, leader)))
  {
    VersionsArePositive(SpecOf(ask.specs, k), ask.isolation);
  }

  /** The client's lookup gives what `Lookup` gives. */
  method ListOffsetsOf(ask: Ask, deadline: RetryDeadline, cluster: Cluster) returns (out: Results)
    ensures out == L.Finish(Lookup(ask, deadline, cluster))
  {
    out := LeaderCall.CallPartitionLeaders(SortedKeys(ask.specs.Keys), deadline, WorldOf(cluster, ask));
  }
}
