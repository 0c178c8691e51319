/** Altering configs: one request for each resource that goes to a node of its own, one request for all the others, and
    each of them sent again while its answer comes from a node that is not the controller. */
module AlterConfigs {
  import opened Base
  import opened Configs

  datatype ConfigOp = ConfigOp(name: string, value: Option<string>, operation: int)

  type Request = map<Resource, seq<ConfigOp>>

  datatype AlterRow = AlterRow(kindId: int, name: string, code: int, message: Option<string>)

  type AlterAnswer = Result<seq<AlterRow>, KafkaError>

  type AlterResults = map<Resource, Result<(), KafkaError>>

  predicate IsNotController(row: AlterRow, controllers: bool) {
    row.code == NOT_CONTROLLER || (controllers && row.code == NOT_LEADER_OR_FOLLOWER)
  }

  predicate NamesNotController(rows: seq<AlterRow>, controllers: bool) {
    exists row | row in rows :: IsNotController(row, controllers)
  }

  // ----- sending one request until it is delivered -----

  /** What happens to each sending of a request: its answer, the failure to find the controller again, and the time
      before and after the backoff. */
  datatype Channel = Channel(
    send: nat -> AlterAnswer,
    refresh: nat -> Option<KafkaError>,
    beforeBackoff: nat -> int,
    afterBackoff: nat -> int)

  function Delivered(n: nat, deadline: RetryDeadline, controllers: bool, channel: Channel): AlterAnswer
    decreases deadline.maxRetries - deadline.retries
  {
    match channel.send(n)
    case Err(error) => Err(error)
    case Ok(rows) =>
      if !NamesNotController(rows, controllers) then Ok(rows)
      else if channel.refresh(n).Some? then Err(channel.refresh(n).value)
      else if deadline.Exhausted(channel.beforeBackoff(n)) || deadline.Expired(channel.afterBackoff(n)) then
        Err(TimeoutError(n + 1))
      else Delivered(n + 1, deadline.AfterBackoff(), controllers, channel)
  }

  method Deliver(start: RetryDeadline, controllers: bool, channel: Channel) returns (answer: AlterAnswer)
    ensures answer == Delivered(0, start, controllers, channel)
  {
    var n, deadline := 0, start;
    while true
      invariant Delivered(n, deadline, controllers, channel) == Delivered(0, start, controllers, channel)
      decreases deadline.maxRetries - deadline.retries
    {
      answer := channel.send(n);
      if answer.Err? || !NamesNotController(answer.value, controllers) {
        return;
      }
      if channel.refresh(n).Some? {
        return Err(channel.refresh(n).value);
      }
      if deadline.Exhausted(channel.beforeBackoff(n)) {
        return Err(TimeoutError(n + 1));
      }
      deadline := deadline.AfterBackoff();
      if deadline.Expired(channel.afterBackoff(n)) {
        return Err(TimeoutError(n + 1));
      }
      n := n + 1;
    }
  }

  /** A delivered answer is the answer to one sending, after others that all came from a node that was not the
      controller, and it does not itself say so. The request is sent at most once more than there are retries. */
  lemma {:induction false} DeliveredByTheController(n: nat, deadline: RetryDeadline, controllers: bool,
                                                    channel: Channel)
    requires Delivered(n, deadline, controllers, channel).Ok? && deadline.retries <= deadline.maxRetries
    ensures !NamesNotController(Delivered(n, deadline, controllers, channel).value, controllers)
    ensures exists m | n <= m <= n + deadline.maxRetries - deadline.retries ::
              && channel.send(m) == Delivered(n, deadline, controllers, channel)
              && forall k | n <= k < m :: channel.send(k).Ok? && NamesNotController(channel.send(k).value, controllers)
    decreases deadline.maxRetries - deadline.retries
  {
    if channel.send(n).Ok? && NamesNotController(channel.send(n).value, controllers) {
      DeliveredByTheController(n + 1, deadline.AfterBackoff(), controllers, channel);
    }
  }

  /** Sending `k` of those from `n` on comes to nothing, and another one follows: a row says that the node is not the
      controller, the controller is found again, and there is a retry left and time for it. */
  ghost predicate SentAgain(k: nat, n: nat, deadline: RetryDeadline, controllers: bool, channel: Channel) {
    && channel.send(k).Ok? && SaysNotController(channel.send(k).value, controllers) && channel.refresh(k).None?
    && deadline.retries + (k - n) < deadline.maxRetries
    && channel.beforeBackoff(k) < deadline.deadline && channel.afterBackoff(k) < deadline.deadline
  }

  ghost predicate SaysNotController(rows: seq<AlterRow>, controllers: bool) {
    exists i | 0 <= i < |rows| :: rows[i].code == 41 || (controllers && rows[i].code == 6)
  }

  lemma SaysIsNames(rows: seq<AlterRow>, controllers: bool)
    ensures SaysNotController(rows, controllers) <==> NamesNotController(rows, controllers)
  {
    if SaysNotController(rows, controllers) {
      var i :| 0 <= i < |rows| && (rows[i].code == 41 || (controllers && rows[i].code == 6));
      assert rows[i] in rows && IsNotController(rows[i], controllers);
    }
  }

  lemma {:induction false} SentPast(n: nat, deadline: RetryDeadline, controllers: bool, channel: Channel, m: nat)
    requires n <= m && forall k | n <= k < m :: SentAgain(k, n, deadline, controllers, channel)
    ensures Delivered(n, deadline, controllers, channel) ==
            Delivered(m, deadline.(retries := deadline.retries + (m - n)), controllers, channel)
    decreases m - n
  {
    if m > n {
      SentPast(n, deadline, controllers, channel, m - 1);
      assert SentAgain(m - 1, n, deadline, controllers, channel);
      SaysIsNames(channel.send(m - 1).value, controllers);
    }
  }

  /** The first sending that is not made again gives the answer: its rows or its error, the failure to find the
      controller, or the timeout when no retry or no time is left. */
  lemma FirstAnswerCounts(n: nat, deadline: RetryDeadline, controllers: bool, channel: Channel, m: nat)
    requires n <= m && forall k | n <= k < m :: SentAgain(k, n, deadline, controllers, channel)
    requires !SentAgain(m, n, deadline, controllers, channel)
    ensures Delivered(n, deadline, controllers, channel) ==
            if channel.send(m).Err? || !SaysNotController(channel.send(m).value, controllers) then channel.send(m)
            else if channel.refresh(m).Some? then Err(channel.refresh(m).value)
            else Err(TimeoutError(m + 1))
  {
    SentPast(n, deadline, controllers, channel, m);
    if channel.send(m).Ok? { SaysIsNames(channel.send(m).value, controllers); }
  }

  // ----- the result of each resource -----

  function AlterRowOf(r: Resource, rows: seq<AlterRow>): Option<AlterRow> {
    if rows == [] then None
    else
      var last := rows[|rows| - 1];
      if Resource(KindOf(last.kindId), last.name) == r then Some(last) else AlterRowOf(r, rows[..|rows| - 1])
  }

  function AlterResult(r: Resource, answer: AlterAnswer): Result<(), KafkaError> {
    match answer
    case Err(error) => Err(error)
    case Ok(rows) =>
      match AlterRowOf(r, rows)
      case None => Err(KafkaError(UNKNOWN_SERVER_ERROR, Own(NotAnswered)))
      case Some(row) => if row.code == 0 then Ok(()) else Err(KafkaError(row.code, FromBroker(row.message)))
  }

  lemma {:induction false} AlterRowIsIn(r: Resource, rows: seq<AlterRow>)
    ensures AlterRowOf(r, rows).Some? ==> AlterRowOf(r, rows).value in rows
  {
    if rows != [] { AlterRowIsIn(r, rows[..|rows| - 1]); }
  }

  /** Row `i` is the last one that names the resource, by its wire id and name. */
  ghost predicate LastNames(rows: seq<AlterRow>, r: Resource, i: int) {
    && 0 <= i < |rows| && KindOf(rows[i].kindId) == r.kind && rows[i].name == r.name
    && forall j | i < j < |rows| :: KindOf(rows[j].kindId) != r.kind || rows[j].name != r.name
  }

  lemma {:induction false} LastRowIsFound(r: Resource, rows: seq<AlterRow>)
    ensures forall i | LastNames(rows, r, i) :: AlterRowOf(r, rows) == Some(rows[i])
    ensures AlterRowOf(r, rows).Some? ==> exists i :: LastNames(rows, r, i)
  {
    if rows != [] {
      var n := |rows| - 1;
      LastRowIsFound(r, rows[..n]);
      if KindOf(rows[n].kindId) == r.kind && rows[n].name == r.name {
        assert LastNames(rows, r, n);
      } else {
        assert forall i | LastNames(rows, r, i) :: LastNames(rows[..n], r, i);
        assert forall i | LastNames(rows[..n], r, i) :: LastNames(rows, r, i);
      }
    }
  }

  /** The last row that names a resource is its result, and a resource that no row names gets an error. */
  lemma AlterRowDecides(r: Resource, rows: seq<AlterRow>, i: int)
    ensures LastNames(rows, r, i) ==>
              AlterResult(r, Ok(rows)) ==
              if rows[i].code == 0 then Ok(()) else Err(KafkaError(rows[i].code, FromBroker(rows[i].message)))
    ensures (forall j :: !LastNames(rows, r, j)) ==>
              AlterResult(r, Ok(rows)) == Err(KafkaError(-1, Own(NotAnswered)))
  {
    LastRowIsFound(r, rows);
  }

  /** No resource gets its error from a node that is not the controller. */
  lemma NoResultNamesNotController(r: Resource, deadline: RetryDeadline, controllers: bool, channel: Channel)
    requires Delivered(0, deadline, controllers, channel).Ok? && deadline.retries <= deadline.maxRetries
    ensures var result := AlterResult(r, Delivered(0, deadline, controllers, channel));
            result.Err? ==>
              result.error.code != NOT_CONTROLLER && (controllers ==> result.error.code != NOT_LEADER_OR_FOLLOWER)
  {
    DeliveredByTheController(0, deadline, controllers, channel);
    AlterRowIsIn(r, Delivered(0, deadline, controllers, channel).value);
  }

  method ReadAlter(asked: set<Resource>, answer: AlterAnswer) returns (out: AlterResults)
    ensures out == map r | r in asked :: AlterResult(r, answer)
  {
    match answer
    case Err(error) => out := map r | r in asked :: Err(error);
    case Ok(rows) =>
      var answered: map<Resource, AlterRow> := map[];
      for i := 0 to |rows|
        invariant forall r :: AlterRowOf(r, rows[..i]) == if r in answered then Some(answered[r]) else None
      {
        assert rows[..i + 1][..i] == rows[..i];
        answered := answered[Resource(KindOf(rows[i].kindId), rows[i].name) := rows[i]];
      }
      assert rows[..|rows|] == rows;
      out := map r | r in asked :: RowResult(if r in answered then Some(answered[r]) else None);
  }

  function RowResult(row: Option<AlterRow>): Result<(), KafkaError> {
    if row.None? then Err(KafkaError(UNKNOWN_SERVER_ERROR, Own(NotAnswered)))
    else if row.value.code == 0 then Ok(())
    else Err(KafkaError(row.value.code, FromBroker(row.value.message)))
  }

  // ----- the whole call -----

  /** The cluster: the channel of a request to one node, and of the request on the client's own connection, which
      starts its own deadline after the nodes answered. */
  datatype Cluster = Cluster(
    node: (int, Request) -> Channel, own: Request -> Channel, nodeDeadline: RetryDeadline, ownDeadline: RetryDeadline)

  /** The node that a resource goes to, if it has one of its own. */
  function TargetOf(r: Resource, controllers: bool): Option<int> {
    match NodeFor(r)
    case Err(_) => None
    case Ok(None) => None
    case Ok(Some(id)) => if !controllers || r.kind.LoggerKind? then Some(id) else None
  }

  /** A broker logger goes to its broker. A named broker does so too, unless the client talks to the controllers. */
  lemma TargetsByKind(r: Resource, controllers: bool, id: int)
    ensures TargetOf(r, controllers) == Some(id) <==>
            && ParseI32(r.name) == Some(id)
            && (r.kind == LoggerKind || (r.kind == BrokerKind && r.name != "" && !controllers))
  {
  }

  function OwnRequest(configs: Request, controllers: bool): Request {
    map r | r in configs && TargetOf(r, controllers).None? :: configs[r]
  }

  /** The one request that names a resource. */
  function RequestOf(r: Resource, configs: Request, controllers: bool): Request
    requires r in configs
  {
    if TargetOf(r, controllers).Some? then map[r := configs[r]] else OwnRequest(configs, controllers)
  }

  /** A call to one node does not look for the controller. */
  function Fixed(channel: Channel): Channel {
    channel.(refresh := (n: nat) => None)
  }

  function ChannelOf(r: Resource, configs: Request, controllers: bool, cluster: Cluster): Channel
    requires r in configs
  {
    var request := RequestOf(r, configs, controllers);
    if TargetOf(r, controllers).Some? then Fixed(cluster.node(TargetOf(r, controllers).value, request))
    else cluster.own(request)
  }

  /** A resource with a node of its own is sent there alone, and that call never looks for the controller; any other is
      sent on the client's own connection. */
  lemma ChannelsByTarget(r: Resource, configs: Request, controllers: bool, cluster: Cluster, n: nat)
    requires r in configs
    ensures var channel := ChannelOf(r, configs, controllers, cluster);
            match TargetOf(r, controllers)
            case Some(id) =>
              channel.send(n) == cluster.node(id, map[r := configs[r]]).send(n) && channel.refresh(n) == None
            case None => channel == cluster.own(OwnRequest(configs, controllers))
  {
  }

  function AnswerTo(r: Resource, configs: Request, controllers: bool, cluster: Cluster): AlterAnswer
    requires r in configs
  {
    var deadline := if TargetOf(r, controllers).Some? then cluster.nodeDeadline else cluster.ownDeadline;
    Delivered(0, deadline, controllers, ChannelOf(r, configs, controllers, cluster))
  }

  /** Each resource is named by its own request, with its operations, and by no other. */
  lemma RequestsPartition(r: Resource, x: Resource, configs: Request, controllers: bool)
    requires r in configs && x in configs
    ensures r in RequestOf(r, configs, controllers) && RequestOf(r, configs, controllers)[r] == configs[r]
    ensures r in RequestOf(x, configs, controllers) <==>
            x == r || (TargetOf(x, controllers).None? && TargetOf(r, controllers).None?)
    ensures r in RequestOf(x, configs, controllers) ==>
              RequestOf(x, configs, controllers) == RequestOf(r, configs, controllers)
  {
  }

  method AlterNodes(configs: Request, controllers: bool, cluster: Cluster) returns (out: AlterResults)
    ensures forall r :: r in out <==> r in configs && TargetOf(r, controllers).Some?
    ensures forall r | r in out :: out[r] == AlterResult(r, AnswerTo(r, configs, controllers, cluster))
  {
    out := map[];
    var left := configs.Keys;
    while left != {}
      invariant left <= configs.Keys
      invariant forall r :: r in out <==> r in configs && r !in left && TargetOf(r, controllers).Some?
      invariant forall r | r in out :: out[r] == AlterResult(r, AnswerTo(r, configs, controllers, cluster))
      decreases |left|
    {
      var r :| r in left;
      var target := TargetOf(r, controllers);
      if target.Some? {
        var answer := Deliver(cluster.nodeDeadline, controllers,
                              Fixed(cluster.node(target.value, map[r := configs[r]])));
        var results := ReadAlter({r}, answer);
        out := out[r := results[r]];
      }
      left := left - {r};
    }
  }

  /** Every resource gets one result, from the answer to the one request that names it, unless a name that must be a
      broker id is none. */
  method IncrementalAlterConfigs(configs: Request, controllers: bool, cluster: Cluster)
    returns (out: Result<AlterResults, AdminError>)
    ensures out.Err? <==> exists r | r in configs :: NodeFor(r).Err?
    ensures out.Ok? ==> out.value.Keys == configs.Keys
    ensures out.Ok? ==>
              forall r | r in configs :: out.value[r] == AlterResult(r, AnswerTo(r, configs, controllers, cluster))
  {
    if r :| r in configs && NodeFor(r).Err? {
      return Err(NodeFor(r).error);
    }
    var results := AlterNodes(configs, controllers, cluster);
    var request := OwnRequest(configs, controllers);
    if request != map[] {
      var answer := Deliver(cluster.ownDeadline, controllers, cluster.own(request));
      var own := ReadAlter(request.Keys, answer);
      results := results + own;
    }
    forall r | r in configs
      ensures r in results && results[r] == AlterResult(r, AnswerTo(r, configs, controllers, cluster))
    {
      assert TargetOf(r, controllers).None? ==> r in request;
    }
    out := Ok(results);
  }
}
