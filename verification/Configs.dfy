/** Describing and altering configs: which node each resource goes to, and what each answer gives it. */
module Configs {
  import opened Base
  import opened HostPort

  datatype Kind = UnknownKind | TopicKind | BrokerKind | LoggerKind | MetricsKind | GroupKind

  datatype Resource = Resource(kind: Kind, name: string)

  const NOT_LEADER_OR_FOLLOWER := 6

  function KindOf(id: int): Kind {
    if id == 2 then TopicKind
    else if id == 4 then BrokerKind
    else if id == 8 then LoggerKind
    else if id == 16 then MetricsKind
    else if id == 32 then GroupKind
    else UnknownKind
  }

  /** The wire id of a kind. */
  function IdOf(kind: Kind): int {
    match kind
    case UnknownKind => 0
    case TopicKind => 2
    case BrokerKind => 4
    case LoggerKind => 8
    case MetricsKind => 16
    case GroupKind => 32
  }

  /** Every kind reads back, and only an id that no kind has is unknown. */
  lemma KindsReadBack(kind: Kind, id: int)
    ensures KindOf(IdOf(kind)) == kind
    ensures IdOf(KindOf(id)) == id <==> id in {0, 2, 4, 8, 16, 32}
    ensures id !in {2, 4, 8, 16, 32} ==> KindOf(id) == UnknownKind
  {
  }

  // ----- broker ids -----

  function DigitsValue(s: string): Option<nat> {
    if s == [] then Some(0)
    else
      var rest, c := DigitsValue(s[..|s| - 1]), s[|s| - 1];
      if rest.Some? && '0' <= c <= '9' then Some(rest.value * 10 + (c as int - '0' as int)) else None
  }

  /** A signed 32-bit integer in decimal digits with an optional sign. */
  function ParseI32(s: string): Option<int> {
    var signed := s != [] && (s[0] == '-' || s[0] == '+');
    var digits := if signed then s[1..] else s;
    if digits == [] then None
    else
      match DigitsValue(digits)
      case None => None
      case Some(magnitude) =>
        var sign := if s[0] == '-' then -1 else 1;
        var n := sign * magnitude;
        if -0x8000_0000 <= n < 0x8000_0000 then Some(n) else None
  }

  lemma {:induction false} DigitsRead(n: nat)
    ensures DigitsValue(Digits(n)) == Some(n)
  {
    if n >= 10 {
      DigitsRead(n / 10);
      var s := Digits(n);
      assert s[..|s| - 1] == Digits(n / 10);
    } else {
      assert Digits(n)[..0] == [];
    }
  }

  lemma MagnitudeReads(n: nat)
    ensures DigitsValue(Digits(n)) == Some(n) && Digits(n) != [] && Digits(n)[0] != '-' && Digits(n)[0] != '+'
  {
    DigitsRead(n);
    DigitsAreDigits(n);
    assert Digits(n)[0] in Digits(n);
  }

  lemma SignedReads(digits: string, n: nat)
    requires DigitsValue(digits) == Some(n) && digits != [] && digits[0] != '-' && digits[0] != '+'
    ensures n < 0x8000_0000 ==> ParseI32(digits) == Some(n)
    ensures n <= 0x8000_0000 ==> ParseI32("-" + digits) == Some(-(n as int))
  {
    assert ("-" + digits)[1..] == digits;
  }

  /** The decimal name of every broker id reads back as that id. */
  lemma BrokerIdReads(id: int)
    requires -0x8000_0000 <= id < 0x8000_0000
    ensures ParseI32(Decimal(id)) == Some(id)
  {
    var magnitude: nat := if id < 0 then -id else id;
    MagnitudeReads(magnitude);
    SignedReads(Digits(magnitude), magnitude);
  }

  lemma {:induction false} DigitsOnly(s: string)
    ensures DigitsValue(s).Some? <==> forall i | 0 <= i < |s| :: '0' <= s[i] <= '9'
  {
    if s != [] { DigitsOnly(s[..|s| - 1]); }
  }

  /** A name is a broker id exactly when it is a sign, or none, and digits of a 32-bit number. */
  lemma NamesThatAreIds(s: string)
    ensures ParseI32(s).Some? <==>
            var digits := if s != [] && s[0] in {'-', '+'} then s[1..] else s;
            && digits != [] && (forall i | 0 <= i < |digits| :: '0' <= digits[i] <= '9') && DigitsValue(digits).Some?
            && (if s[0] == '-' then DigitsValue(digits).value <= 0x8000_0000
                else DigitsValue(digits).value < 0x8000_0000)
    ensures ParseI32(s).Some? ==> -0x8000_0000 <= ParseI32(s).value < 0x8000_0000
  {
    DigitsOnly(if s != [] && s[0] in {'-', '+'} then s[1..] else s);
  }

  predicate GoesById(resource: Resource) {
    resource.kind.LoggerKind? || (resource.kind.BrokerKind? && resource.name != "")
  }

  function NodeFor(resource: Resource): Result<Option<int>, AdminError> {
    if !GoesById(resource) then Ok(None)
    else
      match ParseI32(resource.name)
      case None => Err(InvalidArgument)
      case Some(id) => Ok(Some(id))
  }

  /** Broker loggers, and brokers with a name, go to the broker that the name is the id of; cluster-wide broker defaults
      and every other kind go to any broker. */
  lemma NodesByKind(resource: Resource, id: int)
    ensures NodeFor(resource) == Ok(Some(id)) <==>
            && (resource.kind == LoggerKind || (resource.kind == BrokerKind && resource.name != ""))
            && ParseI32(resource.name) == Some(id)
    ensures NodeFor(resource) == Ok(None) <==>
            resource.kind in {UnknownKind, TopicKind, MetricsKind, GroupKind} || resource == Resource(BrokerKind, "")
    ensures NodeFor(resource).Err? ==> NodeFor(resource) == Err(InvalidArgument)
  {
  }

  /** The resources of a broker go to that broker. */
  lemma BrokersGoToThemselves(id: int)
    requires -0x8000_0000 <= id < 0x8000_0000
    ensures NodeFor(Resource(BrokerKind, Decimal(id))) == Ok(Some(id))
    ensures NodeFor(Resource(LoggerKind, Decimal(id))) == Ok(Some(id))
  {
    BrokerIdReads(id);
  }

  // ----- the requests of a describe call -----

  type ByNode = map<Option<int>, set<Resource>>

  /** Each resource stands in the request of its node and in no other, and no request is empty. */
  ghost predicate Routes(byNode: ByNode, resources: set<Resource>) {
    && (forall node, r :: node in byNode && r in byNode[node] <==> r in resources && NodeFor(r) == Ok(node))
    && (forall node | node in byNode :: byNode[node] != {})
  }

  function With(byNode: ByNode, node: Option<int>, r: Resource): ByNode {
    byNode[node := (if node in byNode then byNode[node] else {}) + {r}]
  }

  lemma RoutesMore(byNode: ByNode, resources: set<Resource>, r: Resource, node: Option<int>)
    requires Routes(byNode, resources) && NodeFor(r) == Ok(node)
    ensures Routes(With(byNode, node, r), resources + {r})
  {
  }

  method RouteDescribe(resources: seq<Resource>) returns (routed: Result<ByNode, AdminError>)
    ensures routed.Err? <==> exists r | r in resources :: NodeFor(r).Err?
    ensures routed.Ok? ==> Routes(routed.value, Elements(resources))
  {
    var byNode: ByNode := map[];
    for i := 0 to |resources|
      invariant forall r | r in resources[..i] :: NodeFor(r).Ok?
      invariant Routes(byNode, Elements(resources[..i]))
    {
      var r := resources[i];
      assert resources[..i + 1] == resources[..i] + [r];
      match NodeFor(r)
      case Err(error) => return Err(error);
      case Ok(node) =>
        RoutesMore(byNode, Elements(resources[..i]), r, node);
        assert Elements(resources[..i + 1]) == Elements(resources[..i]) + {r};
        byNode := With(byNode, node, r);
    }
    assert resources[..|resources|] == resources;
    routed := Ok(byNode);
  }

  // ----- the answer to one describe request -----

  datatype Entry = Entry(name: string, value: Option<string>, source: int, dataType: int, synonymSources: seq<int>)

  type Config = map<string, Entry>

  datatype Row = Row(kindId: int, name: string, code: int, message: Option<string>, configs: seq<Entry>)

  function ResourceOf(row: Row): Resource {
    Resource(KindOf(row.kindId), row.name)
  }

  predicate IsLegal(entry: Entry) {
    entry.source >= 0 && entry.dataType >= 0 && forall s | s in entry.synonymSources :: s >= 0
  }

  /** The entries by name, where the last one counts; nothing if one has a negative id. */
  function ConfigOf(configs: seq<Entry>): Option<Config> {
    if configs == [] then Some(map[])
    else
      var rest, entry := ConfigOf(configs[..|configs| - 1]), configs[|configs| - 1];
      if rest.Some? && IsLegal(entry) then Some(rest.value[entry.name := entry]) else None
  }

  /** The row of a resource in an answer. */
  function RowOf(r: Resource, rows: seq<Row>): Option<Row> {
    if rows == [] then None
    else if ResourceOf(rows[|rows| - 1]) == r then Some(rows[|rows| - 1])
    else RowOf(r, rows[..|rows| - 1])
  }

  predicate NamesTwice(rows: seq<Row>) {
    exists i, j | 0 <= i < j < |rows| :: ResourceOf(rows[i]) == ResourceOf(rows[j])
  }

  predicate HasIllegalConfig(r: Resource, rows: seq<Row>) {
    RowOf(r, rows).Some? && RowOf(r, rows).value.code == 0 && ConfigOf(RowOf(r, rows).value.configs).None?
  }

  const MALFORMED := KafkaError(UNKNOWN_SERVER_ERROR, Own(Malformed))

  /** What makes the answer fail every resource of its request. */
  function FailsAll(asked: set<Resource>, answer: Result<seq<Row>, KafkaError>): Option<KafkaError> {
    match answer
    case Err(error) => Some(error)
    case Ok(rows) =>
      if NamesTwice(rows) || exists r | r in asked :: HasIllegalConfig(r, rows) then Some(MALFORMED) else None
  }

  /** What a row gives its own resource. */
  function Described(r: Resource, rows: seq<Row>): Result<Config, KafkaError> {
    match RowOf(r, rows)
    case None => Err(KafkaError(UNKNOWN_SERVER_ERROR, Own(NotAnswered)))
    case Some(row) =>
      if row.code != 0 then Err(KafkaError(row.code, FromBroker(row.message)))
      else
        match ConfigOf(row.configs)
        case None => Err(MALFORMED)
        case Some(config) => Ok(config)
  }

  function DescribeResult(r: Resource, asked: set<Resource>, answer: Result<seq<Row>, KafkaError>)
    : Result<Config, KafkaError>
  {
    match FailsAll(asked, answer)
    case Some(error) => Err(error)
    case None => if answer.Ok? then Described(r, answer.value) else Err(MALFORMED)
  }

  type DescribeResults = map<Resource, Result<Config, KafkaError>>

  function AllDescribed(asked: set<Resource>, answer: Result<seq<Row>, KafkaError>): DescribeResults {
    map r | r in asked :: DescribeResult(r, asked, answer)
  }

  lemma {:induction false} RowOfCounts(r: Resource, rows: seq<Row>)
    ensures RowOf(r, rows).Some? ==> RowOf(r, rows).value in rows && ResourceOf(RowOf(r, rows).value) == r
    ensures RowOf(r, rows).None? ==> forall row | row in rows :: ResourceOf(row) != r
  {
    if rows != [] { RowOfCounts(r, rows[..|rows| - 1]); }
  }

  ghost predicate LastEntry(configs: seq<Entry>, i: int)
    requires 0 <= i < |configs|
  {
    forall j | i < j < |configs| :: configs[j].name != configs[i].name
  }

  /** `config` holds the last entry of each name, and nothing else. */
  ghost predicate HoldsLast(config: Config, configs: seq<Entry>) {
    && (forall i | 0 <= i < |configs| && LastEntry(configs, i) ::
          configs[i].name in config && config[configs[i].name] == configs[i])
    && (forall name | name in config :: exists i | 0 <= i < |configs| :: configs[i].name == name)
  }

  lemma HoldsNext(config: Config, configs: seq<Entry>, entry: Entry)
    requires HoldsLast(config, configs)
    ensures HoldsLast(config[entry.name := entry], configs + [entry])
  {
    var more, n := configs + [entry], |configs|;
    var after := config[entry.name := entry];
    forall i | 0 <= i < |more| && LastEntry(more, i) ensures more[i].name in after && after[more[i].name] == more[i] {
      if i < n {
        assert more[n].name != more[i].name;
        assert LastEntry(configs, i) by { assert forall j | i <= j < n :: more[j] == configs[j]; }
      }
    }
    forall name | name in after ensures exists i | 0 <= i < |more| :: more[i].name == name {
      if name == entry.name {
        assert more[n].name == name;
      } else {
        var i :| 0 <= i < |configs| && configs[i].name == name;
        assert more[i].name == name;
      }
    }
  }

  /** No id of the entry is negative. */
  ghost predicate NoNegativeId(entry: Entry) {
    && entry.source >= 0 && entry.dataType >= 0
    && forall j | 0 <= j < |entry.synonymSources| :: entry.synonymSources[j] >= 0
  }

  ghost predicate AllLegal(configs: seq<Entry>) {
    forall i | 0 <= i < |configs| :: NoNegativeId(configs[i])
  }

  lemma LegalNext(configs: seq<Entry>, entry: Entry)
    ensures AllLegal(configs + [entry]) <==> AllLegal(configs) && IsLegal(entry)
  {
    var more := configs + [entry];
    assert more[|configs|] == entry && forall i | 0 <= i < |configs| :: more[i] == configs[i];
    assert IsLegal(entry) <==> NoNegativeId(entry) by {
      assert forall j | 0 <= j < |entry.synonymSources| :: entry.synonymSources[j] in entry.synonymSources;
    }
  }

  /** Entries make a config exactly when none of them has a negative id, and then it holds the last of each name. */
  lemma {:induction false} ConfigOfTheEntries(configs: seq<Entry>)
    ensures ConfigOf(configs).Some? <==> AllLegal(configs)
    ensures ConfigOf(configs).Some? ==> HoldsLast(ConfigOf(configs).value, configs)
  {
    if configs != [] {
      var front, entry := configs[..|configs| - 1], configs[|configs| - 1];
      assert front + [entry] == configs;
      ConfigOfTheEntries(front);
      LegalNext(front, entry);
      if ConfigOf(configs).Some? { HoldsNext(ConfigOf(front).value, front, entry); }
    }
  }

  lemma {:induction false} OnlyRow(rows: seq<Row>, i: nat)
    requires i < |rows| && !NamesTwice(rows)
    ensures RowOf(ResourceOf(rows[i]), rows) == Some(rows[i])
  {
    RowOfCounts(ResourceOf(rows[i]), rows);
    assert rows[i] in rows;
    var row := RowOf(ResourceOf(rows[i]), rows).value;
    var j :| 0 <= j < |rows| && rows[j] == row;
    assert i < j ==> ResourceOf(rows[i]) != ResourceOf(rows[j]);
    assert j < i ==> ResourceOf(rows[j]) != ResourceOf(rows[i]);
  }

  /** No row of the answer that stands for an asked resource, without an error, has an entry with a negative id. */
  ghost predicate ReadsLegal(asked: set<Resource>, rows: seq<Row>) {
    forall i | 0 <= i < |rows| && rows[i].code == 0 && ResourceOf(rows[i]) in asked :: AllLegal(rows[i].configs)
  }

  lemma LegalFailsNone(asked: set<Resource>, rows: seq<Row>)
    requires !NamesTwice(rows) && ReadsLegal(asked, rows)
    ensures FailsAll(asked, Ok(rows)).None?
  {
    forall r | r in asked ensures !HasIllegalConfig(r, rows) {
      RowOfCounts(r, rows);
      if RowOf(r, rows).Some? {
        var row := RowOf(r, rows).value;
        var i :| 0 <= i < |rows| && rows[i] == row;
        if row.code == 0 { ConfigOfTheEntries(row.configs); }
      }
    }
  }

  /** The row of a resource decides it: its error, or the config that holds the last entry of each name. */
  lemma RowDecides(asked: set<Resource>, rows: seq<Row>, i: nat)
    requires i < |rows| && !NamesTwice(rows) && ReadsLegal(asked, rows) && ResourceOf(rows[i]) in asked
    ensures var result := DescribeResult(ResourceOf(rows[i]), asked, Ok(rows));
            if rows[i].code != 0 then result == Err(KafkaError(rows[i].code, FromBroker(rows[i].message)))
            else result.Ok? && HoldsLast(result.value, rows[i].configs)
  {
    OnlyRow(rows, i);
    LegalFailsNone(asked, rows);
    ConfigOfTheEntries(rows[i].configs);
  }

  /** A failed request, an answer that names a resource twice, and a row of an asked resource with a negative id fail
      every resource of the request alike. */
  lemma MalformedFailsAll(asked: set<Resource>, answer: Result<seq<Row>, KafkaError>, r: Resource, i: nat)
    requires r in asked
    ensures answer.Err? ==> DescribeResult(r, asked, answer) == Err(answer.error)
    ensures answer.Ok? && NamesTwice(answer.value) ==>
              DescribeResult(r, asked, answer) == Err(KafkaError(-1, Own(Malformed)))
    ensures answer.Ok? && i < |answer.value| && ResourceOf(answer.value[i]) in asked && answer.value[i].code == 0 &&
            !AllLegal(answer.value[i].configs) ==>
              DescribeResult(r, asked, answer) == Err(KafkaError(-1, Own(Malformed)))
  {
    if answer.Ok? && i < |answer.value| && !NamesTwice(answer.value) {
      OnlyRow(answer.value, i);
      ConfigOfTheEntries(answer.value[i].configs);
      if answer.value[i].code == 0 && !AllLegal(answer.value[i].configs) {
        assert HasIllegalConfig(ResourceOf(answer.value[i]), answer.value);
      }
    }
  }

  lemma TwiceMore(rows: seq<Row>, i: nat)
    requires i < |rows| && !NamesTwice(rows[..i])
    ensures NamesTwice(rows[..i + 1]) <==> RowOf(ResourceOf(rows[i]), rows[..i]).Some?
    ensures RowOf(ResourceOf(rows[i]), rows[..i]).Some? ==> NamesTwice(rows)
  {
    RowOfCounts(ResourceOf(rows[i]), rows[..i]);
    var more := rows[..i + 1];
    if RowOf(ResourceOf(rows[i]), rows[..i]).Some? {
      var j :| 0 <= j < i && ResourceOf(rows[..i][j]) == ResourceOf(rows[i]);
      assert ResourceOf(more[j]) == ResourceOf(more[i]);
      assert ResourceOf(rows[j]) == ResourceOf(rows[i]);
    } else {
      forall j, k | 0 <= j < k < |more| ensures ResourceOf(more[j]) != ResourceOf(more[k]) {
        assert more[j] == rows[..i][j] && rows[..i][j] in rows[..i];
        if k < i { assert more[k] == rows[..i][k]; }
      }
    }
  }

  /** The rows of an answer by resource, or nothing if it names a resource twice. */
  method ReadRows(rows: seq<Row>) returns (answered: Option<map<Resource, Row>>)
    ensures answered.None? <==> NamesTwice(rows)
    ensures answered.Some? ==>
              forall r :: RowOf(r, rows) == if r in answered.value then Some(answered.value[r]) else None
  {
    var byResource: map<Resource, Row> := map[];
    for i := 0 to |rows|
      invariant !NamesTwice(rows[..i])
      invariant forall r :: RowOf(r, rows[..i]) == if r in byResource then Some(byResource[r]) else None
    {
      TwiceMore(rows, i);
      assert rows[..i + 1][..i] == rows[..i];
      var r := ResourceOf(rows[i]);
      if r in byResource {
        return None;
      }
      byResource := byResource[r := rows[i]];
    }
    assert rows[..|rows|] == rows;
    answered := Some(byResource);
  }

  /** The result of each resource of one describe request. */
  method ReadDescribe(asked: set<Resource>, answer: Result<seq<Row>, KafkaError>) returns (out: DescribeResults)
    ensures out == AllDescribed(asked, answer)
  {
    if answer.Err? {
      return map r | r in asked :: Err(answer.error);
    }
    var answered := ReadRows(answer.value);
    if answered.None? {
      return map r | r in asked :: Err(MALFORMED);
    }
    out := DescribeEach(asked, answer.value, answered.value);
  }

  method DescribeEach(asked: set<Resource>, rows: seq<Row>, answered: map<Resource, Row>) returns (out: DescribeResults)
    requires !NamesTwice(rows)
    requires forall r :: RowOf(r, rows) == if r in answered then Some(answered[r]) else None
    ensures out == AllDescribed(asked, Ok(rows))
  {
    out := map[];
    var left := asked;
    while left != {}
      invariant left <= asked && out.Keys == asked - left
      invariant forall r | r in out :: !HasIllegalConfig(r, rows) && out[r] == Described(r, rows)
      decreases |left|
    {
      var r :| r in left;
      var result: Result<Config, KafkaError>;
      if r !in answered {
        result := Err(KafkaError(UNKNOWN_SERVER_ERROR, Own(NotAnswered)));
      } else if answered[r].code != 0 {
        result := Err(KafkaError(answered[r].code, FromBroker(answered[r].message)));
      } else {
        match ConfigOf(answered[r].configs)
        case None =>
          assert HasIllegalConfig(r, rows);
          return map x | x in asked :: Err(MALFORMED);
        case Some(config) => result := Ok(config);
      }
      out, left := out[r := result], left - {r};
    }
  }

  /** The resources that go to the node of `r`. */
  function SameNode(r: Resource, resources: set<Resource>): set<Resource> {
    set x | x in resources && NodeFor(x) == NodeFor(r)
  }

  lemma RequestOfNode(byNode: ByNode, resources: set<Resource>, r: Resource)
    requires Routes(byNode, resources) && r in resources && NodeFor(r).Ok?
    ensures NodeFor(r).value in byNode && byNode[NodeFor(r).value] == SameNode(r, resources)
  {
    var node := NodeFor(r).value;
    assert NodeFor(r) == Ok(node);
    assert node in byNode && r in byNode[node];
    forall x ensures x in byNode[node] <==> x in SameNode(r, resources) {
      assert node in byNode && x in byNode[node] <==> x in resources && NodeFor(x) == Ok(node);
    }
  }

  /** The answer of the cluster to the request of each node. */
  type DescribeWorld = (Option<int>, set<Resource>) -> Result<seq<Row>, KafkaError>

  /** Every distinct resource gets one result. It comes from the answer to the request of its own node, which names
      exactly the resources of that node, so a failed request or a malformed answer fails those and no others. */
  method DescribeConfigs(resources: seq<Resource>, world: DescribeWorld)
    returns (out: Result<DescribeResults, AdminError>)
    ensures out.Err? <==> exists r | r in resources :: NodeFor(r).Err?
    ensures out.Ok? ==> out.value.Keys == Elements(resources)
    ensures out.Ok? ==>
              forall r | r in resources ::
                var asked := SameNode(r, Elements(resources));
                NodeFor(r).Ok? && out.value[r] == DescribeResult(r, asked, world(NodeFor(r).value, asked))
  {
    var routed := RouteDescribe(resources);
    if routed.Err? {
      return Err(routed.error);
    }
    var results := DescribeNodes(routed.value, Elements(resources), world);
    forall r | r in resources
      ensures var asked := SameNode(r, Elements(resources));
              NodeFor(r).Ok? && results[r] == DescribeResult(r, asked, world(NodeFor(r).value, asked))
    {
      RequestOfNode(routed.value, Elements(resources), r);
    }
    out := Ok(results);
  }

  /** The results of all requests, each from its own answer. */
  method DescribeNodes(byNode: ByNode, resources: set<Resource>, world: DescribeWorld) returns (out: DescribeResults)
    requires Routes(byNode, resources) && forall r | r in resources :: NodeFor(r).Ok?
    ensures out.Keys == resources
    ensures forall r | r in resources ::
              var node := NodeFor(r).value;
              node in byNode && out[r] == DescribeResult(r, byNode[node], world(node, byNode[node]))
  {
    out := map[];
    var left := byNode.Keys;
    while left != {}
      invariant left <= byNode.Keys
      invariant forall r :: r in out <==> r in resources && NodeFor(r).value !in left
      invariant forall r | r in out ::
                  var node := NodeFor(r).value;
                  node in byNode && out[r] == DescribeResult(r, byNode[node], world(node, byNode[node]))
      decreases |left|
    {
      var node :| node in left;
      var answered := ReadDescribe(byNode[node], world(node, byNode[node]));
      out, left := out + answered, left - {node};
    }
  }
}
