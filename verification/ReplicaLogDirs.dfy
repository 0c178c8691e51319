/** Finding the log dirs of replicas, where each broker answers for its own replicas and a failure completes every
    replica that is still pending. */
module ReplicaLogDirs {
  import opened Base
  import opened Order
  import opened ByTopic

  datatype Replica = Replica(topic: string, partition: int, broker: int) {
    function Key(): PartitionKey { (topic, partition) }
  }

  datatype Location = Location(path: string, lag: int)

  /** The log dirs of one replica. A replica that its broker does not report has neither. */
  datatype Info = Info(current: Option<Location>, future: Option<Location>)

  const NOWHERE := Info(None, None)

  type Infos = map<PartitionKey, Info>

  datatype Answer = Answer(broker: int, result: Result<Infos, KafkaError>)

  type Done = map<Replica, Result<Info, KafkaError>>

  // ----- the answer of one broker -----

  datatype Held = Held(lag: int, isFuture: bool)

  datatype Dir = Dir(path: string, code: int, topics: seq<Topic<Held>>)

  datatype Placed = Placed(key: PartitionKey, location: Location, isFuture: bool)

  /** The partitions of one log dir, in the order of the answer. */
  function PlacedIn(path: string, rows: seq<Row<Held>>): (q: seq<Placed>)
    ensures |q| == |rows|
    ensures forall i | 0 <= i < |q| :: q[i] == Placed(rows[i].0, Location(path, rows[i].1.lag), rows[i].1.isFuture)
  {
    seq(|rows|, i requires 0 <= i < |rows| => Placed(rows[i].0, Location(path, rows[i].1.lag), rows[i].1.isFuture))
  }

  /** The partitions of every log dir that is online. */
  function AllPlaced(dirs: seq<Dir>): seq<Placed> {
    if dirs == [] then []
    else
      var last := dirs[|dirs| - 1];
      AllPlaced(dirs[..|dirs| - 1]) + if last.code == 0 then PlacedIn(last.path, Flatten(last.topics)) else []
  }

  /** The place of a replica that the last row of its kind names. */
  function LastPlace(placed: seq<Placed>, key: PartitionKey, isFuture: bool): Option<Location> {
    if placed == [] then None
    else
      var last := placed[|placed| - 1];
      if last.key == key && last.isFuture == isFuture then Some(last.location)
      else LastPlace(placed[..|placed| - 1], key, isFuture)
  }

  function PlacesOf(placed: seq<Placed>, key: PartitionKey): Info {
    Info(LastPlace(placed, key, false), LastPlace(placed, key, true))
  }

  /** Row `i` is the last of its kind for the partition. */
  ghost predicate LastPlaceAt(placed: seq<Placed>, key: PartitionKey, isFuture: bool, i: int) {
    && 0 <= i < |placed| && placed[i].key == key && placed[i].isFuture == isFuture
    && forall j | i < j < |placed| :: placed[j].key != key || placed[j].isFuture != isFuture
  }

  lemma {:induction false} LastPlaceCounts(placed: seq<Placed>, key: PartitionKey, isFuture: bool)
    ensures forall i | LastPlaceAt(placed, key, isFuture, i) ::
              LastPlace(placed, key, isFuture) == Some(placed[i].location)
    ensures LastPlace(placed, key, isFuture).Some? ==> exists i :: LastPlaceAt(placed, key, isFuture, i)
  {
    if placed != [] {
      var n := |placed| - 1;
      LastPlaceCounts(placed[..n], key, isFuture);
      if placed[n].key == key && placed[n].isFuture == isFuture {
        assert LastPlaceAt(placed, key, isFuture, n);
      } else {
        assert forall i | LastPlaceAt(placed, key, isFuture, i) :: LastPlaceAt(placed[..n], key, isFuture, i);
        assert forall i | LastPlaceAt(placed[..n], key, isFuture, i) :: LastPlaceAt(placed, key, isFuture, i);
      }
    }
  }

  /** The current log dir is the place of the last row that is not a future one, the future log dir that of the last row
      that is. */
  lemma CurrentAndFuture(placed: seq<Placed>, key: PartitionKey, i: int)
    ensures LastPlaceAt(placed, key, false, i) ==> PlacesOf(placed, key).current == Some(placed[i].location)
    ensures LastPlaceAt(placed, key, true, i) ==> PlacesOf(placed, key).future == Some(placed[i].location)
    ensures PlacesOf(placed, key).current.Some? ==> exists j :: LastPlaceAt(placed, key, false, j)
    ensures PlacesOf(placed, key).future.Some? ==> exists j :: LastPlaceAt(placed, key, true, j)
  {
    LastPlaceCounts(placed, key, false);
    LastPlaceCounts(placed, key, true);
  }

  /** A log dir that is online holds the partition, with its path and the lag of its row. */
  ghost predicate DirHolds(dir: Dir, p: Placed) {
    && dir.code == 0 && p.location.path == dir.path
    && (p.key, Held(p.location.lag, p.isFuture)) in Flatten(dir.topics)
  }

  lemma PlacedInHolds(path: string, rows: seq<Row<Held>>, p: Placed)
    ensures p in PlacedIn(path, rows) <==> p.location.path == path && (p.key, Held(p.location.lag, p.isFuture)) in rows
  {
    var q := PlacedIn(path, rows);
    if p in q {
      var i :| 0 <= i < |q| && q[i] == p;
      assert rows[i] == (p.key, Held(p.location.lag, p.isFuture));
    }
    if p.location.path == path && (p.key, Held(p.location.lag, p.isFuture)) in rows {
      var i :| 0 <= i < |rows| && rows[i] == (p.key, Held(p.location.lag, p.isFuture));
      assert q[i] == p;
    }
  }

  ghost predicate SomeDir(dirs: seq<Dir>, p: Placed) {
    exists i | 0 <= i < |dirs| :: DirHolds(dirs[i], p)
  }

  lemma SomeDirNext(dirs: seq<Dir>, dir: Dir, p: Placed)
    ensures SomeDir(dirs + [dir], p) <==> SomeDir(dirs, p) || DirHolds(dir, p)
  {
    var more := dirs + [dir];
    assert more[|dirs|] == dir && forall i | 0 <= i < |dirs| :: more[i] == dirs[i];
  }

  lemma PlacedNext(dirs: seq<Dir>, dir: Dir, p: Placed)
    ensures p in AllPlaced(dirs + [dir]) <==> p in AllPlaced(dirs) || DirHolds(dir, p)
  {
    assert (dirs + [dir])[..|dirs|] == dirs;
    PlacedInHolds(dir.path, Flatten(dir.topics), p);
  }

  lemma {:induction false} AllPlacedHolds(dirs: seq<Dir>, p: Placed)
    ensures p in AllPlaced(dirs) <==> SomeDir(dirs, p)
  {
    if dirs != [] {
      var front, dir := dirs[..|dirs| - 1], dirs[|dirs| - 1];
      assert front + [dir] == dirs;
      AllPlacedHolds(front, p);
      PlacedNext(front, dir, p);
      SomeDirNext(front, dir, p);
    }
  }

  /** A place that the client reports is the path of an online log dir that holds the replica, with the lag and the kind
      of its row; and it reports one exactly when some online log dir holds the replica. */
  lemma PlaceIsHeld(dirs: seq<Dir>, key: PartitionKey, isFuture: bool)
    ensures var place := LastPlace(AllPlaced(dirs), key, isFuture);
            && (place.Some? ==> SomeDir(dirs, Placed(key, place.value, isFuture)))
            && (place.None? ==> forall location :: !SomeDir(dirs, Placed(key, location, isFuture)))
  {
    var placed := AllPlaced(dirs);
    var place := LastPlace(placed, key, isFuture);
    LastPlaceCounts(placed, key, isFuture);
    if place.Some? {
      var i :| LastPlaceAt(placed, key, isFuture, i);
      assert placed[i] == Placed(key, place.value, isFuture);
      AllPlacedHolds(dirs, placed[i]);
    } else {
      forall location ensures !SomeDir(dirs, Placed(key, location, isFuture)) {
        AllPlacedHolds(dirs, Placed(key, location, isFuture));
        NoPlace(placed, key, isFuture, location);
      }
    }
  }

  lemma {:induction false} NoPlace(placed: seq<Placed>, key: PartitionKey, isFuture: bool, location: Location)
    requires LastPlace(placed, key, isFuture).None?
    ensures Placed(key, location, isFuture) !in placed
  {
    if placed != [] {
      NoPlace(placed[..|placed| - 1], key, isFuture, location);
      assert placed == placed[..|placed| - 1] + [placed[|placed| - 1]];
    }
  }

  predicate Illegal(dir: Dir) {
    dir.code != 0 && dir.code != KAFKA_STORAGE_ERROR
  }

  function FirstIllegal(dirs: seq<Dir>): Option<Dir> {
    First((dir: Dir) => Illegal(dir), dirs)
  }

  /** `infos` names the asked partitions that `placed` names, each with its last places. */
  ghost predicate Reports(infos: Infos, placed: seq<Placed>, asked: set<PartitionKey>) {
    forall key :: (key in infos ==> key in asked && infos[key] == PlacesOf(placed, key)) &&
                  (key in asked && key !in infos ==> PlacesOf(placed, key) == NOWHERE)
  }

  method Place(start: Infos, row: Placed, asked: set<PartitionKey>, ghost before: seq<Placed>) returns (infos: Infos)
    requires Reports(start, before, asked)
    ensures Reports(infos, before + [row], asked)
  {
    assert (before + [row])[..|before|] == before;
    infos := start;
    if row.key in asked {
      var info := if row.key in infos then infos[row.key] else NOWHERE;
      var place := Some(row.location);
      infos := infos[row.key := if row.isFuture then info.(future := place) else info.(current := place)];
    }
  }

  method PlaceAll(start: Infos, rows: seq<Placed>, asked: set<PartitionKey>, ghost before: seq<Placed>)
    returns (infos: Infos)
    requires Reports(start, before, asked)
    ensures Reports(infos, before + rows, asked)
  {
    infos := start;
    assert before + [] == before;
    for i := 0 to |rows|
      invariant Reports(infos, before + rows[..i], asked)
    {
      infos := Place(infos, rows[i], asked, before + rows[..i]);
      assert before + rows[..i + 1] == before + rows[..i] + [rows[i]];
    }
    assert rows[..|rows|] == rows;
  }

  /** Reads the answer of one broker: an error of a log dir other than an offline dir fails it, and otherwise every
      asked partition has the places that the answer names last. */
  method ReadReplicaLogDirs(dirs: seq<Dir>, asked: set<PartitionKey>) returns (r: Result<Infos, KafkaError>)
    ensures FirstIllegal(dirs).Some? ==>
              r == Err(KafkaError(FirstIllegal(dirs).value.code, Own(IllegalDir(FirstIllegal(dirs).value.path))))
    ensures FirstIllegal(dirs).None? ==> r.Ok? && Reports(r.value, AllPlaced(dirs), asked)
  {
    var infos: Infos := map[];
    for i := 0 to |dirs|
      invariant FirstIllegal(dirs) == FirstIllegal(dirs[i..])
      invariant Reports(infos, AllPlaced(dirs[..i]), asked)
    {
      var dir := dirs[i];
      assert dirs[i..][0] == dir && dirs[i..][1..] == dirs[i + 1..];
      assert dirs[..i + 1][..i] == dirs[..i];
      if Illegal(dir) {
        return Err(KafkaError(dir.code, Own(IllegalDir(dir.path))));
      }
      if dir.code == 0 {
        infos := PlaceAll(infos, PlacedIn(dir.path, Flatten(dir.topics)), asked, AllPlaced(dirs[..i]));
      } else {
        assert AllPlaced(dirs[..i + 1]) == AllPlaced(dirs[..i]);
      }
    }
    assert dirs[..|dirs|] == dirs;
    r := Ok(infos);
  }

  // ----- what the answers settle -----

  function InfoOf(infos: Infos, replica: Replica): Info {
    if replica.Key() in infos then infos[replica.Key()] else NOWHERE
  }

  /** The place of the first failed answer, or the number of answers. */
  function FirstFailure(answers: seq<Answer>): (f: nat)
    ensures f <= |answers|
    ensures forall i | 0 <= i < f :: answers[i].result.Ok?
    ensures f < |answers| ==> answers[f].result.Err?
  {
    if answers == [] then 0
    else
      var f := FirstFailure(answers[..|answers| - 1]);
      if f < |answers| - 1 || answers[|answers| - 1].result.Err? then f else |answers|
  }

  /** The place of the first answer of `broker`, or the number of answers. */
  function AnswerOf(broker: int, answers: seq<Answer>): (i: nat)
    ensures i <= |answers|
    ensures forall j | 0 <= j < i :: answers[j].broker != broker
    ensures i < |answers| ==> answers[i].broker == broker
  {
    if answers == [] then 0
    else
      var i := AnswerOf(broker, answers[..|answers| - 1]);
      if i < |answers| - 1 || answers[|answers| - 1].broker == broker then i else |answers|
  }

  /** What the answers settle for a replica: its log dirs if its broker answered before the first failure, the error
      of that failure otherwise, and nothing while there is neither. */
  function SettledBy(replica: Replica, answers: seq<Answer>): Option<Result<Info, KafkaError>> {
    var i, f := AnswerOf(replica.broker, answers), FirstFailure(answers);
    if i < f then Some(Ok(InfoOf(answers[i].result.value, replica)))
    else if f < |answers| then Some(Err(answers[f].result.error))
    else None
  }

  /** `pending` and `done` are where `answers` leaves `all`. */
  ghost predicate Standing(all: set<Replica>, pending: set<Replica>, done: Done, answers: seq<Answer>) {
    && (forall r :: r in pending <==> r in all && SettledBy(r, answers).None?)
    && (forall r :: r in done <==> r in all && SettledBy(r, answers).Some?)
    && (forall r | r in done :: Some(done[r]) == SettledBy(r, answers))
  }

  lemma OneMore(replica: Replica, answers: seq<Answer>, answer: Answer)
    ensures SettledBy(replica, answers).Some? ==> SettledBy(replica, answers + [answer]) == SettledBy(replica, answers)
    ensures SettledBy(replica, answers).None? ==>
              SettledBy(replica, answers + [answer]) ==
              match answer.result
              case Err(error) => Some(Err(error))
              case Ok(infos) => if answer.broker == replica.broker then Some(Ok(InfoOf(infos, replica))) else None
  {
    assert (answers + [answer])[..|answers|] == answers;
  }

  /** Once settled, a replica keeps its result, whatever is answered later. */
  lemma {:induction false} SettledStays(replica: Replica, answers: seq<Answer>, later: seq<Answer>)
    requires SettledBy(replica, answers).Some?
    ensures SettledBy(replica, answers + later) == SettledBy(replica, answers)
  {
    if later == [] {
      assert answers + later == answers;
    } else {
      var n := |later| - 1;
      SettledStays(replica, answers, later[..n]);
      OneMore(replica, answers + later[..n], later[n]);
      assert answers + later == answers + later[..n] + [later[n]];
    }
  }

  /** With one answer from each broker, no replica is left. */
  lemma EveryReplicaSettles(replica: Replica, answers: seq<Answer>)
    requires HasAnswer(replica.broker, answers)
    ensures SettledBy(replica, answers).Some?
  {
  }

  // ----- the results of a call -----

  /** The replicas of each broker. */
  type ByBroker = map<int, set<PartitionKey>>

  function ReplicasOf(byBroker: ByBroker): set<Replica> {
    set broker, key | broker in byBroker && key in byBroker[broker] :: Replica(key.0, key.1, broker)
  }

  predicate Hits(r: Replica, broker: int, keys: seq<PartitionKey>) {
    r.broker == broker && r.Key() in keys
  }

  /** Moves the pending replicas of one broker to the done ones. */
  method SettleBroker(pending: set<Replica>, done: Done, broker: int, keys: seq<PartitionKey>, infos: Infos)
    returns (left: set<Replica>, more: Done)
    requires forall r | r in done :: r !in pending
    ensures forall r :: r in left <==> r in pending && !Hits(r, broker, keys)
    ensures forall r :: r in more <==> r in done || (r in pending && Hits(r, broker, keys))
    ensures forall r | r in more :: more[r] == if r in done then done[r] else Ok(InfoOf(infos, r))
  {
    left, more := pending, done;
    for i := 0 to |keys|
      invariant forall r :: r in left <==> r in pending && !Hits(r, broker, keys[..i])
      invariant forall r :: r in more <==> r in done || (r in pending && Hits(r, broker, keys[..i]))
      invariant forall r | r in more :: more[r] == if r in done then done[r] else Ok(InfoOf(infos, r))
    {
      var replica := Replica(keys[i].0, keys[i].1, broker);
      assert keys[..i + 1] == keys[..i] + [keys[i]];
      if replica in left {
        left, more := left - {replica}, more[replica := Ok(InfoOf(infos, replica))];
      }
    }
    assert keys[..|keys|] == keys;
  }

  /** What one answer does to the pending replicas is what the answers settle. */
  lemma AnswerStands(all: set<Replica>, pending: set<Replica>, done: Done, answers: seq<Answer>, answer: Answer,
                     left: set<Replica>, more: Done)
    requires Standing(all, pending, done, answers)
    requires forall r :: r in left <==> r in pending && answer.result.Ok? && r.broker != answer.broker
    requires forall r :: r in more <==> r in done || (r in pending && r !in left)
    requires forall r | r in more ::
               more[r] == if r in done then done[r]
                          else if answer.result.Ok? then Ok(InfoOf(answer.result.value, r))
                          else Err(answer.result.error)
    ensures Standing(all, left, more, answers + [answer])
  {
    forall r ensures r in left <==> r in all && SettledBy(r, answers + [answer]).None?
             ensures r in more <==> r in all && SettledBy(r, answers + [answer]).Some?
             ensures r in more ==> Some(more[r]) == SettledBy(r, answers + [answer])
    {
      OneMore(r, answers, answer);
    }
  }

  lemma BrokerHolds(byBroker: ByBroker, broker: int, r: Replica)
    requires broker in byBroker && r in ReplicasOf(byBroker)
    ensures Hits(r, broker, SortedKeys(byBroker[broker])) <==> r.broker == broker
  {
  }

  class ReplicaResults {
    ghost const byBroker: ByBroker
    var pending: set<Replica>
    var done: Done
    ghost var answered: seq<Answer>

    ghost predicate Valid()
      reads this
    {
      Standing(ReplicasOf(byBroker), pending, done, answered)
    }

    constructor (byBroker: ByBroker)
      ensures Valid() && this.byBroker == byBroker && answered == []
    {
      this.byBroker := byBroker;
      pending, done, answered := ReplicasOf(byBroker), map[], [];
    }

    /** Completes the pending replicas of a broker that answered, or all of them with the error of one that failed. */
    method Complete(keys: set<PartitionKey>, answer: Answer)
      requires Valid() && answer.broker in byBroker && keys == byBroker[answer.broker]
      modifies this
      ensures Valid() && answered == old(answered) + [answer]
    {
      var left, more := {}, map[];
      match answer.result {
        case Ok(infos) =>
          left, more := SettleBroker(pending, done, answer.broker, SortedKeys(keys), infos);
          forall r | r in pending ensures Hits(r, answer.broker, SortedKeys(keys)) <==> r.broker == answer.broker {
            BrokerHolds(byBroker, answer.broker, r);
          }
        case Err(error) =>
          more := done + map r | r in pending :: Err(error);
      }
      AnswerStands(ReplicasOf(byBroker), pending, done, answered, answer, left, more);
      pending, done, answered := left, more, answered + [answer];
    }

    predicate IsComplete()
      reads this
    {
      pending == {}
    }
  }

  // ----- the whole call -----

  /** Groups the replicas by broker. */
  method GroupByBroker(replicas: seq<Replica>) returns (byBroker: ByBroker)
    ensures ReplicasOf(byBroker) == Elements(replicas)
    ensures forall broker :: broker in byBroker <==> IsAsked(broker, replicas)
  {
    byBroker := map[];
    for i := 0 to |replicas|
      invariant forall r :: r in ReplicasOf(byBroker) <==> r in replicas[..i]
      invariant forall broker :: broker in byBroker <==> IsAsked(broker, replicas[..i])
    {
      assert replicas[..i + 1] == replicas[..i] + [replicas[i]];
      GroupsMore(byBroker, replicas[i]);
      byBroker := WithReplica(byBroker, replicas[i]);
    }
    assert replicas[..|replicas|] == replicas;
  }

  function WithReplica(byBroker: ByBroker, r: Replica): ByBroker {
    byBroker[r.broker := (if r.broker in byBroker then byBroker[r.broker] else {}) + {r.Key()}]
  }

  lemma GroupsMore(byBroker: ByBroker, r: Replica)
    ensures ReplicasOf(WithReplica(byBroker, r)) == ReplicasOf(byBroker) + {r}
  {
    var more := WithReplica(byBroker, r);
    forall x ensures x in ReplicasOf(more) <==> x in ReplicasOf(byBroker) || x == r {
      IsReplicaOf(byBroker, x);
      IsReplicaOf(more, x);
    }
  }

  lemma IsReplicaOf(byBroker: ByBroker, x: Replica)
    ensures x in ReplicasOf(byBroker) <==> x.broker in byBroker && x.Key() in byBroker[x.broker]
  {
    if x.broker in byBroker && x.Key() in byBroker[x.broker] {
      assert Replica(x.Key().0, x.Key().1, x.broker) in ReplicasOf(byBroker);
    }
  }

  /** When nothing is pending, or every answer was read, the replicas stand as all the answers leave them. */
  lemma StoppingChangesNothing(all: set<Replica>, pending: set<Replica>, done: Done, answers: seq<Answer>, next: nat)
    requires next <= |answers| && Standing(all, pending, done, answers[..next])
    requires pending == {} || next == |answers|
    requires forall r | r in all :: HasAnswer(r.broker, answers)
    ensures done.Keys == all
    ensures forall r | r in all :: Some(done[r]) == SettledBy(r, answers)
  {
    assert answers[..next] + answers[next..] == answers;
    forall r | r in all ensures r in done && Some(done[r]) == SettledBy(r, answers) {
      EveryReplicaSettles(r, answers);
      if next == |answers| {
        assert answers[..next] == answers;
      } else {
        assert r !in pending;
        SettledStays(r, answers[..next], answers[next..]);
      }
    }
  }

  ghost predicate HasAnswer(broker: int, answers: seq<Answer>) {
    exists i | 0 <= i < |answers| :: answers[i].broker == broker
  }

  ghost predicate IsAsked(broker: int, replicas: seq<Replica>) {
    exists r | r in replicas :: r.broker == broker
  }

  /** Takes the answers in their order, until nothing is pending. */
  method TakeAnswers(byBroker: ByBroker, answers: seq<Answer>) returns (out: Done)
    requires forall i | 0 <= i < |answers| :: answers[i].broker in byBroker
    requires forall r | r in ReplicasOf(byBroker) :: HasAnswer(r.broker, answers)
    ensures out.Keys == ReplicasOf(byBroker)
    ensures forall r | r in out :: Some(out[r]) == SettledBy(r, answers)
  {
    var results := new ReplicaResults(byBroker);
    var next := 0;
    while !results.IsComplete() && next < |answers|
      invariant next <= |answers| && results.Valid() && results.byBroker == byBroker &&
                results.answered == answers[..next]
    {
      assert answers[..next + 1] == answers[..next] + [answers[next]];
      results.Complete(byBroker[answers[next].broker], answers[next]);
      next := next + 1;
    }
    out := results.done;
    StoppingChangesNothing(ReplicasOf(byBroker), results.pending, out, answers, next);
  }

  // ----- from the responses -----

  /** What a broker sends: its log dirs, or the error of the call. */
  datatype Response = Response(broker: int, dirs: Result<seq<Dir>, KafkaError>)

  /** The error with which a response fails the replicas that are pending. */
  function FailureOf(response: Response): Option<KafkaError> {
    match response.dirs
    case Err(error) => Some(error)
    case Ok(dirs) =>
      match FirstIllegal(dirs)
      case None => None
      case Some(dir) => Some(KafkaError(dir.code, Own(IllegalDir(dir.path))))
  }

  /** Dir `i` is the first with an error that is not that of an offline dir. */
  ghost predicate FirstBroken(dirs: seq<Dir>, i: int) {
    0 <= i < |dirs| && dirs[i].code !in {0, 56} && forall j | 0 <= j < i :: dirs[j].code in {0, 56}
  }

  lemma {:induction false} FirstIllegalIsBroken(dirs: seq<Dir>)
    ensures FirstIllegal(dirs).None? <==> forall i | 0 <= i < |dirs| :: dirs[i].code in {0, 56}
    ensures forall i | FirstBroken(dirs, i) :: FirstIllegal(dirs) == Some(dirs[i])
  {
    if dirs != [] {
      FirstIllegalIsBroken(dirs[1..]);
      assert forall i | 0 < i < |dirs| :: dirs[i] == dirs[1..][i - 1];
      if !Illegal(dirs[0]) {
        forall i | FirstBroken(dirs, i) ensures FirstIllegal(dirs) == Some(dirs[i]) {
          assert FirstBroken(dirs[1..], i - 1);
        }
      }
    }
  }

  /** A response fails the pending replicas exactly when its call failed or a log dir has an error other than 56, the
      code of an offline dir; the first such dir is named. */
  lemma FailsByTheDirs(response: Response, i: int)
    ensures FailureOf(response).None? <==>
            response.dirs.Ok? &&
            forall j | 0 <= j < |response.dirs.value| :: response.dirs.value[j].code in {0, 56}
    ensures response.dirs.Err? ==> FailureOf(response) == Some(response.dirs.error)
    ensures response.dirs.Ok? && FirstBroken(response.dirs.value, i) ==>
              var dir := response.dirs.value[i];
              FailureOf(response) == Some(KafkaError(dir.code, Own(IllegalDir(dir.path))))
  {
    if response.dirs.Ok? { FirstIllegalIsBroken(response.dirs.value); }
  }

  /** The place of the first response that fails, or the number of responses. */
  function FirstFailed(responses: seq<Response>): (f: nat)
    ensures f <= |responses|
    ensures forall i | 0 <= i < f :: FailureOf(responses[i]).None?
    ensures f < |responses| ==> FailureOf(responses[f]).Some?
  {
    if responses == [] then 0
    else
      var f := FirstFailed(responses[..|responses| - 1]);
      if f < |responses| - 1 || FailureOf(responses[|responses| - 1]).Some? then f else |responses|
  }

  /** The place of the first response of `broker`, or the number of responses. */
  function ResponseOf(broker: int, responses: seq<Response>): (i: nat)
    ensures i <= |responses|
    ensures forall j | 0 <= j < i :: responses[j].broker != broker
    ensures i < |responses| ==> responses[i].broker == broker
  {
    if responses == [] then 0
    else
      var i := ResponseOf(broker, responses[..|responses| - 1]);
      if i < |responses| - 1 || responses[|responses| - 1].broker == broker then i else |responses|
  }

  /** The result of a replica: the places that the log dirs of its broker name, if that broker answered before the first
      failure, and the error of that failure otherwise. */
  function ResultFrom(replica: Replica, responses: seq<Response>): Option<Result<Info, KafkaError>> {
    var i, f := ResponseOf(replica.broker, responses), FirstFailed(responses);
    if i < f && responses[i].dirs.Ok? then Some(Ok(PlacesOf(AllPlaced(responses[i].dirs.value), replica.Key())))
    else if f < |responses| then Some(Err(FailureOf(responses[f]).value))
    else None
  }

  /** `answer` is what the client reads from `response`, when it asked about `asked`. */
  ghost predicate Reads(answer: Answer, response: Response, asked: set<PartitionKey>) {
    && answer.broker == response.broker
    && match FailureOf(response)
       case Some(error) => answer.result == Err(error)
       case None =>
         && answer.result.Ok? && response.dirs.Ok?
         && Reports(answer.result.value, AllPlaced(response.dirs.value), asked)
  }

  method ReadResponse(response: Response, asked: set<PartitionKey>) returns (answer: Answer)
    ensures Reads(answer, response, asked)
  {
    match response.dirs
    case Err(error) => answer := Answer(response.broker, Err(error));
    case Ok(dirs) =>
      var result := ReadReplicaLogDirs(dirs, asked);
      answer := Answer(response.broker, result);
  }

  method ReadResponses(byBroker: ByBroker, responses: seq<Response>) returns (answers: seq<Answer>)
    requires forall i | 0 <= i < |responses| :: responses[i].broker in byBroker
    ensures |answers| == |responses|
    ensures forall i | 0 <= i < |responses| :: Reads(answers[i], responses[i], byBroker[responses[i].broker])
  {
    answers := [];
    for i := 0 to |responses|
      invariant |answers| == i
      invariant forall j | 0 <= j < i :: Reads(answers[j], responses[j], byBroker[responses[j].broker])
    {
      var answer := ReadResponse(responses[i], byBroker[responses[i].broker]);
      answers := answers + [answer];
    }
  }

  lemma SamePlaces(responses: seq<Response>, answers: seq<Answer>, broker: int)
    requires |responses| == |answers|
    requires forall i | 0 <= i < |responses| :: answers[i].broker == responses[i].broker
    requires forall i | 0 <= i < |responses| :: answers[i].result.Err? <==> FailureOf(responses[i]).Some?
    ensures AnswerOf(broker, answers) == ResponseOf(broker, responses) &&
            FirstFailure(answers) == FirstFailed(responses)
  {
  }

  /** Reading each response and completing the replicas gives each its result from the responses. */
  lemma SettledFromResponses(byBroker: ByBroker, r: Replica, responses: seq<Response>, answers: seq<Answer>)
    requires |responses| == |answers| && r in ReplicasOf(byBroker)
    requires forall i | 0 <= i < |responses| :: responses[i].broker in byBroker
    requires forall i | 0 <= i < |responses| :: Reads(answers[i], responses[i], byBroker[responses[i].broker])
    ensures SettledBy(r, answers) == ResultFrom(r, responses)
  {
    SamePlaces(responses, answers, r.broker);
    IsReplicaOf(byBroker, r);
  }

  /** For every order in which the asked brokers answer, each replica gets its result from the responses, although the
      call stops at the first one that leaves nothing pending. */
  method DescribeReplicaLogDirs(replicas: seq<Replica>, responses: seq<Response>) returns (out: Done)
    requires forall r | r in replicas :: exists i | 0 <= i < |responses| :: responses[i].broker == r.broker
    requires forall i | 0 <= i < |responses| :: IsAsked(responses[i].broker, replicas)
    ensures out.Keys == Elements(replicas)
    ensures forall r | r in replicas :: Some(out[r]) == ResultFrom(r, responses)
  {
    var byBroker := GroupByBroker(replicas);
    var answers := ReadResponses(byBroker, responses);
    forall r | r in replicas ensures HasAnswer(r.broker, answers) {
      var i :| 0 <= i < |responses| && responses[i].broker == r.broker;
      assert answers[i].broker == r.broker;
    }
    out := TakeAnswers(byBroker, answers);
    forall r | r in replicas ensures Some(out[r]) == ResultFrom(r, responses) {
      SettledFromResponses(byBroker, r, responses, answers);
    }
  }
}
