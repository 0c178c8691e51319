/** The leader-routed call, seen from each partition: every round looks its leader up in fresh metadata, and a
    partition that is not settled goes back to the lookup. */
module LeaderDriver {
  import opened Base
  import opened Order
  import opened HostPort
  import opened Rounds
  import opened Boards

  datatype PartitionRow = PartitionRow(index: int, code: int, leader: int)
  datatype TopicRow = TopicRow(name: Option<string>, code: int, partitions: seq<PartitionRow>)
  datatype Metadata = Metadata(topics: seq<TopicRow>, brokers: seq<NodeRow>)

  /** Where the leader lookup puts one partition. */
  datatype LeaderLookup = Leader(address: string) | LeaderAgain | LeaderFailed(error: KafkaError)

  const UNKNOWN_TOPIC_OR_PARTITION := 3
  const LEADER_NOT_AVAILABLE := 5
  const NOT_LEADER_OR_FOLLOWER := 6
  const BROKER_NOT_AVAILABLE := 8
  const REPLICA_NOT_AVAILABLE := 9

  predicate RetriesTopic(code: int) {
    code == UNKNOWN_TOPIC_OR_PARTITION || code == LEADER_NOT_AVAILABLE || code == BROKER_NOT_AVAILABLE
  }

  predicate RetriesPartition(code: int) {
    code == NOT_LEADER_OR_FOLLOWER || code == REPLICA_NOT_AVAILABLE || code == LEADER_NOT_AVAILABLE ||
    code == BROKER_NOT_AVAILABLE || code == KAFKA_STORAGE_ERROR
  }

  function MetadataError(code: int): LeaderLookup {
    LeaderFailed(KafkaError(code, FromBroker(None)))
  }

  /** The leader of a partition in `metadata`. */
  function LookupLeader(key: PartitionKey, metadata: Metadata): LeaderLookup {
    match First((t: TopicRow) => t.name == Some(key.0), metadata.topics)
    case None => LeaderAgain
    case Some(topic) =>
      if topic.code != 0 then if RetriesTopic(topic.code) then LeaderAgain else MetadataError(topic.code)
      else
        match First((p: PartitionRow) => p.index == key.1, topic.partitions)
        case None => LeaderAgain
        case Some(partition) =>
          if partition.code != 0 then
            if RetriesPartition(partition.code) then LeaderAgain else MetadataError(partition.code)
          else
            match First((b: NodeRow) => b.nodeId == partition.leader, metadata.brokers)
            case None => LeaderAgain
            case Some(broker) => Leader(FormatHostPort(broker.host, broker.port))
  }

  // ----- what the lookup means on the rows of the metadata -----

  /** Row `i` is the first of the topic. */
  ghost predicate TopicAt(metadata: Metadata, name: string, i: int) {
    && 0 <= i < |metadata.topics| && metadata.topics[i].name == Some(name)
    && forall j | 0 <= j < i :: metadata.topics[j].name != Some(name)
  }

  /** Row `p` is the first of the partition. */
  ghost predicate PartitionAt(topic: TopicRow, index: int, p: int) {
    && 0 <= p < |topic.partitions| && topic.partitions[p].index == index
    && forall j | 0 <= j < p :: topic.partitions[j].index != index
  }

  /** Row `b` is the first of the broker. */
  ghost predicate BrokerAt(metadata: Metadata, nodeId: int, b: int) {
    && 0 <= b < |metadata.brokers| && metadata.brokers[b].nodeId == nodeId
    && forall j | 0 <= j < b :: metadata.brokers[j].nodeId != nodeId
  }

  ghost predicate NamesTopic(metadata: Metadata, name: string) {
    exists i | 0 <= i < |metadata.topics| :: metadata.topics[i].name == Some(name)
  }

  ghost predicate NamesPartition(topic: TopicRow, index: int) {
    exists p | 0 <= p < |topic.partitions| :: topic.partitions[p].index == index
  }

  ghost predicate NamesBroker(metadata: Metadata, nodeId: int) {
    exists b | 0 <= b < |metadata.brokers| :: metadata.brokers[b].nodeId == nodeId
  }

  /** The rows of the topic and of the partition have no error, and the broker that leads it has `address`. */
  ghost predicate LedBy(key: PartitionKey, metadata: Metadata, address: string) {
    exists i, p, b ::
      && TopicAt(metadata, key.0, i) && metadata.topics[i].code == 0
      && PartitionAt(metadata.topics[i], key.1, p) && metadata.topics[i].partitions[p].code == 0
      && BrokerAt(metadata, metadata.topics[i].partitions[p].leader, b)
      && address == FormatHostPort(metadata.brokers[b].host, metadata.brokers[b].port)
  }

  /** The metadata does not name the topic, the partition or the leader, or gives the topic or the partition an error
      that passes. */
  ghost predicate NoLeaderYet(key: PartitionKey, metadata: Metadata) {
    NamesTopic(metadata, key.0) ==>
      exists i ::
        && TopicAt(metadata, key.0, i)
        && (metadata.topics[i].code in {3, 5, 8} ||
            (metadata.topics[i].code == 0 && NoLeaderIn(metadata.topics[i], key.1, metadata)))
  }

  ghost predicate NoLeaderIn(topic: TopicRow, index: int, metadata: Metadata) {
    NamesPartition(topic, index) ==>
      exists p ::
        && PartitionAt(topic, index, p)
        && (topic.partitions[p].code in {5, 6, 8, 9, 56} ||
            (topic.partitions[p].code == 0 && !NamesBroker(metadata, topic.partitions[p].leader)))
  }

  /** The metadata gives the topic or the partition an error that is final. */
  ghost predicate FailsWith(key: PartitionKey, metadata: Metadata, error: KafkaError) {
    exists i ::
      && TopicAt(metadata, key.0, i) && error.message == FromBroker(None)
      && ((metadata.topics[i].code !in {0, 3, 5, 8} && error.code == metadata.topics[i].code) ||
          (metadata.topics[i].code == 0 && FailsIn(metadata.topics[i], key.1, error.code)))
  }

  ghost predicate FailsIn(topic: TopicRow, index: int, code: int) {
    exists p ::
      && PartitionAt(topic, index, p) && topic.partitions[p].code !in {0, 5, 6, 8, 9, 56}
      && code == topic.partitions[p].code
  }

  /** `First` finds the row that no row before it matches. */
  lemma {:induction false} FirstAt<T(!new)>(p: T -> bool, q: seq<T>)
    ensures First(p, q).None? <==> forall i | 0 <= i < |q| :: !p(q[i])
    ensures First(p, q).Some? ==>
              exists i | 0 <= i < |q| :: p(q[i]) && q[i] == First(p, q).value && forall j | 0 <= j < i :: !p(q[j])
  {
    if q != [] && !p(q[0]) {
      FirstAt(p, q[1..]);
      assert forall i | 0 < i < |q| :: q[i] == q[1..][i - 1];
      if First(p, q[1..]).Some? {
        var i :| 0 <= i < |q[1..]| && p(q[1..][i]) && q[1..][i] == First(p, q[1..]).value &&
                 forall j | 0 <= j < i :: !p(q[1..][j]);
        assert p(q[i + 1]) && forall j | 0 <= j < i + 1 :: !p(q[j]);
      }
    }
  }

  lemma TopicFound(metadata: Metadata, name: string)
    ensures var first := First((t: TopicRow) => t.name == Some(name), metadata.topics);
            && (first.None? <==> !NamesTopic(metadata, name))
            && (first.Some? ==> exists i :: TopicAt(metadata, name, i) && metadata.topics[i] == first.value)
  {
    FirstAt((t: TopicRow) => t.name == Some(name), metadata.topics);
  }

  lemma PartitionFound(topic: TopicRow, index: int)
    ensures var first := First((p: PartitionRow) => p.index == index, topic.partitions);
            && (first.None? <==> !NamesPartition(topic, index))
            && (first.Some? ==> exists p :: PartitionAt(topic, index, p) && topic.partitions[p] == first.value)
  {
    FirstAt((p: PartitionRow) => p.index == index, topic.partitions);
  }

  lemma BrokerFound(metadata: Metadata, nodeId: int)
    ensures var first := First((b: NodeRow) => b.nodeId == nodeId, metadata.brokers);
            && (first.None? <==> !NamesBroker(metadata, nodeId))
            && (first.Some? ==> exists b :: BrokerAt(metadata, nodeId, b) && metadata.brokers[b] == first.value)
  {
    FirstAt((b: NodeRow) => b.nodeId == nodeId, metadata.brokers);
  }

  lemma OneTopicAt(metadata: Metadata, name: string, i: int, j: int)
    requires TopicAt(metadata, name, i) && TopicAt(metadata, name, j)
    ensures i == j
  {
  }

  lemma OnePartitionAt(topic: TopicRow, index: int, p: int, q: int)
    requires PartitionAt(topic, index, p) && PartitionAt(topic, index, q)
    ensures p == q
  {
  }

  lemma OneBrokerAt(metadata: Metadata, nodeId: int, a: int, b: int)
    requires BrokerAt(metadata, nodeId, a) && BrokerAt(metadata, nodeId, b)
    ensures a == b
  {
  }

  /** The three verdicts of the lookup, each as the rows of the metadata say it: the leader by its own id, another
      lookup, and a final error. */
  lemma LookupLeaderMeans(key: PartitionKey, metadata: Metadata, address: string, error: KafkaError)
    ensures LookupLeader(key, metadata) == Leader(address) <==> LedBy(key, metadata, address)
    ensures LookupLeader(key, metadata) == LeaderAgain <==> NoLeaderYet(key, metadata)
    ensures LookupLeader(key, metadata) == LeaderFailed(error) <==> FailsWith(key, metadata, error)
  {
    TopicFound(metadata, key.0);
    if NamesTopic(metadata, key.0) {
      var i :| TopicAt(metadata, key.0, i) &&
                    Some(metadata.topics[i]) == First((t: TopicRow) => t.name == Some(key.0), metadata.topics);
      forall j | TopicAt(metadata, key.0, j) ensures j == i { OneTopicAt(metadata, key.0, i, j); }
      if metadata.topics[i].code == 0 {
        TopicMeans(key, metadata, i, address, error);
      }
    }
  }

  lemma TopicMeans(key: PartitionKey, metadata: Metadata, i: int, address: string, error: KafkaError)
    requires TopicAt(metadata, key.0, i) && metadata.topics[i].code == 0
    requires First((t: TopicRow) => t.name == Some(key.0), metadata.topics) == Some(metadata.topics[i])
    requires forall j | TopicAt(metadata, key.0, j) :: j == i
    ensures LookupLeader(key, metadata) == Leader(address) <==> LedBy(key, metadata, address)
    ensures LookupLeader(key, metadata) == LeaderAgain <==> NoLeaderIn(metadata.topics[i], key.1, metadata)
    ensures LookupLeader(key, metadata) == LeaderFailed(error) <==>
            error.message == FromBroker(None) && FailsIn(metadata.topics[i], key.1, error.code)
  {
    var topic := metadata.topics[i];
    PartitionFound(topic, key.1);
    if NamesPartition(topic, key.1) {
      var p :| PartitionAt(topic, key.1, p) &&
                    Some(topic.partitions[p]) == First((p: PartitionRow) => p.index == key.1, topic.partitions);
      forall q | PartitionAt(topic, key.1, q) ensures q == p { OnePartitionAt(topic, key.1, p, q); }
      BrokerFound(metadata, topic.partitions[p].leader);
      if topic.partitions[p].code == 0 && NamesBroker(metadata, topic.partitions[p].leader) {
        var leader := topic.partitions[p].leader;
        var b :| BrokerAt(metadata, leader, b) &&
                      Some(metadata.brokers[b]) == First((b: NodeRow) => b.nodeId == leader, metadata.brokers);
        forall a | BrokerAt(metadata, leader, a) ensures a == b { OneBrokerAt(metadata, leader, a, b); }
      }
    }
  }

  /** The error of every partition of a failed call. */
  function CallError(error: AdminError): KafkaError {
    match error
    case Broker(code, message) => KafkaError(code, FromBroker(message))
    case _ => KafkaError(UNKNOWN_SERVER_ERROR, Own(Because(error)))
  }

  type PartitionResults<V> = map<PartitionKey, Result<V, KafkaError>>

  type LeaderAnswer<V> = Option<Result<PartitionResults<V>, AdminError>>

  type LeaderBoard<V> = Board<PartitionKey, string, V>

  /** The environment: the answer to the metadata request of a round, and to each batch of a round. */
  datatype World<V> = World(
    metadata: (nat, seq<string>) -> Option<Result<Metadata, AdminError>>,
    call: (nat, string, seq<PartitionKey>) -> LeaderAnswer<V>,
    retryCode: int -> bool,
    beforeBackoff: nat -> int,
    afterBackoff: nat -> int)

  /** The pending partitions in the order of the client, and where every partition stands. */
  datatype Queue<V> = Queue(order: seq<PartitionKey>, board: LeaderBoard<V>)

  // ----- the metadata request -----

  function TopicsOf(keys: seq<PartitionKey>): (q: seq<string>)
    ensures |q| == |keys| && forall i | 0 <= i < |keys| :: q[i] == keys[i].0
  {
    seq(|keys|, i requires 0 <= i < |keys| => keys[i].0)
  }

  /** Drops a topic that equals the one before it. */
  function DropAdjacent(topics: seq<string>): (q: seq<string>)
    ensures forall t :: t in q <==> t in topics
    ensures q == [] <==> topics == []
    ensures topics != [] ==> q[|q| - 1] == topics[|topics| - 1]
  {
    if |topics| < 2 then topics
    else
      var n := |topics| - 1;
      var rest := DropAdjacent(topics[..n]);
      if topics[n] == topics[n - 1] then rest else rest + [topics[n]]
  }

  function RequestTopics(order: seq<PartitionKey>): seq<string> {
    DropAdjacent(TopicsOf(order))
  }

  // ----- one round -----

  function FromLeader<V>(lookup: LeaderLookup): Status<string, V> {
    match lookup
    case Leader(address) => Mapped(address)
    case LeaderAgain => Unmapped
    case LeaderFailed(error) => Settled(Err(error))
  }

  function AfterMetadata<V>(k: PartitionKey, answer: Result<Metadata, AdminError>): Status<string, V> {
    match answer
    case Ok(metadata) => FromLeader(LookupLeader(k, metadata))
    case Err(error) => if IsConnectionFailure(error) then Unmapped else Settled(Err(CallError(error)))
  }

  function LookedUp<V>(b: LeaderBoard<V>, answer: Result<Metadata, AdminError>): LeaderBoard<V> {
    map k | k in b :: if b[k].Unmapped? then AfterMetadata(k, answer) else b[k]
  }

  function LookupPhase<V>(q: Queue<V>, n: nat, world: World<V>): Option<Queue<V>> {
    match world.metadata(n, RequestTopics(q.order))
    case None => None
    case Some(answer) => Some(Queue(q.order, LookedUp(q.board, answer)))
  }

  /** The partitions sent to `address`, in the order of the client. */
  function BatchAt<V>(q: Queue<V>, address: string): seq<PartitionKey> {
    Filter((k: PartitionKey) => k in q.board && q.board[k] == Mapped(address), q.order)
  }

  /** The result of one asked partition, where a partition that the answer omits gets an error. */
  function Completed<V>(k: PartitionKey, results: PartitionResults<V>): Result<V, KafkaError> {
    if k in results then results[k] else Err(KafkaError(UNKNOWN_SERVER_ERROR, Own(NotAnswered)))
  }

  predicate Retries<V>(result: Result<V, KafkaError>, retryCode: int -> bool) {
    result.Err? && retryCode(result.error.code)
  }

  function AfterAnswer<V>(k: PartitionKey, answer: LeaderAnswer<V>, retryCode: int -> bool): Status<string, V> {
    match answer
    case None => Unmapped
    case Some(Err(error)) => if IsConnectionFailure(error) then Unmapped else Settled(Err(CallError(error)))
    case Some(Ok(results)) =>
      var result := Completed(k, results);
      if Retries(result, retryCode) then Unmapped else Settled(result)
  }

  function AnswerAt<V>(q: Queue<V>, address: string, n: nat, world: World<V>): LeaderAnswer<V> {
    world.call(n, address, BatchAt(q, address))
  }

  function CallBoard<V>(q: Queue<V>, n: nat, world: World<V>): LeaderBoard<V> {
    map k | k in q.board ::
      if q.board[k].Mapped? then AfterAnswer(k, AnswerAt(q, q.board[k].at, n, world), world.retryCode) else q.board[k]
  }

  /** The partitions of one batch that go back to the lookup. A delivered answer is walked in key order. */
  function RetriesOf<V>(batch: seq<PartitionKey>, answer: LeaderAnswer<V>, retryCode: int -> bool): seq<PartitionKey> {
    match answer
    case None => batch
    case Some(Err(error)) => if IsConnectionFailure(error) then batch else []
    case Some(Ok(results)) => SortedKeys(set k | k in batch && Retries(Completed(k, results), retryCode))
  }

  function Joined(addresses: seq<string>, back: string -> seq<PartitionKey>): seq<PartitionKey> {
    if addresses == [] then []
    else Joined(addresses[..|addresses| - 1], back) + back(addresses[|addresses| - 1])
  }

  /** The partitions that each leader sends back to the lookup. */
  function SentBack<V>(q: Queue<V>, n: nat, world: World<V>): string -> seq<PartitionKey> {
    (address: string) => RetriesOf(BatchAt(q, address), AnswerAt(q, address, n, world), world.retryCode)
  }

  function RetriesAt<V>(q: Queue<V>, addresses: seq<string>, n: nat, world: World<V>): seq<PartitionKey> {
    Joined(addresses, SentBack(q, n, world))
  }

  function Addresses<V>(q: Queue<V>): set<string> {
    set k | k in q.order && k in q.board && q.board[k].Mapped? :: q.board[k].at
  }

  /** The partitions without a leader, in the order of the client. */
  function WaitingIn<V>(q: Queue<V>): seq<PartitionKey> {
    Filter((k: PartitionKey) => k in q.board && q.board[k].Unmapped?, q.order)
  }

  function CallPhase<V>(q: Queue<V>, n: nat, world: World<V>): Queue<V> {
    Queue(WaitingIn(q) + RetriesAt(q, SortedNames(Addresses(q)), n, world), CallBoard(q, n, world))
  }

  function LeaderLoop<V>(world: World<V>): Loop<Queue<V>> {
    Loop((q: Queue<V>) => q.order == [],
         (n: nat, q: Queue<V>) => LookupPhase(q, n, world),
         (n: nat, q: Queue<V>) => CallPhase(q, n, world),
         world.beforeBackoff, world.afterBackoff)
  }

  function StartQueue<V>(keys: seq<PartitionKey>): Queue<V> {
    Queue(SortedKeys(Elements(keys)), map k | k in keys :: Unmapped)
  }

  function Run<V>(keys: seq<PartitionKey>, deadline: RetryDeadline, world: World<V>): Ended<Queue<V>> {
    Drive(StartQueue(keys), 0, deadline, LeaderLoop(world))
  }

  function Finish<V>(ended: Ended<Queue<V>>): PartitionResults<V> {
    map k | k in ended.state.board ::
      if ended.state.board[k].Settled? then ended.state.board[k].result else Err(TimeoutError(ended.attempts))
  }

  // ----- what every round keeps -----

  /** At a loop head the pending partitions are listed once each, and no partition has a leader. */
  ghost predicate Sound<V>(q: Queue<V>) {
    && NoDuplicates(q.order)
    && (forall k :: k in q.order <==> k in q.board && q.board[k].Unmapped?)
    && (forall k | k in q.board :: !q.board[k].Mapped?)
  }

  /** After the lookup the list still names every partition that is not settled. */
  ghost predicate Listed<V>(q: Queue<V>) {
    && NoDuplicates(q.order)
    && forall k | k in q.board && !q.board[k].Settled? :: k in q.order
  }

  lemma LookupLists<V>(q: Queue<V>, n: nat, world: World<V>, l: Queue<V>)
    requires Sound(q) && LookupPhase(q, n, world) == Some(l)
    ensures Listed(l) && l.board.Keys == q.board.Keys && l.order == q.order
  {
  }

  lemma BatchHolds<V>(q: Queue<V>, address: string)
    requires Listed(q)
    ensures NoDuplicates(BatchAt(q, address))
    ensures forall k :: k in BatchAt(q, address) <==> k in q.board && q.board[k] == Mapped(address)
  {
    FilterKeepsDistinct((k: PartitionKey) => k in q.board && q.board[k] == Mapped(address), q.order);
  }

  lemma RetriesHold<V>(batch: seq<PartitionKey>, answer: LeaderAnswer<V>, retryCode: int -> bool)
    requires NoDuplicates(batch)
    ensures NoDuplicates(RetriesOf(batch, answer, retryCode))
    ensures forall k :: k in RetriesOf(batch, answer, retryCode) <==>
              k in batch && AfterAnswer(k, answer, retryCode).Unmapped?
  {
  }

  lemma {:induction false} RetriesAtHold<V>(q: Queue<V>, addresses: seq<string>, n: nat, world: World<V>)
    requires Listed(q) && NoDuplicates(addresses)
    ensures NoDuplicates(RetriesAt(q, addresses, n, world))
    ensures forall k :: k in RetriesAt(q, addresses, n, world) <==>
                        && k in q.board && q.board[k].Mapped? && q.board[k].at in addresses
                        && CallBoard(q, n, world)[k].Unmapped?
  {
    if addresses != [] {
      var front, address := addresses[..|addresses| - 1], addresses[|addresses| - 1];
      RetriesAtHold(q, front, n, world);
      BatchHolds(q, address);
      RetriesHold(BatchAt(q, address), AnswerAt(q, address, n, world), world.retryCode);
    }
  }

  lemma AddressesCover<V>(l: Queue<V>, k: PartitionKey)
    requires Listed(l) && k in l.board && l.board[k].Mapped?
    ensures l.board[k].at in SortedNames(Addresses(l))
  {
    assert k in l.order;
  }

  lemma CallBoardMoves<V>(l: Queue<V>, n: nat, world: World<V>, k: PartitionKey)
    requires k in l.board
    ensures k in CallBoard(l, n, world) && !CallBoard(l, n, world)[k].Mapped?
    ensures !l.board[k].Mapped? ==> CallBoard(l, n, world)[k] == l.board[k]
  {
  }

  lemma JoinIsSound<V>(l: Queue<V>, waiting: seq<PartitionKey>, retries: seq<PartitionKey>, board: LeaderBoard<V>)
    requires NoDuplicates(waiting) && NoDuplicates(retries) && board.Keys == l.board.Keys
    requires forall k :: k in waiting <==> k in l.board && l.board[k].Unmapped?
    requires forall k :: k in retries <==> k in l.board && l.board[k].Mapped? && board[k].Unmapped?
    requires forall k | k in l.board :: !board[k].Mapped? && (!l.board[k].Mapped? ==> board[k] == l.board[k])
    ensures Sound(Queue(waiting + retries, board))
  {
    JoinKeepsDistinct(waiting, retries);
  }

  /** Every round leads to a sound queue. */
  lemma CallKeepsSound<V>(l: Queue<V>, n: nat, world: World<V>)
    requires Listed(l)
    ensures Sound(CallPhase(l, n, world)) && CallPhase(l, n, world).board.Keys == l.board.Keys
  {
    var addresses, board := SortedNames(Addresses(l)), CallBoard(l, n, world);
    var waiting := WaitingIn(l);
    var retries := RetriesAt(l, addresses, n, world);
    RetriesAtHold(l, addresses, n, world);
    FilterKeepsDistinct((k: PartitionKey) => k in l.board && l.board[k].Unmapped?, l.order);
    forall k | k in l.board
      ensures l.board[k].Mapped? ==> l.board[k].at in addresses
      ensures !board[k].Mapped? && (!l.board[k].Mapped? ==> board[k] == l.board[k])
    {
      CallBoardMoves(l, n, world, k);
      if l.board[k].Mapped? { AddressesCover(l, k); }
    }
    JoinIsSound(l, waiting, retries, board);
  }

  // ----- whole runs -----

  type LeaderRound<V> = Round<Queue<V>>

  function BoardRound<V>(round: LeaderRound<V>): Round<LeaderBoard<V>> {
    Round(round.before.board, round.looked.board, round.after.board)
  }

  function BoardRounds<V>(rounds: seq<LeaderRound<V>>): (q: seq<Round<LeaderBoard<V>>>)
    ensures |q| == |rounds| && forall i | 0 <= i < |q| :: q[i] == BoardRound(rounds[i])
  {
    seq(|rounds|, i requires 0 <= i < |rounds| => BoardRound(rounds[i]))
  }

  ghost predicate LeaderFollows<V>(round: LeaderRound<V>, m: nat, world: World<V>) {
    LookupPhase(round.before, m, world) == Some(round.looked) && round.after == CallPhase(round.looked, m, world)
  }

  lemma LeaderRoundFollows<V>(round: LeaderRound<V>, m: nat, world: World<V>)
    requires Follows(round, m, LeaderLoop(world))
    ensures LeaderFollows(round, m, world)
  {
  }

  lemma LeaderRoundIsSteady<V>(round: LeaderRound<V>, m: nat, world: World<V>)
    requires Sound(round.before) && LeaderFollows(round, m, world)
    ensures Steady(BoardRound(round)) && Sound(round.after)
  {
    LookupLists(round.before, m, world, round.looked);
    CallKeepsSound(round.looked, m, world);
    forall k | k in round.before.board ensures MovesKey(BoardRound(round), k) {
      CallBoardMoves(round.looked, m, world, k);
    }
  }

  lemma StartIsSound<V>(keys: seq<PartitionKey>)
    ensures Sound(StartQueue<V>(keys))
  {
  }

  lemma {:induction false} QueuesAreSound<V>(keys: seq<PartitionKey>, rounds: seq<LeaderRound<V>>, world: World<V>,
                                             i: nat)
    requires Linked(StartQueue(keys), 0, rounds, LeaderLoop(world)) && i < |rounds|
    ensures Sound(rounds[i].before) && Sound(rounds[i].after) && Steady(BoardRound(rounds[i]))
    ensures LeaderFollows(rounds[i], i, world)
  {
    if i == 0 {
      StartIsSound<V>(keys);
    } else {
      QueuesAreSound(keys, rounds, world, i - 1);
    }
    assert Follows(rounds[i], 0 + i, LeaderLoop(world));
    LeaderRoundFollows(rounds[i], i, world);
    LeaderRoundIsSteady(rounds[i], i, world);
  }

  /** The rounds of a run, without the answers: steady, sound, and each from the queue before it. */
  ghost predicate SoundChain<V>(start: Queue<V>, rounds: seq<LeaderRound<V>>) {
    && (rounds != [] ==> rounds[0].before == start)
    && (forall i | 0 < i < |rounds| :: rounds[i].before == rounds[i - 1].after)
    && (forall i | 0 <= i < |rounds| ::
          Sound(rounds[i].before) && Sound(rounds[i].after) && Steady(BoardRound(rounds[i])))
  }

  lemma SoundChainHasChain<V>(start: Queue<V>, rounds: seq<LeaderRound<V>>)
    requires SoundChain(start, rounds) && Sound(start)
    ensures Chain(start.board, BoardRounds(rounds))
    ensures LastState(start, rounds).board == LastState(start.board, BoardRounds(rounds))
    ensures Sound(LastState(start, rounds))
  {
  }

  lemma RunIsASoundChain<V>(keys: seq<PartitionKey>, deadline: RetryDeadline, world: World<V>)
    ensures SoundChain(StartQueue(keys), Run(keys, deadline, world).rounds)
  {
    var rounds := Run(keys, deadline, world).rounds;
    RunIsLinked(StartQueue(keys), 0, deadline, LeaderLoop(world));
    forall i | 0 <= i < |rounds|
      ensures Sound(rounds[i].before) && Sound(rounds[i].after) && Steady(BoardRound(rounds[i]))
    {
      QueuesAreSound(keys, rounds, world, i);
    }
  }

  /** Every run is a chain of steady rounds, and its queue is sound at every loop head and at the end. */
  lemma RunIsAChain<V>(keys: seq<PartitionKey>, deadline: RetryDeadline, world: World<V>, e: Ended<Queue<V>>)
    requires e == Run(keys, deadline, world)
    ensures SoundChain(StartQueue(keys), e.rounds) && Sound(e.state)
    ensures Chain(StartQueue<V>(keys).board, BoardRounds(e.rounds))
    ensures e.state.board == LastState(StartQueue<V>(keys).board, BoardRounds(e.rounds))
  {
    RunIsASoundChain(keys, deadline, world);
    StartIsSound<V>(keys);
    SoundChainHasChain(StartQueue(keys), e.rounds);
    RunIsLinked(StartQueue(keys), 0, deadline, LeaderLoop(world));
  }

  /** In every round the pending partitions are listed once each, none of them has a result, and together with
      the settled ones they are the requested partitions; the call gives each partition one result. */
  lemma KeysAreConserved<V>(keys: seq<PartitionKey>, deadline: RetryDeadline, world: World<V>, e: Ended<Queue<V>>)
    requires e == Run(keys, deadline, world)
    ensures Finish(e).Keys == e.state.board.Keys == Elements(keys)
    ensures forall i | 0 <= i < |e.rounds| :: Conserves(e.rounds[i].before, Elements(keys))
  {
    RunIsASoundChain(keys, deadline, world);
    RunIsLinked(StartQueue(keys), 0, deadline, LeaderLoop(world));
    StartIsSound<V>(keys);
    ChainConserves(StartQueue(keys), e, Elements(keys));
  }

  lemma ChainConserves<V>(start: Queue<V>, e: Ended<Queue<V>>, keys: set<PartitionKey>)
    requires SoundChain(start, e.rounds) && Sound(start) && start.board.Keys == keys &&
             e.state == LastState(start, e.rounds)
    ensures Finish(e).Keys == e.state.board.Keys == keys
    ensures forall i | 0 <= i < |e.rounds| :: Conserves(e.rounds[i].before, keys)
  {
    SoundChainHasChain(start, e.rounds);
    LastKeysStay(start.board, BoardRounds(e.rounds));
    forall i | 0 <= i < |e.rounds| ensures Conserves(e.rounds[i].before, keys) {
      KeysStay(start.board, BoardRounds(e.rounds), i);
    }
  }

  /** `order` lists exactly the requested partitions without a result, each once. */
  ghost predicate Conserves<V>(q: Queue<V>, keys: set<PartitionKey>) {
    && q.board.Keys == keys
    && NoDuplicates(q.order)
    && (forall k | k in keys :: k in q.order <==> !q.board[k].Settled?)
    && (forall k | k in q.order :: k in keys)
  }

  /** Each batch of a round holds exactly the pending partitions whose leader, in the metadata of that round, has
      the address of the batch. */
  lemma BatchesFollowMetadata<V>(q: Queue<V>, n: nat, world: World<V>, l: Queue<V>, address: string, k: PartitionKey)
    requires Sound(q) && LookupPhase(q, n, world) == Some(l)
    ensures k in BatchAt(l, address) <==>
            && k in q.order
            && var answer := world.metadata(n, RequestTopics(q.order)).value;
               answer.Ok? && LedBy(k, answer.value, address)
  {
    LookupLists(q, n, world, l);
    BatchHolds(l, address);
    var answer := world.metadata(n, RequestTopics(q.order)).value;
    if answer.Ok? { LookupPutsAt<V>(k, answer.value, address); }
  }

  /** Where a value that round `m` gives can come from: a failed metadata request, a failed lookup, a failed
      call, or an answer whose code is not one that retries. */
  ghost predicate HasSource<V>(round: LeaderRound<V>, m: nat, world: World<V>, k: PartitionKey,
                               result: Result<V, KafkaError>)
  {
    var metadata := world.metadata(m, RequestTopics(round.before.order));
    metadata.Some? && k in round.before.order &&
    match metadata.value
    case Err(error) => !IsConnectionFailure(error) && result == Err(CallError(error))
    case Ok(md) =>
      || (result.Err? && FailsWith(k, md, result.error))
      || exists address :: LedBy(k, md, address) &&
                           GivenBy(k, AnswerAt(round.looked, address, m, world), world.retryCode, result)
  }

  ghost predicate GivenBy<V>(k: PartitionKey, answer: LeaderAnswer<V>, retryCode: int -> bool,
                             result: Result<V, KafkaError>)
  {
    answer.Some? &&
    match answer.value
    case Err(error) => !IsConnectionFailure(error) && result == Err(CallError(error))
    case Ok(results) => result == Completed(k, results) && !Retries(result, retryCode)
  }

  /** Where the lookup of a round puts a partition, as the rows of the metadata say it. */
  lemma LookupPutsAt<V>(k: PartitionKey, metadata: Metadata, address: string)
    ensures AfterMetadata<V>(k, Ok(metadata)) == Mapped(address) <==> LedBy(k, metadata, address)
  {
    LookupLeaderMeans(k, metadata, address, KafkaError(0, FromBroker(None)));
  }

  lemma LookupSettlesWith<V>(k: PartitionKey, metadata: Metadata, result: Result<V, KafkaError>)
    ensures AfterMetadata(k, Ok(metadata)) == Settled(result) <==> result.Err? && FailsWith(k, metadata, result.error)
  {
    if result.Err? { LookupLeaderMeans(k, metadata, "", result.error); }
  }

  lemma SettledByTheLookup<V>(round: LeaderRound<V>, m: nat, world: World<V>, k: PartitionKey,
                              result: Result<V, KafkaError>)
    requires world.metadata(m, RequestTopics(round.before.order)).Some? && k in round.before.order
    requires AfterMetadata(k, world.metadata(m, RequestTopics(round.before.order)).value) == Settled(result)
    ensures HasSource(round, m, world, k, result)
  {
    var answer := world.metadata(m, RequestTopics(round.before.order)).value;
    if answer.Ok? { LookupSettlesWith(k, answer.value, result); }
  }

  lemma SettledByALeader<V>(round: LeaderRound<V>, m: nat, world: World<V>, k: PartitionKey, address: string,
                            result: Result<V, KafkaError>)
    requires world.metadata(m, RequestTopics(round.before.order)).Some? && k in round.before.order
    requires AfterMetadata<V>(k, world.metadata(m, RequestTopics(round.before.order)).value) == Mapped(address)
    requires AfterAnswer(k, AnswerAt(round.looked, address, m, world), world.retryCode) == Settled(result)
    ensures HasSource(round, m, world, k, result)
  {
    var answer := world.metadata(m, RequestTopics(round.before.order)).value;
    LookupPutsAt<V>(k, answer.value, address);
    assert GivenBy(k, AnswerAt(round.looked, address, m, world), world.retryCode, result);
  }

  lemma RoundSettles<V>(round: LeaderRound<V>, m: nat, world: World<V>, k: PartitionKey, result: Result<V, KafkaError>)
    requires Sound(round.before) && LeaderFollows(round, m, world) && SettlesIn(BoardRound(round), k, result)
    ensures HasSource(round, m, world, k, result)
  {
    assert round.before.board[k].Unmapped? && k in round.before.order;
    assert round.looked.board[k] == AfterMetadata(k, world.metadata(m, RequestTopics(round.before.order)).value);
    if round.looked.board[k].Mapped? {
      SettledByALeader(round, m, world, k, round.looked.board[k].at, result);
    } else {
      CallBoardMoves(round.looked, m, world, k);
      SettledByTheLookup(round, m, world, k, result);
    }
  }

  lemma SettledFromARound<V>(keys: seq<PartitionKey>, deadline: RetryDeadline, world: World<V>, e: Ended<Queue<V>>,
                             k: PartitionKey)
    requires e == Run(keys, deadline, world) && k in keys && k in e.state.board && e.state.board[k].Settled?
    ensures exists i | 0 <= i < |e.rounds| :: HasSource(e.rounds[i], i, world, k, e.state.board[k].result)
  {
    RunIsAChain(keys, deadline, world, e);
    RunIsLinked(StartQueue(keys), 0, deadline, LeaderLoop(world));
    var boards := BoardRounds(e.rounds);
    LastKeysStay(StartQueue<V>(keys).board, boards);
    SettledOnce(StartQueue<V>(keys).board, boards, k);
    var i :| 0 <= i < |boards| && SettlesIn(boards[i], k, e.state.board[k].result);
    QueuesAreSound(keys, e.rounds, world, i);
    RoundSettles(e.rounds[i], i, world, k, e.state.board[k].result);
  }

  /** Each final value comes from one round of the run, and never from a leader's code that retries; or it is
      the timeout, and then the partition was pending when the run stopped at its limit. */
  lemma EveryResultHasASource<V>(keys: seq<PartitionKey>, deadline: RetryDeadline, world: World<V>, e: Ended<Queue<V>>,
                                 k: PartitionKey)
    requires e == Run(keys, deadline, world) && k in keys
    ensures k in Finish(e) && k in e.state.board
    ensures k in e.state.order ==>
              Finish(e)[k] == Err(TimeoutError(e.attempts)) && AtItsLimit(e, 0, deadline, LeaderLoop(world))
    ensures k !in e.state.order ==>
              exists i | 0 <= i < |e.rounds| :: HasSource(e.rounds[i], i, world, k, Finish(e)[k])
  {
    KeysAreConserved(keys, deadline, world, e);
    RunIsAChain(keys, deadline, world, e);
    if k in e.state.order {
      IncompleteOnlyAtTheLimit(StartQueue(keys), 0, deadline, LeaderLoop(world));
    } else {
      SettledFromARound(keys, deadline, world, e, k);
    }
  }

  /** Every call follows a lookup of the same round: no partition keeps a leader from one round to the next. */
  lemma LeadersAreFresh<V>(keys: seq<PartitionKey>, deadline: RetryDeadline, world: World<V>, e: Ended<Queue<V>>,
                           j: nat, k: PartitionKey, address: string)
    requires e == Run(keys, deadline, world) && j < |e.rounds| && k in BatchAt(e.rounds[j].looked, address)
    ensures FoundIn(BoardRound(e.rounds[j]), k, address)
  {
    RunIsAChain(keys, deadline, world, e);
    assert MovesKey(BoardRound(e.rounds[j]), k) by {
      assert Steady(BoardRound(e.rounds[j]));
    }
  }

  // ----- which topics a metadata request names -----

  /** The partitions of each topic stand together. */
  ghost predicate Contiguous(order: seq<PartitionKey>) {
    forall i, j, m | 0 <= i <= j <= m < |order| && order[i].0 == order[m].0 :: order[j].0 == order[i].0
  }

  /** The request of every round names exactly the topics of the pending partitions. */
  lemma RequestNamesPendingTopics(order: seq<PartitionKey>, topic: string)
    ensures topic in RequestTopics(order) <==> exists k | k in order :: k.0 == topic
  {
    var topics := TopicsOf(order);
    if topic in topics {
      var i :| 0 <= i < |topics| && topics[i] == topic;
      assert order[i] in order;
    }
    if k :| k in order && k.0 == topic {
      var i :| 0 <= i < |order| && order[i] == k;
      assert topics[i] == topic;
    }
  }

  /** The request names no topic twice exactly when the partitions of each topic stand together. */
  lemma {:induction false} DistinctExactlyWhenContiguous(order: seq<PartitionKey>)
    ensures NoDuplicates(RequestTopics(order)) <==> Contiguous(order)
  {
    if |order| >= 2 {
      var n := |order| - 1;
      var front := order[..n];
      assert TopicsOf(order)[..n] == TopicsOf(front);
      DistinctExactlyWhenContiguous(front);
      var rest, last := RequestTopics(front), order[n].0;
      if last == order[n - 1].0 {
        ContiguousGrows(order, n);
      } else {
        RequestNamesPendingTopics(front, last);
        NewTopicStandsApart(order, n);
        assert RequestTopics(order) == rest + [last];
        DistinctGrows(rest, last);
      }
    }
  }

  lemma DistinctGrows(q: seq<string>, x: string)
    ensures NoDuplicates(q + [x]) <==> NoDuplicates(q) && x !in q
  {
    if NoDuplicates(q + [x]) {
      forall i, j | 0 <= i < j < |q| ensures q[i] != q[j] { assert (q + [x])[i] != (q + [x])[j]; }
      forall i | 0 <= i < |q| ensures q[i] != x { assert (q + [x])[i] != (q + [x])[|q|]; }
    }
  }

  lemma ContiguousGrows(order: seq<PartitionKey>, n: nat)
    requires n == |order| - 1 && n > 0 && order[n].0 == order[n - 1].0
    ensures Contiguous(order) <==> Contiguous(order[..n])
  {
    if Contiguous(order[..n]) {
      forall i, j, m | 0 <= i <= j <= m < |order| && order[i].0 == order[m].0 ensures order[j].0 == order[i].0 {
        var m', j' := if m == n then n - 1 else m, if j == n then n - 1 else j;
        if i < n {
          assert order[..n][i].0 == order[..n][m'].0;
          assert order[..n][j'].0 == order[..n][i].0;
        }
      }
    }
    if Contiguous(order) {
      ContiguousShrinks(order, n);
    }
  }

  lemma NewTopicStandsApart(order: seq<PartitionKey>, n: nat)
    requires n == |order| - 1 && n > 0 && order[n].0 != order[n - 1].0
    ensures Contiguous(order) <==> Contiguous(order[..n]) && forall k | k in order[..n] :: k.0 != order[n].0
  {
    if Contiguous(order) {
      ContiguousShrinks(order, n);
      forall i | 0 <= i < n ensures order[i].0 != order[n].0 {
        assert i <= n - 1 <= n;
      }
    }
    if Contiguous(order[..n]) && forall k | k in order[..n] :: k.0 != order[n].0 {
      assert forall i | 0 <= i < n :: order[i] in order[..n];
      ContiguousWithNew(order, n);
    }
  }

  lemma ContiguousShrinks(order: seq<PartitionKey>, n: nat)
    requires n <= |order| && Contiguous(order)
    ensures Contiguous(order[..n])
  {
    forall i, j, m | 0 <= i <= j <= m < n && order[..n][i].0 == order[..n][m].0
      ensures order[..n][j].0 == order[..n][i].0
    {
      assert order[i].0 == order[m].0;
    }
  }

  lemma ContiguousWithNew(order: seq<PartitionKey>, n: nat)
    requires n == |order| - 1 && Contiguous(order[..n]) && forall i | 0 <= i < n :: order[i].0 != order[n].0
    ensures Contiguous(order)
  {
    forall i, j, m | 0 <= i <= j <= m < |order| && order[i].0 == order[m].0 ensures order[j].0 == order[i].0 {
      if m < n {
        assert order[..n][i].0 == order[..n][m].0;
        assert order[..n][j].0 == order[..n][i].0;
      }
    }
  }

  lemma BetweenSharesTopic(a: PartitionKey, b: PartitionKey, c: PartitionKey)
    requires (a == b || KeyLess(a, b)) && (b == c || KeyLess(b, c)) && a.0 == c.0
    ensures b.0 == a.0
  {
    if NameLess(a.0, b.0) && NameLess(b.0, c.0) {
      NameLessTransitive(a.0, b.0, c.0);
    }
    NameLessIrreflexive(a.0);
  }

  lemma AscendingIsContiguous(order: seq<PartitionKey>)
    requires Ascends(KeyLess, order)
    ensures Contiguous(order)
  {
    forall i, j, m | 0 <= i <= j <= m < |order| && order[i].0 == order[m].0 ensures order[j].0 == order[i].0 {
      BetweenSharesTopic(order[i], order[j], order[m]);
    }
  }

  /** The sorted partitions of the first round stand together, so its request names each topic once. */
  lemma FirstRequestIsDistinct<V>(keys: seq<PartitionKey>)
    ensures NoDuplicates(RequestTopics(StartQueue<V>(keys).order))
  {
    SortedKeysAscend(Elements(keys));
    AscendingIsContiguous(SortedKeys(Elements(keys)));
    DistinctExactlyWhenContiguous(SortedKeys(Elements(keys)));
  }

  /** Metadata that knows the leader of `a-1` but not yet of `a-0` and `b-0`. */
  const PARTIAL_METADATA := Metadata(
    [TopicRow(Some("a"), 0, [PartitionRow(0, LEADER_NOT_AVAILABLE, -1), PartitionRow(1, 0, 7)]),
     TopicRow(Some("b"), LEADER_NOT_AVAILABLE, [])],
    [NodeRow(7, "h", 9092)])

  /** A cluster with that metadata whose leaders do not answer. */
  function PartialWorld(): World<int> {
    World((n: nat, topics: seq<string>) => Some(Ok(PARTIAL_METADATA)),
          (n: nat, address: string, keys: seq<PartitionKey>) => None,
          (code: int) => false, (n: nat) => 0, (n: nat) => 0)
  }

  /** Later requests can name a topic twice: `a-1` comes back from its leader behind `b-0`. */
  lemma LaterRequestCanRepeatATopic()
    ensures var looked := LookupPhase(StartQueue<int>([("a", 0), ("a", 1), ("b", 0)]), 0, PartialWorld()).value;
            RequestTopics(CallPhase(looked, 0, PartialWorld()).order) == ["a", "b", "a"]
  {
    var world := PartialWorld();
    var keys := [("a", 0), ("a", 1), ("b", 0)];
    var looked := LookupPhase(StartQueue<int>(keys), 0, world).value;
    SortsThree();
    PartialLookups();
    assert looked.order == keys;
    MiddleComesLast(looked, ("a", 0), ("a", 1), ("b", 0), FormatHostPort("h", 9092), world);
    ThreeTopics([("a", 0), ("b", 0), ("a", 1)]);
  }

  /** A partition whose leader did not answer goes behind the ones that found no leader. */
  lemma MiddleComesLast(l: Queue<int>, a: PartitionKey, b: PartitionKey, c: PartitionKey, address: string,
                        world: World<int>)
    requires l.order == [a, b, c] && a in l.board && b in l.board && c in l.board
    requires l.board[a] == Unmapped && l.board[b] == Mapped(address) && l.board[c] == Unmapped
    requires forall keys :: world.call(0, address, keys) == None
    ensures CallPhase(l, 0, world).order == [a, c, b]
  {
    WaitingThree(l, a, b, c);
    BatchThree(l, a, b, c, address);
    OneAddress(l, b, address);
    UnansweredBatch(l, address, world, [b]);
  }

  lemma WaitingThree(l: Queue<int>, a: PartitionKey, b: PartitionKey, c: PartitionKey)
    requires l.order == [a, b, c] && a in l.board && b in l.board && c in l.board
    requires l.board[a].Unmapped? && !l.board[b].Unmapped? && l.board[c].Unmapped?
    ensures WaitingIn(l) == [a, c]
  {
    FilterThree((k: PartitionKey) => k in l.board && l.board[k].Unmapped?, a, b, c);
  }

  lemma BatchThree(l: Queue<int>, a: PartitionKey, b: PartitionKey, c: PartitionKey, address: string)
    requires l.order == [a, b, c] && a in l.board && b in l.board && c in l.board
    requires l.board[a].Unmapped? && l.board[b] == Mapped(address) && l.board[c].Unmapped?
    ensures BatchAt(l, address) == [b]
  {
    FilterThree((k: PartitionKey) => k in l.board && l.board[k] == Mapped(address), a, b, c);
  }

  lemma OneAddress(l: Queue<int>, b: PartitionKey, address: string)
    requires b in l.order && b in l.board && l.board[b] == Mapped(address)
    requires forall k | k in l.order && k in l.board && l.board[k].Mapped? :: k == b
    ensures SortedNames(Addresses(l)) == [address]
  {
    assert Addresses(l) == {address};
  }

  lemma UnansweredBatch(l: Queue<int>, address: string, world: World<int>, batch: seq<PartitionKey>)
    requires BatchAt(l, address) == batch && world.call(0, address, batch) == None
    ensures RetriesAt(l, [address], 0, world) == batch
  {
    assert [address][..0] == [] && Joined([], SentBack(l, 0, world)) == [];
  }

  lemma SortsThree()
    ensures SortedKeys(Elements([("a", 0), ("a", 1), ("b", 0)])) == [("a", 0), ("a", 1), ("b", 0)]
  {
    var q := [("a", 0), ("a", 1), ("b", 0)];
    SortedKeysAscend(Elements(q));
    KeysAreOrdered();
    assert Ascends(KeyLess, q);
    AscendingIsUnique(KeyLess, SortedKeys(Elements(q)), q);
  }

  lemma PartialLookups()
    ensures LookupLeader(("a", 0), PARTIAL_METADATA) == LeaderAgain
    ensures LookupLeader(("a", 1), PARTIAL_METADATA) == Leader(FormatHostPort("h", 9092))
    ensures LookupLeader(("b", 0), PARTIAL_METADATA) == LeaderAgain
  {
    var partitions := PARTIAL_METADATA.topics[0].partitions;
    assert First((p: PartitionRow) => p.index == 1, partitions) == Some(partitions[1]) by {
      assert First((p: PartitionRow) => p.index == 1, partitions[1..]) == Some(partitions[1]);
    }
    assert First((t: TopicRow) => t.name == Some("b"), PARTIAL_METADATA.topics) == Some(PARTIAL_METADATA.topics[1]) by {
      assert First((t: TopicRow) => t.name == Some("b"), PARTIAL_METADATA.topics[1..]) ==
             Some(PARTIAL_METADATA.topics[1]);
    }
  }

  lemma FilterThree(p: PartitionKey -> bool, a: PartitionKey, b: PartitionKey, c: PartitionKey)
    ensures Filter(p, [a, b, c]) ==
            (if p(a) then [a] else []) + (if p(b) then [b] else []) + (if p(c) then [c] else [])
  {
    assert [a, b, c][..2] == [a, b] && [a, b][..1] == [a] && [a][..0] == [];
    assert Filter(p, [a]) == if p(a) then [a] else [];
    assert Filter(p, [a, b]) == (if p(a) then [a] else []) + (if p(b) then [b] else []);
  }

  lemma ThreeTopics(order: seq<PartitionKey>)
    requires |order| == 3 && order[0].0 != order[1].0 && order[1].0 != order[2].0
    ensures RequestTopics(order) == [order[0].0, order[1].0, order[2].0]
  {
    var topics := TopicsOf(order);
    assert topics[..2][..1] == [order[0].0];
    assert DropAdjacent(topics[..2]) == [order[0].0, order[1].0];
  }
}
