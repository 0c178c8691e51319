/** Listing the groups of the cluster: what a filtered request means at each version, the calls to one broker, and
    the merge of the answers of all brokers. */
module ListGroups {
  import opened Base
  import opened Order
  import opened HostPort
  import R = Recovery

  // ----- filters and versions -----

  datatype GroupType = UnknownType | Consumer | Classic | Share | Streams

  datatype Group = Group(id: string, groupType: GroupType, state: string, protocolType: string)

  /** An empty set does not filter. */
  datatype Options = Options(states: set<string>, types: set<GroupType>, protocolTypes: set<string>)

  predicate Passes<T(==)>(filter: set<T>, x: T) {
    filter == {} || x in filter
  }

  function MinVersion(options: Options, oldest: int): int {
    var typesNeed5 := options.types != {} && (Classic !in options.types || AsksOtherTypes(options));
    if typesNeed5 then 5 else if options.states == {} then oldest else 4
  }

  /** Whether a broker lists a group at `version`: the request carries the states from v4 and the types from v5. */
  predicate ListedAt(version: int, options: Options, group: Group) {
    (version < 4 || Passes(options.states, group.state)) && (version < 5 || Passes(options.types, group.groupType))
  }

  predicate Wanted(options: Options, group: Group) {
    Passes(options.states, group.state) && Passes(options.types, group.groupType)
  }

  /** A broker below v5 holds only classic groups. */
  predicate CanHold(version: int, group: Group) {
    version < 5 ==> group.groupType == Classic
  }

  /** At `version` every broker lists exactly the wanted groups. */
  ghost predicate KeepsMeaning(version: int, options: Options) {
    forall group | CanHold(version, group) :: ListedAt(version, options, group) <==> Wanted(options, group)
  }

  /** At every version from the lowest that the client allows, the listing is the full filtering. */
  lemma AllowedVersionsKeepMeaning(version: int, options: Options, oldest: int)
    requires version >= MinVersion(options, oldest)
    ensures KeepsMeaning(version, options)
  {
  }

  /** The versions that keep the meaning, for a state filter that leaves a state out: the filters that matter must
      be carried, and a type filter with classic groups does not matter below v5. */
  lemma MeaningIsKeptExactlyWhen(version: int, options: Options, leftOut: string)
    requires leftOut !in options.states
    ensures KeepsMeaning(version, options) <==>
            (version >= 4 || options.states == {}) && (version >= 5 || options.types == {} || Classic in options.types)
  {
    if options.states != {} && version < 4 {
      var group := Group("", Classic, leftOut, "");
      assert CanHold(version, group) && ListedAt(version, options, group) && !Wanted(options, group);
    }
    if options.types != {} && Classic !in options.types && version < 5 {
      var state := if options.states == {} then "" else var s :| s in options.states; s;
      var group := Group("", Classic, state, "");
      assert CanHold(version, group) && ListedAt(version, options, group) && !Wanted(options, group);
    }
  }

  /** Some type beside classic and consumer groups is asked for. */
  predicate AsksOtherTypes(options: Options) {
    exists t | t in options.types :: t != Classic && t != Consumer
  }

  /** The lowest version that the client allows is the lowest that keeps the meaning, unless the filter asks for classic
      groups together with another type than consumer groups and the client knows a version below v5. */
  lemma MinVersionIsLeastExactlyWhen(options: Options, oldest: int, leftOut: string)
    requires leftOut !in options.states
    ensures (forall v | oldest <= v < MinVersion(options, oldest) :: !KeepsMeaning(v, options)) <==>
            !(Classic in options.types && AsksOtherTypes(options) && oldest < 5)
  {
    forall v ensures KeepsMeaning(v, options) <==>
                     (v >= 4 || options.states == {}) && (v >= 5 || options.types == {} || Classic in options.types)
    {
      MeaningIsKeptExactlyWhen(v, options, leftOut);
    }
    if Classic in options.types && AsksOtherTypes(options) && oldest < 5 {
      assert oldest <= 4 < MinVersion(options, oldest) && KeepsMeaning(4, options);
    }
  }

  /** The client asks for v5 where v4 would do. */
  lemma MinVersionIsNotTheLeast(oldest: int)
    ensures var options := Options({}, {Classic, Share}, {});
            MinVersion(options, oldest) == 5 && KeepsMeaning(4, options)
  {
    var options := Options({}, {Classic, Share}, {});
    assert Share in options.types;
  }

  // ----- the calls to one broker -----

  datatype Reply = Reply(code: int, groups: seq<Group>)

  /** Whether an attempt ends the call or is made again. */
  datatype Action = Final(result: Result<seq<Group>, AdminError>) | Again(error: AdminError)

  /** One broker, asked at each attempt: the error of a dial, the reply, whether the attempt ends before the deadline,
      and the time when the attempt starts and when it ends. */
  datatype Peer = Peer(
    refuses: nat -> Option<AdminError>,
    reply: nat -> Result<Reply, ClientError>,
    inTime: nat -> bool,
    startsAt: nat -> int,
    endsAt: nat -> int)

  datatype Policy = Policy(deadline: int, initial: nat, max: nat, maxRetries: nat)

  /** Whether the connection is open before attempt `n`. */
  predicate OpenBefore(n: nat, peer: Peer) {
    n > 0 &&
    (OpenBefore(n - 1, peer) || peer.refuses(n - 1).None?) &&
    !(peer.reply(n - 1).Err? && IsRetriableTransport(peer.reply(n - 1).error))
  }

  function ReplyAction(reply: Result<Reply, ClientError>): Action {
    match reply
    case Ok(answer) =>
      if answer.code == 0 then Final(Ok(answer.groups))
      else
        var error := Broker(answer.code, None);
        if answer.code == COORDINATOR_LOAD_IN_PROGRESS || answer.code == COORDINATOR_NOT_AVAILABLE then Again(error)
        else Final(Err(error))
    case Err(error) => if IsRetriableTransport(error) then Again(Transport(error)) else Final(Err(Transport(error)))
  }

  function ActionOf(n: nat, peer: Peer): Action {
    if !OpenBefore(n, peer) && peer.refuses(n).Some? then
      var error := peer.refuses(n).value;
      if IsAuthenticationFailure(error) then Final(Err(error)) else Again(error)
    else ReplyAction(peer.reply(n))
  }

  method Attempt(open: bool, n: nat, peer: Peer) returns (action: Action, stillOpen: bool)
    requires open == OpenBefore(n, peer)
    ensures action == ActionOf(n, peer)
    ensures stillOpen == OpenBefore(n + 1, peer)
  {
    if !open && peer.refuses(n).Some? {
      var error := peer.refuses(n).value;
      return if IsAuthenticationFailure(error) then Final(Err(error)) else Again(error), false;
    }
    action := ReplyAction(peer.reply(n));
    stillOpen := !(peer.reply(n).Err? && IsRetriableTransport(peer.reply(n).error));
  }

  function Min(a: int, b: int): int {
    if a <= b then a else b
  }

  function Pow2(n: nat): nat {
    if n == 0 then 1 else 2 * Pow2(n - 1)
  }

  /** The wait after attempt `n`: the initial backoff doubled `n` times, up to the maximum. Only the first wait is not
      cut, and resolved settings have the initial backoff below the maximum. */
  function Backoff(n: nat, policy: Policy): int {
    if n == 0 then policy.initial else Min(policy.initial * Pow2(n), policy.max)
  }

  /** Doubling the last wait and cutting it at the maximum, as the loop does, gives the next one. */
  lemma BackoffDoubles(n: nat, policy: Policy)
    ensures Min(Backoff(n, policy) * 2, policy.max) == Backoff(n + 1, policy)
  {
    var x := policy.initial * Pow2(n);
    assert policy.initial * Pow2(n + 1) == x * 2;
  }

  /** Attempt `n` is followed by another one, unless the deadline passes. */
  predicate GoesOn(n: nat, peer: Peer, policy: Policy) {
    peer.startsAt(n) < policy.deadline && peer.inTime(n) && ActionOf(n, peer).Again? && n < policy.maxRetries
  }

  /** The result of the call when the attempts before `n` all went on. */
  function ResultAt(n: nat, peer: Peer, policy: Policy): Option<Result<seq<Group>, KafkaError>> {
    if peer.startsAt(n) >= policy.deadline then Some(Err(TimeoutError(n)))
    else if !peer.inTime(n) then Some(Err(TimeoutError(n + 1)))
    else
      match ActionOf(n, peer)
      case Final(Ok(groups)) => Some(Ok(groups))
      case Final(Err(error)) => Some(Err(GroupsKafkaError(error)))
      case Again(_) => if n < policy.maxRetries then None else Some(Err(TimeoutError(n + 1)))
  }

  /** The calls to one broker. There are at most `maxRetries + 1` attempts. Each wait ends when the doubling backoff
      ends, or at the deadline. Every attempt but the last went on, and the last gives the result. */
  method ListOnBroker(peer: Peer, policy: Policy)
    returns (result: Result<seq<Group>, KafkaError>, attempts: nat, waits: seq<int>)
    ensures attempts <= policy.maxRetries + 1
    ensures forall k | 0 <= k < |waits| :: waits[k] == Min(policy.deadline, peer.endsAt(k) + Backoff(k, policy))
    ensures forall k | 0 <= k < |waits| :: GoesOn(k, peer, policy)
    ensures ResultAt(|waits|, peer, policy) == Some(result)
    ensures |waits| <= attempts <= |waits| + 1
  {
    var backoff, open := policy.initial, false;
    attempts, waits := 0, [];
    while peer.startsAt(attempts) < policy.deadline
      invariant attempts == |waits| <= policy.maxRetries
      invariant backoff == Backoff(attempts, policy) && open == OpenBefore(attempts, peer)
      invariant forall k | 0 <= k < |waits| :: waits[k] == Min(policy.deadline, peer.endsAt(k) + Backoff(k, policy))
      invariant forall k | 0 <= k < |waits| :: GoesOn(k, peer, policy)
      decreases policy.maxRetries - attempts
    {
      var n := attempts;
      attempts := attempts + 1;
      var action;
      action, open := Attempt(open, n, peer);
      if !peer.inTime(n) {
        return Err(TimeoutError(attempts)), attempts, waits;
      }
      match action {
        case Final(Ok(groups)) => return Ok(groups), attempts, waits;
        case Final(Err(error)) => return Err(GroupsKafkaError(error)), attempts, waits;
        case Again(_) =>
      }
      if attempts > policy.maxRetries {
        return Err(TimeoutError(attempts)), attempts, waits;
      }
      waits := waits + [Min(policy.deadline, peer.endsAt(n) + backoff)];
      BackoffDoubles(n, policy);
      backoff := Min(backoff * 2, policy.max);
    }
    result := Err(TimeoutError(attempts));
  }

  /** Groups come only from a reply without an error code. */
  lemma GroupsComeFromAGoodReply(n: nat, peer: Peer, policy: Policy, groups: seq<Group>)
    requires ResultAt(n, peer, policy) == Some(Ok(groups))
    ensures peer.inTime(n) && peer.reply(n) == Ok(Reply(0, groups)) && peer.startsAt(n) < policy.deadline
  {
  }

  /** The reply is lost: by a timeout, a disconnect, or an input or output error. */
  predicate IsLost(reply: Result<Reply, ClientError>) {
    reply.Err? && (reply.error.Timeout? || reply.error.Disconnected? || reply.error.Io?)
  }

  /** Attempt `m` could dial, and no reply since was lost. */
  ghost predicate OpenSince(m: nat, n: nat, peer: Peer) {
    m < n && peer.refuses(m).None? && forall k | m <= k < n :: !IsLost(peer.reply(k))
  }

  /** A connection is kept until a reply over it is lost, and dialled again only then. */
  lemma {:induction false} OpenExactlyWhen(n: nat, peer: Peer)
    ensures OpenBefore(n, peer) <==> exists m: nat :: OpenSince(m, n, peer)
  {
    if n > 0 {
      OpenExactlyWhen(n - 1, peer);
      if OpenBefore(n, peer) {
        if OpenBefore(n - 1, peer) {
          var m: nat :| OpenSince(m, n - 1, peer);
          assert OpenSince(m, n, peer);
        } else {
          assert OpenSince(n - 1, n, peer);
        }
      }
      if m: nat :| OpenSince(m, n, peer) && m < n - 1 {
        assert OpenSince(m, n - 1, peer);
      }
    }
  }

  /** Attempt `n` dials, and the broker does not let it. */
  ghost predicate FailsToDial(n: nat, peer: Peer) {
    (forall m: nat :: !OpenSince(m, n, peer)) && peer.refuses(n).Some?
  }

  /** Attempt `n` is to be made again: a dial that fails without a rejection, a lost reply, or a reply with the code of
      a coordinator that is loading (14) or not available (15). */
  ghost predicate Troubled(n: nat, peer: Peer) {
    if FailsToDial(n, peer) then !IsAuthenticationFailure(peer.refuses(n).value)
    else
      match peer.reply(n)
      case Ok(reply) => reply.code in {14, 15}
      case Err(_) => IsLost(peer.reply(n))
  }

  lemma ActionByReply(n: nat, peer: Peer)
    ensures ActionOf(n, peer).Again? <==> Troubled(n, peer)
    ensures FailsToDial(n, peer) <==> !OpenBefore(n, peer) && peer.refuses(n).Some?
  {
    OpenExactlyWhen(n, peer);
  }

  ghost predicate InTime(n: nat, peer: Peer, policy: Policy) {
    peer.startsAt(n) < policy.deadline && peer.inTime(n)
  }

  /** Every attempt before `n` was made in time, was troubled, and had a retry left. */
  ghost predicate Reached(n: nat, peer: Peer, policy: Policy) {
    forall k | 0 <= k < n :: InTime(k, peer, policy) && Troubled(k, peer) && k < policy.maxRetries
  }

  lemma ReachedGoesOn(n: nat, peer: Peer, policy: Policy)
    ensures Reached(n, peer, policy) <==> forall k | 0 <= k < n :: GoesOn(k, peer, policy)
  {
    forall k | 0 <= k < n
      ensures GoesOn(k, peer, policy) <==> InTime(k, peer, policy) && Troubled(k, peer) && k < policy.maxRetries
    {
      ActionByReply(k, peer);
    }
  }

  /** What the first attempt that is not made again gives: its groups, or its error, whatever the attempts before it
      were. */
  ghost predicate Concludes(n: nat, peer: Peer, policy: Policy, result: Result<seq<Group>, KafkaError>) {
    if FailsToDial(n, peer) then result == Err(GroupsKafkaError(peer.refuses(n).value))
    else
      match peer.reply(n)
      case Ok(Reply(code, groups)) =>
        result == if code == 0 then Ok(groups) else Err(KafkaError(code, FromBroker(None)))
      case Err(error) => result == Err(GroupsKafkaError(Transport(error)))
  }

  /** The first attempt that is not troubled gives the result; a troubled one without a retry left, and one that is not
      in time, give the timeout with the attempts made so far. */
  lemma FirstConclusionCounts(n: nat, peer: Peer, policy: Policy, result: Result<seq<Group>, KafkaError>)
    requires Reached(n, peer, policy)
    requires if peer.startsAt(n) >= policy.deadline then result == Err(TimeoutError(n))
             else if !peer.inTime(n) then result == Err(TimeoutError(n + 1))
             else if Troubled(n, peer) then n >= policy.maxRetries && result == Err(TimeoutError(n + 1))
             else Concludes(n, peer, policy, result)
    ensures EndsWith(peer, policy, result)
  {
    ReachedGoesOn(n, peer, policy);
    ActionByReply(n, peer);
    assert ResultAt(n, peer, policy) == Some(result);
  }

  // ----- the brokers of the cluster -----

  /** The first row of each node id. */
  function FirstRows(rows: seq<NodeRow>): seq<NodeRow> {
    if rows == [] then []
    else
      var rest, row := FirstRows(rows[..|rows| - 1]), rows[|rows| - 1];
      if row.nodeId in IdsOf(rows[..|rows| - 1]) then rest else rest + [row]
  }

  function IdsOf(rows: seq<NodeRow>): set<int> {
    set row | row in rows :: row.nodeId
  }

  /** Keeps each broker once. */
  method RetainDistinct(rows: seq<NodeRow>) returns (brokers: seq<NodeRow>)
    ensures brokers == FirstRows(rows)
  {
    var seen: set<int> := {};
    brokers := [];
    for i := 0 to |rows|
      invariant seen == IdsOf(rows[..i]) && brokers == FirstRows(rows[..i])
    {
      assert rows[..i + 1][..i] == rows[..i] && rows[..i + 1] == rows[..i] + [rows[i]];
      if rows[i].nodeId !in seen {
        brokers := brokers + [rows[i]];
      }
      seen := seen + {rows[i].nodeId};
    }
    assert rows[..|rows|] == rows;
  }

  lemma IdsGrow(rows: seq<NodeRow>, row: NodeRow)
    ensures IdsOf(rows + [row]) == IdsOf(rows) + {row.nodeId}
  {
    assert row in rows + [row];
    forall id | id in IdsOf(rows) ensures id in IdsOf(rows + [row]) {
      var r :| r in rows && r.nodeId == id;
      assert r in rows + [row];
    }
  }

  /** The brokers to ask have distinct ids, and every id of the metadata is asked. */
  lemma {:induction false} FirstRowsAreDistinct(rows: seq<NodeRow>)
    ensures IdsOf(FirstRows(rows)) == IdsOf(rows)
    ensures forall i, j | 0 <= i < j < |FirstRows(rows)| :: FirstRows(rows)[i].nodeId != FirstRows(rows)[j].nodeId
    ensures forall row | row in FirstRows(rows) :: row in rows
  {
    if rows != [] {
      var front, row := rows[..|rows| - 1], rows[|rows| - 1];
      assert rows == front + [row];
      FirstRowsAreDistinct(front);
      var rest := FirstRows(front);
      IdsGrow(front, row);
      IdsGrow(rest, row);
      assert forall i | 0 <= i < |rest| :: rest[i].nodeId in IdsOf(rest);
    }
  }

  /** Row `i` is the first of its node id. */
  ghost predicate IsFirst(rows: seq<NodeRow>, i: int)
    requires 0 <= i < |rows|
  {
    forall j | 0 <= j < i :: rows[j].nodeId != rows[i].nodeId
  }

  ghost predicate FirstIn(rows: seq<NodeRow>, row: NodeRow) {
    exists i | 0 <= i < |rows| :: rows[i] == row && IsFirst(rows, i)
  }

  lemma FirstInNext(rows: seq<NodeRow>, last: NodeRow, row: NodeRow)
    ensures FirstIn(rows + [last], row) <==> FirstIn(rows, row) || (row == last && last.nodeId !in IdsOf(rows))
  {
    var more, n := rows + [last], |rows|;
    forall i | 0 <= i < n ensures IsFirst(rows, i) <==> IsFirst(more, i) {
      assert forall j | 0 <= j <= i :: more[j] == rows[j];
    }
    assert IsFirst(more, n) <==> last.nodeId !in IdsOf(rows) by {
      assert forall j | 0 <= j < n :: more[j] == rows[j] && rows[j] in rows;
    }
  }

  /** Of several rows of one id, the first is the one that is asked. */
  lemma {:induction false} FirstRowsAreFirst(rows: seq<NodeRow>, row: NodeRow)
    ensures row in FirstRows(rows) <==> FirstIn(rows, row)
  {
    if rows != [] {
      var front, last := rows[..|rows| - 1], rows[|rows| - 1];
      assert front + [last] == rows;
      FirstRowsAreFirst(front, row);
      FirstInNext(front, last, row);
    }
  }

  // ----- the merge -----

  datatype Failure = Failure(node: NodeRow, error: KafkaError)

  type Answers = seq<Result<seq<Group>, KafkaError>>

  /** The groups with a wanted protocol type. */
  function KeptOf(groups: seq<Group>, protocolTypes: set<string>): (kept: seq<Group>)
    ensures forall g :: g in kept <==> g in groups && Passes(protocolTypes, g.protocolType)
  {
    if groups == [] then []
    else
      var rest, group := KeptOf(groups[..|groups| - 1], protocolTypes), groups[|groups| - 1];
      if Passes(protocolTypes, group.protocolType) then rest + [group] else rest
  }

  /** The groups that the answers list and the client keeps, in the order of the brokers. */
  function KeptGroups(answers: Answers, protocolTypes: set<string>): seq<Group> {
    if answers == [] then []
    else
      KeptGroups(answers[..|answers| - 1], protocolTypes) +
      if answers[|answers| - 1].Ok? then KeptOf(answers[|answers| - 1].value, protocolTypes)
      else []
  }

  /** The last listing of each id counts. */
  function LastListing(groups: seq<Group>): map<string, Group> {
    if groups == [] then map[] else LastListing(groups[..|groups| - 1])[groups[|groups| - 1].id := groups[|groups| - 1]]
  }

  function FailuresOf(brokers: seq<NodeRow>, answers: Answers): seq<Failure>
    requires |brokers| == |answers|
  {
    if answers == [] then []
    else
      var n := |answers| - 1;
      FailuresOf(brokers[..n], answers[..n]) + if answers[n].Err? then [Failure(brokers[n], answers[n].error)] else []
  }

  lemma ListsMore(before: seq<Group>, kept: seq<Group>, group: Group)
    ensures LastListing(before + (kept + [group])) == LastListing(before + kept)[group.id := group]
  {
    var all := before + kept + [group];
    assert before + (kept + [group]) == all && all[..|all| - 1] == before + kept;
  }

  method InsertListings(start: map<string, Group>, groups: seq<Group>, protocolTypes: set<string>,
                        ghost before: seq<Group>)
    returns (listings: map<string, Group>)
    requires start == LastListing(before)
    ensures listings == LastListing(before + KeptOf(groups, protocolTypes))
  {
    listings := start;
    assert before + [] == before;
    for i := 0 to |groups|
      invariant listings == LastListing(before + KeptOf(groups[..i], protocolTypes))
    {
      assert groups[..i + 1][..i] == groups[..i];
      if Passes(protocolTypes, groups[i].protocolType) {
        ListsMore(before, KeptOf(groups[..i], protocolTypes), groups[i]);
        listings := listings[groups[i].id := groups[i]];
      }
    }
    assert groups[..|groups|] == groups;
  }

  /** Merges the answers of the brokers: one listing for each id, in the order of the ids and from the last broker
      that lists it, and one failure for each broker that failed, in the order of the brokers. */
  method MergeAnswers(brokers: seq<NodeRow>, answers: Answers, protocolTypes: set<string>)
    returns (valid: seq<Group>, errors: seq<Failure>)
    requires |brokers| == |answers|
    ensures errors == FailuresOf(brokers, answers)
    ensures var listings := LastListing(KeptGroups(answers, protocolTypes));
            && |valid| == |SortedNames(listings.Keys)|
            && forall i | 0 <= i < |valid| ::
                 SortedNames(listings.Keys)[i] in listings && valid[i] == listings[SortedNames(listings.Keys)[i]]
  {
    var listings: map<string, Group> := map[];
    errors := [];
    for i := 0 to |brokers|
      invariant listings == LastListing(KeptGroups(answers[..i], protocolTypes))
      invariant errors == FailuresOf(brokers[..i], answers[..i])
    {
      assert answers[..i + 1][..i] == answers[..i] && brokers[..i + 1][..i] == brokers[..i];
      ghost var before := KeptGroups(answers[..i], protocolTypes);
      match answers[i]
      case Ok(groups) => listings := InsertListings(listings, groups, protocolTypes, before);
      case Err(error) =>
        assert KeptGroups(answers[..i + 1], protocolTypes) == before;
        errors := errors + [Failure(brokers[i], error)];
    }
    assert answers[..|answers|] == answers && brokers[..|brokers|] == brokers;
    var ids := SortedNames(listings.Keys);
    assert forall i | 0 <= i < |ids| :: ids[i] in ids;
    valid := seq(|ids|, i requires 0 <= i < |ids| => listings[ids[i]]);
  }

  /** An id is listed exactly when some kept group has it, with the last such group. */
  lemma {:induction false} LastListingCounts(groups: seq<Group>, id: string)
    ensures id in LastListing(groups) <==> exists i | 0 <= i < |groups| :: groups[i].id == id
    ensures id in LastListing(groups) ==>
              exists i | 0 <= i < |groups| :: groups[i].id == id && LastListing(groups)[id] == groups[i] &&
                                              forall j | i < j < |groups| :: groups[j].id != id
  {
    if groups != [] {
      var n := |groups| - 1;
      LastListingCounts(groups[..n], id);
      if groups[n].id != id && id in LastListing(groups[..n]) {
        var i :| 0 <= i < n && groups[..n][i].id == id && LastListing(groups[..n])[id] == groups[..n][i] &&
                 forall j | i < j < n :: groups[..n][j].id != id;
        assert groups[i].id == id;
        forall j | i < j < |groups| ensures groups[j].id != id {
          if j < n { assert groups[..n][j].id != id; }
        }
      }
    }
  }

  /** A group is kept exactly when an answer lists it with a wanted protocol type. */
  lemma {:induction false} KeptGroupsCount(answers: Answers, protocolTypes: set<string>, group: Group)
    ensures group in KeptGroups(answers, protocolTypes) <==>
            && Passes(protocolTypes, group.protocolType)
            && exists i | 0 <= i < |answers| :: answers[i].Ok? && group in answers[i].value
  {
    if answers != [] {
      var n := |answers| - 1;
      KeptGroupsCount(answers[..n], protocolTypes, group);
      if i :| 0 <= i < |answers| && answers[i].Ok? && group in answers[i].value && i < n {
        assert answers[..n][i].Ok?;
      }
    }
  }

  /** Each broker either answered or stands in the failures, once. */
  lemma {:induction false} FailuresCount(brokers: seq<NodeRow>, answers: Answers, failure: Failure)
    requires |brokers| == |answers| && NoDuplicates(brokers)
    ensures failure in FailuresOf(brokers, answers) <==>
            exists i | 0 <= i < |answers| :: brokers[i] == failure.node && answers[i] == Err(failure.error)
    ensures NoDuplicates(FailuresOf(brokers, answers))
  {
    if answers != [] {
      var n := |answers| - 1;
      var front := FailuresOf(brokers[..n], answers[..n]);
      FailuresCount(brokers[..n], answers[..n], failure);
      if i :| 0 <= i < |answers| && brokers[i] == failure.node && answers[i] == Err(failure.error) && i < n {
        assert brokers[..n][i] == failure.node && answers[..n][i] == Err(failure.error);
      }
      forall f | f in front ensures f.node != brokers[n] {
        FailuresCount(brokers[..n], answers[..n], f);
      }
    }
  }

  function ListedBy(version: int, options: Options, groups: seq<Group>): seq<Group> {
    Filter((g: Group) => ListedAt(version, options, g), groups)
  }

  function WantedOf(options: Options, groups: seq<Group>): seq<Group> {
    Filter((g: Group) => Wanted(options, g), groups)
  }

  /** A broker that holds `groups` answers at the version that the client negotiates, with the floor of its filters, and
      below v5 it holds only classic groups. */
  ghost predicate AnswersFrom(answer: Result<seq<Group>, KafkaError>, api: R.Api, connection: R.Connection,
                              options: Options, groups: seq<Group>)
  {
    answer.Ok? ==>
      var version := R.NegotiatedAtLeast(api, connection, Some(MinVersion(options, api.oldest)));
      && version.Ok? && answer.value == ListedBy(version.value, options, groups)
      && forall g | g in groups :: CanHold(version.value, g)
  }

  lemma {:induction false} SameFilter(p: Group -> bool, q: Group -> bool, groups: seq<Group>)
    requires forall g | g in groups :: p(g) == q(g)
    ensures Filter(p, groups) == Filter(q, groups)
  {
    if groups != [] { SameFilter(p, q, groups[..|groups| - 1]); }
  }

  /** Whatever version the client negotiates, the answer of a broker is the full filtering of what it holds. */
  lemma AnswerIsTheFiltering(answer: Result<seq<Group>, KafkaError>, api: R.Api, connection: R.Connection,
                             options: Options, groups: seq<Group>)
    requires AnswersFrom(answer, api, connection, options, groups) && answer.Ok?
    ensures answer.value == WantedOf(options, groups)
  {
    var version := R.NegotiatedAtLeast(api, connection, Some(MinVersion(options, api.oldest))).value;
    AllowedVersionsKeepMeaning(version, options, api.oldest);
    SameFilter((g: Group) => ListedAt(version, options, g), (g: Group) => Wanted(options, g), groups);
  }

  /** The answers as they would be if every broker that answered filtered in full. */
  function FullAnswers(answers: Answers, holdings: seq<seq<Group>>, options: Options): (full: Answers)
    requires |answers| == |holdings|
    ensures |full| == |answers|
    ensures forall i | 0 <= i < |full| ::
              full[i] == if answers[i].Ok? then Ok(WantedOf(options, holdings[i])) else answers[i]
  {
    seq(|answers|, i requires 0 <= i < |answers| =>
      if answers[i].Ok? then Ok(WantedOf(options, holdings[i])) else answers[i])
  }

  /** The merged listing is the one made from the full filtering, whatever versions the client negotiates. So an id is
      listed exactly when a broker that answered holds a wanted group with that id. */
  lemma MergedListingIsTheFiltering(answers: Answers, api: R.Api, connections: seq<R.Connection>,
                                    holdings: seq<seq<Group>>, options: Options, id: string)
    requires |answers| == |connections| == |holdings|
    requires forall i | 0 <= i < |answers| :: AnswersFrom(answers[i], api, connections[i], options, holdings[i])
    ensures answers == FullAnswers(answers, holdings, options)
    ensures LastListing(KeptGroups(answers, options.protocolTypes)) ==
            LastListing(KeptGroups(FullAnswers(answers, holdings, options), options.protocolTypes))
    ensures id in LastListing(KeptGroups(answers, options.protocolTypes)) <==>
            exists i, g | 0 <= i < |answers| && answers[i].Ok? && g in holdings[i] ::
              g.id == id && Wanted(options, g) && Passes(options.protocolTypes, g.protocolType)
  {
    forall i | 0 <= i < |answers| && answers[i].Ok? ensures answers[i].value == WantedOf(options, holdings[i]) {
      AnswerIsTheFiltering(answers[i], api, connections[i], options, holdings[i]);
    }
    assert answers == FullAnswers(answers, holdings, options);
    ListedIds(answers, holdings, options, id);
  }

  lemma ListedIds(answers: Answers, holdings: seq<seq<Group>>, options: Options, id: string)
    requires |answers| == |holdings|
    requires forall i | 0 <= i < |answers| && answers[i].Ok? :: answers[i].value == WantedOf(options, holdings[i])
    ensures id in LastListing(KeptGroups(answers, options.protocolTypes)) <==>
            exists i, g | 0 <= i < |answers| && answers[i].Ok? && g in holdings[i] ::
              g.id == id && Wanted(options, g) && Passes(options.protocolTypes, g.protocolType)
  {
    var kept := KeptGroups(answers, options.protocolTypes);
    LastListingCounts(kept, id);
    if id in LastListing(kept) {
      var j :| 0 <= j < |kept| && kept[j].id == id;
      KeptGroupsCount(answers, options.protocolTypes, kept[j]);
      var i :| 0 <= i < |answers| && answers[i].Ok? && kept[j] in answers[i].value;
      assert kept[j] in holdings[i] && Wanted(options, kept[j]);
    }
    if i, g :| 0 <= i < |answers| && answers[i].Ok? && g in holdings[i] &&
               g.id == id && Wanted(options, g) && Passes(options.protocolTypes, g.protocolType) {
      assert g in answers[i].value;
      KeptGroupsCount(answers, options.protocolTypes, g);
      var j :| 0 <= j < |kept| && kept[j] == g;
    }
  }

  // ----- the whole call -----

  /** The calls to a broker end with `result`: some attempts went on, and the one after them ended the call. */
  ghost predicate EndsWith(peer: Peer, policy: Policy, result: Result<seq<Group>, KafkaError>) {
    exists n: nat :: ResultAt(n, peer, policy) == Some(result) && forall k | 0 <= k < n :: GoesOn(k, peer, policy)
  }

  /** The calls to a broker end in one way only. */
  lemma EndsOnce(peer: Peer, policy: Policy, a: Result<seq<Group>, KafkaError>, b: Result<seq<Group>, KafkaError>)
    requires EndsWith(peer, policy, a) && EndsWith(peer, policy, b)
    ensures a == b
  {
    var m: nat :| ResultAt(m, peer, policy) == Some(a) && forall k | 0 <= k < m :: GoesOn(k, peer, policy);
    var n: nat :| ResultAt(n, peer, policy) == Some(b) && forall k | 0 <= k < n :: GoesOn(k, peer, policy);
    assert m < n ==> GoesOn(m, peer, policy);
    assert n < m ==> GoesOn(n, peer, policy);
  }

  method AskEach(brokers: seq<NodeRow>, peers: NodeRow -> Peer, policy: Policy) returns (answers: Answers)
    ensures |answers| == |brokers|
    ensures forall i | 0 <= i < |brokers| :: EndsWith(peers(brokers[i]), policy, answers[i])
  {
    answers := [];
    for i := 0 to |brokers|
      invariant |answers| == i
      invariant forall j | 0 <= j < i :: EndsWith(peers(brokers[j]), policy, answers[j])
    {
      var result, attempts, waits := ListOnBroker(peers(brokers[i]), policy);
      answers := answers + [result];
    }
  }

  /** Lists the groups of the cluster. Every distinct broker of the metadata is asked. A broker whose calls end with
      groups contributes its kept listings, one for each id and in the order of the ids, where the last broker that
      keeps a group with the id wins; and one whose calls fail stands in the errors once, in the order of the metadata,
      and no other does. */
  method ListAllGroups(rows: seq<NodeRow>, peers: NodeRow -> Peer, policy: Policy, options: Options)
    returns (valid: seq<Group>, errors: seq<Failure>)
    ensures forall g | g in valid ::
              exists p | 0 <= p < |FirstRows(rows)| ::
                WinsAt(p, FirstRows(rows), peers, policy, options.protocolTypes, g)
    ensures forall row, g | row in FirstRows(rows) && Contributes(peers(row), policy, g) &&
                            Passes(options.protocolTypes, g.protocolType) ::
              ListsId(valid, g.id)
    ensures forall f :: f in errors <==> f.node in FirstRows(rows) && EndsWith(peers(f.node), policy, Err(f.error))
    ensures NoDuplicates(errors) && InOrder(errors, FirstRows(rows))
    ensures forall i, j | 0 <= i < j < |valid| :: NameLess(valid[i].id, valid[j].id)
  {
    var brokers := RetainDistinct(rows);
    FirstRowsAreDistinct(rows);
    var answers := AskEach(brokers, peers, policy);
    valid, errors := MergeAnswers(brokers, answers, options.protocolTypes);
    forall f ensures f in errors <==> f.node in brokers && EndsWith(peers(f.node), policy, Err(f.error)) {
      ErrorsEnd(brokers, answers, peers, policy, f);
    }
    FailuresCount(brokers, answers, Failure(NodeRow(0, "", 0), KafkaError(0, FromBroker(None))));
    FailuresAscend(brokers, answers);
    ListingsAscend(valid, LastListing(KeptGroups(answers, options.protocolTypes)), answers, options.protocolTypes);
    forall g | g in valid
      ensures exists p | 0 <= p < |brokers| :: WinsAt(p, brokers, peers, policy, options.protocolTypes, g)
    {
      ListingsWin(brokers, answers, peers, policy, options.protocolTypes, g);
    }
    forall row, g | row in brokers && Contributes(peers(row), policy, g) &&
      Passes(options.protocolTypes, g.protocolType)
      ensures ListsId(valid, g.id)
    {
      ContributionsAreListed(brokers, answers, peers, policy, options.protocolTypes, row, g);
      IdIsListed(valid, LastListing(KeptGroups(answers, options.protocolTypes)), g.id);
    }
  }

  ghost predicate ListsId(valid: seq<Group>, id: string) {
    exists i | 0 <= i < |valid| :: valid[i].id == id
  }

  lemma IdIsListed(valid: seq<Group>, listings: map<string, Group>, id: string)
    requires |valid| == |SortedNames(listings.Keys)| && id in listings
    requires forall i | 0 <= i < |valid| :: valid[i].id == SortedNames(listings.Keys)[i]
    ensures ListsId(valid, id)
  {
    var ids := SortedNames(listings.Keys);
    var i :| 0 <= i < |ids| && ids[i] == id;
    assert valid[i].id == id;
  }

  lemma ContributionsAreListed(brokers: seq<NodeRow>, answers: Answers, peers: NodeRow -> Peer, policy: Policy,
                               protocolTypes: set<string>, row: NodeRow, g: Group)
    requires |brokers| == |answers| && row in brokers && Contributes(peers(row), policy, g) &&
             Passes(protocolTypes, g.protocolType)
    requires forall i | 0 <= i < |brokers| :: EndsWith(peers(brokers[i]), policy, answers[i])
    ensures g.id in LastListing(KeptGroups(answers, protocolTypes))
  {
    var i :| 0 <= i < |brokers| && brokers[i] == row;
    var groups :| EndsWith(peers(row), policy, Ok(groups)) && g in groups;
    EndsOnce(peers(row), policy, answers[i], Ok(groups));
    KeptGroupsCount(answers, protocolTypes, g);
    var kept := KeptGroups(answers, protocolTypes);
    var j :| 0 <= j < |kept| && kept[j] == g;
    LastListingCounts(kept, g.id);
  }

  /** The calls to a broker end with groups, and `g` is one of them. */
  ghost predicate Contributes(peer: Peer, policy: Policy, g: Group) {
    exists groups :: EndsWith(peer, policy, Ok(groups)) && g in groups
  }

  lemma ErrorsEnd(brokers: seq<NodeRow>, answers: Answers, peers: NodeRow -> Peer, policy: Policy, f: Failure)
    requires |brokers| == |answers| && NoDuplicates(brokers)
    requires forall i | 0 <= i < |brokers| :: EndsWith(peers(brokers[i]), policy, answers[i])
    ensures f in FailuresOf(brokers, answers) <==> f.node in brokers && EndsWith(peers(f.node), policy, Err(f.error))
  {
    FailuresCount(brokers, answers, f);
    if f.node in brokers && EndsWith(peers(f.node), policy, Err(f.error)) {
      var i :| 0 <= i < |brokers| && brokers[i] == f.node;
      EndsOnce(peers(f.node), policy, answers[i], Err(f.error));
    }
  }

  lemma ListingsAscend(valid: seq<Group>, listings: map<string, Group>, answers: Answers, protocolTypes: set<string>)
    requires listings == LastListing(KeptGroups(answers, protocolTypes)) && |valid| == |SortedNames(listings.Keys)|
    requires forall i | 0 <= i < |valid| ::
               SortedNames(listings.Keys)[i] in listings && valid[i] == listings[SortedNames(listings.Keys)[i]]
    ensures forall i | 0 <= i < |valid| :: valid[i].id == SortedNames(listings.Keys)[i] && valid[i].id in listings
    ensures forall i | 0 <= i < |valid| :: valid[i] == listings[valid[i].id]
    ensures forall i, j | 0 <= i < j < |valid| :: NameLess(valid[i].id, valid[j].id)
  {
    var ids := SortedNames(listings.Keys);
    forall i | 0 <= i < |valid| ensures valid[i].id == ids[i] {
      LastListingCounts(KeptGroups(answers, protocolTypes), ids[i]);
    }
    SortedNamesAscend(listings.Keys);
  }

  // ----- the order of brokers -----

  /** The failures stand in the order of the brokers. */
  ghost predicate InOrder(failures: seq<Failure>, brokers: seq<NodeRow>) {
    forall i, j | 0 <= i < j < |failures| :: Precedes(failures[i].node, failures[j].node, brokers)
  }

  ghost predicate Precedes(a: NodeRow, b: NodeRow, brokers: seq<NodeRow>) {
    exists p, q | 0 <= p < q < |brokers| :: brokers[p] == a && brokers[q] == b
  }

  lemma {:induction false} FailuresAscend(brokers: seq<NodeRow>, answers: Answers)
    requires |brokers| == |answers| && NoDuplicates(brokers)
    ensures InOrder(FailuresOf(brokers, answers), brokers)
  {
    if answers != [] {
      var n := |answers| - 1;
      var front := FailuresOf(brokers[..n], answers[..n]);
      FailuresAscend(brokers[..n], answers[..n]);
      forall i, j | 0 <= i < j < |front| ensures Precedes(front[i].node, front[j].node, brokers) {
        assert Precedes(front[i].node, front[j].node, brokers[..n]);
        var p, q :| 0 <= p < q < n && brokers[..n][p] == front[i].node && brokers[..n][q] == front[j].node;
        assert brokers[p] == front[i].node && brokers[q] == front[j].node;
      }
      forall i | 0 <= i < |front| ensures Precedes(front[i].node, brokers[n], brokers) {
        FailuresCount(brokers[..n], answers[..n], front[i]);
        var p :| 0 <= p < n && brokers[..n][p] == front[i].node;
        assert brokers[p] == front[i].node;
      }
    }
  }

  ghost predicate Keeps(groups: seq<Group>, protocolTypes: set<string>, id: string) {
    exists g | g in groups :: g.id == id && Passes(protocolTypes, g.protocolType)
  }

  /** `g` is the last of `groups` with its id that the client keeps. */
  ghost predicate LastKept(groups: seq<Group>, protocolTypes: set<string>, g: Group) {
    exists m | 0 <= m < |groups| ::
      groups[m] == g && Passes(protocolTypes, g.protocolType) && NoneAfter(groups, protocolTypes, m, g.id)
  }

  ghost predicate NoneAfter(groups: seq<Group>, protocolTypes: set<string>, m: nat, id: string) {
    forall k | m < k < |groups| && groups[k].id == id :: !Passes(protocolTypes, groups[k].protocolType)
  }

  lemma KeepsMore(groups: seq<Group>, protocolTypes: set<string>, id: string, n: nat)
    requires n == |groups| - 1
    ensures Keeps(groups, protocolTypes, id) <==>
            || Keeps(groups[..n], protocolTypes, id)
            || (groups[n].id == id && Passes(protocolTypes, groups[n].protocolType))
  {
    if Keeps(groups[..n], protocolTypes, id) {
      var g :| g in groups[..n] && g.id == id && Passes(protocolTypes, g.protocolType);
      assert g in groups;
    }
    assert groups[n] in groups;
  }

  lemma StillNone(groups: seq<Group>, protocolTypes: set<string>, m: nat, id: string, n: nat)
    requires n == |groups| - 1 && m < n && NoneAfter(groups[..n], protocolTypes, m, id)
    requires groups[n].id == id ==> !Passes(protocolTypes, groups[n].protocolType)
    ensures NoneAfter(groups, protocolTypes, m, id)
  {
    forall k | m < k < |groups| && groups[k].id == id ensures !Passes(protocolTypes, groups[k].protocolType) {
      if k < n { assert groups[..n][k] == groups[k]; }
    }
  }

  lemma StillLast(groups: seq<Group>, protocolTypes: set<string>, g: Group, n: nat)
    requires n == |groups| - 1 && LastKept(groups[..n], protocolTypes, g)
    requires groups[n].id == g.id ==> !Passes(protocolTypes, groups[n].protocolType)
    ensures LastKept(groups, protocolTypes, g)
  {
    var m :| 0 <= m < n && groups[..n][m] == g && Passes(protocolTypes, g.protocolType) &&
             NoneAfter(groups[..n], protocolTypes, m, g.id);
    StillNone(groups, protocolTypes, m, g.id, n);
    assert groups[m] == g;
  }

  lemma ListingMore(groups: seq<Group>, protocolTypes: set<string>, n: nat)
    requires n == |groups| - 1
    ensures LastListing(KeptOf(groups, protocolTypes)) ==
            if Passes(protocolTypes, groups[n].protocolType) then
              LastListing(KeptOf(groups[..n], protocolTypes))[groups[n].id := groups[n]]
            else LastListing(KeptOf(groups[..n], protocolTypes))
  {
    var kept := KeptOf(groups[..n], protocolTypes);
    assert (kept + [groups[n]])[..|kept|] == kept;
  }

  /** The last group that the client keeps of an answer is the listing that the answer makes. */
  lemma {:induction false} LastOfAnswer(groups: seq<Group>, protocolTypes: set<string>, id: string)
    ensures id in LastListing(KeptOf(groups, protocolTypes)) <==> Keeps(groups, protocolTypes, id)
    ensures id in LastListing(KeptOf(groups, protocolTypes)) ==>
              LastListing(KeptOf(groups, protocolTypes))[id].id == id &&
              LastKept(groups, protocolTypes, LastListing(KeptOf(groups, protocolTypes))[id])
  {
    if groups != [] {
      var n := |groups| - 1;
      LastOfAnswer(groups[..n], protocolTypes, id);
      KeepsMore(groups, protocolTypes, id, n);
      ListingMore(groups, protocolTypes, n);
      var before := LastListing(KeptOf(groups[..n], protocolTypes));
      if groups[n].id == id && Passes(protocolTypes, groups[n].protocolType) {
        assert LastKept(groups, protocolTypes, groups[n]);
      } else if id in before {
        StillLast(groups, protocolTypes, before[id], n);
      }
    }
  }

  /** Of two lists one after the other, the second wins where it lists an id. */
  lemma {:induction false} LaterWins(a: seq<Group>, b: seq<Group>, id: string)
    ensures id in LastListing(a + b) <==> id in LastListing(a) || id in LastListing(b)
    ensures id in LastListing(b) ==> LastListing(a + b)[id] == LastListing(b)[id]
    ensures id in LastListing(a) && id !in LastListing(b) ==> LastListing(a + b)[id] == LastListing(a)[id]
  {
    if b == [] {
      assert a + b == a;
    } else {
      LaterWins(a, b[..|b| - 1], id);
      assert (a + b)[..|a + b| - 1] == a + b[..|b| - 1];
    }
  }

  /** The listing of an id is the last that the last answer keeping it makes. */
  ghost predicate Wins(p: nat, answers: Answers, protocolTypes: set<string>, g: Group)
    requires p < |answers|
  {
    && answers[p].Ok? && LastKept(answers[p].value, protocolTypes, g)
    && forall q | p < q < |answers| && answers[q].Ok? :: !Keeps(answers[q].value, protocolTypes, g.id)
  }

  lemma StillWins(p: nat, answers: Answers, n: nat, protocolTypes: set<string>, g: Group)
    requires n == |answers| - 1 && p < n && Wins(p, answers[..n], protocolTypes, g)
    requires answers[n].Ok? ==> !Keeps(answers[n].value, protocolTypes, g.id)
    ensures Wins(p, answers, protocolTypes, g)
  {
    assert forall q | p <= q < n :: answers[..n][q] == answers[q];
  }

  lemma KeptSplits(answers: Answers, n: nat, protocolTypes: set<string>, id: string)
    requires n == |answers| - 1
    ensures var before := LastListing(KeptGroups(answers[..n], protocolTypes));
            var all := LastListing(KeptGroups(answers, protocolTypes));
            && (answers[n].Ok? && Keeps(answers[n].value, protocolTypes, id) ==>
                  id in all && all[id].id == id && LastKept(answers[n].value, protocolTypes, all[id]))
            && (!(answers[n].Ok? && Keeps(answers[n].value, protocolTypes, id)) ==>
                  (id in all <==> id in before) && (id in all ==> all[id] == before[id]))
  {
    var before := KeptGroups(answers[..n], protocolTypes);
    if answers[n].Ok? {
      LaterWins(before, KeptOf(answers[n].value, protocolTypes), id);
      LastOfAnswer(answers[n].value, protocolTypes, id);
    } else {
      assert before + [] == before;
    }
  }

  lemma {:induction false} LastAnswerWins(answers: Answers, protocolTypes: set<string>, id: string)
    requires id in LastListing(KeptGroups(answers, protocolTypes))
    ensures exists p | 0 <= p < |answers| ::
              Wins(p, answers, protocolTypes, LastListing(KeptGroups(answers, protocolTypes))[id])
    ensures LastListing(KeptGroups(answers, protocolTypes))[id].id == id
  {
    var n := |answers| - 1;
    var g := LastListing(KeptGroups(answers, protocolTypes))[id];
    KeptSplits(answers, n, protocolTypes, id);
    if answers[n].Ok? && Keeps(answers[n].value, protocolTypes, id) {
      assert Wins(n, answers, protocolTypes, g);
    } else {
      LastAnswerWins(answers[..n], protocolTypes, id);
      var p :| 0 <= p < n && Wins(p, answers[..n], protocolTypes, g);
      StillWins(p, answers, n, protocolTypes, g);
    }
  }

  /** The calls to broker `p` end with a list whose last kept group with its id is `g`, and no later broker keeps that
      id. */
  ghost predicate WinsAt(p: nat, brokers: seq<NodeRow>, peers: NodeRow -> Peer, policy: Policy,
                         protocolTypes: set<string>, g: Group)
    requires p < |brokers|
  {
    && (exists groups :: EndsWith(peers(brokers[p]), policy, Ok(groups)) && LastKept(groups, protocolTypes, g))
    && forall q, groups | p < q < |brokers| && EndsWith(peers(brokers[q]), policy, Ok(groups)) ::
         !Keeps(groups, protocolTypes, g.id)
  }

  lemma ListingsWin(brokers: seq<NodeRow>, answers: Answers, peers: NodeRow -> Peer, policy: Policy,
                    protocolTypes: set<string>, g: Group)
    requires |brokers| == |answers|
    requires var listings := LastListing(KeptGroups(answers, protocolTypes)); g.id in listings && listings[g.id] == g
    requires forall i | 0 <= i < |brokers| :: EndsWith(peers(brokers[i]), policy, answers[i])
    ensures exists p | 0 <= p < |brokers| :: WinsAt(p, brokers, peers, policy, protocolTypes, g)
  {
    LastAnswerWins(answers, protocolTypes, g.id);
    var p :| 0 <= p < |answers| && Wins(p, answers, protocolTypes, g);
    assert EndsWith(peers(brokers[p]), policy, Ok(answers[p].value));
    forall q, groups | p < q < |brokers| && EndsWith(peers(brokers[q]), policy, Ok(groups))
      ensures !Keeps(groups, protocolTypes, g.id)
    {
      EndsOnce(peers(brokers[q]), policy, answers[q], Ok(groups));
    }
    assert WinsAt(p, brokers, peers, policy, protocolTypes, g);
  }
}
