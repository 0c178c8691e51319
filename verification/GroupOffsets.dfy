/** The offsets of a group: the commit request, and the reading of the fetch answer in both of its shapes. */
module GroupOffsets {
  import opened Base
  import opened Order
  import opened ByTopic

  type Offsets = map<PartitionKey, int>

  // ----- the commit request -----

  /** The offsets in the order of the map. */
  function RowsOfMap(offsets: Offsets): (rows: seq<Row<int>>)
    ensures |rows| == |SortedKeys(offsets.Keys)|
    ensures forall i | 0 <= i < |rows| ::
              rows[i].0 == SortedKeys(offsets.Keys)[i] && rows[i].0 in offsets && rows[i].1 == offsets[rows[i].0]
  {
    var keys := SortedKeys(offsets.Keys);
    assert forall i | 0 <= i < |keys| :: keys[i] in keys;
    seq(|keys|, i requires 0 <= i < |keys| => (keys[i], offsets[keys[i]]))
  }

  function CommitRequest(offsets: Offsets): seq<Topic<int>> {
    ByTopic.Grouped(RowsOfMap(offsets))
  }

  method BuildCommitRequest(offsets: Offsets) returns (topics: seq<Topic<int>>)
    ensures topics == CommitRequest(offsets)
  {
    topics := GroupByTopic(RowsOfMap(offsets));
  }

  /** The request holds each offset of the map once, and nothing else. */
  lemma CommitRequestIsTheMap(offsets: Offsets, key: PartitionKey, offset: int)
    ensures multiset(Flatten(CommitRequest(offsets))) == multiset(RowsOfMap(offsets))
    ensures (key, offset) in Flatten(CommitRequest(offsets)) <==> key in offsets && offsets[key] == offset
    ensures |Flatten(CommitRequest(offsets))| == |SortedKeys(offsets.Keys)|
  {
    var rows := RowsOfMap(offsets);
    FlattenGrouped(rows);
    SameMembers(Flatten(CommitRequest(offsets)), rows, (key, offset));
    assert |multiset(Flatten(CommitRequest(offsets)))| == |multiset(rows)|;
    if key in offsets {
      var keys := SortedKeys(offsets.Keys);
      var i :| 0 <= i < |keys| && keys[i] == key;
      assert rows[i] == (key, offsets[key]);
    }
  }

  lemma SameMembers<T>(p: seq<T>, q: seq<T>, x: T)
    requires multiset(p) == multiset(q)
    ensures x in p <==> x in q
  {
    assert x in multiset(p) <==> x in multiset(q);
  }

  // ----- the fetch answer -----

  datatype Stored = Stored(offset: int, code: int)

  datatype GroupEntry = GroupEntry(groupId: string, code: int, topics: seq<Topic<Stored>>)

  /** The group stands in `groups`, or with older versions at the top level. */
  datatype FetchResponse = FetchResponse(code: int, topics: seq<Topic<Stored>>, groups: seq<GroupEntry>)

  /** The code of the last entry of the group, and the rows of all its entries. */
  function EntriesOf(group: string, entries: seq<GroupEntry>): (int, seq<Row<Stored>>) {
    if entries == [] then (0, [])
    else
      var rest, entry := EntriesOf(group, entries[..|entries| - 1]), entries[|entries| - 1];
      if entry.groupId == group then (entry.code, rest.1 + Flatten(entry.topics)) else rest
  }

  function ReadGroup(group: string, response: FetchResponse): (int, seq<Row<Stored>>) {
    if response.groups == [] then (response.code, Flatten(response.topics)) else EntriesOf(group, response.groups)
  }

  predicate IsCommitted(stored: Stored) {
    stored.code == 0 && stored.offset >= 0
  }

  /** The committed offsets among the rows, where the last row of a partition counts. */
  function Committed(rows: seq<Row<Stored>>): Offsets {
    if rows == [] then map[]
    else
      var rest, row := Committed(rows[..|rows| - 1]), rows[|rows| - 1];
      if IsCommitted(row.1) then rest[row.0 := row.1.offset] else rest
  }

  function OffsetsOf(group: string, response: FetchResponse): Result<Offsets, AdminError> {
    var (code, rows) := ReadGroup(group, response);
    if code != 0 then Err(Broker(code, Some("group=" + group))) else Ok(Committed(rows))
  }

  method CollectGroup(group: string, entries: seq<GroupEntry>) returns (code: int, rows: seq<Row<Stored>>)
    ensures (code, rows) == EntriesOf(group, entries)
    ensures forall row :: row in rows <==> exists i | 0 <= i < |entries| :: EntryHolds(entries[i], group, row)
    ensures forall i | 0 <= i < |entries| && LastEntry(entries, group, i) :: code == entries[i].code
  {
    code, rows := 0, [];
    for i := 0 to |entries|
      invariant (code, rows) == EntriesOf(group, entries[..i])
    {
      assert entries[..i + 1][..i] == entries[..i];
      if entries[i].groupId == group {
        code, rows := entries[i].code, rows + Flatten(entries[i].topics);
      }
    }
    assert entries[..|entries|] == entries;
    forall row ensures row in rows <==> exists i | 0 <= i < |entries| :: EntryHolds(entries[i], group, row) {
      EntryRows(group, entries, row);
    }
    EntryCode(group, entries);
  }

  method CommittedOffsets(group: string, response: FetchResponse) returns (r: Result<Offsets, AdminError>)
    ensures r == OffsetsOf(group, response)
    ensures forall code :: r == Err(Broker(code, Some("group=" + group))) <==>
                           code != 0 && CodeFor(response, group, code)
  {
    forall code ensures OffsetsOf(group, response) == Err(Broker(code, Some("group=" + group))) <==>
                        code != 0 && CodeFor(response, group, code)
    {
      FailsWithTheGroupsCode(group, response, code);
    }
    var code, rows := response.code, Flatten(response.topics);
    if response.groups != [] {
      code, rows := CollectGroup(group, response.groups);
    }
    if code != 0 {
      return Err(Broker(code, Some("group=" + group)));
    }
    var out: Offsets := map[];
    for i := 0 to |rows|
      invariant out == Committed(rows[..i])
    {
      assert rows[..i + 1][..i] == rows[..i];
      if IsCommitted(rows[i].1) {
        out := out[rows[i].0 := rows[i].1.offset];
      }
    }
    assert rows[..|rows|] == rows;
    r := Ok(out);
  }

  // ----- what the answer says about a group -----

  /** The answer holds the row for the group: at the top level when it lists no group, and otherwise in an entry of
      the group itself. */
  ghost predicate HoldsFor(response: FetchResponse, group: string, row: Row<Stored>) {
    if response.groups == [] then exists t | 0 <= t < |response.topics| :: HeldBy(response.topics[t], row)
    else exists i | 0 <= i < |response.groups| :: EntryHolds(response.groups[i], group, row)
  }

  ghost predicate EntryHolds(entry: GroupEntry, group: string, row: Row<Stored>) {
    entry.groupId == group && exists t | 0 <= t < |entry.topics| :: HeldBy(entry.topics[t], row)
  }

  /** The code that the answer gives the group: of the top level, of the last entry of the group, or none. */
  ghost predicate CodeFor(response: FetchResponse, group: string, code: int) {
    if response.groups == [] then code == response.code
    else if forall i | 0 <= i < |response.groups| :: response.groups[i].groupId != group then code == 0
    else
      exists i | 0 <= i < |response.groups| :: LastEntry(response.groups, group, i) && response.groups[i].code == code
  }

  ghost predicate LastEntry(entries: seq<GroupEntry>, group: string, i: int)
    requires 0 <= i < |entries|
  {
    entries[i].groupId == group && forall j | i < j < |entries| :: entries[j].groupId != group
  }

  lemma {:induction false} EntryRows(group: string, entries: seq<GroupEntry>, row: Row<Stored>)
    ensures row in EntriesOf(group, entries).1 <==> exists i | 0 <= i < |entries| :: EntryHolds(entries[i], group, row)
  {
    if entries != [] {
      var n := |entries| - 1;
      EntryRows(group, entries[..n], row);
      FlattenHolds(entries[n].topics, row);
    }
  }

  lemma {:induction false} EntryCode(group: string, entries: seq<GroupEntry>)
    ensures (forall i | 0 <= i < |entries| :: entries[i].groupId != group) ==> EntriesOf(group, entries).0 == 0
    ensures forall i | 0 <= i < |entries| && LastEntry(entries, group, i) ::
              EntriesOf(group, entries).0 == entries[i].code
  {
    if entries != [] {
      var n := |entries| - 1;
      EntryCode(group, entries[..n]);
      if entries[n].groupId != group {
        forall i | 0 <= i < |entries| && LastEntry(entries, group, i)
          ensures EntriesOf(group, entries).0 == entries[i].code
        {
          assert LastEntry(entries[..n], group, i);
        }
      }
    }
  }

  lemma {:induction false} SomeLastEntry(group: string, entries: seq<GroupEntry>)
    requires exists i | 0 <= i < |entries| :: entries[i].groupId == group
    ensures exists i | 0 <= i < |entries| :: LastEntry(entries, group, i)
  {
    var n := |entries| - 1;
    if entries[n].groupId == group {
      assert LastEntry(entries, group, n);
    } else {
      var k :| 0 <= k < |entries| && entries[k].groupId == group;
      assert entries[..n][k].groupId == group;
      SomeLastEntry(group, entries[..n]);
      var i :| 0 <= i < n && LastEntry(entries[..n], group, i);
      assert forall j | i < j < n :: entries[..n][j].groupId != group;
      assert LastEntry(entries, group, i);
    }
  }

  /** What the client reads for the group is what the answer says about it: its rows, and its code. */
  lemma ReadsTheGroup(group: string, response: FetchResponse, row: Row<Stored>, code: int)
    ensures row in ReadGroup(group, response).1 <==> HoldsFor(response, group, row)
    ensures ReadGroup(group, response).0 == code <==> CodeFor(response, group, code)
  {
    FlattenHolds(response.topics, row);
    EntryRows(group, response.groups, row);
    EntryCode(group, response.groups);
    if exists i | 0 <= i < |response.groups| :: response.groups[i].groupId == group {
      SomeLastEntry(group, response.groups);
    }
  }

  /** A fetch fails exactly when the answer gives the group an error, and then with that error. */
  lemma FailsWithTheGroupsCode(group: string, response: FetchResponse, code: int)
    ensures OffsetsOf(group, response) == Err(Broker(code, Some("group=" + group))) <==>
            code != 0 && CodeFor(response, group, code)
    ensures OffsetsOf(group, response).Ok? <==> CodeFor(response, group, 0)
  {
    ReadsTheGroup(group, response, (("", 0), Stored(0, 0)), code);
    ReadsTheGroup(group, response, (("", 0), Stored(0, 0)), 0);
  }

  lemma {:induction false} EntriesOfOthers(group: string, entries: seq<GroupEntry>)
    ensures EntriesOf(group, entries) == EntriesOf(group, Filter((e: GroupEntry) => e.groupId == group, entries))
  {
    if entries != [] {
      var own := (e: GroupEntry) => e.groupId == group;
      var front, last := entries[..|entries| - 1], entries[|entries| - 1];
      EntriesOfOthers(group, front);
      assert (Filter(own, front) + [last])[..|Filter(own, front)|] == Filter(own, front);
    }
  }

  /** The entries of other groups change nothing: two answers with the same entries of the group give it the same. */
  lemma OtherGroupsChangeNothing(group: string, p: FetchResponse, q: FetchResponse)
    requires p.groups != [] && q.groups != []
    requires Filter((e: GroupEntry) => e.groupId == group, p.groups) ==
             Filter((e: GroupEntry) => e.groupId == group, q.groups)
    ensures OffsetsOf(group, p) == OffsetsOf(group, q)
  {
    EntriesOfOthers(group, p.groups);
    EntriesOfOthers(group, q.groups);
  }

  /** The last committed row of a partition is its offset; one without a committed row has none. */
  lemma {:induction false} LastCommittedCounts(rows: seq<Row<Stored>>, key: PartitionKey)
    ensures key in Committed(rows) <==> exists i | 0 <= i < |rows| :: rows[i].0 == key && IsCommitted(rows[i].1)
    ensures key in Committed(rows) ==>
              exists i | 0 <= i < |rows| ::
                && rows[i].0 == key && rows[i].1 == Stored(Committed(rows)[key], 0) && Committed(rows)[key] >= 0
                && forall j | i < j < |rows| && rows[j].0 == key :: rows[j].1.code != 0 || rows[j].1.offset < 0
  {
    if rows != [] {
      var n := |rows| - 1;
      var front := rows[..n];
      LastCommittedCounts(front, key);
      if key in Committed(front) && !(rows[n].0 == key && IsCommitted(rows[n].1)) {
        var i :| 0 <= i < n && front[i].0 == key && front[i].1 == Stored(Committed(front)[key], 0) &&
                 forall j | i < j < n && front[j].0 == key :: front[j].1.code != 0 || front[j].1.offset < 0;
        assert rows[i].0 == key && IsCommitted(rows[i].1);
        forall j | i < j < |rows| && rows[j].0 == key ensures rows[j].1.code != 0 || rows[j].1.offset < 0 {
          if j < n { assert front[j].0 == key; }
        }
      }
    }
  }

  // ----- the round trip -----

  /** A broker that stored the rows of a commit request, answering for the group without an error: the answer holds
      each stored row for the group, in any order and either shape, and no other. */
  ghost predicate AnswersCommit(response: FetchResponse, group: string, committed: seq<Row<int>>) {
    && (if response.groups == [] then response.code == 0
        else
          forall i | 0 <= i < |response.groups| && response.groups[i].groupId == group :: response.groups[i].code == 0)
    && (forall row :: HoldsFor(response, group, row) <==> row.1.code == 0 && (row.0, row.1.offset) in committed)
  }

  /** Rows that hold exactly the offsets of a map read back as its offsets that are not negative. */
  lemma {:induction false} CommittedReads(rows: seq<Row<Stored>>, offsets: Offsets, key: PartitionKey)
    requires forall row | row in rows :: row.0 in offsets && row.1 == Stored(offsets[row.0], 0)
    ensures key in Committed(rows) ==> key in offsets && offsets[key] >= 0 && Committed(rows)[key] == offsets[key]
    ensures key in offsets && offsets[key] >= 0 && (key, Stored(offsets[key], 0)) in rows ==> key in Committed(rows)
  {
    if rows != [] {
      var front, row := rows[..|rows| - 1], rows[|rows| - 1];
      assert rows == front + [row];
      assert row in rows && forall r | r in front :: r in rows;
      CommittedReads(front, offsets, key);
    }
  }

  lemma AnswerHasNoError(response: FetchResponse, group: string, committed: seq<Row<int>>)
    requires AnswersCommit(response, group, committed)
    ensures ReadGroup(group, response).0 == 0
  {
    EntryCode(group, response.groups);
    if exists i | 0 <= i < |response.groups| :: response.groups[i].groupId == group {
      SomeLastEntry(group, response.groups);
    }
  }

  lemma AnswerHoldsTheMap(offsets: Offsets, group: string, response: FetchResponse, row: Row<Stored>)
    requires AnswersCommit(response, group, Flatten(CommitRequest(offsets)))
    ensures row in ReadGroup(group, response).1 <==> row.0 in offsets && row.1 == Stored(offsets[row.0], 0)
  {
    CommitRequestIsTheMap(offsets, row.0, row.1.offset);
    ReadsTheGroup(group, response, row, 0);
  }

  /** The offsets that a fetch can give back. */
  function NotNegative(offsets: Offsets): Offsets {
    map key | key in offsets && offsets[key] >= 0 :: offsets[key]
  }

  lemma ReadsNotNegative(rows: seq<Row<Stored>>, offsets: Offsets)
    requires forall row: Row<Stored> :: row in rows <==> row.0 in offsets && row.1 == Stored(offsets[row.0], 0)
    ensures Committed(rows) == NotNegative(offsets)
  {
    forall key ensures key in Committed(rows) <==> key in NotNegative(offsets)
               ensures key in NotNegative(offsets) ==> Committed(rows)[key] == offsets[key]
    {
      CommittedReads(rows, offsets, key);
    }
  }

  lemma NothingNegative(offsets: Offsets)
    ensures NotNegative(offsets) == offsets <==> forall key | key in offsets :: offsets[key] >= 0
  {
    if key :| key in offsets && offsets[key] < 0 {
      assert key !in NotNegative(offsets);
    }
  }

  /** What a group commits, it fetches back: with both shapes of the answer, the fetched offsets are those of the
      committed map that are not negative, so the map comes back exactly when it has no negative offset. */
  lemma CommitThenFetch(offsets: Offsets, group: string, response: FetchResponse)
    requires AnswersCommit(response, group, Flatten(CommitRequest(offsets)))
    ensures OffsetsOf(group, response) == Ok(NotNegative(offsets))
    ensures OffsetsOf(group, response) == Ok(offsets) <==> forall key | key in offsets :: offsets[key] >= 0
  {
    var rows := ReadGroup(group, response).1;
    forall row: Row<Stored> ensures row in rows <==> row.0 in offsets && row.1 == Stored(offsets[row.0], 0) {
      AnswerHoldsTheMap(offsets, group, response, row);
    }
    AnswerHasNoError(response, group, Flatten(CommitRequest(offsets)));
    ReadsNotNegative(rows, offsets);
    NothingNegative(offsets);
  }
}
