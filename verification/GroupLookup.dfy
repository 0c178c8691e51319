/** Finding the coordinator of each group: one batched request, or one request for each group. */
module GroupLookup {
  import opened Base

  datatype Endpoint = Endpoint(nodeId: int, host: string, port: int)

  /** Where the coordinator lookup puts one group. */
  datatype Lookup = Found(endpoint: Endpoint) | Again | Failed(error: KafkaError)

  /** One coordinator as the broker describes it. */
  datatype Row = Row(code: int, message: Option<string>, endpoint: Endpoint)

  /** An answer: the top-level fields of v0 to v3, and the entries of v4 and later. */
  datatype FindResponse = FindResponse(top: Row, coordinators: seq<(string, Row)>)

  type FindAnswer = Result<FindResponse, AdminError>

  /** What the environment does with one lookup: the versions that the peer advertises, the answer to
      the batched request, and the answer to the request of each single group. */
  datatype FindOracle = FindOracle(range: Option<(int, int)>, batched: FindAnswer, single: string -> FindAnswer)

  const MIN_BATCHED_VERSION := 4

  predicate IsLookupRetry(code: int) {
    code == COORDINATOR_NOT_AVAILABLE || code == COORDINATOR_LOAD_IN_PROGRESS
  }

  function Classify(row: Row): Lookup {
    if row.code == 0 then Found(row.endpoint)
    else if IsLookupRetry(row.code) then Again
    else Failed(KafkaError(row.code, FromBroker(row.message)))
  }

  /** The entries by key. A key that is listed twice keeps its last entry. */
  function Entries(rows: seq<(string, Row)>): (m: map<string, Lookup>)
    ensures forall key :: key in m <==> exists i :: 0 <= i < |rows| && rows[i].0 == key
  {
    if rows == [] then map[]
    else
      var last := rows[|rows| - 1];
      Entries(rows[..|rows| - 1])[last.0 := Classify(last.1)]
  }

  /** The last entry of a key counts. */
  lemma {:induction false} LastEntryCounts(rows: seq<(string, Row)>, i: nat)
    requires i < |rows| && forall j | i < j < |rows| :: rows[j].0 != rows[i].0
    ensures rows[i].0 in Entries(rows) && Entries(rows)[rows[i].0] == Classify(rows[i].1)
  {
    if i < |rows| - 1 {
      assert forall j | 0 <= j < |rows| - 1 :: rows[..|rows| - 1][j] == rows[j];
      LastEntryCounts(rows[..|rows| - 1], i);
    }
  }

  /** The lookup of the `i`-th key: its entry, which only the first occurrence of a key takes. */
  function EntryOf(keys: seq<string>, entries: map<string, Lookup>, i: nat): (string, Lookup)
    requires i < |keys|
  {
    (keys[i], if keys[i] in entries && keys[i] !in keys[..i] then entries[keys[i]] else Again)
  }

  function EntriesInOrder(keys: seq<string>, entries: map<string, Lookup>): (lookups: seq<(string, Lookup)>)
    ensures |lookups| == |keys| && forall i | 0 <= i < |keys| :: lookups[i] == EntryOf(keys, entries, i)
  {
    seq(|keys|, i requires 0 <= i < |keys| => EntryOf(keys, entries, i))
  }

  /** The lookup of each of `keys` in one answer. */
  function LookupsOf(keys: seq<string>, response: FindResponse): seq<(string, Lookup)> {
    if response.coordinators == [] && |keys| == 1 then [(keys[0], Classify(response.top))]
    else
      EntriesInOrder(keys, Entries(response.coordinators))
  }

  method CollectEntries(rows: seq<(string, Row)>) returns (entries: map<string, Lookup>)
    ensures entries == Entries(rows)
  {
    entries := map[];
    for i := 0 to |rows|
      invariant entries == Entries(rows[..i])
    {
      assert rows[..i + 1][..i] == rows[..i];
      entries := entries[rows[i].0 := Classify(rows[i].1)];
    }
    assert rows[..|rows|] == rows;
  }

  /** `LookupsOf` as the client computes it, taking each entry out of a local map. */
  method CoordinatorLookups(keys: seq<string>, response: FindResponse) returns (lookups: seq<(string, Lookup)>)
    ensures lookups == LookupsOf(keys, response)
  {
    if response.coordinators == [] && |keys| == 1 {
      return [(keys[0], Classify(response.top))];
    }
    var entries := CollectEntries(response.coordinators);
    lookups := TakeEntries(keys, entries);
  }

  method TakeEntries(keys: seq<string>, all: map<string, Lookup>) returns (lookups: seq<(string, Lookup)>)
    ensures lookups == EntriesInOrder(keys, all)
  {
    var entries := all;
    lookups := [];
    for i := 0 to |keys|
      invariant |lookups| == i
      invariant forall j | 0 <= j < i :: lookups[j] == EntryOf(keys, all, j)
      invariant forall key :: key in entries <==> key in all && key !in keys[..i]
      invariant forall key | key in entries :: entries[key] == all[key]
    {
      lookups := lookups + [(keys[i], if keys[i] in entries then entries[keys[i]] else Again)];
      entries := entries - {keys[i]};
      assert keys[..i + 1] == keys[..i] + [keys[i]];
    }
  }

  /** The lookups after the request itself failed. */
  function FailedLookups(keys: seq<string>, error: AdminError): seq<(string, Lookup)> {
    var lookup := if IsConnectionFailure(error) then Again else Failed(GroupsKafkaError(error));
    seq(|keys|, i requires 0 <= i < |keys| => (keys[i], lookup))
  }

  function LookupsOfAnswer(keys: seq<string>, answer: FindAnswer): seq<(string, Lookup)> {
    match answer
    case Ok(response) => LookupsOf(keys, response)
    case Err(error) => FailedLookups(keys, error)
  }

  /** One request for each key. */
  function LookupEach(keys: seq<string>, single: string -> FindAnswer): seq<(string, Lookup)> {
    if keys == [] then []
    else LookupEach(keys[..|keys| - 1], single) + LookupsOfAnswer([keys[|keys| - 1]], single(keys[|keys| - 1]))
  }

  predicate UsesBatch(oracle: FindOracle) {
    oracle.range.Some? && oracle.range.value.1 >= MIN_BATCHED_VERSION &&
    oracle.batched != Err(Transport(IncompatibleVersion))
  }

  /** The coordinator of each of `keys`: batched where the peer has v4, and one by one where it has
      not, also when that shows only after a reconnect. */
  function FindCoordinators(keys: seq<string>, oracle: FindOracle): seq<(string, Lookup)> {
    if UsesBatch(oracle) then LookupsOfAnswer(keys, oracle.batched) else LookupEach(keys, oracle.single)
  }

  lemma OneKeyOneLookup(key: string, answer: FindAnswer)
    ensures |LookupsOfAnswer([key], answer)| == 1 && LookupsOfAnswer([key], answer)[0].0 == key
  {
  }

  lemma {:induction false} LookupEachInOrder(keys: seq<string>, single: string -> FindAnswer)
    ensures |LookupEach(keys, single)| == |keys|
    ensures forall i | 0 <= i < |keys| ::
              LookupEach(keys, single)[i] == LookupsOfAnswer([keys[i]], single(keys[i]))[0]
    ensures forall i | 0 <= i < |keys| :: LookupEach(keys, single)[i].0 == keys[i]
  {
    if keys != [] {
      LookupEachInOrder(keys[..|keys| - 1], single);
      OneKeyOneLookup(keys[|keys| - 1], single(keys[|keys| - 1]));
    }
  }

  /** Whatever the broker answers, the lookup gives one result for each key, in key order. */
  lemma OneLookupPerKey(keys: seq<string>, oracle: FindOracle)
    ensures |FindCoordinators(keys, oracle)| == |keys|
    ensures forall i | 0 <= i < |keys| :: FindCoordinators(keys, oracle)[i].0 == keys[i]
  {
    LookupEachInOrder(keys, oracle.single);
  }

  /** Which requests a lookup makes: the batched one of all keys exactly when the peer offers version 4 and still does
      when it answers; otherwise the one of each key. */
  lemma LookupsAskFor(keys: seq<string>, oracle: FindOracle, i: nat)
    requires i < |keys|
    ensures oracle.range.Some? && oracle.range.value.1 >= 4 && oracle.batched != Err(Transport(IncompatibleVersion)) ==>
              FindCoordinators(keys, oracle) == LookupsOfAnswer(keys, oracle.batched)
    ensures oracle.range.None? || oracle.range.value.1 < 4 || oracle.batched == Err(Transport(IncompatibleVersion)) ==>
              && |FindCoordinators(keys, oracle)| == |keys| && |LookupsOfAnswer([keys[i]], oracle.single(keys[i]))| == 1
              && FindCoordinators(keys, oracle)[i] == LookupsOfAnswer([keys[i]], oracle.single(keys[i]))[0]
  {
    LookupEachInOrder(keys, oracle.single);
    OneKeyOneLookup(keys[i], oracle.single(keys[i]));
  }

  /** `rows` holds the entry of each of `keys` as `truth` gives it, in any order. */
  ghost predicate Tells(rows: seq<(string, Row)>, keys: seq<string>, truth: string -> Row) {
    forall row :: row in rows <==> row.0 in keys && row.1 == truth(row.0)
  }

  lemma {:induction false} EntriesTell(rows: seq<(string, Row)>, truth: string -> Row)
    requires forall i | 0 <= i < |rows| :: rows[i].1 == truth(rows[i].0)
    ensures forall key | key in Entries(rows) :: Entries(rows)[key] == Classify(truth(key))
  {
    if rows != [] {
      EntriesTell(rows[..|rows| - 1], truth);
    }
  }

  lemma BatchTells(keys: seq<string>, rows: seq<(string, Row)>, top: Row, truth: string -> Row)
    requires NoDuplicates(keys) && Tells(rows, keys, truth)
    ensures LookupsOf(keys, FindResponse(top, rows)) ==
            seq(|keys|, i requires 0 <= i < |keys| => (keys[i], Classify(truth(keys[i]))))
  {
    forall i | 0 <= i < |rows| ensures rows[i].1 == truth(rows[i].0) { assert rows[i] in rows; }
    EntriesTell(rows, truth);
    forall i | 0 <= i < |keys| ensures keys[i] in Entries(rows) && keys[i] !in keys[..i] {
      assert (keys[i], truth(keys[i])) in rows;
    }
  }

  /** The batched lookup refines the lookup of one key at a time: for one broker, whose v4 answer lists
      its entries in any order and whose older answer holds the single key in its top-level fields,
      both forms give the same list, one entry for each key in key order. */
  lemma BatchedRefinesSingle(keys: seq<string>, rows: seq<(string, Row)>, top: Row, truth: string -> Row,
                             batched: FindOracle, single: FindOracle)
    requires NoDuplicates(keys) && Tells(rows, keys, truth)
    requires UsesBatch(batched) && batched.batched == Ok(FindResponse(top, rows))
    requires !UsesBatch(single)
    requires forall key :: single.single(key) == Ok(FindResponse(truth(key), []))
    ensures FindCoordinators(keys, batched) == FindCoordinators(keys, single)
    ensures FindCoordinators(keys, batched) ==
            seq(|keys|, i requires 0 <= i < |keys| => (keys[i], Classify(truth(keys[i]))))
  {
    BatchTells(keys, rows, top, truth);
    LookupEachInOrder(keys, single.single);
  }

  /** A key that the answer omits is looked up again, except for a lone key with an empty entry list,
      where the top-level fields decide. */
  lemma OmittedKeyIsLookedUpAgain(keys: seq<string>, response: FindResponse, i: nat)
    requires i < |keys|
    requires forall row | row in response.coordinators :: row.0 != keys[i]
    ensures LookupsOf(keys, response)[i] == (keys[i], Again) <==>
            |keys| != 1 || response.coordinators != [] || IsLookupRetry(response.top.code)
  {
    assert forall j | 0 <= j < |response.coordinators| :: response.coordinators[j] in response.coordinators;
  }

  /** The lookups as a map. */
  function LookupMap(lookups: seq<(string, Lookup)>): (m: map<string, Lookup>)
    ensures forall key :: key in m <==> exists i :: 0 <= i < |lookups| && lookups[i].0 == key
  {
    if lookups == [] then map[]
    else
      var last := lookups[|lookups| - 1];
      LookupMap(lookups[..|lookups| - 1])[last.0 := last.1]
  }
}
