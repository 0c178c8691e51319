/** Requests that group partition rows by topic, and their reading back. */
module ByTopic {
  import opened Base
  import opened Order

  type Row<V> = (PartitionKey, V)

  datatype Topic<V> = Topic(name: string, partitions: seq<(int, V)>)

  /** The rows of `name`, in order. */
  function RowsOf<V>(rows: seq<Row<V>>, name: string): seq<(int, V)> {
    if rows == [] then []
    else
      var rest, row := RowsOf(rows[..|rows| - 1], name), rows[|rows| - 1];
      if row.0.0 == name then rest + [(row.0.1, row.1)] else rest
  }

  function NamesOf<V>(rows: seq<Row<V>>): (names: set<string>) {
    if rows == [] then {} else NamesOf(rows[..|rows| - 1]) + {rows[|rows| - 1].0.0}
  }

  function TopicsOf<V>(names: seq<string>, rows: seq<Row<V>>): (topics: seq<Topic<V>>)
    ensures |topics| == |names|
    ensures forall i | 0 <= i < |names| :: topics[i] == Topic(names[i], RowsOf(rows, names[i]))
  {
    seq(|names|, i requires 0 <= i < |names| => Topic(names[i], RowsOf(rows, names[i])))
  }

  /** One entry for each topic, in name order, with the rows of the topic. */
  function Grouped<V>(rows: seq<Row<V>>): seq<Topic<V>> {
    TopicsOf(SortedNames(NamesOf(rows)), rows)
  }

  /** A grouped list as its reader sees it. */
  function Flatten<V>(topics: seq<Topic<V>>): seq<Row<V>> {
    if topics == [] then []
    else Flatten(topics[..|topics| - 1]) + Tagged(topics[|topics| - 1].name, topics[|topics| - 1].partitions)
  }

  function Tagged<V>(name: string, partitions: seq<(int, V)>): seq<Row<V>> {
    if partitions == [] then []
    else
      var last := partitions[|partitions| - 1];
      Tagged(name, partitions[..|partitions| - 1]) + [((name, last.0), last.1)]
  }

  /** The rows under one topic, each with the name of the topic and its own index and value. */
  lemma {:induction false} TaggedHolds<V>(name: string, partitions: seq<(int, V)>)
    ensures |Tagged(name, partitions)| == |partitions|
    ensures forall p | 0 <= p < |partitions| ::
              Tagged(name, partitions)[p] == ((name, partitions[p].0), partitions[p].1)
  {
    if partitions != [] { TaggedHolds(name, partitions[..|partitions| - 1]); }
  }

  /** A topic of the list holds the row. */
  ghost predicate HeldBy<V>(topic: Topic<V>, row: Row<V>) {
    topic.name == row.0.0 && (row.0.1, row.1) in topic.partitions
  }

  lemma TaggedIsHeld<V>(topic: Topic<V>, row: Row<V>)
    ensures row in Tagged(topic.name, topic.partitions) <==> HeldBy(topic, row)
  {
    TaggedHolds(topic.name, topic.partitions);
    var tagged := Tagged(topic.name, topic.partitions);
    if row in tagged {
      var p :| 0 <= p < |tagged| && tagged[p] == row;
      assert topic.partitions[p] == (row.0.1, row.1);
    }
    if HeldBy(topic, row) {
      var p :| 0 <= p < |topic.partitions| && topic.partitions[p] == (row.0.1, row.1);
      assert tagged[p] == row;
    }
  }

  /** The reader of a grouped list sees exactly the rows that its topics hold. */
  lemma {:induction false} FlattenHolds<V>(topics: seq<Topic<V>>, row: Row<V>)
    ensures row in Flatten(topics) <==> exists i | 0 <= i < |topics| :: HeldBy(topics[i], row)
  {
    if topics != [] {
      var n := |topics| - 1;
      FlattenHolds(topics[..n], row);
      TaggedIsHeld(topics[n], row);
    }
  }

  function Pushed<V>(byTopic: map<string, seq<(int, V)>>, name: string): seq<(int, V)> {
    if name in byTopic then byTopic[name] else []
  }

  ghost predicate Collects<V>(byTopic: map<string, seq<(int, V)>>, rows: seq<Row<V>>) {
    byTopic.Keys == NamesOf(rows) && forall name | name in byTopic :: byTopic[name] == RowsOf(rows, name)
  }

  lemma {:induction false} NoRows<V>(rows: seq<Row<V>>, name: string)
    requires name !in NamesOf(rows)
    ensures RowsOf(rows, name) == []
  {
    if rows != [] { NoRows(rows[..|rows| - 1], name); }
  }

  lemma CollectNext<V>(byTopic: map<string, seq<(int, V)>>, rows: seq<Row<V>>, row: Row<V>)
    requires Collects(byTopic, rows)
    ensures Collects(byTopic[row.0.0 := Pushed(byTopic, row.0.0) + [(row.0.1, row.1)]], rows + [row])
  {
    assert (rows + [row])[..|rows|] == rows;
    if row.0.0 !in byTopic { NoRows(rows, row.0.0); }
  }

  function Listed<V>(names: seq<string>, byTopic: map<string, seq<(int, V)>>): (topics: seq<Topic<V>>)
    ensures |topics| == |names|
    ensures forall i | 0 <= i < |names| :: topics[i] == Topic(names[i], Pushed(byTopic, names[i]))
  {
    seq(|names|, i requires 0 <= i < |names| => Topic(names[i], Pushed(byTopic, names[i])))
  }

  lemma CollectedIsGrouped<V>(byTopic: map<string, seq<(int, V)>>, rows: seq<Row<V>>)
    requires Collects(byTopic, rows)
    ensures Listed(SortedNames(byTopic.Keys), byTopic) == Grouped(rows)
  {
    var names := SortedNames(NamesOf(rows));
    assert forall i | 0 <= i < |names| :: names[i] in names;
  }

  /** `Grouped` as the client builds it, by pushing each row onto the list of its topic. */
  method GroupByTopic<V>(rows: seq<Row<V>>) returns (topics: seq<Topic<V>>)
    ensures topics == Grouped(rows)
  {
    var byTopic: map<string, seq<(int, V)>> := map[];
    for i := 0 to |rows|
      invariant Collects(byTopic, rows[..i])
    {
      CollectNext(byTopic, rows[..i], rows[i]);
      assert rows[..i + 1] == rows[..i] + [rows[i]];
      var name := rows[i].0.0;
      byTopic := byTopic[name := Pushed(byTopic, name) + [(rows[i].0.1, rows[i].1)]];
    }
    assert rows[..|rows|] == rows;
    CollectedIsGrouped(byTopic, rows);
    topics := Listed(SortedNames(byTopic.Keys), byTopic);
  }

  /** The rows whose topic is one of `names`. */
  ghost function Among<V>(rows: seq<Row<V>>, names: seq<string>): seq<Row<V>> {
    if rows == [] then []
    else
      var rest, row := Among(rows[..|rows| - 1], names), rows[|rows| - 1];
      if row.0.0 in names then rest + [row] else rest
  }

  lemma {:induction false} TaggedRows<V>(rows: seq<Row<V>>, name: string)
    ensures Tagged(name, RowsOf(rows, name)) == Among(rows, [name])
  {
    if rows != [] {
      TaggedRows(rows[..|rows| - 1], name);
      var rest := RowsOf(rows[..|rows| - 1], name);
      var row := rows[|rows| - 1];
      assert (rest + [(row.0.1, row.1)])[..|rest|] == rest;
    }
  }

  lemma {:induction false} AmongSplits<V>(rows: seq<Row<V>>, names: seq<string>, name: string)
    requires name !in names
    ensures multiset(Among(rows, names + [name])) == multiset(Among(rows, names)) + multiset(Among(rows, [name]))
  {
    if rows != [] {
      AmongSplits(rows[..|rows| - 1], names, name);
    }
  }

  lemma {:induction false} AmongAll<V>(rows: seq<Row<V>>, names: seq<string>)
    requires forall name | name in NamesOf(rows) :: name in names
    ensures Among(rows, names) == rows
  {
    if rows != [] {
      AmongAll(rows[..|rows| - 1], names);
    }
  }

  lemma {:induction false} AmongNone<V>(rows: seq<Row<V>>)
    ensures Among(rows, []) == []
  {
    if rows != [] { AmongNone(rows[..|rows| - 1]); }
  }

  lemma {:induction false} FlattenTopics<V>(names: seq<string>, rows: seq<Row<V>>)
    requires NoDuplicates(names)
    ensures multiset(Flatten(TopicsOf(names, rows))) == multiset(Among(rows, names))
  {
    if names == [] {
      AmongNone(rows);
    } else {
      var front, name := names[..|names| - 1], names[|names| - 1];
      var topics := TopicsOf(names, rows);
      assert topics[..|names| - 1] == TopicsOf(front, rows);
      FlattenTopics(front, rows);
      TaggedRows(rows, name);
      AmongSplits(rows, front, name);
      assert front + [name] == names;
    }
  }

  /** Grouping loses, adds and changes no row: the reader of the grouped list sees a permutation of the rows,
      and each topic stands in it once. */
  lemma FlattenGrouped<V>(rows: seq<Row<V>>)
    ensures multiset(Flatten(Grouped(rows))) == multiset(rows)
    ensures forall i, j | 0 <= i < j < |Grouped(rows)| :: Grouped(rows)[i].name != Grouped(rows)[j].name
  {
    var names := SortedNames(NamesOf(rows));
    FlattenTopics(names, rows);
    AmongAll(rows, names);
  }
}
