/** The difference of two quota configurations as alter operations. A value is its 64 bits, as the client compares
    them. */
module Quotas {
  import opened Base
  import opened Order

  type Config = map<string, bv64>

  datatype Op = Set(key: string, value: bv64) | Remove(key: string)

  datatype WireOp = WireOp(key: string, value: bv64, remove: bool)

  function ToWire(op: Op): WireOp {
    match op
    case Set(key, value) => WireOp(key, value, false)
    case Remove(key) => WireOp(key, 0, true)
  }

  /** What a broker does with one operation. */
  function Apply(config: Config, op: WireOp): Config {
    if op.remove then config - {op.key} else config[op.key := op.value]
  }

  function ApplyAll(config: Config, ops: seq<Op>): Config {
    if ops == [] then config else Apply(ApplyAll(config, ops[..|ops| - 1]), ToWire(ops[|ops| - 1]))
  }

  // ----- the difference -----

  predicate Changes(current: Config, desired: Config, key: string) {
    key in desired && !(key in current && current[key] == desired[key])
  }

  /** The operations that the keys of the desired configuration need. */
  function SetsFor(keys: seq<string>, current: Config, desired: Config): seq<Op> {
    if keys == [] then []
    else
      var rest, key := SetsFor(keys[..|keys| - 1], current, desired), keys[|keys| - 1];
      if Changes(current, desired, key) then rest + [Set(key, desired[key])] else rest
  }

  /** The operations that the keys of the current configuration need. */
  function RemovesFor(keys: seq<string>, desired: Config): seq<Op> {
    if keys == [] then []
    else
      var rest, key := RemovesFor(keys[..|keys| - 1], desired), keys[|keys| - 1];
      if key in desired then rest else rest + [Remove(key)]
  }

  function Diff(current: Config, desired: Config): seq<Op> {
    SetsFor(SortedNames(desired.Keys), current, desired) + RemovesFor(SortedNames(current.Keys), desired)
  }

  method CollectSets(keys: seq<string>, current: Config, desired: Config) returns (ops: seq<Op>)
    requires forall key | key in keys :: key in desired
    ensures ops == SetsFor(keys, current, desired)
  {
    ops := [];
    for i := 0 to |keys|
      invariant ops == SetsFor(keys[..i], current, desired)
    {
      assert keys[..i + 1][..i] == keys[..i] && keys[i] in keys;
      if keys[i] !in current || current[keys[i]] != desired[keys[i]] {
        ops := ops + [Set(keys[i], desired[keys[i]])];
      }
    }
    assert keys[..|keys|] == keys;
  }

  method CollectRemoves(keys: seq<string>, desired: Config) returns (ops: seq<Op>)
    ensures ops == RemovesFor(keys, desired)
  {
    ops := [];
    for i := 0 to |keys|
      invariant ops == RemovesFor(keys[..i], desired)
    {
      assert keys[..i + 1][..i] == keys[..i];
      if keys[i] !in desired {
        ops := ops + [Remove(keys[i])];
      }
    }
    assert keys[..|keys|] == keys;
  }

  method DiffUserQuotas(current: Config, desired: Config) returns (ops: seq<Op>)
    ensures ops == Diff(current, desired)
  {
    ops := CollectSets(SortedNames(desired.Keys), current, desired);
    var removes := CollectRemoves(SortedNames(current.Keys), desired);
    ops := ops + removes;
  }

  // ----- what the operations do -----

  ghost predicate DistinctKeys(ops: seq<Op>) {
    forall i, j | 0 <= i < j < |ops| :: ops[i].key != ops[j].key
  }

  /** The keys on which the two configurations differ. */
  function Differing(current: Config, desired: Config): set<string> {
    set key | key in current.Keys + desired.Keys && (key !in desired || Changes(current, desired, key))
  }

  /** The operation that a differing key needs. */
  ghost predicate IsNeeded(current: Config, desired: Config, op: Op) {
    match op
    case Set(key, value) => Changes(current, desired, key) && value == desired[key]
    case Remove(key) => key in current && key !in desired
  }

  lemma {:induction false} SetIsIn(keys: seq<string>, current: Config, desired: Config, op: Op)
    ensures op in SetsFor(keys, current, desired) <==> op.Set? && op.key in keys && IsNeeded(current, desired, op)
  {
    if keys != [] { SetIsIn(keys[..|keys| - 1], current, desired, op); }
  }

  lemma {:induction false} RemoveIsIn(keys: seq<string>, desired: Config, op: Op)
    ensures op in RemovesFor(keys, desired) <==> op.Remove? && op.key in keys && op.key !in desired
  {
    if keys != [] { RemoveIsIn(keys[..|keys| - 1], desired, op); }
  }

  lemma NewKey(ops: seq<Op>, op: Op)
    requires DistinctKeys(ops) && forall i | 0 <= i < |ops| :: ops[i].key != op.key
    ensures DistinctKeys(ops + [op])
  {
  }

  lemma {:induction false} SetsAreDistinct(keys: seq<string>, current: Config, desired: Config)
    requires NoDuplicates(keys)
    ensures DistinctKeys(SetsFor(keys, current, desired))
  {
    if keys != [] {
      var front, key := keys[..|keys| - 1], keys[|keys| - 1];
      SetsAreDistinct(front, current, desired);
      var rest := SetsFor(front, current, desired);
      forall i | 0 <= i < |rest| ensures rest[i].key != key { SetIsIn(front, current, desired, rest[i]); }
      if Changes(current, desired, key) { NewKey(rest, Set(key, desired[key])); }
    }
  }

  lemma {:induction false} RemovesAreDistinct(keys: seq<string>, desired: Config)
    requires NoDuplicates(keys)
    ensures DistinctKeys(RemovesFor(keys, desired))
  {
    if keys != [] {
      var front, key := keys[..|keys| - 1], keys[|keys| - 1];
      RemovesAreDistinct(front, desired);
      var rest := RemovesFor(front, desired);
      forall i | 0 <= i < |rest| ensures rest[i].key != key { RemoveIsIn(front, desired, rest[i]); }
      NewKey(rest, Remove(key));
    }
  }

  lemma JoinHasDistinctKeys(p: seq<Op>, q: seq<Op>)
    requires DistinctKeys(p) && DistinctKeys(q) && forall a, b | a in p && b in q :: a.key != b.key
    ensures DistinctKeys(p + q)
  {
    var all: seq<Op> := p + q;
    forall i, j | 0 <= i < j < |all| ensures all[i].key != all[j].key {
      if i < |p| <= j {
        assert p[i] in p && q[j - |p|] in q;
      }
    }
  }

  lemma JoinIsNeeded(sets: seq<Op>, removes: seq<Op>, current: Config, desired: Config)
    requires forall op :: op in sets <==> op.Set? && IsNeeded(current, desired, op)
    requires forall op :: op in removes <==> op.Remove? && IsNeeded(current, desired, op)
    ensures forall op :: op in sets + removes <==> IsNeeded(current, desired, op)
    ensures forall a, b | a in sets && b in removes :: a.key != b.key
  {
  }

  /** The difference holds exactly the needed operations, each key once. */
  lemma DiffHoldsTheNeeded(current: Config, desired: Config)
    ensures forall op :: op in Diff(current, desired) <==> IsNeeded(current, desired, op)
    ensures DistinctKeys(Diff(current, desired))
  {
    var wanted, held := SortedNames(desired.Keys), SortedNames(current.Keys);
    forall op ensures op in SetsFor(wanted, current, desired) <==> op.Set? && IsNeeded(current, desired, op)
              ensures op in RemovesFor(held, desired) <==> op.Remove? && IsNeeded(current, desired, op)
    {
      SetIsIn(wanted, current, desired, op);
      RemoveIsIn(held, desired, op);
    }
    SetsAreDistinct(wanted, current, desired);
    RemovesAreDistinct(held, desired);
    JoinIsNeeded(SetsFor(wanted, current, desired), RemovesFor(held, desired), current, desired);
    JoinHasDistinctKeys(SetsFor(wanted, current, desired), RemovesFor(held, desired));
  }

  function Held(config: Config, key: string): Option<bv64> {
    if key in config then Some(config[key]) else None
  }

  function LastOp(ops: seq<Op>, key: string): Option<Op> {
    if ops == [] then None
    else if ops[|ops| - 1].key == key then Some(ops[|ops| - 1])
    else LastOp(ops[..|ops| - 1], key)
  }

  lemma {:induction false} LastOpCounts(ops: seq<Op>, key: string)
    ensures LastOp(ops, key).Some? ==> LastOp(ops, key).value in ops && LastOp(ops, key).value.key == key
    ensures LastOp(ops, key).None? ==> forall op | op in ops :: op.key != key
  {
    if ops != [] { LastOpCounts(ops[..|ops| - 1], key); }
  }

  /** Each key has what its last operation gives, and without one what it had. */
  lemma {:induction false} AppliedAt(config: Config, ops: seq<Op>, key: string)
    ensures Held(ApplyAll(config, ops), key) ==
            match LastOp(ops, key)
            case None => Held(config, key)
            case Some(Set(_, value)) => Some(value)
            case Some(Remove(_)) => None
  {
    if ops != [] { AppliedAt(config, ops[..|ops| - 1], key); }
  }

  lemma NeededAt(current: Config, desired: Config, ops: seq<Op>, key: string)
    requires forall op :: op in ops <==> IsNeeded(current, desired, op)
    ensures Held(ApplyAll(current, ops), key) == Held(desired, key)
  {
    AppliedAt(current, ops, key);
    LastOpCounts(ops, key);
    if LastOp(ops, key).None? {
      assert key in desired ==> Set(key, desired[key]) !in ops;
      assert Remove(key) !in ops;
    }
  }

  /** Applied in any order, the difference gives the desired configuration, bit for bit. */
  lemma AnyOrderReachesDesired(current: Config, desired: Config, ops: seq<Op>)
    requires multiset(ops) == multiset(Diff(current, desired))
    ensures ApplyAll(current, ops) == desired
  {
    DiffHoldsTheNeeded(current, desired);
    assert forall op :: op in ops <==> op in multiset(ops);
    assert forall op :: op in Diff(current, desired) <==> op in multiset(Diff(current, desired));
    forall key ensures Held(ApplyAll(current, ops), key) == Held(desired, key) {
      NeededAt(current, desired, ops, key);
    }
    SameHeld(ApplyAll(current, ops), desired);
  }

  lemma SameHeld(a: Config, b: Config)
    requires forall key :: Held(a, key) == Held(b, key)
    ensures a == b
  {
    assert forall key :: Held(a, key).Some? <==> key in a;
    assert forall key :: Held(b, key).Some? <==> key in b;
    forall key | key in a ensures a[key] == b[key] {
      assert Held(a, key) == Some(a[key]);
    }
  }

  // ----- no operation too many -----

  function KeysOf(ops: seq<Op>): set<string> {
    if ops == [] then {} else KeysOf(ops[..|ops| - 1]) + {ops[|ops| - 1].key}
  }

  lemma {:induction false} KeyIsNamed(ops: seq<Op>, key: string)
    ensures key in KeysOf(ops) <==> exists op | op in ops :: op.key == key
  {
    if ops != [] {
      var front, last := ops[..|ops| - 1], ops[|ops| - 1];
      KeyIsNamed(front, key);
      if key in KeysOf(front) {
        var op :| op in front && op.key == key;
        assert op in ops;
      }
      if last.key == key { assert last in ops; }
    }
  }

  lemma {:induction false} KeysAreFew(ops: seq<Op>)
    ensures |KeysOf(ops)| <= |ops|
    ensures DistinctKeys(ops) ==> |KeysOf(ops)| == |ops|
  {
    if ops != [] {
      var front, last := ops[..|ops| - 1], ops[|ops| - 1];
      KeysAreFew(front);
      if DistinctKeys(ops) {
        assert forall i | 0 <= i < |front| :: front[i].key == ops[i].key && ops[i].key != last.key;
        KeyIsNamed(front, last.key);
      }
    }
  }

  /** A key that no operation names keeps its value. */
  lemma {:induction false} UntouchedStays(config: Config, ops: seq<Op>, key: string)
    requires key !in KeysOf(ops)
    ensures key in ApplyAll(config, ops) <==> key in config
    ensures key in config ==> ApplyAll(config, ops)[key] == config[key]
  {
    if ops != [] {
      UntouchedStays(config, ops[..|ops| - 1], key);
    }
  }

  lemma SubsetIsSmaller<T>(a: set<T>, b: set<T>)
    requires a <= b
    ensures |a| <= |b|
  {
    assert b == a + (b - a);
  }

  lemma NeededNameTheDiffering(current: Config, desired: Config, ops: seq<Op>)
    requires DistinctKeys(ops) && forall op :: op in ops <==> IsNeeded(current, desired, op)
    ensures |ops| == |Differing(current, desired)|
  {
    KeysAreFew(ops);
    forall key ensures key in KeysOf(ops) <==> key in Differing(current, desired) {
      KeyIsNamed(ops, key);
      if key in Differing(current, desired) {
        var op := if key in desired then Set(key, desired[key]) else Remove(key);
        assert op in ops && op.key == key;
      }
    }
    assert KeysOf(ops) == Differing(current, desired);
  }

  /** No shorter list of operations leads from the current to the desired configuration. */
  lemma DiffIsMinimal(current: Config, desired: Config, ops: seq<Op>)
    requires ApplyAll(current, ops) == desired
    ensures |Diff(current, desired)| <= |ops|
  {
    DiffHoldsTheNeeded(current, desired);
    NeededNameTheDiffering(current, desired, Diff(current, desired));
    KeysAreFew(ops);
    forall key | key in Differing(current, desired) ensures key in KeysOf(ops) {
      if key !in KeysOf(ops) { UntouchedStays(current, ops, key); }
    }
    SubsetIsSmaller(Differing(current, desired), KeysOf(ops));
  }

  /** The difference is empty exactly when the configurations agree. */
  lemma EmptyExactlyWhenEqual(current: Config, desired: Config)
    ensures Diff(current, desired) == [] <==> current == desired
  {
    DiffHoldsTheNeeded(current, desired);
    NeededNameTheDiffering(current, desired, Diff(current, desired));
    if Differing(current, desired) == {} {
      forall key ensures Held(current, key) == Held(desired, key) {
        assert key !in Differing(current, desired);
      }
      SameHeld(current, desired);
    }
  }
}
