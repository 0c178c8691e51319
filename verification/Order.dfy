/** The key order in which the source's ordered maps and sets are walked. */
module Order {
  import opened Base

  ghost predicate TotalOrder<T(!new)>(less: (T, T) -> bool) {
    && (forall x :: !less(x, x))
    && (forall x, y, z :: less(x, y) && less(y, z) ==> less(x, z))
    && (forall x, y :: x == y || less(x, y) || less(y, x))
  }

  ghost predicate Ascends<T>(less: (T, T) -> bool, q: seq<T>) {
    forall i, j | 0 <= i < j < |q| :: less(q[i], q[j])
  }

  ghost predicate IsLeast<T>(less: (T, T) -> bool, least: T, s: set<T>) {
    least in s && forall x | x in s :: x == least || less(least, x)
  }

  lemma {:induction false} LeastExists<T(!new)>(less: (T, T) -> bool, s: set<T>)
    requires TotalOrder(less) && s != {}
    ensures exists least :: IsLeast(less, least, s)
    decreases |s|
  {
    var x :| x in s;
    if s == {x} {
      assert IsLeast(less, x, s);
    } else {
      var rest := s - {x};
      assert s == rest + {x};
      LeastExists(less, rest);
      var m :| IsLeast(less, m, rest);
      assert IsLeast(less, if less(x, m) then x else m, s);
    }
  }

  /** The elements of `s`, least first. */
  function Ascending<T(!new, ==)>(less: (T, T) -> bool, s: set<T>): (q: seq<T>)
    requires TotalOrder(less)
    ensures forall x :: x in q <==> x in s
    ensures |q| == |s|
    decreases |s|
  {
    if s == {} then []
    else
      LeastExists(less, s);
      assert exists least :: least in s && forall x | x in s :: x == least || less(least, x) by {
        var least :| IsLeast(less, least, s);
      }
      var least :| least in s && forall x | x in s :: x == least || less(least, x);
      [least] + Ascending(less, s - {least})
  }

  lemma {:induction false} AscendingAscends<T(!new)>(less: (T, T) -> bool, s: set<T>)
    requires TotalOrder(less)
    ensures Ascends(less, Ascending(less, s)) && NoDuplicates(Ascending(less, s))
    decreases |s|
  {
    if s != {} {
      var q := Ascending(less, s);
      assert q[1..] == Ascending(less, s - {q[0]});
      AscendingAscends(less, s - {q[0]});
      forall j | 0 < j < |q| ensures less(q[0], q[j]) && q[0] != q[j] {
        assert q[j] == q[1..][j - 1] && q[1..][j - 1] in s - {q[0]};
      }
      forall i, j | 0 <= i < j < |q| ensures less(q[i], q[j]) && q[i] != q[j] {
        if i > 0 {
          assert q[i] == q[1..][i - 1] && q[j] == q[1..][j - 1];
        }
      }
    }
  }

  /** A set has one ascending enumeration. */
  lemma {:induction false} AscendingIsUnique<T(!new)>(less: (T, T) -> bool, p: seq<T>, q: seq<T>)
    requires TotalOrder(less) && Ascends(less, p) && Ascends(less, q)
    requires forall x :: x in p <==> x in q
    ensures p == q
    decreases |p|
  {
    if p == [] {
      assert forall i | 0 <= i < |q| :: q[i] in q;
    } else {
      assert p[0] in q;
      assert q != [] && q[0] in p;
      assert p[0] == q[0];
      forall x ensures x in p[1..] <==> x in q[1..] {
        if x in p[1..] { assert x in p && x != p[0]; assert x in q; }
        if x in q[1..] { assert x in q && x != q[0]; assert x in p; }
      }
      AscendingIsUnique(less, p[1..], q[1..]);
      assert p == [p[0]] + p[1..] && q == [q[0]] + q[1..];
    }
  }

  /** Byte-wise order of names. */
  predicate NameLess(a: string, b: string) {
    if b == [] then false
    else if a == [] then true
    else a[0] < b[0] || (a[0] == b[0] && NameLess(a[1..], b[1..]))
  }

  lemma {:induction false} NameLessIrreflexive(a: string)
    ensures !NameLess(a, a)
  {
    if a != [] { NameLessIrreflexive(a[1..]); }
  }

  lemma {:induction false} NameLessTransitive(a: string, b: string, c: string)
    requires NameLess(a, b) && NameLess(b, c)
    ensures NameLess(a, c)
  {
    if a != [] && a[0] == b[0] && b[0] == c[0] {
      NameLessTransitive(a[1..], b[1..], c[1..]);
    }
  }

  lemma {:induction false} NameLessConnected(a: string, b: string)
    ensures a == b || NameLess(a, b) || NameLess(b, a)
  {
    if a != [] && b != [] && a[0] == b[0] {
      NameLessConnected(a[1..], b[1..]);
      assert a == [a[0]] + a[1..] && b == [b[0]] + b[1..];
    }
  }

  lemma NamesAreOrdered()
    ensures TotalOrder(NameLess)
  {
    forall a ensures !NameLess(a, a) { NameLessIrreflexive(a); }
    forall a, b, c | NameLess(a, b) && NameLess(b, c) ensures NameLess(a, c) { NameLessTransitive(a, b, c); }
    forall a, b ensures a == b || NameLess(a, b) || NameLess(b, a) { NameLessConnected(a, b); }
  }

  /** A topic partition. */
  type PartitionKey = (string, int)

  predicate KeyLess(a: PartitionKey, b: PartitionKey) {
    NameLess(a.0, b.0) || (a.0 == b.0 && a.1 < b.1)
  }

  lemma KeysAreOrdered()
    ensures TotalOrder(KeyLess)
  {
    NamesAreOrdered();
  }

  /** The names of `s` in order. */
  function SortedNames(s: set<string>): (q: seq<string>)
    ensures NoDuplicates(q)
    ensures forall x :: x in q <==> x in s
    ensures |q| == |s|
  {
    NamesAreOrdered();
    AscendingAscends(NameLess, s);
    Ascending(NameLess, s)
  }

  lemma SortedNamesAscend(s: set<string>)
    ensures Ascends(NameLess, SortedNames(s))
  {
    NamesAreOrdered();
    AscendingAscends(NameLess, s);
  }

  /** The partitions of `s` in order. */
  function SortedKeys(s: set<PartitionKey>): (q: seq<PartitionKey>)
    ensures NoDuplicates(q)
    ensures forall x :: x in q <==> x in s
    ensures |q| == |s|
  {
    KeysAreOrdered();
    AscendingAscends(KeyLess, s);
    Ascending(KeyLess, s)
  }

  lemma SortedKeysAscend(s: set<PartitionKey>)
    ensures Ascends(KeyLess, SortedKeys(s))
  {
    KeysAreOrdered();
    AscendingAscends(KeyLess, s);
  }
}
