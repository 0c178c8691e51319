/** The `host:port` address that names a node, with the IPv6 brackets of section 3.2.2 of RFC 3986. */
module HostPort {

  /** A node as the answers of the cluster name it. */
  datatype NodeRow = NodeRow(nodeId: int, host: string, port: int)

  predicate IsBareV6(host: string) {
    ':' in host && host[0] != '['
  }

  function Bracketed(host: string): string {
    if IsBareV6(host) then "[" + host + "]" else host
  }

  function Digits(n: nat): (s: string)
    ensures s != []
    ensures |s| == 1 <==> n < 10
  {
    if n < 10 then [('0' as int + n) as char] else Digits(n / 10) + [('0' as int + n % 10) as char]
  }

  function Decimal(n: int): string {
    if n < 0 then "-" + Digits(-n) else Digits(n)
  }

  function FormatHostPort(host: string, port: int): string {
    Bracketed(host) + ":" + Decimal(port)
  }

  lemma {:induction false} DigitsAreDigits(n: nat)
    ensures forall c | c in Digits(n) :: '0' <= c <= '9'
  {
    if n >= 10 { DigitsAreDigits(n / 10); }
  }

  lemma {:induction false} DigitsInjective(m: nat, n: nat)
    requires Digits(m) == Digits(n)
    ensures m == n
    decreases m + n
  {
    var p, q := Digits(m), Digits(n);
    assert p[|p| - 1] == q[|q| - 1];
    if m >= 10 {
      assert Digits(m / 10) == p[..|p| - 1] && Digits(n / 10) == q[..|q| - 1];
      DigitsInjective(m / 10, n / 10);
    }
  }

  lemma SignShows(n: int)
    ensures Decimal(n) != [] && (Decimal(n)[0] == '-' <==> n < 0)
  {
    DigitsAreDigits(if n < 0 then -n else n);
    if n >= 0 { assert Decimal(n)[0] in Digits(n); }
  }

  lemma DecimalInjective(m: int, n: int)
    requires Decimal(m) == Decimal(n)
    ensures m == n
  {
    SignShows(m);
    SignShows(n);
    if m < 0 {
      assert Digits(-m) == Decimal(m)[1..] && Digits(-n) == Decimal(n)[1..];
      DigitsInjective(-m, -n);
    } else {
      DigitsInjective(m, n);
    }
  }

  lemma NoColonInDecimal(n: int)
    ensures ':' !in Decimal(n)
  {
    DigitsAreDigits(if n < 0 then -n else n);
  }

  /** The position of the last colon, or -1. */
  function LastColon(s: string): int {
    if s == [] then -1 else if s[|s| - 1] == ':' then |s| - 1 else LastColon(s[..|s| - 1])
  }

  lemma {:induction false} LastColonAt(a: string, b: string)
    requires ':' !in b
    ensures LastColon(a + ":" + b) == |a|
  {
    var s := a + ":" + b;
    if b != [] {
      assert s[|s| - 1] == b[|b| - 1];
      assert s[..|s| - 1] == a + ":" + b[..|b| - 1];
      LastColonAt(a, b[..|b| - 1]);
    }
  }

  /** The last colon of an address splits it. */
  lemma LastColonSplits(a: string, b: string, c: string, d: string)
    requires ':' !in b && ':' !in d && a + ":" + b == c + ":" + d
    ensures a == c && b == d
  {
    LastColonAt(a, b);
    LastColonAt(c, d);
    assert a == (a + ":" + b)[..|a|] && c == (c + ":" + d)[..|a|];
    assert b == (a + ":" + b)[|a| + 1..] && d == (c + ":" + d)[|a| + 1..];
  }

  lemma BracketedAgree(h: string, k: string)
    ensures Bracketed(h) == Bracketed(k) <==>
            h == k || (IsBareV6(h) && k == "[" + h + "]") || (IsBareV6(k) && h == "[" + k + "]")
  {
    if Bracketed(h) == Bracketed(k) && IsBareV6(h) && IsBareV6(k) {
      assert h == Bracketed(h)[1..|h| + 1] && k == Bracketed(k)[1..|k| + 1];
    }
  }

  /** Two endpoints have one address exactly when their ports agree and their hosts agree up to the
      brackets around a bare IPv6 address. */
  lemma AddressesAgree(h: string, p: int, k: string, q: int)
    ensures FormatHostPort(h, p) == FormatHostPort(k, q) <==>
            p == q &&
            (h == k || (IsBareV6(h) && k == "[" + h + "]") || (IsBareV6(k) && h == "[" + k + "]"))
  {
    BracketedAgree(h, k);
    if FormatHostPort(h, p) == FormatHostPort(k, q) {
      NoColonInDecimal(p);
      NoColonInDecimal(q);
      LastColonSplits(Bracketed(h), Decimal(p), Bracketed(k), Decimal(q));
      DecimalInjective(p, q);
    }
  }
}
