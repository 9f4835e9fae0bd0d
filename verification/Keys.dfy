/** Fixed-width big-endian keys, which sort as the numbers they stand for. */
module Keys {
  import opened Common

  /** How many numbers fit `w` bytes. */
  function Exp256(w: nat): (n: nat)
    ensures n >= 1
  {
    if w == 0 then 1 else 256 * Exp256(w - 1)
  }

  function BigEndian(n: nat, w: nat): (b: Bytes)
    requires n < Exp256(w)
    ensures |b| == w
  {
    if w == 0 then [] else BigEndian(n / 256, w - 1) + [n % 256]
  }

  lemma {:induction false} LastByteOrder(a: Bytes, b: Bytes, x: Byte, y: Byte)
    requires |a| == |b|
    ensures Less(a + [x], b + [y]) <==> Less(a, b) || (a == b && x < y)
  {
    if a != [] {
      LastByteOrder(a[1..], b[1..], x, y);
      assert (a + [x])[1..] == a[1..] + [x] && (b + [y])[1..] == b[1..] + [y];
      assert a == [a[0]] + a[1..] && b == [b[0]] + b[1..];
    }
  }

  /** Byte order is number order, and different numbers have different keys. */
  lemma {:induction false} BigEndianOrder(a: nat, b: nat, w: nat)
    requires a < Exp256(w) && b < Exp256(w)
    ensures Less(BigEndian(a, w), BigEndian(b, w)) <==> a < b
    ensures BigEndian(a, w) == BigEndian(b, w) <==> a == b
  {
    hide Less;
    if w == 0 {
      LessIrreflexive([]);
    } else {
      BigEndianOrder(a / 256, b / 256, w - 1);
      var p, q := BigEndian(a / 256, w - 1), BigEndian(b / 256, w - 1);
      LastByteOrder(p, q, a % 256, b % 256);
      var x, y: Bytes := p + [a % 256], q + [b % 256];
      assert x[..w - 1] == p && y[..w - 1] == q && x[w - 1] == a % 256 && y[w - 1] == b % 256;
    }
  }

  lemma {:induction false} PrefixOrder(p: Bytes, a: Bytes, b: Bytes)
    ensures Less(p + a, p + b) <==> Less(a, b)
  {
    if p == [] {
      assert p + a == a && p + b == b;
    } else {
      PrefixOrder(p[1..], a, b);
      assert (p + a)[1..] == p[1..] + a && (p + b)[1..] == p[1..] + b;
    }
  }

  // ---- the keys of a store, in the order of a scan ----

  ghost predicate Ascending(ks: seq<nat>) {
    forall i, j :: 0 <= i < j < |ks| ==> ks[i] < ks[j]
  }

  predicate IsLeast(s: set<nat>, k: nat) {
    k in s && forall j :: j in s ==> k <= j
  }

  lemma {:induction false} LeastExists(s: set<nat>)
    requires s != {}
    ensures exists k :: k in s && IsLeast(s, k)
    decreases |s|
  {
    var k :| k in s;
    var rest := s - {k};
    if rest == {} {
      assert s == {k};
      assert IsLeast(s, k);
    } else {
      LeastExists(rest);
      var m :| m in rest && IsLeast(rest, m);
      var least := if k <= m then k else m;
      forall j | j in s
        ensures least <= j
      {
        assert j == k || j in rest;
      }
      assert IsLeast(s, least);
    }
  }

  /** The keys from `from` on, in the order of a scan. */
  method Scan(keys: set<nat>, from: nat) returns (ks: seq<nat>)
    ensures Ascending(ks) && forall k :: k in ks <==> k in keys && from <= k
  {
    var rest := set k | k in keys && from <= k;
    ks := [];
    ghost var all := rest;
    while rest != {}
      invariant Ascending(ks) && Split(all, ks, rest)
      decreases |rest|
    {
      LeastExists(rest);
      var k :| k in rest && IsLeast(rest, k);
      TakeLeast(all, ks, rest, k);
      ks, rest := ks + [k], rest - {k};
    }
  }

  /** `ks` is the lower part of `all`, `rest` the upper. */
  ghost predicate Split(all: set<nat>, ks: seq<nat>, rest: set<nat>) {
    && (forall k :: k in all <==> k in ks || k in rest)
    && (forall i, k :: 0 <= i < |ks| && k in rest ==> ks[i] < k)
  }

  lemma TakeLeast(all: set<nat>, ks: seq<nat>, rest: set<nat>, k: nat)
    requires Ascending(ks) && Split(all, ks, rest) && IsLeast(rest, k)
    ensures Ascending(ks + [k]) && Split(all, ks + [k], rest - {k})
  {
  }

  lemma {:induction false} InOrderUnique(a: seq<nat>, b: seq<nat>)
    requires Ascending(a) && Ascending(b) && forall k :: k in a <==> k in b
    ensures a == b
    decreases |a|
  {
    assert b != [] ==> b[0] in b;
    if a != [] {
      assert a[0] in b && b[0] in a;
      forall k
        ensures k in a[1..] <==> k in b[1..]
      {
        assert k in a <==> k == a[0] || k in a[1..];
        assert k in b <==> k == b[0] || k in b[1..];
      }
      InOrderUnique(a[1..], b[1..]);
      assert a == [a[0]] + a[1..] && b == [b[0]] + b[1..];
    }
  }
}
