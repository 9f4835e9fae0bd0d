/** Sorted runs of records: what a memtable holds and a table file stores. */
module Runs {
  import opened Common
  import opened Codec

  ghost predicate Sorted(rs: seq<Rec>) {
    forall i, j :: 0 <= i < j < |rs| ==> Less(rs[i].key, rs[j].key)
  }

  /** A run as a finite map from keys to records. */
  function LayerOf(rs: seq<Rec>): map<Bytes, Rec> {
    if rs == [] then map[] else LayerOf(rs[1..])[rs[0].key := rs[0]]
  }

  function Find(rs: seq<Rec>, key: Bytes): Option<Rec> {
    if key in LayerOf(rs) then Some(LayerOf(rs)[key]) else None
  }

  lemma {:induction false} LayerHolds(rs: seq<Rec>, key: Bytes)
    ensures key in LayerOf(rs) <==> exists i :: 0 <= i < |rs| && rs[i].key == key
    ensures key in LayerOf(rs) ==> LayerOf(rs)[key] in rs && LayerOf(rs)[key].key == key
  {
    if rs != [] {
      LayerHolds(rs[1..], key);
      if key in LayerOf(rs[1..]) {
        var i :| 0 <= i < |rs[1..]| && rs[1..][i].key == key;
        assert rs[i + 1].key == key;
      }
      if i :| 0 <= i < |rs| && rs[i].key == key {
        assert i > 0 ==> rs[1..][i - 1].key == key;
      }
    }
  }

  lemma {:induction false} LayerAt(rs: seq<Rec>, i: nat)
    requires Sorted(rs) && i < |rs|
    ensures rs[i].key in LayerOf(rs) && LayerOf(rs)[rs[i].key] == rs[i]
  {
    if i > 0 {
      assert rs[1..][i - 1] == rs[i];
      LayerAt(rs[1..], i - 1);
      LessAsymmetric(rs[0].key, rs[i].key);
    }
  }

  /** Two sorted runs with the same content are the same run. */
  lemma {:induction false} SortedUnique(a: seq<Rec>, b: seq<Rec>)
    requires Sorted(a) && Sorted(b) && LayerOf(a) == LayerOf(b)
    ensures a == b
    decreases |a|
  {
    if a == [] {
      if b != [] { LayerAt(b, 0); }
    } else if b == [] {
      LayerAt(a, 0);
    } else {
      SameHead(a, b);
      RestLayer(a);
      RestLayer(b);
      SortedUnique(a[1..], b[1..]);
      assert a == [a[0]] + a[1..] && b == [b[0]] + b[1..];
    }
  }

  lemma SameHead(a: seq<Rec>, b: seq<Rec>)
    requires Sorted(a) && Sorted(b) && LayerOf(a) == LayerOf(b) && a != [] && b != []
    ensures a[0] == b[0]
  {
    LayerAt(a, 0);
    LayerAt(b, 0);
    LayerHolds(b, a[0].key);
    LayerHolds(a, b[0].key);
    var i :| 0 <= i < |b| && b[i].key == a[0].key;
    var j :| 0 <= j < |a| && a[j].key == b[0].key;
    if i > 0 && j > 0 {
      LessAsymmetric(b[0].key, b[i].key);
    }
  }

  lemma RestLayer(rs: seq<Rec>)
    requires Sorted(rs) && rs != []
    ensures LayerOf(rs[1..]) == LayerOf(rs) - {rs[0].key}
    ensures Sorted(rs[1..])
  {
    hide Less;
    var rest, key := rs[1..], rs[0].key;
    forall i | 0 <= i < |rest|
      ensures rest[i].key != key
    {
      LessAsymmetric(key, rs[i + 1].key);
    }
    assert LayerOf(rs) == LayerOf(rest)[key := rs[0]];
    hide LayerOf, Sorted;
    LayerHolds(rest, key);
  }

  // ---- one write ----

  /** The run with `r` put in its place, over any record of the same key. */
  function Upsert(rs: seq<Rec>, r: Rec): (u: seq<Rec>)
    ensures u != []
  {
    if rs == [] then [r]
    else if Less(rs[0].key, r.key) then [rs[0]] + Upsert(rs[1..], r)
    else if rs[0].key == r.key then [r] + rs[1..]
    else [r] + rs
  }

  /** `pos` splits the run: smaller keys before it, the rest from it on. */
  ghost predicate Splits(rs: seq<Rec>, key: Bytes, pos: nat) {
    && pos <= |rs|
    && (forall i :: 0 <= i < pos ==> Less(rs[i].key, key))
    && (forall i :: pos <= i < |rs| ==> !Less(rs[i].key, key))
  }

  lemma PutBehind(x: Rec, rest: seq<Rec>, r: Rec, pos: nat)
    requires pos <= |rest|
    ensures pos < |rest| ==> ([x] + rest)[pos + 1 := r] == [x] + rest[pos := r]
    ensures ([x] + rest)[..pos + 1] == [x] + rest[..pos] && ([x] + rest)[pos + 1..] == rest[pos..]
  {
  }

  lemma UpsertEnds(rs: seq<Rec>, r: Rec)
    ensures rs != [] && Less(rs[0].key, r.key) ==> Upsert(rs, r) == [rs[0]] + Upsert(rs[1..], r)
    ensures rs != [] && !Less(rs[0].key, r.key) && rs[0].key == r.key ==> Upsert(rs, r) == rs[0 := r]
    ensures rs == [] || (!Less(rs[0].key, r.key) && rs[0].key != r.key) ==> Upsert(rs, r) == [r] + rs
  {
    hide Less;
  }

  lemma {:induction false} UpsertAt(rs: seq<Rec>, r: Rec, pos: nat)
    requires Splits(rs, r.key, pos)
    ensures Upsert(rs, r) ==
            if pos < |rs| && rs[pos].key == r.key then rs[pos := r] else rs[..pos] + [r] + rs[pos..]
  {
    hide Less, Upsert;
    UpsertEnds(rs, r);
    if pos > 0 {
      var x, rest := rs[0], rs[1..];
      assert rs == [x] + rest;
      UpsertAt(rest, r, pos - 1);
      PutBehind(x, rest, r, pos - 1);
      Associative([x], rest[..pos - 1], [r]);
      Associative([x], rest[..pos - 1] + [r], rest[pos - 1..]);
    } else {
      assert rs[..0] + [r] + rs[0..] == [r] + rs;
    }
  }

  lemma FindAt(rs: seq<Rec>, key: Bytes, pos: nat)
    requires Sorted(rs) && Splits(rs, key, pos)
    ensures Find(rs, key) == if pos < |rs| && rs[pos].key == key then Some(rs[pos]) else None
  {
    LayerHolds(rs, key);
    LessIrreflexive(key);
    if i :| 0 <= i < |rs| && rs[i].key == key {
      LayerAt(rs, i);
    }
  }

  lemma {:induction false} UpsertLayer(rs: seq<Rec>, r: Rec)
    requires Sorted(rs)
    ensures LayerOf(Upsert(rs, r)) == LayerOf(rs)[r.key := r]
  {
    if rs != [] {
      if Less(rs[0].key, r.key) {
        LessAsymmetric(rs[0].key, r.key);
        UpsertLayer(rs[1..], r);
        assert Upsert(rs, r)[1..] == Upsert(rs[1..], r);
      } else if rs[0].key == r.key {
        assert ([r] + rs[1..])[1..] == rs[1..];
      } else {
        assert ([r] + rs)[1..] == rs;
      }
    }
  }

  lemma {:induction false} UpsertSorted(rs: seq<Rec>, r: Rec)
    requires Sorted(rs)
    ensures Sorted(Upsert(rs, r))
    ensures forall x :: x in Upsert(rs, r) ==> x == r || x in rs
  {
    if rs != [] {
      if Less(rs[0].key, r.key) {
        UpsertSorted(rs[1..], r);
        forall x | x in Upsert(rs[1..], r)
          ensures Less(rs[0].key, x.key)
        {
        }
      } else if rs[0].key != r.key {
        LessTotal(rs[0].key, r.key);
        forall j | 0 <= j < |rs|
          ensures Less(r.key, rs[j].key)
        {
          if j > 0 { LessTransitive(r.key, rs[0].key, rs[j].key); }
        }
      }
    }
  }

  // ---- parts of a run ----

  /** The records at or after `from`. */
  function From(rs: seq<Rec>, from: Bytes): seq<Rec> {
    if rs == [] then []
    else if Less(rs[0].key, from) then From(rs[1..], from)
    else rs
  }

  lemma {:induction false} FromAt(rs: seq<Rec>, from: Bytes, pos: nat)
    requires Splits(rs, from, pos)
    ensures From(rs, from) == rs[pos..]
  {
    if pos > 0 {
      FromAt(rs[1..], from, pos - 1);
    }
  }

  /** In a sorted run, `From` is everything at or after `from`, and sorted. */
  lemma {:induction false} FromKeeps(rs: seq<Rec>, from: Bytes)
    requires Sorted(rs)
    ensures Sorted(From(rs, from))
    ensures forall x :: x in From(rs, from) <==> x in rs && !Less(x.key, from)
    ensures LayerOf(From(rs, from)) == map k | k in LayerOf(rs) && !Less(k, from) :: LayerOf(rs)[k]
  {
    if rs != [] {
      if Less(rs[0].key, from) {
        FromKeeps(rs[1..], from);
        RestLayer(rs);
      } else {
        forall i | 0 <= i < |rs|
          ensures !Less(rs[i].key, from)
        {
          if i > 0 && Less(rs[i].key, from) {
            LessTransitive(rs[0].key, rs[i].key, from);
          }
        }
        forall k | k in LayerOf(rs)
          ensures !Less(k, from)
        {
          LayerHolds(rs, k);
        }
      }
    }
  }

  /** The records that are not tombstones. */
  function Live(rs: seq<Rec>): seq<Rec> {
    if rs == [] then []
    else if rs[0].tomb then Live(rs[1..])
    else [rs[0]] + Live(rs[1..])
  }

  lemma {:induction false} LiveMembers(rs: seq<Rec>)
    ensures forall x :: x in Live(rs) <==> x in rs && !x.tomb
  {
    if rs != [] {
      LiveMembers(rs[1..]);
      assert rs == [rs[0]] + rs[1..];
    }
  }

  lemma {:induction false} LiveSorted(rs: seq<Rec>)
    requires Sorted(rs)
    ensures Sorted(Live(rs))
  {
    if rs != [] {
      LiveSorted(rs[1..]);
      LiveMembers(rs[1..]);
      forall x | x in rs[1..]
        ensures Less(rs[0].key, x.key)
      {
      }
    }
  }

  lemma {:induction false} LiveLayer(rs: seq<Rec>)
    requires Sorted(rs)
    ensures LayerOf(Live(rs)) == map k | k in LayerOf(rs) && !LayerOf(rs)[k].tomb :: LayerOf(rs)[k]
  {
    if rs != [] {
      LiveLayer(rs[1..]);
      RestLayer(rs);
      if !rs[0].tomb {
        assert Live(rs)[1..] == Live(rs[1..]);
      }
    }
  }

  lemma HandOver(rs: seq<Rec>, left: seq<Rec>)
    requires left != []
    ensures (rs + [left[0]]) + left[1..] == rs + left
  {
  }
}
