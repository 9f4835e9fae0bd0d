/** The k-way merge behind scans and compactions: several sorted runs, newest first, read
    as one, the newest record of a key hiding the older ones. */
module Merge {
  import opened Common
  import opened Codec
  import opened Runs

  // ---- what a merge yields ----

  /** Two runs as one; on equal keys the first run's record wins and the other is used up. */
  function Merge2(newer: seq<Rec>, older: seq<Rec>): seq<Rec> {
    if newer == [] then older
    else if older == [] then newer
    else if Less(older[0].key, newer[0].key) then [older[0]] + Merge2(newer, older[1..])
    else if older[0].key == newer[0].key then [newer[0]] + Merge2(newer[1..], older[1..])
    else [newer[0]] + Merge2(newer[1..], older)
  }

  function MergeAll(runs: seq<seq<Rec>>): seq<Rec> {
    if runs == [] then [] else Merge2(runs[0], MergeAll(runs[1..]))
  }

  /** The layers as one map, earlier runs over later ones. */
  function Overlay(runs: seq<seq<Rec>>): map<Bytes, Rec> {
    if runs == [] then map[] else Overlay(runs[1..]) + LayerOf(runs[0])
  }

  ghost predicate AllSorted(runs: seq<seq<Rec>>) {
    forall i :: 0 <= i < |runs| ==> Sorted(runs[i])
  }

  lemma {:induction false} Merge2Members(a: seq<Rec>, b: seq<Rec>)
    ensures forall x :: x in Merge2(a, b) ==> x in a || x in b
    decreases |a| + |b|
  {
    if a != [] && b != [] {
      if Less(b[0].key, a[0].key) {
        Merge2Members(a, b[1..]);
      } else if b[0].key == a[0].key {
        Merge2Members(a[1..], b[1..]);
      } else {
        Merge2Members(a[1..], b);
      }
    }
  }

  lemma {:induction false} MergeMembers(runs: seq<seq<Rec>>)
    ensures forall x :: x in MergeAll(runs) ==> exists i :: 0 <= i < |runs| && x in runs[i]
  {
    if runs != [] {
      MergeMembers(runs[1..]);
      Merge2Members(runs[0], MergeAll(runs[1..]));
      forall x | x in MergeAll(runs)
        ensures exists i :: 0 <= i < |runs| && x in runs[i]
      {
        if x !in runs[0] {
          var i :| 0 <= i < |runs[1..]| && x in runs[1..][i];
          assert x in runs[i + 1];
        }
      }
    }
  }

  /** A key in front of a sorted run comes before every key of it. */
  lemma BeforeAll(k: Bytes, rs: seq<Rec>)
    requires Sorted(rs) && (rs != [] ==> Less(k, rs[0].key))
    ensures forall x :: x in rs ==> Less(k, x.key)
  {
    forall i | 0 <= i < |rs|
      ensures Less(k, rs[i].key)
    {
      if i > 0 { LessTransitive(k, rs[0].key, rs[i].key); }
    }
  }

  lemma NotIn(k: Bytes, rs: seq<Rec>)
    requires forall x :: x in rs ==> Less(k, x.key)
    ensures k !in LayerOf(rs)
  {
    LessIrreflexive(k);
    LayerHolds(rs, k);
  }

  lemma ConsSorted(x: Rec, rs: seq<Rec>)
    requires Sorted(rs) && forall y :: y in rs ==> Less(x.key, y.key)
    ensures Sorted([x] + rs) && LayerOf([x] + rs) == LayerOf(rs)[x.key := x]
  {
    assert ([x] + rs)[1..] == rs;
  }

  lemma Uncons(rs: seq<Rec>)
    requires Sorted(rs) && rs != []
    ensures Sorted(rs[1..]) && LayerOf(rs) == LayerOf(rs[1..])[rs[0].key := rs[0]]
    ensures forall x :: x in rs[1..] ==> Less(rs[0].key, x.key)
  {
  }

  /** Laying maps over one another, one of them changed at one key. */
  lemma LaidOver<K, V>(older: map<K, V>, newer: map<K, V>, k: K, x: V, y: V)
    ensures k !in newer ==> older[k := x] + newer == (older + newer)[k := x]
    ensures older + newer[k := x] == (older + newer)[k := x] == older[k := y] + newer[k := x]
  {
  }

  /** Merging two sorted runs gives the sorted run of the one layer laid over the other. */
  lemma {:induction false} Merge2Layers(a: seq<Rec>, b: seq<Rec>)
    requires Sorted(a) && Sorted(b)
    ensures Sorted(Merge2(a, b)) && LayerOf(Merge2(a, b)) == LayerOf(b) + LayerOf(a)
    decreases |a| + |b|
  {
    hide Less, Sorted;
    if a == [] || b == [] {
      assert LayerOf([]) == map[];
    } else {
      hide LayerOf;
      LessTotal(a[0].key, b[0].key);
      Uncons(a);
      Uncons(b);
      var at, bt, x, y := a[1..], b[1..], a[0], b[0];
      if Less(y.key, x.key) {
        Merge2Layers(a, bt);
        Merge2Members(a, bt);
        BeforeAll(y.key, a);
        NotIn(y.key, a);
        ConsSorted(y, Merge2(a, bt));
        LaidOver(LayerOf(bt), LayerOf(a), y.key, y, y);
      } else if y.key == x.key {
        Merge2Layers(at, bt);
        Merge2Members(at, bt);
        ConsSorted(x, Merge2(at, bt));
        LaidOver(LayerOf(bt), LayerOf(at), x.key, x, y);
      } else {
        Merge2Layers(at, b);
        Merge2Members(at, b);
        BeforeAll(x.key, b);
        ConsSorted(x, Merge2(at, b));
        LaidOver(LayerOf(b), LayerOf(at), x.key, x, x);
      }
    }
  }

  /** What a merge of sorted runs yields: strictly ascending keys, and for each key of any
      run the record of the newest run that has it. */
  lemma {:induction false} MergeLayers(runs: seq<seq<Rec>>)
    requires AllSorted(runs)
    ensures Sorted(MergeAll(runs)) && LayerOf(MergeAll(runs)) == Overlay(runs)
  {
    if runs != [] {
      MergeLayers(runs[1..]);
      Merge2Layers(runs[0], MergeAll(runs[1..]));
    }
  }

  /** The overlay holds, for each key, the record of the first run that has one. */
  lemma {:induction false} NewestWins(runs: seq<seq<Rec>>, key: Bytes)
    ensures key in Overlay(runs) <==> exists i :: 0 <= i < |runs| && key in LayerOf(runs[i])
    ensures forall i :: 0 <= i < |runs| && key in LayerOf(runs[i]) && (forall j :: 0 <= j < i ==> key !in LayerOf(runs[j])) ==>
              Overlay(runs)[key] == LayerOf(runs[i])[key]
  {
    if runs != [] {
      NewestWins(runs[1..], key);
      if key in LayerOf(runs[0]) {
        assert 0 <= 0 < |runs|;
      }
      if i :| 0 <= i < |runs[1..]| && key in LayerOf(runs[1..][i]) {
        assert key in LayerOf(runs[i + 1]);
      }
      forall i | 0 <= i < |runs| && key in LayerOf(runs[i]) && (forall j :: 0 <= j < i ==> key !in LayerOf(runs[j]))
        ensures Overlay(runs)[key] == LayerOf(runs[i])[key]
      {
        if i > 0 {
          assert runs[1..][i - 1] == runs[i];
          assert forall j :: 0 <= j < i - 1 ==> runs[1..][j] == runs[j + 1];
        }
      }
      if i :| 0 <= i < |runs| && key in LayerOf(runs[i]) {
        assert i > 0 ==> runs[1..][i - 1] == runs[i];
      }
    }
  }

  // ---- one step of the merge ----

  /** The run whose head comes next: the least key, the newest run of that key. */
  ghost predicate IsBest(runs: seq<seq<Rec>>, best: nat) {
    && best < |runs| && runs[best] != []
    && (forall i :: 0 <= i < best && runs[i] != [] ==> Less(runs[best][0].key, runs[i][0].key))
    && (forall i :: best <= i < |runs| && runs[i] != [] ==> !Less(runs[i][0].key, runs[best][0].key))
  }

  /** The run without its head, if that has this key. */
  function Skip(rs: seq<Rec>, key: Bytes): seq<Rec> {
    if rs != [] && rs[0].key == key then rs[1..] else rs
  }

  function SkipAll(runs: seq<seq<Rec>>, key: Bytes): (s: seq<seq<Rec>>)
    ensures |s| == |runs| && forall i :: 0 <= i < |runs| ==> s[i] == Skip(runs[i], key)
  {
    seq(|runs|, i requires 0 <= i < |runs| => Skip(runs[i], key))
  }

  lemma SkipAllTail(runs: seq<seq<Rec>>, key: Bytes)
    requires runs != []
    ensures SkipAll(runs, key)[1..] == SkipAll(runs[1..], key)
  {
  }

  lemma SkipNothing(runs: seq<seq<Rec>>, key: Bytes)
    requires forall i :: 0 <= i < |runs| && runs[i] != [] ==> runs[i][0].key != key
    ensures SkipAll(runs, key) == runs
  {
  }

  lemma {:induction false} NothingLeft(runs: seq<seq<Rec>>)
    requires forall i :: 0 <= i < |runs| ==> runs[i] == []
    ensures MergeAll(runs) == []
  {
    if runs != [] {
      NothingLeft(runs[1..]);
    }
  }

  lemma NotLessTransitive(a: Bytes, b: Bytes, c: Bytes)
    requires !Less(a, b) && !Less(b, c)
    ensures !Less(a, c)
  {
    LessTotal(a, b);
    LessTotal(b, c);
    if Less(a, c) && a != b && b != c {
      LessTransitive(a, c, b);
    }
  }

  /** No head is below `key`. */
  ghost predicate HeadsFrom(runs: seq<seq<Rec>>, key: Bytes) {
    forall i :: 0 <= i < |runs| && runs[i] != [] ==> !Less(runs[i][0].key, key)
  }

  lemma {:induction false} FirstFrom(runs: seq<seq<Rec>>, key: Bytes)
    requires HeadsFrom(runs, key)
    ensures MergeAll(runs) != [] ==> !Less(MergeAll(runs)[0].key, key)
  {
    if runs != [] {
      assert forall i :: 0 <= i < |runs[1..]| ==> runs[1..][i] == runs[i + 1];
      FirstFrom(runs[1..], key);
    }
  }

  /** The first record of a merge is below no head. */
  lemma {:induction false} FirstIsLeast(runs: seq<seq<Rec>>)
    requires MergeAll(runs) != []
    ensures HeadsFrom(runs, MergeAll(runs)[0].key)
  {
    hide Less;
    var rest, key := runs[1..], MergeAll(runs)[0].key;
    var m := MergeAll(rest);
    if m != [] {
      FirstIsLeast(rest);
      LessIrreflexive(key);
      if m[0].key != key { LessTotal(key, m[0].key); LessAsymmetric(key, m[0].key); }
    }
    forall i | 0 <= i < |runs| && runs[i] != []
      ensures !Less(runs[i][0].key, key)
    {
      if i > 0 {
        assert runs[i] == rest[i - 1];
        if m == [] {
          EmptyMerge(rest);
        } else {
          NotLessTransitive(runs[i][0].key, m[0].key, key);
        }
      } else {
        LessIrreflexive(key);
        if m != [] && Less(m[0].key, runs[0][0].key) {
          LessAsymmetric(m[0].key, runs[0][0].key);
        }
      }
    }
  }

  lemma {:induction false} EmptyMerge(runs: seq<seq<Rec>>)
    requires MergeAll(runs) == []
    ensures forall i :: 0 <= i < |runs| ==> runs[i] == []
  {
    if runs != [] {
      EmptyMerge(runs[1..]);
      assert forall i :: 0 < i < |runs| ==> runs[i] == runs[1..][i - 1];
    }
  }

  lemma {:induction false} BestIsFirst(runs: seq<seq<Rec>>, best: nat)
    requires IsBest(runs, best)
    ensures MergeAll(runs) != [] && MergeAll(runs)[0] == runs[best][0]
  {
    hide Less;
    var rest := runs[1..];
    assert forall i :: 0 <= i < |rest| ==> rest[i] == runs[i + 1];
    if best == 0 {
      FirstFrom(rest, runs[0][0].key);
    } else {
      BestIsFirst(rest, best - 1);
    }
  }

  /** Taking the best head, and dropping it from every run that has its key, is taking the
      first record of the merge. */
  lemma MergeStep(runs: seq<seq<Rec>>, best: nat)
    requires IsBest(runs, best)
    ensures MergeAll(runs) == [runs[best][0]] + MergeAll(SkipAll(runs, runs[best][0].key))
  {
    hide MergeAll, IsBest;
    BestIsFirst(runs, best);
    MergeTail(runs);
  }

  lemma {:induction false} MergeTail(runs: seq<seq<Rec>>)
    requires MergeAll(runs) != []
    ensures MergeAll(SkipAll(runs, MergeAll(runs)[0].key)) == MergeAll(runs)[1..]
  {
    hide Less;
    var rest, key := runs[1..], MergeAll(runs)[0].key;
    var m := MergeAll(rest);
    SkipAllTail(runs, key);
    if m != [] && m[0].key == key {
      MergeTail(rest);
      LessIrreflexive(key);
    } else if m != [] {
      FirstIsLeast(rest);
      FirstIsLeast(runs);
      FirstFrom(rest, key) by { assert forall i :: 0 <= i < |rest| ==> rest[i] == runs[i + 1]; }
      LessTotal(key, m[0].key);
      SkipNothing(rest, key);
    } else {
      EmptyMerge(rest);
      SkipNothing(rest, key);
    }
  }

  // ---- the iterators ----

  class MergeIter {
    var srcs: seq<seq<Rec>>
    var heads: seq<Option<Rec>>
    var done: seq<bool>

    ghost predicate Valid()
      reads this
    {
      && |srcs| == |heads| == |done|
      && forall i :: 0 <= i < |srcs| && done[i] ==> srcs[i] == [] && heads[i] == None
    }

    /** What each source has not handed on yet. */
    ghost function Pending(): (p: seq<seq<Rec>>)
      reads this
      requires Valid()
    {
      WithHeads(heads, srcs)
    }

    ghost predicate Filled()
      reads this
    {
      Valid() && forall i :: 0 <= i < |srcs| && heads[i] == None ==> srcs[i] == []
    }

    ghost function Rest(): seq<Rec>
      reads this
      requires Valid()
    {
      MergeAll(Pending())
    }

    /** `srcs` is what the sources will hand out, the newest source first. */
    constructor (srcs: seq<seq<Rec>>)
      ensures Valid() && Rest() == MergeAll(srcs)
    {
      this.srcs := srcs;
      heads := seq(|srcs|, _ => None);
      done := seq(|srcs|, _ => false);
      new;
      assert WithHeads(heads, srcs) == srcs;
    }

    /** Draws a record from every source without a head. */
    method FillHeads()
      requires Valid()
      modifies this
      ensures Filled() && Pending() == old(Pending())
    {
      var i := 0;
      while i < |srcs|
        invariant i <= |srcs| && Valid() && Pending() == old(Pending())
        invariant forall j :: 0 <= j < i && heads[j] == None ==> srcs[j] == []
      {
        if heads[i] == None && !done[i] {
          if srcs[i] == [] {
            done := done[i := true];
          } else {
            heads, srcs := heads[i := Some(srcs[i][0])], srcs[i := srcs[i][1..]];
          }
        }
        assert Pending()[i] == old(Pending())[i];
        i := i + 1;
      }
    }

    /** The head with the least key, the newest source on a tie. */
    method Best() returns (best: Option<nat>)
      requires Filled()
      ensures best.None? ==> forall i :: 0 <= i < |srcs| ==> Pending()[i] == []
      ensures best.Some? ==> IsBest(Pending(), best.value) && heads[best.value] == Some(Pending()[best.value][0])
    {
      best := None;
      var i := 0;
      while i < |heads|
        invariant i <= |heads|
        invariant best.None? ==> forall j :: 0 <= j < i ==> heads[j] == None
        invariant best.Some? ==> best.value < i && LeastOf(heads, i, best.value)
      {
        if heads[i].Some? && (best.None? || Less(heads[i].value.key, heads[best.value].value.key)) {
          if best.Some? { NewLeast(heads, i, best.value); }
          LessIrreflexive(heads[i].value.key);
          best := Some(i);
        }
        i := i + 1;
      }
    }

    /** Uses up every head with the key handed out. */
    method Consume(key: Bytes)
      requires Filled()
      modifies this`heads
      ensures Valid() && Pending() == SkipAll(old(Pending()), key)
    {
      var i := 0;
      while i < |heads|
        invariant i <= |heads| == old(|heads|)
        invariant forall j :: 0 <= j < i ==>
                    heads[j] == if old(heads[j]).Some? && old(heads[j]).value.key == key then None else old(heads[j])
        invariant forall j :: i <= j < |heads| ==> heads[j] == old(heads[j])
      {
        if heads[i].Some? && heads[i].value.key == key {
          heads := heads[i := None];
        }
        i := i + 1;
      }
      ghost var was, now := old(Pending()), Pending();
      forall j | 0 <= j < |srcs|
        ensures now[j] == Skip(was[j], key)
      {
      }
    }

    /** Hands out the first record of the merge of what is pending. */
    method Next() returns (r: Option<Rec>)
      requires Valid()
      modifies this
      ensures Valid()
      ensures r == if old(Rest()) == [] then None else Some(old(Rest())[0])
      ensures Rest() == if old(Rest()) == [] then [] else old(Rest())[1..]
    {
      FillHeads();
      var best := Best();
      if best.None? {
        NothingLeft(Pending());
        return None;
      }
      MergeStep(Pending(), best.value);
      r := heads[best.value];
      Consume(r.value.key);
    }
  }

  function WithHead(head: Option<Rec>, rest: seq<Rec>): seq<Rec> {
    if head.Some? then [head.value] + rest else rest
  }

  function WithHeads(heads: seq<Option<Rec>>, srcs: seq<seq<Rec>>): (p: seq<seq<Rec>>)
    requires |heads| == |srcs|
    ensures |p| == |srcs| && forall i :: 0 <= i < |srcs| ==> p[i] == WithHead(heads[i], srcs[i])
  {
    seq(|srcs|, i requires 0 <= i < |srcs| => WithHead(heads[i], srcs[i]))
  }

  /** Among the first `n` heads, the best so far. */
  ghost predicate LeastOf(heads: seq<Option<Rec>>, n: nat, best: nat) {
    && best < n <= |heads| && heads[best].Some?
    && (forall i :: 0 <= i < best && heads[i].Some? ==> Less(heads[best].value.key, heads[i].value.key))
    && (forall i :: best <= i < n && heads[i].Some? ==> !Less(heads[i].value.key, heads[best].value.key))
  }

  lemma NewLeast(heads: seq<Option<Rec>>, n: nat, best: nat)
    requires LeastOf(heads, n, best) && n < |heads| && heads[n].Some? && Less(heads[n].value.key, heads[best].value.key)
    ensures LeastOf(heads, n + 1, n)
  {
    var key := heads[n].value.key;
    LessIrreflexive(key);
    forall i | 0 <= i < n && heads[i].Some?
      ensures Less(key, heads[i].value.key)
    {
      if i < best {
        LessTransitive(key, heads[best].value.key, heads[i].value.key);
      } else {
        NotLessBefore(key, heads[best].value.key, heads[i].value.key);
      }
    }
  }

  /** The merge without its tombstones. */
  class DropTombIter {
    const src: MergeIter

    constructor (src: MergeIter)
      ensures this.src == src
    {
      this.src := src;
    }

    method Next() returns (r: Option<Rec>)
      requires src.Valid()
      modifies src
      ensures src.Valid()
      ensures r == if Live(old(src.Rest())) == [] then None else Some(Live(old(src.Rest()))[0])
      ensures Live(src.Rest()) == if Live(old(src.Rest())) == [] then [] else Live(old(src.Rest()))[1..]
      ensures |src.Rest()| <= |old(src.Rest())| - if r.Some? then 1 else 0
    {
      r := src.Next();
      while r.Some? && r.value.tomb
        invariant src.Valid() && (r.Some? ==> |src.Rest()| < |old(src.Rest())|)
        invariant Live(old(src.Rest())) == if r.Some? && !r.value.tomb then [r.value] + Live(src.Rest()) else Live(src.Rest())
        invariant r.None? ==> src.Rest() == []
        decreases |src.Rest()|, r.Some?
      {
        r := src.Next();
      }
    }
  }

  /** Everything the merge of some sources yields, without the tombstones. */
  method MergeLive(runs: seq<seq<Rec>>) returns (out: seq<Rec>)
    ensures out == Live(MergeAll(runs))
  {
    hide Live, MergeAll;
    var src := new MergeIter(runs);
    var it := new DropTombIter(src);
    out := [];
    while true
      invariant src.Valid() && it.src == src && out + Live(src.Rest()) == Live(MergeAll(runs))
      decreases |src.Rest()|
    {
      ghost var left := Live(src.Rest());
      var r := it.Next();
      if r.None? {
        return;
      }
      HandOver(out, left);
      out := out + [r.value];
    }
  }

  // ---- scanning from a key ----

  function FromAll(runs: seq<seq<Rec>>, from: Bytes): (s: seq<seq<Rec>>)
    ensures |s| == |runs| && forall i :: 0 <= i < |runs| ==> s[i] == From(runs[i], from)
  {
    seq(|runs|, i requires 0 <= i < |runs| => From(runs[i], from))
  }

  /** Starting every source at a key is starting the merge there. */
  lemma {:induction false} MergeFrom(runs: seq<seq<Rec>>, from: Bytes)
    requires AllSorted(runs)
    ensures MergeAll(FromAll(runs, from)) == From(MergeAll(runs), from)
  {
    if runs != [] {
      assert FromAll(runs, from)[1..] == FromAll(runs[1..], from);
      MergeFrom(runs[1..], from);
      MergeLayers(runs[1..]);
      Merge2From(runs[0], MergeAll(runs[1..]), from);
    }
  }

  lemma Merge2From(a: seq<Rec>, b: seq<Rec>, from: Bytes)
    requires Sorted(a) && Sorted(b)
    ensures Merge2(From(a, from), From(b, from)) == From(Merge2(a, b), from)
  {
    hide Less, Sorted, LayerOf, From, Merge2;
    FromKeeps(a, from);
    FromKeeps(b, from);
    Merge2Layers(a, b);
    Merge2Layers(From(a, from), From(b, from));
    FromKeeps(Merge2(a, b), from);
    SortedUnique(Merge2(From(a, from), From(b, from)), From(Merge2(a, b), from));
  }
}
