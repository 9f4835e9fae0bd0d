/** Raft's hard state kept in the storage engine: one record per log entry and one for term and
    vote. A mirror of what is on disk lets a save write only what changed. */
module RaftStore {
  import opened Common
  import opened Keys
  import opened RaftSpec

  datatype Meta = Meta(term: nat, votedFor: Option<Id>)

  /** Record keys: "m", and "e/" with the index in eight bytes. */
  const META_KEY: Bytes := [109]

  function EntryKey(index: nat): Bytes
    requires index < Exp256(8)
  {
    [101, 47] + BigEndian(index, 8)
  }

  /** A scan from "e/" meets the entries in index order and the meta record behind them. */
  lemma KeyOrder(a: nat, b: nat)
    requires a < Exp256(8) && b < Exp256(8)
    ensures Less(EntryKey(a), EntryKey(b)) <==> a < b
    ensures EntryKey(a) == EntryKey(b) <==> a == b
    ensures Less(EntryKey(a), META_KEY) && EntryKey(a) != META_KEY
  {
    BigEndianOrder(a, b, 8);
    PrefixOrder([101, 47], BigEndian(a, 8), BigEndian(b, 8));
    assert EntryKey(a)[2..] == BigEndian(a, 8) && EntryKey(b)[2..] == BigEndian(b, 8);
  }

  /** The entries on disk are exactly this log, from index 1. */
  ghost predicate Mirrors(entries: map<nat, Entry>, log: seq<Entry>) {
    && (forall i :: i in entries <==> 1 <= i <= |log|)
    && (forall i :: 1 <= i <= |log| ==> entries[i] == log[i - 1])
  }

  function CommonPrefix(a: seq<Entry>, b: seq<Entry>): (n: nat)
    ensures n <= |a| && n <= |b| && a[..n] == b[..n]
    ensures n < |a| && n < |b| ==> a[n] != b[n]
  {
    if a == [] || b == [] || a[0] != b[0] then 0
    else
      var n := CommonPrefix(a[1..], b[1..]);
      assert a[..n + 1] == [a[0]] + a[1..][..n] && b[..n + 1] == [b[0]] + b[1..][..n];
      n + 1
  }

  lemma {:induction false} PrefixUnique(a: seq<Entry>, b: seq<Entry>, n: nat)
    requires n <= |a| && n <= |b| && a[..n] == b[..n] && (n < |a| && n < |b| ==> a[n] != b[n])
    ensures n == CommonPrefix(a, b)
  {
    if n > 0 {
      assert a[0] == a[..n][0] == b[..n][0] == b[0];
      assert a[1..][..n - 1] == a[..n][1..] && b[1..][..n - 1] == b[..n][1..];
      PrefixUnique(a[1..], b[1..], n - 1);
    }
  }

  /** What the records say: a hard state, unless an index is missing. */
  ghost predicate Contiguous(entries: map<nat, Entry>) {
    exists log: seq<Entry> :: Mirrors(entries, log)
  }

  class Store {
    var meta: Option<Meta>
    var entries: map<nat, Entry>
    var persisted: seq<Entry>
    /** The indexes the latest save wrote or deleted. */
    ghost var touched: set<nat>
    /** The records after each deletion of the latest save, and before the first. */
    ghost var cuts: seq<map<nat, Entry>>

    ghost predicate Valid()
      reads this
    {
      Mirrors(entries, persisted)
    }

    ghost function Saved(): HardState
      reads this
    {
      HardState(if meta.Some? then meta.value.term else 0, if meta.Some? then meta.value.votedFor else None, persisted)
    }

    /** A store over what is on disk; the mirror is read from there. */
    constructor (meta: Option<Meta>, entries: map<nat, Entry>)
      ensures this.meta == meta && this.entries == entries
      ensures forall log: seq<Entry> :: Mirrors(entries, log) ==> Valid() && persisted == log
    {
      this.meta, this.entries, persisted, touched, cuts := meta, entries, [], {}, [];
      new;
      var hs := Load();
      if hs.Some? {
        persisted := hs.value.log;
      }
      forall log: seq<Entry> | Mirrors(entries, log)
        ensures persisted == log
      {
        assert Contiguous(entries);
        MirrorUnique(entries, persisted, log);
      }
    }

    /** Stores a hard state: the surplus tail goes, the changed suffix is written, then term
        and vote. */
    method Save(hs: HardState)
      requires Valid()
      modifies this
      ensures Valid() && Saved() == hs
      ensures forall i :: i in touched ==> i > CommonPrefix(old(persisted), hs.log)
    {
      var diff := FirstDifference(persisted, hs.log);
      DeleteTail(|hs.log|);
      PutSuffix(hs.log, diff);
      meta := Some(Meta(hs.term, hs.votedFor));
      persisted := hs.log;
    }

    /** Deletes the entries behind the first `n`, from the lowest up. */
    method DeleteTail(n: nat)
      requires Valid()
      modifies this`entries, this`touched, this`cuts
      ensures |cuts| == 1 + if n < |persisted| then |persisted| - n else 0
      ensures forall k :: 0 <= k < |cuts| ==> cuts[k] == Holed(persisted, n, k)
      ensures forall j :: j in entries <==> 1 <= j <= |persisted| && j <= n
      ensures forall j :: j in entries ==> entries[j] == persisted[j - 1]
      ensures forall j :: j in touched ==> n < j <= |persisted|
    {
      touched, cuts := {}, [entries];
      var i := n;
      NothingHoled(entries, persisted, n);
      hide Holed, Mirrors;
      while i < |persisted|
        invariant n <= i && (i <= |persisted| || i == n) && |cuts| == 1 + (i - n)
        invariant entries == Holed(persisted, n, i - n)
        invariant forall k :: 0 <= k < |cuts| ==> cuts[k] == Holed(persisted, n, k)
        invariant forall j :: j in touched ==> n < j <= |persisted|
      {
        HoleGrows(persisted, n, i - n);
        entries := entries - {i + 1};
        touched, cuts := touched + {i + 1}, cuts + [entries];
        i := i + 1;
      }
      AllHoled(persisted, n, i - n);
    }

    /** Writes the entries behind the first `diff`. */
    method PutSuffix(log: seq<Entry>, diff: nat)
      requires diff <= |log| && forall j :: j in entries ==> 1 <= j <= |log|
      requires forall j :: 1 <= j <= diff ==> j in entries && entries[j] == log[j - 1]
      modifies this`entries, this`touched
      ensures Mirrors(entries, log)
      ensures forall j :: j in touched ==> j in old(touched) || j > diff
    {
      var i := diff;
      while i < |log|
        invariant diff <= i <= |log| && forall j :: j in entries ==> 1 <= j <= |log|
        invariant forall j :: 1 <= j <= i ==> j in entries && entries[j] == log[j - 1]
        invariant forall j :: j in touched ==> j in old(touched) || j > diff
      {
        entries := entries[i + 1 := log[i]];
        touched := touched + {i + 1};
        i := i + 1;
      }
    }

    /** Reads the hard state back; fails on a gap. */
    method Load() returns (hs: Option<HardState>)
      ensures hs.Some? <==> Contiguous(entries)
      ensures hs.Some? ==> Mirrors(entries, hs.value.log)
      ensures hs.Some? ==> hs.value == HardState(if meta.Some? then meta.value.term else 0, if meta.Some? then meta.value.votedFor else None, hs.value.log)
      ensures Valid() ==> hs == Some(Saved())
    {
      var term, votedFor := 0, None;
      if meta.Some? {
        term, votedFor := meta.value.term, meta.value.votedFor;
      }
      var keys := Scan(entries.Keys, 0);
      var log: seq<Entry> := [];
      var i := 0;
      while i < |keys|
        invariant i <= |keys| && |log| == i
        invariant forall j :: 0 <= j < i ==> keys[j] == j + 1 && keys[j] in entries && log[j] == entries[j + 1]
      {
        assert keys[i] in keys;
        if keys[i] != |log| + 1 {
          NotContiguous(entries, keys, i);
          return None;
        }
        log := log + [entries[keys[i]]];
        i := i + 1;
      }
      CollectedAll(entries, keys, log);
      if Valid() { MirrorUnique(entries, log, persisted); }
      return Some(HardState(term, votedFor, log));
    }
  }

  method FirstDifference(a: seq<Entry>, b: seq<Entry>) returns (diff: nat)
    ensures diff == CommonPrefix(a, b)
    ensures forall j :: 0 <= j < diff ==> a[j] == b[j]
  {
    diff := 0;
    while diff < |a| && diff < |b| && a[diff] == b[diff]
      invariant diff <= |a| && diff <= |b| && forall j :: 0 <= j < diff ==> a[j] == b[j]
    {
      diff := diff + 1;
    }
    PrefixUnique(a, b, diff);
  }

  lemma MirrorUnique(entries: map<nat, Entry>, a: seq<Entry>, b: seq<Entry>)
    requires Mirrors(entries, a) && Mirrors(entries, b)
    ensures a == b
  {
    assert |a| >= 1 ==> |a| in entries;
    assert |b| >= 1 ==> |b| in entries;
    assert forall i :: 0 <= i < |a| ==> i + 1 in entries && a[i] == entries[i + 1];
    assert forall i :: 0 <= i < |b| ==> i + 1 in entries && b[i] == entries[i + 1];
  }

  lemma CollectedAll(entries: map<nat, Entry>, keys: seq<nat>, log: seq<Entry>)
    requires forall k :: k in keys <==> k in entries
    requires |log| == |keys| && forall j :: 0 <= j < |keys| ==> keys[j] == j + 1 && keys[j] in entries && log[j] == entries[j + 1]
    ensures Mirrors(entries, log)
  {
    forall i
      ensures i in entries <==> 1 <= i <= |log|
    {
      if 1 <= i <= |log| { assert keys[i - 1] == i; }
    }
  }

  /** A key out of turn means that some index is missing. */
  lemma NotContiguous(entries: map<nat, Entry>, keys: seq<nat>, i: nat)
    requires Ascending(keys) && (forall k :: k in keys <==> k in entries) && i < |keys| && keys[i] != i + 1
    requires forall j :: 0 <= j < i ==> keys[j] == j + 1
    ensures !Contiguous(entries)
  {
    assert keys[i] in entries;
    assert i > 0 ==> keys[i - 1] < keys[i];
    forall k | 0 <= k < |keys| && keys[i] != 0
      ensures keys[k] != i + 1
    {
      assert k > i ==> keys[i] < keys[k];
    }
    assert keys[i] != 0 ==> i + 1 !in entries;
    forall log: seq<Entry>
      ensures !Mirrors(entries, log)
    {
    }
  }

  // ---- a save that is cut short ----

  /** Records of a log of which entries n+1 to n+k have been deleted. */
  ghost function Holed(log: seq<Entry>, n: nat, k: nat): map<nat, Entry> {
    map i: nat | 1 <= i <= |log| && !Between(n, i, k) :: log[i - 1]
  }

  lemma NothingHoled(entries: map<nat, Entry>, log: seq<Entry>, n: nat)
    requires Mirrors(entries, log)
    ensures entries == Holed(log, n, 0)
  {
  }

  lemma AllHoled(log: seq<Entry>, n: nat, k: nat)
    requires n + k >= |log|
    ensures forall j :: j in Holed(log, n, k) <==> 1 <= j <= |log| && j <= n
    ensures forall j :: j in Holed(log, n, k) ==> Holed(log, n, k)[j] == log[j - 1]
  {
  }

  lemma HoleGrows(log: seq<Entry>, n: nat, k: nat)
    ensures Holed(log, n, k + 1) == Holed(log, n, k) - {n + k + 1}
  {
    assert forall i: nat :: Between(n, i, k + 1) <==> Between(n, i, k) || i == n + k + 1;
  }

  predicate Between(n: nat, i: nat, k: nat) {
    n < i <= n + k
  }

  /** The tail is deleted upwards. Stopped in the middle, the records cannot be loaded any
      more: a reopening works exactly if no deletion was made, or all of them. */
  lemma CutDeletesLeaveAGap(log: seq<Entry>, n: nat, k: nat)
    requires n + k <= |log|
    ensures Contiguous(Holed(log, n, k)) <==> k == 0 || n + k == |log|
  {
    var e := Holed(log, n, k);
    if k == 0 {
      assert Mirrors(e, log);
    } else if n + k == |log| {
      assert Mirrors(e, log[..n]);
    } else {
      assert Between(n, n + 1, k) && !Between(n, |log|, k);
      assert |log| in e && n + 1 !in e;
      forall l: seq<Entry>
        ensures !Mirrors(e, l)
      {
      }
    }
  }
}
