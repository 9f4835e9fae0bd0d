/** The directory of an engine: table files, the manifest and the write-ahead log. Files grow
    a byte at a time, so that a crash may leave any prefix; only the rename of the manifest
    is atomic. */
module Disk {
  import opened Common
  import opened Codec
  import opened Wal
  import opened Runs
  import opened Merge
  import opened Bloom
  import opened SSTable

  /** Table files by number; the name of table n is its number in at least six digits. */
  datatype DiskState = DiskState(files: map<nat, Bytes>, manifest: seq<nat>, wal: Bytes)

  class Directory {
    var now: DiskState
    /** Every state the directory has been in. */
    ghost var past: seq<DiskState>

    ghost predicate Valid()
      reads this
    {
      past != [] && past[|past| - 1] == now
    }

    constructor (start: DiskState)
      ensures Valid() && now == start && past == [start]
    {
      now, past := start, [start];
    }

    /** Writes a table file, byte after byte. */
    method WriteFile(id: nat, bytes: Bytes)
      requires Valid()
      modifies this
      ensures Valid() && old(past) <= past
      ensures now == old(now).(files := old(now).files[id := bytes])
      ensures forall i :: |old(past)| <= i < |past| ==> OnlyFileChanged(old(now), past[i], id)
    {
      hide OnlyFileChanged;
      var i := 0;
      now := now.(files := now.files[id := []]);
      past := past + [now];
      FileChanged(old(now), id, []);
      while i < |bytes|
        invariant i <= |bytes| && Valid() && old(past) <= past
        invariant now == old(now).(files := old(now).files[id := bytes[..i]])
        invariant forall i :: |old(past)| <= i < |past| ==> OnlyFileChanged(old(now), past[i], id)
      {
        i := i + 1;
        now := now.(files := now.files[id := bytes[..i]]);
        past := past + [now];
        FileChanged(old(now), id, bytes[..i]);
      }
      assert bytes[..i] == bytes;
    }

    method AppendLog(bytes: Bytes)
      requires Valid()
      modifies this
      ensures Valid() && old(past) <= past && now == old(now).(wal := old(now).wal + bytes)
      ensures |past| == |old(past)| + |bytes|
      ensures forall i :: |old(past)| <= i < |past| ==> past[i] == LogGrown(old(now), bytes, i - |old(past)| + 1)
    {
      var i := 0;
      while i < |bytes|
        invariant i <= |bytes| && Valid() && old(past) <= past && |past| == |old(past)| + i
        invariant now == old(now).(wal := old(now).wal + bytes[..i])
        invariant forall j :: |old(past)| <= j < |past| ==> past[j] == LogGrown(old(now), bytes, j - |old(past)| + 1)
      {
        assert now.wal + [bytes[i]] == old(now).wal + bytes[..i + 1];
        now := now.(wal := now.wal + [bytes[i]]);
        i := i + 1;
        past := past + [now];
      }
      assert bytes[..i] == bytes;
    }

    method ResetLog()
      requires Valid()
      modifies this
      ensures Valid() && past == old(past) + [now] && now == old(now).(wal := [])
    {
      now := now.(wal := []);
      past := past + [now];
    }

    /** The rename that makes a new table list take effect. */
    method ReplaceManifest(ids: seq<nat>)
      requires Valid()
      modifies this
      ensures Valid() && past == old(past) + [now] && now == old(now).(manifest := ids)
    {
      now := now.(manifest := ids);
      past := past + [now];
    }

    method Remove(id: nat)
      requires Valid()
      modifies this
      ensures Valid() && past == old(past) + [now] && now == old(now).(files := old(now).files - {id})
    {
      now := now.(files := now.files - {id});
      past := past + [now];
    }
  }

  ghost predicate OnlyFileChanged(a: DiskState, b: DiskState, id: nat) {
    b.manifest == a.manifest && b.wal == a.wal && b.files - {id} == a.files - {id}
  }

  lemma FileChanged(a: DiskState, id: nat, bytes: Bytes)
    ensures OnlyFileChanged(a, a.(files := a.files[id := bytes]), id)
  {
  }

  /** The directory with the first `k` bytes behind its log. */
  function LogGrown(d: DiskState, bytes: Bytes, k: nat): DiskState
    requires k <= |bytes|
  {
    d.(wal := d.wal + bytes[..k])
  }

  // ---- what a directory means ----

  /** Records put into an empty memtable one after the other. */
  function Puts(rs: seq<Rec>): (run: seq<Rec>) {
    if rs == [] then [] else Upsert(Puts(rs[..|rs| - 1]), rs[|rs| - 1])
  }

  lemma {:induction false} PutsSorted(rs: seq<Rec>)
    ensures Sorted(Puts(rs))
  {
    if rs != [] {
      PutsSorted(rs[..|rs| - 1]);
      UpsertSorted(Puts(rs[..|rs| - 1]), rs[|rs| - 1]);
    }
  }

  lemma PutsMore(rs: seq<Rec>, r: Rec)
    ensures Puts(rs + [r]) == Upsert(Puts(rs), r)
  {
    assert (rs + [r])[..|rs|] == rs;
  }

  /** The records of a table file. */
  function ContentOf(crc: Checksum, t: Table): seq<Rec> {
    if t.indexOff <= |t.file| then Replay(crc, t.file[..t.indexOff]).recs else []
  }

  function FileRun(crc: Checksum, file: Bytes): seq<Rec> {
    match Opened(file)
    case Ok(t) => ContentOf(crc, t)
    case Err => []
  }

  /** A file that was written to its end. */
  ghost predicate Whole(crc: Checksum, hash: Hash, file: Bytes) {
    Opened(file).Ok? && TableOf(crc, hash, Opened(file).value, FileRun(crc, file))
  }

  lemma WrittenIsWhole(crc: Checksum, hash: Hash, bitsPerKey: int, rs: seq<Rec>)
    requires Writable(crc, hash, bitsPerKey, rs) && Sorted(rs)
    ensures var file := TableBytes(crc, hash, bitsPerKey, rs);
            Whole(crc, hash, file) && FileRun(crc, file) == rs && Opened(file).Ok? && ContentOf(crc, Opened(file).value) == rs
  {
    hide Opened, EncodeAll, IndexOf, Writable, TableBytes, FilterOf, Replay;
    OpenBuilt(crc, hash, bitsPerKey, rs);
    var t := Opened(TableBytes(crc, hash, bitsPerKey, rs)).value;
    assert TableFor(crc, hash, bitsPerKey, t, rs);
    TableShows(crc, hash, t, rs);
    ReplayWhole(crc, rs);
  }

  function RunsOf(crc: Checksum, files: map<nat, Bytes>, ids: seq<nat>): (runs: seq<seq<Rec>>)
    requires forall i :: 0 <= i < |ids| ==> ids[i] in files
    ensures |runs| == |ids| && forall i :: 0 <= i < |ids| ==> runs[i] == FileRun(crc, files[ids[i]])
  {
    seq(|ids|, i requires 0 <= i < |ids| => FileRun(crc, files[ids[i]]))
  }

  /** Every listed table is there and whole, and the log replays without an error. */
  ghost predicate Safe(crc: Checksum, hash: Hash, d: DiskState) {
    && Unique(d.manifest)
    && (forall i :: 0 <= i < |d.manifest| ==> d.manifest[i] in d.files && Whole(crc, hash, d.files[d.manifest[i]]))
    && Replay(crc, d.wal).ok
  }

  /** The log is whole records, and they make up this memtable. */
  ghost predicate LogIs(crc: Checksum, wal: Bytes, mem: seq<Rec>) {
    exists recs: seq<Rec> :: AllFit(recs) && wal == EncodeAll(crc, recs) && mem == Puts(recs)
  }

  /** The log replays to this memtable. A torn tail does no harm as long as nothing is written
      behind it. */
  ghost predicate Replays(crc: Checksum, wal: Bytes, mem: seq<Rec>) {
    Replay(crc, wal).ok && Puts(Replay(crc, wal).recs) == mem
  }

  function LiveMap(m: map<Bytes, Rec>): map<Bytes, Bytes> {
    map k | k in m && !m[k].tomb :: m[k].val
  }

  /** What a memtable and some tables, newest first, hold. */
  function Holds(mem: seq<Rec>, runs: seq<seq<Rec>>): map<Bytes, Bytes> {
    LiveMap(Overlay([mem] + runs))
  }

  /** The map a directory stands for: what opening it shows. */
  ghost function View(crc: Checksum, hash: Hash, d: DiskState): map<Bytes, Bytes>
    requires Safe(crc, hash, d)
  {
    Holds(Puts(Replay(crc, d.wal).recs), RunsOf(crc, d.files, d.manifest))
  }

  // ---- how the steps change what it means ----

  lemma OverlayFirst(mem: seq<Rec>, runs: seq<seq<Rec>>)
    ensures Overlay([mem] + runs) == Overlay(runs) + LayerOf(mem)
  {
    assert ([mem] + runs)[1..] == runs;
  }

  /** One more write shows as one changed key. */
  lemma HoldsUpsert(mem: seq<Rec>, runs: seq<seq<Rec>>, r: Rec)
    requires Sorted(mem)
    ensures Holds(Upsert(mem, r), runs) ==
            if r.tomb then Holds(mem, runs) - {r.key} else Holds(mem, runs)[r.key := r.val]
  {
    hide LiveMap, Overlay, LayerOf, Upsert, Sorted;
    OverlayFirst(mem, runs);
    OverlayFirst(Upsert(mem, r), runs);
    UpsertLayer(mem, r);
    assert Overlay(runs) + LayerOf(mem)[r.key := r] == (Overlay(runs) + LayerOf(mem))[r.key := r];
    LiveUpdated(Overlay(runs) + LayerOf(mem), r);
  }

  lemma LiveUpdated(m: map<Bytes, Rec>, r: Rec)
    ensures LiveMap(m[r.key := r]) == if r.tomb then LiveMap(m) - {r.key} else LiveMap(m)[r.key := r.val]
  {
  }

  lemma LiveFiltered(older: map<Bytes, Rec>, newer: map<Bytes, Rec>)
    ensures LiveMap((map k | k in older && !older[k].tomb :: older[k]) + newer) == LiveMap(older + newer)
  {
  }

  /** A memtable in front of a table of the same records changes nothing, and neither does
      forgetting it once the table is there. */
  lemma HoldsFlushed(mem: seq<Rec>, runs: seq<seq<Rec>>)
    ensures Holds(mem, [mem] + runs) == Holds(mem, runs) == Holds([], [mem] + runs)
  {
    hide LiveMap, Overlay;
    OverlayFirst(mem, runs);
    OverlayFirst(mem, [mem] + runs);
    OverlayFirst([], [mem] + runs);
    var none: seq<Rec>, all := [], Overlay(runs) + LayerOf(mem);
    assert LayerOf(none) == map[] && all + map[] == all;
    hide LayerOf;
    assert all + LayerOf(mem) == all;
  }

  /** Merging every table into one, without its tombstones, changes nothing: nothing older is
      left for them to hide. */
  lemma HoldsCompacted(mem: seq<Rec>, runs: seq<seq<Rec>>)
    requires AllSorted(runs)
    ensures Holds(mem, [Live(MergeAll(runs))]) == Holds(mem, runs)
    ensures Sorted(Live(MergeAll(runs)))
  {
    var one := Live(MergeAll(runs));
    assert Overlay([one]) == LayerOf(one);
    hide LiveMap, Overlay, LayerOf, Live, MergeAll, Sorted;
    MergeLayers(runs);
    LiveLayer(MergeAll(runs));
    LiveSorted(MergeAll(runs));
    OverlayFirst(mem, runs);
    OverlayFirst(mem, [one]);
    LiveFiltered(Overlay(runs), LayerOf(mem));
  }

  /** Files that are not listed do not matter. */
  lemma UnlistedIgnored(crc: Checksum, hash: Hash, a: DiskState, b: DiskState)
    requires Safe(crc, hash, a) && b.manifest == a.manifest && b.wal == a.wal
    requires forall i :: 0 <= i < |a.manifest| ==> a.manifest[i] in b.files && b.files[a.manifest[i]] == a.files[a.manifest[i]]
    ensures Safe(crc, hash, b) && View(crc, hash, b) == View(crc, hash, a)
  {
    hide Whole, FileRun, Replay;
    assert RunsOf(crc, b.files, b.manifest) == RunsOf(crc, a.files, a.manifest);
  }

  lemma LogReplays(crc: Checksum, wal: Bytes, mem: seq<Rec>)
    requires LogIs(crc, wal, mem)
    ensures Replays(crc, wal, mem)
  {
    hide Replay, EncodeAll;
    var recs :| AllFit(recs) && wal == EncodeAll(crc, recs) && mem == Puts(recs);
    ReplayWhole(crc, recs);
  }

  /** A record appended to a whole log: with any proper part of it the log replays to what it
      was, with all of it to one record more. */
  lemma LogGrows(crc: Checksum, wal: Bytes, mem: seq<Rec>, r: Rec, k: nat)
    requires LogIs(crc, wal, mem) && Fits(r) && k <= |EncodeRec(crc, r)|
    ensures Replays(crc, wal + EncodeRec(crc, r)[..k], if k < |EncodeRec(crc, r)| then mem else Upsert(mem, r))
    ensures k == |EncodeRec(crc, r)| ==> LogIs(crc, wal + EncodeRec(crc, r), Upsert(mem, r))
  {
    hide Replay, EncodeAll, EncodeRec, DecodeRec;
    var recs: seq<Rec> :| AllFit(recs) && wal == EncodeAll(crc, recs) && mem == Puts(recs);
    var part := EncodeRec(crc, r)[..k];
    ReplayAfter(crc, recs, part);
    if k < |EncodeRec(crc, r)| {
      ReplayPart(crc, r, k);
      assert recs + [] == recs;
    } else {
      assert part == EncodeRec(crc, r);
      ReplayOne(crc, r);
      PutsMore(recs, r);
      EncodeAllJoins(crc, recs, [r]);
      assert AllFit(recs + [r]);
    }
  }

  lemma ReplayPart(crc: Checksum, r: Rec, k: nat)
    requires Fits(r) && k < |EncodeRec(crc, r)|
    ensures Replay(crc, EncodeRec(crc, r)[..k]) == Replayed([], true)
  {
    PrefixNeverDecodes(crc, r, k);
  }

  lemma ReplayOne(crc: Checksum, r: Rec)
    requires Fits(r)
    ensures EncodeAll(crc, [r]) == EncodeRec(crc, r) && Replay(crc, EncodeRec(crc, r)) == Replayed([r], true)
  {
    hide EncodeRec;
    assert EncodeAll(crc, [r]) == EncodeRec(crc, r) + EncodeAll(crc, []);
    assert AllFit([r]);
    ReplayWhole(crc, [r]);
  }
}
