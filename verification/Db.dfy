/** The engine: a memtable over a log, tables on disk, flush and compaction. */
module Db {
  import opened Common
  import opened Codec
  import opened Wal
  import opened Runs
  import opened SkipList
  import opened Merge
  import opened SSTable
  import opened Disk

  datatype Handle = Handle(id: nat, table: Table)

  datatype Options = Options(memtableBytes: int, compactAt: int, bitsPerKey: int) {
    /** With the defaults where a setting is not positive. */
    function Or(): (o: Options)
      ensures o.compactAt > 0 && o.bitsPerKey > 0 && o.memtableBytes > 0
    {
      Options(if memtableBytes <= 0 then 0x40_0000 else memtableBytes,
              if compactAt <= 0 then 4 else compactAt,
              if bitsPerKey <= 0 then 10 else bitsPerKey)
    }
  }

  datatype Outcome = Done | Closed | EmptyKey

  datatype Reading = Value(val: Bytes) | NotFound | IsClosed | Broken

  function TableRuns(crc: Checksum, tables: seq<Handle>): (runs: seq<seq<Rec>>)
    ensures |runs| == |tables| && forall i :: 0 <= i < |tables| ==> runs[i] == ContentOf(crc, tables[i].table)
  {
    seq(|tables|, i requires 0 <= i < |tables| => ContentOf(crc, tables[i].table))
  }

  function IdsOf(tables: seq<Handle>): (ids: seq<nat>)
    ensures |ids| == |tables| && forall i :: 0 <= i < |tables| ==> ids[i] == tables[i].id
  {
    seq(|tables|, i requires 0 <= i < |tables| => tables[i].id)
  }

  /** The open tables are the listed ones. */
  ghost predicate TablesMatch(crc: Checksum, hash: Hash, d: DiskState, tables: seq<Handle>) {
    && d.manifest == IdsOf(tables) && Unique(IdsOf(tables))
    && forall i :: 0 <= i < |tables| ==>
         tables[i].id in d.files && Whole(crc, hash, d.files[tables[i].id]) && Opened(d.files[tables[i].id]) == Ok(tables[i].table)
  }

  /** A crash that leaves this directory loses and invents nothing with respect to `m`. */
  ghost predicate Recovers(crc: Checksum, hash: Hash, d: DiskState, m: map<Bytes, Bytes>) {
    Safe(crc, hash, d) && View(crc, hash, d) == m
  }

  /** From the n-th on, every state of the directory recovers. */
  ghost predicate RecoverSince(crc: Checksum, hash: Hash, past: seq<DiskState>, n: nat, m: map<Bytes, Bytes>) {
    forall i :: n <= i < |past| ==> Recovers(crc, hash, past[i], m)
  }

  /** States n to e of the directory: up to some moment they recover to the one map, from then
      on to the other. */
  ghost predicate Switches(crc: Checksum, hash: Hash, past: seq<DiskState>, n: nat, e: nat, before: map<Bytes, Bytes>, after: map<Bytes, Bytes>) {
    exists k: nat :: SwitchAt(crc, hash, past, n, k, e, before, after)
  }

  ghost predicate SwitchAt(crc: Checksum, hash: Hash, past: seq<DiskState>, n: nat, k: nat, e: nat,
                           before: map<Bytes, Bytes>, after: map<Bytes, Bytes>) {
    && n <= k <= e <= |past|
    && (forall i :: n <= i < k ==> Recovers(crc, hash, past[i], before))
    && (forall i :: k <= i < e ==> Recovers(crc, hash, past[i], after))
  }

  /** One switch at the last of some states, followed by states that keep the new map. */
  lemma SwitchThenKeep(crc: Checksum, hash: Hash, past: seq<DiskState>, more: seq<DiskState>, n: nat, before: map<Bytes, Bytes>, after: map<Bytes, Bytes>)
    requires past <= more && Switches(crc, hash, past, n, |past|, before, after) && RecoverSince(crc, hash, more, |past|, after)
    ensures Switches(crc, hash, more, n, |more|, before, after)
  {
    hide Recovers;
    var k: nat :| SwitchAt(crc, hash, past, n, k, |past|, before, after);
    assert SwitchAt(crc, hash, more, n, k, |more|, before, after);
  }

  lemma NoSwitch(crc: Checksum, hash: Hash, past: seq<DiskState>, n: nat, m: map<Bytes, Bytes>)
    requires n <= |past| && RecoverSince(crc, hash, past, n, m)
    ensures Switches(crc, hash, past, n, |past|, m, m)
  {
    hide Recovers;
    assert SwitchAt(crc, hash, past, n, n, |past|, m, m);
  }

  lemma SinceMore(crc: Checksum, hash: Hash, past: seq<DiskState>, n: nat, d2: DiskState, d3: DiskState, m: map<Bytes, Bytes>)
    ensures RecoverSince(crc, hash, past, n, m) && Recovers(crc, hash, d2, m) && Recovers(crc, hash, d3, m) ==>
              RecoverSince(crc, hash, past + [d2] + [d3], n, m)
  {
    hide Recovers;
  }

  lemma NoneSince(crc: Checksum, hash: Hash, past: seq<DiskState>, m: map<Bytes, Bytes>)
    ensures RecoverSince(crc, hash, past, |past|, m)
  {
  }

  lemma SinceOne(crc: Checksum, hash: Hash, past: seq<DiskState>, n: nat, d: DiskState, m: map<Bytes, Bytes>)
    requires RecoverSince(crc, hash, past, n, m) && Recovers(crc, hash, d, m)
    ensures RecoverSince(crc, hash, past + [d], n, m)
  {
    hide Recovers;
  }

  lemma MatchingRecovers(crc: Checksum, hash: Hash, d: DiskState, tables: seq<Handle>, mem: seq<Rec>)
    requires TablesMatch(crc, hash, d, tables) && Replays(crc, d.wal, mem)
    ensures Recovers(crc, hash, d, Holds(mem, TableRuns(crc, tables)))
  {
    hide Whole, Replay, ContentOf, Holds;
    assert RunsOf(crc, d.files, d.manifest) == TableRuns(crc, tables);
  }

  /** The same tables in a directory that differs in nothing they need. */
  lemma StillMatch(crc: Checksum, hash: Hash, a: DiskState, b: DiskState, tables: seq<Handle>)
    requires TablesMatch(crc, hash, a, tables) && b.manifest == a.manifest
    requires forall i :: 0 <= i < |tables| ==> tables[i].id in b.files && b.files[tables[i].id] == a.files[tables[i].id]
    ensures TablesMatch(crc, hash, b, tables)
  {
    hide Whole;
  }

  ghost predicate MatchSince(crc: Checksum, hash: Hash, past: seq<DiskState>, n: nat, wal: Bytes, tables: seq<Handle>) {
    forall i :: n <= i < |past| ==> TablesMatch(crc, hash, past[i], tables) && past[i].wal == wal
  }

  lemma MatchingRecoverSince(crc: Checksum, hash: Hash, past: seq<DiskState>, n: nat, wal: Bytes, tables: seq<Handle>, mem: seq<Rec>)
    requires MatchSince(crc, hash, past, n, wal, tables) && Replays(crc, wal, mem)
    ensures RecoverSince(crc, hash, past, n, Holds(mem, TableRuns(crc, tables)))
  {
    hide TablesMatch, Recovers, Replays, TableRuns;
    forall i | n <= i < |past|
      ensures Recovers(crc, hash, past[i], Holds(mem, TableRuns(crc, tables)))
    {
      MatchingRecovers(crc, hash, past[i], tables, mem);
    }
  }

  lemma MatchingTables(crc: Checksum, hash: Hash, d: DiskState, tables: seq<Handle>)
    requires TablesMatch(crc, hash, d, tables)
    ensures forall i :: 0 <= i < |tables| ==> TableOf(crc, hash, tables[i].table, ContentOf(crc, tables[i].table))
    ensures AllSorted(TableRuns(crc, tables))
  {
    hide TableOf, ContentOf, Sorted;
    forall i | 0 <= i < |tables|
      ensures TableOf(crc, hash, tables[i].table, ContentOf(crc, tables[i].table))
      ensures Sorted(TableRuns(crc, tables)[i])
    {
      TableShows(crc, hash, tables[i].table, ContentOf(crc, tables[i].table));
    }
  }

  /** The file behind a table that is open. */
  ghost predicate Stored(crc: Checksum, hash: Hash, files: map<nat, Bytes>, h: Handle) {
    h.id in files && Whole(crc, hash, files[h.id]) && Opened(files[h.id]) == Ok(h.table)
  }

  /** A new table in front of the others. */
  lemma NewTableMatches(crc: Checksum, hash: Hash, d: DiskState, tables: seq<Handle>, h: Handle)
    requires TablesMatch(crc, hash, d, tables) && h.id !in IdsOf(tables) && Stored(crc, hash, d.files, h)
    ensures TablesMatch(crc, hash, d.(manifest := IdsOf([h] + tables)), [h] + tables)
    ensures TableRuns(crc, [h] + tables) == [ContentOf(crc, h.table)] + TableRuns(crc, tables)
  {
    hide Whole, Opened, ContentOf;
    var ids, all := IdsOf(tables), [h] + tables;
    assert IdsOf(all) == [h.id] + ids;
    forall i | 0 <= i < |all|
      ensures all[i].id in d.files && Whole(crc, hash, d.files[all[i].id]) && Opened(d.files[all[i].id]) == Ok(all[i].table)
    {
      assert i > 0 ==> all[i] == tables[i - 1];
    }
  }

  /** The two steps that make a flushed table take the memtable's place. */
  lemma FlushSteps(crc: Checksum, hash: Hash, d: DiskState, tables: seq<Handle>, h: Handle, mem: seq<Rec>)
    requires TablesMatch(crc, hash, d, tables) && h.id !in IdsOf(tables) && Stored(crc, hash, d.files, h) && ContentOf(crc, h.table) == mem
    ensures var d2 := d.(manifest := IdsOf([h] + tables));
            var d3 := d2.(wal := []);
            var m := Holds(mem, TableRuns(crc, tables));
            && TablesMatch(crc, hash, d3, [h] + tables) && TableRuns(crc, [h] + tables) == [mem] + TableRuns(crc, tables)
            && (Replays(crc, d.wal, mem) ==> Recovers(crc, hash, d2, m)) && Recovers(crc, hash, d3, m)
            && LogIs(crc, [], []) && Holds([], TableRuns(crc, [h] + tables)) == m
  {
    hide TablesMatch, Recovers, Replays, TableRuns, Holds, LogIs;
    NewTableMatches(crc, hash, d, tables, h);
    var all, d2 := [h] + tables, d.(manifest := IdsOf([h] + tables));
    var d3 := d2.(wal := []);
    Relisted(crc, hash, d2, d3, all);
    HoldsFlushed(mem, TableRuns(crc, tables));
    EmptyLog(crc);
    LogReplays(crc, [], []);
    MatchingRecovers(crc, hash, d3, all, []);
    if Replays(crc, d.wal, mem) {
      MatchingRecovers(crc, hash, d2, all, mem);
    }
  }

  lemma EmptyLog(crc: Checksum)
    ensures LogIs(crc, [], [])
  {
    var none: seq<Rec> := [];
    assert AllFit(none) && EncodeAll(crc, none) == [] && Puts(none) == [];
  }

  class DB {
    const crc: Checksum
    const hash: Hash
    const bitsPerKey: int
    const memLimit: int
    const compactAt: nat
    const dir: Directory
    var mem: Memtable
    var tables: seq<Handle>
    var nextID: nat
    var closed: bool

    ghost predicate Valid()
      reads this, dir, mem, mem.all
    {
      && dir.Valid() && mem.Valid()
      && TablesMatch(crc, hash, dir.now, tables)
      && forall id :: id in dir.now.files ==> id < nextID
    }

    /** The finite map the engine stands for. */
    ghost function Model(): map<Bytes, Bytes>
      reads this, dir, mem, mem.all
      requires Valid()
    {
      Holds(mem.Recs(), TableRuns(crc, tables))
    }

    /** The log is whole and makes up the memtable. A torn tail survives a reopening, and
        until the next flush what is written behind it will not be replayed. */
    ghost predicate Logged()
      reads this, dir, mem, mem.all
      requires Valid()
    {
      LogIs(crc, dir.now.wal, mem.Recs())
    }

    /** The log replays to the memtable, whatever may hang behind its last whole record. */
    ghost predicate Replayable()
      reads this, dir, mem, mem.all
      requires Valid()
    {
      Replays(crc, dir.now.wal, mem.Recs())
    }

    ghost predicate Roomy(rs: seq<Rec>)
      reads this
    {
      Writable(crc, hash, bitsPerKey, rs)
    }

    ghost predicate RoomToCompact(runs: seq<seq<Rec>>)
      reads this
    {
      Roomy(Live(MergeAll(runs)))
    }

    constructor (crc: Checksum, hash: Hash, opts: Options, dir: Directory, mem: Memtable, tables: seq<Handle>, nextID: nat)
      ensures this.crc == crc && this.hash == hash && this.dir == dir && this.bitsPerKey == opts.Or().bitsPerKey
      ensures this.mem == mem && this.tables == tables && this.nextID == nextID && !closed
    {
      this.crc, this.hash, this.dir, this.mem, this.tables, this.nextID := crc, hash, dir, mem, tables, nextID;
      bitsPerKey, memLimit, compactAt := opts.Or().bitsPerKey, opts.Or().memtableBytes, opts.Or().compactAt;
      closed := false;
    }

    /** Writes a table file and opens it. */
    method StoreTable(rs: seq<Rec>) returns (h: Handle)
      requires Valid() && Roomy(rs) && Sorted(rs)
      modifies dir, this`nextID
      ensures Valid() && h.id == old(nextID) && nextID == old(nextID) + 1 && ContentOf(crc, h.table) == rs
      ensures old(dir.past) <= dir.past && dir.now.wal == old(dir.now).wal && dir.now.manifest == old(dir.now).manifest
      ensures Stored(crc, hash, dir.now.files, h) && h.id !in IdsOf(tables)
      ensures MatchSince(crc, hash, dir.past, |old(dir.past)|, dir.now.wal, tables)
    {
      hide Writable, Sorted, Whole, Opened, ContentOf, Memtable.Valid, TablesMatch;
      SortedAccepted(rs);
      WrittenIsWhole(crc, hash, bitsPerKey, rs);
      var id := nextID;
      FreshId(crc, hash, dir.now, tables, id);
      var file := WriteTable(crc, hash, bitsPerKey, rs);
      ghost var before := dir.now;
      dir.WriteFile(id, file.value);
      var t := OpenTable(file.value);
      nextID := id + 1;
      h := Handle(id, t.value);
      forall i | |old(dir.past)| <= i < |dir.past|
        ensures TablesMatch(crc, hash, dir.past[i], tables) && dir.past[i].wal == before.wal
      {
        OthersMatch(crc, hash, before, dir.past[i], tables, id);
      }
      FileChanged(before, id, file.value);
      OthersMatch(crc, hash, before, dir.now, tables, id);
    }

    /** Turns the memtable into a table. */
    method FlushLocked()
      requires Valid() && Roomy(mem.Recs())
      modifies this`mem, this`tables, this`nextID, dir
      ensures Valid() && Model() == old(Model())
      ensures mem == old(mem) || (fresh(mem) && fresh(mem.all))
      ensures old(dir.past) <= dir.past
      ensures TableRuns(crc, tables) == (if old(mem.Recs()) == [] then [] else [old(mem.Recs())]) + old(TableRuns(crc, tables))
      ensures old(Replayable()) ==> Replayable() && RecoverSince(crc, hash, dir.past, |old(dir.past)|, Model())
      ensures old(Logged()) ==> Logged()
      ensures old(mem.Recs()) != [] ==> Logged() && Replayable()
      ensures mem.Recs() == []
    {
      hide TablesMatch, GoodList, Writable, Holds, LogIs, Recovers, From;
      if mem.n == 0 {
        return;
      }
      var rs := Drain(mem, []);
      FromNothing(mem.Recs());
      RecsSorted(mem);
      MoveToTable(rs);
    }

    method MoveToTable(rs: seq<Rec>)
      requires Valid() && Roomy(rs) && rs == mem.Recs() && Sorted(rs)
      modifies this`mem, this`tables, this`nextID, dir
      ensures Valid() && Model() == old(Model())
      ensures fresh(mem) && fresh(mem.all)
      ensures old(dir.past) <= dir.past
      ensures TableRuns(crc, tables) == [rs] + old(TableRuns(crc, tables))
      ensures Logged() && Replayable()
      ensures old(Replayable()) ==> RecoverSince(crc, hash, dir.past, |old(dir.past)|, Model())
      ensures mem.Recs() == []
    {
      hide Writable, Sorted, Whole, Opened, ContentOf, Memtable.Valid, TablesMatch, Stored, LogIs, Replays, Recovers, Holds, RecoverSince;
      ghost var before, wal := tables, dir.now.wal;
      var h := StoreTable(rs);
      FlushSteps(crc, hash, dir.now, before, h, rs);
      if Replays(crc, wal, rs) {
        MatchingRecoverSince(crc, hash, dir.past, |old(dir.past)|, wal, before, rs);
      }
      ghost var past := dir.past;
      ghost var d2 := ListFirst(h);
      SinceMore(crc, hash, past, |old(dir.past)|, d2, dir.now, old(Model()));
      LogReplays(crc, [], []);
      mem := new Memtable();
    }

    /** Lists a table as the newest, and then empties the log. */
    method ListFirst(h: Handle) returns (ghost listed: DiskState)
      requires dir.Valid()
      modifies this`tables, dir
      ensures dir.Valid() && tables == [h] + old(tables)
      ensures listed == old(dir.now).(manifest := IdsOf(tables)) && dir.now == listed.(wal := [])
      ensures dir.past == old(dir.past) + [listed] + [dir.now]
    {
      tables := [h] + tables;
      dir.ReplaceManifest(IdsOf(tables));
      listed := dir.now;
      dir.ResetLog();
    }

    /** Merges every table into one, without the tombstones. */
    method CompactLocked()
      requires Valid() && RoomToCompact(TableRuns(crc, tables))
      modifies this`tables, this`nextID, dir
      ensures Valid() && Model() == old(Model())
      ensures old(dir.past) <= dir.past && dir.now.wal == old(dir.now).wal
      ensures old(Replayable()) ==> Replayable() && RecoverSince(crc, hash, dir.past, |old(dir.past)|, Model())
      ensures old(Logged()) ==> Logged()
      ensures old(|tables|) >= 2 ==> |tables| == 1 && TableRuns(crc, tables) == [Live(MergeAll(old(TableRuns(crc, tables))))]
      ensures old(|tables|) < 2 ==> tables == old(tables)
    {
      hide GoodList, Writable, Sorted, AllSorted, Live, MergeAll, LogIs, Replays, Recovers, Holds;
      MatchingTables(crc, hash, dir.now, tables);
      hide TablesMatch, TableOf;
      if |tables| < 2 {
        return;
      }
      var runs := ReadTables(crc, hash, tables, None);
      FromStart(TableRuns(crc, tables));
      var out := MergeLive(runs);
      HoldsCompacted(mem.Recs(), TableRuns(crc, tables));
      ReplaceTables(out);
    }

    method ReplaceTables(out: seq<Rec>)
      requires Valid() && Roomy(out) && Sorted(out)
      requires Holds(mem.Recs(), [out]) == Model()
      modifies this`tables, this`nextID, dir
      ensures Valid() && Model() == old(Model())
      ensures old(dir.past) <= dir.past && dir.now.wal == old(dir.now).wal
      ensures old(Replayable()) ==> Replayable() && RecoverSince(crc, hash, dir.past, |old(dir.past)|, Model())
      ensures old(Logged()) ==> Logged()
      ensures |tables| == 1 && TableRuns(crc, tables) == [out]
    {
      hide Writable, Sorted, Whole, Opened, ContentOf, Memtable.Valid, TablesMatch, Stored, LogIs, Replays, Recovers, Holds;
      ghost var wal, rs := dir.now.wal, mem.Recs();
      var h := StoreTable(out);
      var obsolete := tables;
      CompactSteps(crc, hash, dir.now, obsolete, h, rs);
      if Replays(crc, wal, rs) {
        MatchingRecoverSince(crc, hash, dir.past, |old(dir.past)|, wal, obsolete, rs);
      }
      tables := [h];
      dir.ReplaceManifest([h.id]);
      RemoveFiles(obsolete, |old(dir.past)|, rs);
    }

    /** Removes files that are no longer listed. */
    method RemoveFiles(obsolete: seq<Handle>, ghost n: nat, ghost rs: seq<Rec>)
      requires Valid() && forall i, j :: 0 <= i < |obsolete| && 0 <= j < |tables| ==> obsolete[i].id != tables[j].id
      requires n <= |dir.past| && rs == mem.Recs()
      requires Replays(crc, dir.now.wal, rs) ==> RecoverSince(crc, hash, dir.past, n, Model())
      modifies dir
      ensures Valid() && old(dir.past) <= dir.past && dir.now.wal == old(dir.now).wal
      ensures Replays(crc, dir.now.wal, rs) ==> RecoverSince(crc, hash, dir.past, n, Model())
    {
      hide Whole, Opened, ContentOf, Memtable.Valid, TablesMatch, LogIs, Replays, Recovers, Holds;
      var i := 0;
      while i < |obsolete|
        invariant i <= |obsolete| && Valid() && old(dir.past) <= dir.past && dir.now.wal == old(dir.now).wal
        invariant Replays(crc, dir.now.wal, rs) ==> RecoverSince(crc, hash, dir.past, n, Model())
      {
        ghost var before := dir.now;
        dir.Remove(obsolete[i].id);
        UnlistedRemoved(crc, hash, before, tables, obsolete[i].id, rs);
        i := i + 1;
      }
    }

    // ---- writing ----

    /** There is room for the tables a write may lead to. */
    ghost predicate RoomFor(r: Rec)
      reads this, mem, mem.all
      requires mem.Valid()
    {
      && Fits(r) && Roomy(Upsert(mem.Recs(), r))
      && RoomToCompact([Upsert(mem.Recs(), r)] + TableRuns(crc, tables))
    }

    /** First the log, then the memtable. */
    method LogAndPut(r: Rec, h: nat)
      requires Valid() && 1 <= h <= MAX_HEIGHT && Fits(r)
      modifies mem, mem.all, dir
      ensures Valid() && mem.Recs() == Upsert(old(mem.Recs()), r)
      ensures forall x :: x in mem.all ==> x in old(mem.all) || fresh(x)
      ensures Model() == Written(old(Model()), r)
      ensures old(dir.past) <= dir.past && dir.now.manifest == old(dir.now).manifest
      ensures old(Logged()) ==> Logged() && Switches(crc, hash, dir.past, |old(dir.past)|, |dir.past|, old(Model()), Model())
    {
      hide TablesMatch, GoodList, LogIs, Replays, Recovers, Holds, Fits, Sorted, Upsert, Switches;
      RecsSorted(mem);
      ghost var rs := mem.Recs();
      LogRec(r, rs);
      mem.Put(r, h);
      HoldsUpsert(rs, TableRuns(crc, tables), r);
    }

    /** Appends a record to the log. */
    method LogRec(r: Rec, ghost rs: seq<Rec>)
      requires dir.Valid() && TablesMatch(crc, hash, dir.now, tables) && Fits(r)
      modifies dir
      ensures dir.Valid() && TablesMatch(crc, hash, dir.now, tables) && dir.now.files == old(dir.now).files
      ensures old(dir.past) <= dir.past && dir.now.manifest == old(dir.now).manifest
      ensures LogIs(crc, old(dir.now).wal, rs) ==>
                && LogIs(crc, dir.now.wal, Upsert(rs, r))
                && Switches(crc, hash, dir.past, |old(dir.past)|, |dir.past|, Holds(rs, TableRuns(crc, tables)), Holds(Upsert(rs, r), TableRuns(crc, tables)))
    {
      hide TablesMatch, GoodList, LogIs, Holds, Fits, EncodeRec, Sorted, Upsert, LogGrown, Switches;
      ghost var d, n := dir.now, |dir.past|;
      var buf := WriteRec(crc, r);
      dir.AppendLog(buf);
      Relisted(crc, hash, d, dir.now, tables);
      if LogIs(crc, d.wal, rs) {
        AppendRecovers(crc, hash, d, dir.past, n, tables, rs, r);
      }
    }

    /** A put or a delete. */
    method Write(r: Rec) returns (o: Outcome)
      requires Valid() && (!closed && r.key != [] ==> RoomFor(r))
      modifies this, mem, mem.all, dir
      ensures Valid() && closed == old(closed)
      ensures o == if old(closed) then Closed else if r.key == [] then EmptyKey else Done
      ensures Model() == if o == Done then Written(old(Model()), r) else old(Model())
      ensures old(dir.past) <= dir.past && (o != Done ==> dir.past == old(dir.past))
      ensures mem == old(mem) || fresh(mem)
      ensures forall x :: x in mem.all ==> x in old(mem.all) || fresh(x)
      ensures Adds(old(mem.Recs()), old(TableRuns(crc, tables)), {r}, mem.Recs(), TableRuns(crc, tables))
      ensures old(Logged()) ==>
                && Logged() && Recovers(crc, hash, dir.now, Model())
                && Switches(crc, hash, dir.past, |old(dir.past)|, |dir.past|, old(Model()), Model())
    {
      hide TablesMatch, GoodList, LogIs, Replays, Recovers, RecoverSince, Switches, Holds, Fits, Writable, MergeAll, Live, Upsert;
      ghost var rs, runs := mem.Recs(), TableRuns(crc, tables);
      if closed || r.key == [] {
        AddsNothing(rs, runs);
        if Logged() {
          LoggedRecovers(this);
          Unmoved(crc, hash, dir.past, Model());
        }
        return if closed then Closed else EmptyKey;
      }
      var h: nat :| 1 <= h <= MAX_HEIGHT;
      RecsSorted(mem);
      UpsertAdds(rs, runs, r);
      LogAndPut(r, h);
      ghost var past := dir.past;
      if Logged() { LoggedRecovers(this); }
      Maintain();
      if old(Logged()) {
        LoggedRecovers(this);
        SwitchThenKeep(crc, hash, past, dir.past, |old(dir.past)|, old(Model()), Model());
      }
      return Done;
    }

    /** Flushes a memtable that has grown to its limit, then compacts if there are enough
        tables. */
    method Maintain()
      requires Valid() && mem.Recs() != [] && Roomy(mem.Recs()) && RoomToCompact([mem.Recs()] + TableRuns(crc, tables))
      modifies this`mem, this`tables, this`nextID, dir
      ensures Valid() && Model() == old(Model()) && old(dir.past) <= dir.past
      ensures mem == old(mem) || (fresh(mem) && fresh(mem.all))
      ensures old(Replayable()) ==> Replayable() && RecoverSince(crc, hash, dir.past, |old(dir.past)|, Model())
      ensures old(Logged()) ==> Logged()
      ensures Adds(old(mem.Recs()), old(TableRuns(crc, tables)), {}, mem.Recs(), TableRuns(crc, tables))
    {
      hide TablesMatch, GoodList, LogIs, Replays, Recovers, Holds, Writable, MergeAll, Live;
      AddsNothing(mem.Recs(), TableRuns(crc, tables));
      FlushAdds(mem.Recs(), TableRuns(crc, tables));
      if mem.size >= memLimit {
        FlushLocked();
        if |tables| >= compactAt {
          CompactAdds(mem.Recs(), TableRuns(crc, tables));
          CompactLocked();
        }
      }
    }

    method Put(key: Bytes, val: Bytes) returns (o: Outcome)
      requires Valid() && (!closed && key != [] ==> RoomFor(Rec(key, val, false)))
      modifies this, mem, mem.all, dir
      ensures Valid() && closed == old(closed)
      ensures o == if old(closed) then Closed else if key == [] then EmptyKey else Done
      ensures Model() == if o == Done then old(Model())[key := val] else old(Model())
      ensures old(dir.past) <= dir.past
      ensures old(Logged()) ==>
                && Logged() && Recovers(crc, hash, dir.now, Model())
                && Switches(crc, hash, dir.past, |old(dir.past)|, |dir.past|, old(Model()), Model())
    {
      o := Write(Rec(key, val, false));
    }

    /** Leaves a tombstone, whether or not the key is there. */
    method Delete(key: Bytes) returns (o: Outcome)
      requires Valid() && (!closed && key != [] ==> RoomFor(Rec(key, [], true)))
      modifies this, mem, mem.all, dir
      ensures Valid() && closed == old(closed)
      ensures o == if old(closed) then Closed else if key == [] then EmptyKey else Done
      ensures Model() == if o == Done then old(Model()) - {key} else old(Model())
      ensures old(dir.past) <= dir.past
      ensures old(Logged()) ==>
                && Logged() && Recovers(crc, hash, dir.now, Model())
                && Switches(crc, hash, dir.past, |old(dir.past)|, |dir.past|, old(Model()), Model())
    {
      o := Write(Rec(key, [], true));
    }

    method Flush() returns (o: Outcome)
      requires Valid() && (!closed ==> Roomy(mem.Recs()))
      modifies this, dir
      ensures Valid() && closed == old(closed) && o == (if old(closed) then Closed else Done)
      ensures Model() == old(Model()) && old(dir.past) <= dir.past
      ensures old(Replayable()) ==> Replayable() && RecoverSince(crc, hash, dir.past, |old(dir.past)|, Model())
      ensures old(Logged()) ==> Logged()
      ensures o == Done && old(mem.Recs()) != [] ==> Logged() && Replayable()
      ensures Adds(old(mem.Recs()), old(TableRuns(crc, tables)), {}, mem.Recs(), TableRuns(crc, tables))
      ensures mem == old(mem) || (fresh(mem) && fresh(mem.all))
    {
      hide TablesMatch, GoodList, LogIs, Replays, Recovers, Holds, Writable;
      AddsNothing(mem.Recs(), TableRuns(crc, tables));
      if closed {
        return Closed;
      }
      FlushAdds(mem.Recs(), TableRuns(crc, tables));
      FlushLocked();
      return Done;
    }

    method Compact() returns (o: Outcome)
      requires Valid() && (!closed ==> RoomToCompact(TableRuns(crc, tables)))
      modifies this, dir
      ensures Valid() && closed == old(closed) && o == (if old(closed) then Closed else Done)
      ensures Model() == old(Model()) && old(dir.past) <= dir.past
      ensures old(Replayable()) ==> Replayable() && RecoverSince(crc, hash, dir.past, |old(dir.past)|, Model())
      ensures old(Logged()) ==> Logged()
      ensures Adds(old(mem.Recs()), old(TableRuns(crc, tables)), {}, mem.Recs(), TableRuns(crc, tables)) && mem == old(mem)
    {
      hide TablesMatch, GoodList, LogIs, Replays, Recovers, Holds, Writable, MergeAll, Live;
      AddsNothing(mem.Recs(), TableRuns(crc, tables));
      if closed {
        return Closed;
      }
      CompactAdds(mem.Recs(), TableRuns(crc, tables));
      CompactLocked();
      return Done;
    }

    /** Flushes what is in memory and shuts the engine. */
    method Close()
      requires Valid() && (!closed ==> Roomy(mem.Recs()))
      modifies this, dir
      ensures Valid() && closed && Model() == old(Model()) && old(dir.past) <= dir.past
      ensures old(Replayable()) ==> Replayable() && RecoverSince(crc, hash, dir.past, |old(dir.past)|, Model())
      ensures old(Logged()) ==> Logged()
      ensures old(Replayable()) || (!old(closed) && old(mem.Recs()) != []) ==> Recovers(crc, hash, dir.now, Model())
    {
      hide TablesMatch, GoodList, LogIs, Replays, Recovers, Holds, Writable;
      if !closed {
        closed := true;
        FlushLocked();
      }
      if Replayable() { ReplayableRecovers(this); }
    }

    // ---- reading ----

    /** The memtable, then the tables from new to old; the first record found decides. */
    method Get(key: Bytes) returns (g: Reading)
      requires Valid()
      ensures g == if closed then IsClosed else if key in Model() then Value(Model()[key]) else NotFound
    {
      hide TablesMatch, GoodList, ContentOf, TableOf, LookedUp, Holds, Find;
      if closed {
        return IsClosed;
      }
      ghost var runs := TableRuns(crc, tables);
      FirstHitDecides(mem.Recs(), runs, key);
      MatchingTables(crc, hash, dir.now, tables);
      var r := mem.Get(key);
      if r.Some? {
        return if r.value.tomb then NotFound else Value(r.value.val);
      }
      var i := 0;
      assert runs[0..] == runs;
      while i < |tables|
        invariant i <= |tables| && ShownBy(Holds(mem.Recs(), runs), key) == Decide(FirstHit(runs[i..], key))
      {
        assert runs[i..][1..] == runs[i + 1..];
        LookupIsLinearSearch(crc, hash, tables[i].table, runs[i], key);
        var found, _ := SSTable.Get(crc, hash, tables[i].table, key);
        match found
        case Found(rec) => return if rec.tomb then NotFound else Value(rec.val);
        case Missing => i := i + 1;
        case Failed => return Broken;
        case Panicked => return Broken;
      }
      return NotFound;
    }

    /** The live records from a key on, as a scan shows them. */
    ghost function Entries(from: Option<Bytes>): seq<Rec>
      reads this, dir, mem, mem.all
      requires Valid()
    {
      Live(From(MergeAll([mem.Recs()] + TableRuns(crc, tables)), Start(from)))
    }

    /** Shows the live records from a key on, in order, until `keep` has seen enough. */
    method ScanFrom(from: Option<Bytes>, keep: seq<Rec> -> bool) returns (ok: bool, seen: seq<Rec>)
      requires Valid()
      ensures ok == !closed && seen == if ok then Visit(keep, [], Entries(from)) else []
    {
      if closed {
        return false, [];
      }
      ok := true;
      hide GoodList, TableOf, ContentOf, AllSorted, From, MergeAll, Live, FromAll;
      MatchingTables(crc, hash, dir.now, tables);
      var first := Drain(mem, Start(from));
      var runs := ReadTables(crc, hash, tables, from);
      FromAllCons(mem.Recs(), TableRuns(crc, tables), Start(from));
      EntriesMerge(crc, hash, dir.now, tables, mem, Start(from));
      seen := Show([first] + runs, keep);
    }

    // ---- opening ----

    /** Opens the directory a run ended with, or a crash left. */
    static method Open(crc: Checksum, hash: Hash, opts: Options, dir: Directory) returns (db: DB?)
      requires dir.Valid()
      modifies dir
      ensures old(dir.past) <= dir.past
      ensures Safe(crc, hash, old(dir.now)) ==>
                && db != null && fresh(db) && db.dir == dir && db.crc == crc && db.hash == hash && !db.closed
                && fresh(db.mem) && fresh(db.mem.all) && db.Valid()
                && db.Model() == View(crc, hash, old(dir.now))
                && RecoverSince(crc, hash, dir.past, old(|dir.past|), View(crc, hash, old(dir.now)))
                && (forall id :: id in old(dir.now).files ==> id < db.nextID)
                && db.Replayable() && (LogIs(crc, old(dir.now).wal, db.mem.Recs()) ==> db.Logged())
    {
      hide Safe, TablesMatch, GoodList, Recovers, RecoverSince, Replay, Puts, Holds, LogIs, View, Pruned, Opened;
      ghost var start := dir.now;
      SafeOpens(crc, hash, start);
      var tables, nextID := OpenListed(crc, dir);
      if tables.None? {
        return null;
      }
      nextID := RemoveUnlisted(crc, hash, dir, tables.value, nextID);
      PrunedOpens(crc, hash, start, dir.now, tables.value, nextID);
      var recs, ok := ReplayLog(crc, dir.now.wal);
      if !ok {
        return null;
      }
      var mem := Rebuild(recs);
      db := new DB(crc, hash, opts, dir, mem, tables.value, nextID);
    }
  }

  // ---- lemmas about reading ----

  /** The record of the first run that has the key. */
  function FirstHit(runs: seq<seq<Rec>>, key: Bytes): Option<Rec> {
    if runs == [] then None
    else if Find(runs[0], key).Some? then Find(runs[0], key)
    else FirstHit(runs[1..], key)
  }

  function Decide(hit: Option<Rec>): Reading {
    if hit.None? || hit.value.tomb then NotFound else Value(hit.value.val)
  }

  function ShownBy(m: map<Bytes, Bytes>, key: Bytes): Reading {
    if key in m then Value(m[key]) else NotFound
  }

  lemma {:induction false} FirstHitIs(runs: seq<seq<Rec>>, key: Bytes)
    ensures FirstHit(runs, key) == if key in Overlay(runs) then Some(Overlay(runs)[key]) else None
  {
    if runs != [] {
      FirstHitIs(runs[1..], key);
    }
  }

  /** Asking the memtable and then the tables from new to old agrees with the map. */
  lemma FirstHitDecides(mem: seq<Rec>, runs: seq<seq<Rec>>, key: Bytes)
    ensures ShownBy(Holds(mem, runs), key) == Decide(FirstHit([mem] + runs, key))
    ensures FirstHit([mem] + runs, key) == if Find(mem, key).Some? then Find(mem, key) else FirstHit(runs, key)
  {
    FirstHitIs([mem] + runs, key);
    assert ([mem] + runs)[1..] == runs;
  }

  function Start(from: Option<Bytes>): Bytes {
    if from.Some? then from.value else []
  }

  lemma TailIsFrom(rs: seq<Rec>, from: Option<Bytes>)
    ensures Tail(rs, from) == From(rs, Start(from))
  {
    FromNothing(rs);
  }

  lemma FromAllCons(run: seq<Rec>, runs: seq<seq<Rec>>, from: Bytes)
    ensures FromAll([run] + runs, from) == [From(run, from)] + FromAll(runs, from)
  {
  }

  lemma FromStart(runs: seq<seq<Rec>>)
    ensures FromAll(runs, Start(None)) == runs
  {
    forall i | 0 <= i < |runs|
      ensures From(runs[i], []) == runs[i]
    {
      FromNothing(runs[i]);
    }
  }

  /** Reads every table from a key on. */
  method ReadTables(crc: Checksum, ghost hash: Hash, tables: seq<Handle>, from: Option<Bytes>) returns (runs: seq<seq<Rec>>)
    requires forall i :: 0 <= i < |tables| ==> TableOf(crc, hash, tables[i].table, ContentOf(crc, tables[i].table))
    ensures runs == FromAll(TableRuns(crc, tables), Start(from))
  {
    hide TableOf, ContentOf, From;
    runs := [];
    ghost var all := TableRuns(crc, tables);
    var i := 0;
    while i < |tables|
      invariant i <= |tables| && |runs| == i
      invariant forall j :: 0 <= j < i ==> runs[j] == From(all[j], Start(from))
    {
      var run := ReadFrom(crc, hash, tables[i].table, from, ContentOf(crc, tables[i].table));
      TailIsFrom(all[i], from);
      runs := runs + [run];
      i := i + 1;
    }
  }

  /** What a callback has seen when it stops, or when there is no more. */
  function Visit(keep: seq<Rec> -> bool, seen: seq<Rec>, rest: seq<Rec>): seq<Rec>
    decreases |rest|
  {
    if rest == [] then seen
    else if keep(seen + [rest[0]]) then Visit(keep, seen + [rest[0]], rest[1..])
    else seen + [rest[0]]
  }

  method Show(srcs: seq<seq<Rec>>, keep: seq<Rec> -> bool) returns (seen: seq<Rec>)
    ensures seen == Visit(keep, [], Live(MergeAll(srcs)))
  {
    hide MergeAll, Live;
    var src := new MergeIter(srcs);
    var it := new DropTombIter(src);
    seen := [];
    while true
      invariant src.Valid() && it.src == src
      invariant Visit(keep, [], Live(MergeAll(srcs))) == Visit(keep, seen, Live(src.Rest()))
      decreases |src.Rest()|
    {
      var r := it.Next();
      if r.None? {
        return;
      }
      seen := seen + [r.value];
      if !keep(seen) {
        return;
      }
    }
  }

  lemma EntriesMerge(crc: Checksum, hash: Hash, d: DiskState, tables: seq<Handle>, mem: Memtable, from: Bytes)
    requires TablesMatch(crc, hash, d, tables) && mem.Valid()
    ensures var all := [mem.Recs()] + TableRuns(crc, tables);
            MergeAll(FromAll(all, from)) == From(MergeAll(all), from)
  {
    hide TablesMatch, GoodList, MergeAll, Sorted;
    MatchingTables(crc, hash, d, tables);
    RecsSorted(mem);
    MergeFrom([mem.Recs()] + TableRuns(crc, tables), from);
  }

  /** A scan shows exactly the keys of the map at or after `from`, each with its value, in
      strictly ascending order. */
  lemma EntriesAre(mem: seq<Rec>, runs: seq<seq<Rec>>, from: Bytes)
    requires Sorted(mem) && AllSorted(runs)
    ensures var e, m := Live(From(MergeAll([mem] + runs), from)), Holds(mem, runs);
            && Sorted(e)
            && (forall i :: 0 <= i < |e| ==> e[i].key in m && m[e[i].key] == e[i].val && !Less(e[i].key, from))
            && (forall k :: k in m && !Less(k, from) ==> exists i :: 0 <= i < |e| && e[i].key == k)
  {
    hide Sorted, Less, LayerOf, Live, From, MergeAll, Overlay;
    var all := MergeAll([mem] + runs);
    MergeLayers([mem] + runs);
    FromKeeps(all, from);
    var tail := From(all, from);
    LiveSorted(tail);
    LiveLayer(tail);
    var e := Live(tail);
    forall i | 0 <= i < |e|
      ensures e[i].key in Holds(mem, runs) && Holds(mem, runs)[e[i].key] == e[i].val && !Less(e[i].key, from)
    {
      LayerAt(e, i);
    }
    forall k | k in Holds(mem, runs) && !Less(k, from)
      ensures exists i :: 0 <= i < |e| && e[i].key == k
    {
      LayerHolds(e, k);
    }
  }

  /** What `ScanFrom` shows is the engine's map from the key on. */
  lemma EntriesAreTheMap(db: DB, from: Option<Bytes>)
    requires db.Valid()
    ensures var e, m := db.Entries(from), db.Model();
            && Sorted(e)
            && (forall i :: 0 <= i < |e| ==> e[i].key in m && m[e[i].key] == e[i].val && !Less(e[i].key, Start(from)))
            && (forall k :: k in m && !Less(k, Start(from)) ==> exists i :: 0 <= i < |e| && e[i].key == k)
  {
    hide TablesMatch, GoodList, Sorted, AllSorted, Less, Live, From, MergeAll, Holds, Start;
    RecsSorted(db.mem);
    MatchingTables(db.crc, db.hash, db.dir.now, db.tables);
    EntriesAre(db.mem.Recs(), TableRuns(db.crc, db.tables), Start(from));
  }

  // ---- opening, step by step ----

  method OpenListed(crc: Checksum, dir: Directory) returns (tables: Option<seq<Handle>>, nextID: nat)
    ensures tables.None? ==> exists i :: 0 <= i < |dir.now.manifest| && !Listed(dir.now, i)
    ensures tables.Some? ==> IdsOf(tables.value) == dir.now.manifest && AllOpen(dir.now.files, tables.value)
    ensures tables.Some? ==> forall i :: 0 <= i < |tables.value| ==> tables.value[i].id < nextID
  {
    hide Opened;
    var ids, open := dir.now.manifest, [];
    nextID := 1;
    var i := 0;
    while i < |ids|
      invariant i <= |ids| && |open| == i && AllOpen(dir.now.files, open)
      invariant forall j :: 0 <= j < i ==> open[j].id == ids[j] && open[j].id < nextID
    {
      if ids[i] !in dir.now.files {
        assert !Listed(dir.now, i);
        return None, nextID;
      }
      var t := OpenTable(dir.now.files[ids[i]]);
      if t.Err? {
        assert !Listed(dir.now, i);
        return None, nextID;
      }
      open := open + [Handle(ids[i], t.value)];
      if ids[i] >= nextID {
        nextID := ids[i] + 1;
      }
      i := i + 1;
    }
    return Some(open), nextID;
  }

  ghost predicate AllOpen(files: map<nat, Bytes>, tables: seq<Handle>) {
    forall i :: 0 <= i < |tables| ==> tables[i].id in files && Opened(files[tables[i].id]) == Ok(tables[i].table)
  }

  /** While unlisted files are removed: `rest` are those still to go. */
  ghost predicate Pruned(a: DiskState, b: DiskState, tables: seq<Handle>, rest: set<nat>, nextID: nat) {
    && b.manifest == a.manifest && b.wal == a.wal
    && (forall i :: 0 <= i < |tables| ==>
          tables[i].id !in rest && tables[i].id in a.files && tables[i].id in b.files && b.files[tables[i].id] == a.files[tables[i].id])
    && (forall id :: id in a.files ==> id in rest || id < nextID)
    && (forall id :: id in b.files ==> id in a.files)
  }

  function Unlisted(files: map<nat, Bytes>, tables: seq<Handle>): set<nat> {
    files.Keys - set i | 0 <= i < |tables| :: tables[i].id
  }

  lemma PruneAll(a: DiskState, tables: seq<Handle>, nextID: nat)
    requires AllOpen(a.files, tables) && forall i :: 0 <= i < |tables| ==> tables[i].id < nextID
    ensures Pruned(a, a, tables, Unlisted(a.files, tables), nextID)
  {
    hide Opened;
  }

  lemma PruneOne(a: DiskState, b: DiskState, tables: seq<Handle>, rest: set<nat>, nextID: nat, id: nat)
    requires Pruned(a, b, tables, rest, nextID) && id in rest
    ensures Pruned(a, b.(files := b.files - {id}), tables, rest - {id}, if id >= nextID then id + 1 else nextID)
  {
  }

  lemma PrunedRecovers(crc: Checksum, hash: Hash, a: DiskState, b: DiskState, tables: seq<Handle>, rest: set<nat>, nextID: nat)
    requires Pruned(a, b, tables, rest, nextID) && IdsOf(tables) == a.manifest && Safe(crc, hash, a)
    ensures Recovers(crc, hash, b, View(crc, hash, a))
  {
    hide Safe, View;
    UnlistedIgnored(crc, hash, a, b);
  }

  /** Removes the files no manifest lists, using their numbers up. */
  method RemoveUnlisted(ghost crc: Checksum, ghost hash: Hash, dir: Directory, tables: seq<Handle>, first: nat) returns (nextID: nat)
    requires dir.Valid() && IdsOf(tables) == dir.now.manifest && AllOpen(dir.now.files, tables)
    requires forall i :: 0 <= i < |tables| ==> tables[i].id < first
    modifies dir
    ensures dir.Valid() && old(dir.past) <= dir.past && Pruned(old(dir.now), dir.now, tables, {}, nextID)
    ensures Safe(crc, hash, old(dir.now)) ==> RecoverSince(crc, hash, dir.past, old(|dir.past|), View(crc, hash, old(dir.now)))
  {
    hide Safe, View, Recovers, Opened;
    nextID := first;
    ghost var start := dir.now;
    var rest := Unlisted(dir.now.files, tables);
    PruneAll(start, tables, nextID);
    hide Pruned, AllOpen, IdsOf, Unlisted, RecoverSince;
    if Safe(crc, hash, start) { NoneSince(crc, hash, dir.past, View(crc, hash, start)); }
    while rest != {}
      invariant dir.Valid() && old(dir.past) <= dir.past && Pruned(start, dir.now, tables, rest, nextID)
      invariant Safe(crc, hash, start) ==> RecoverSince(crc, hash, dir.past, old(|dir.past|), View(crc, hash, start))
      decreases |rest|
    {
      var id :| id in rest;
      PruneOne(start, dir.now, tables, rest, nextID, id);
      rest := rest - {id};
      ghost var past := dir.past;
      dir.Remove(id);
      if id >= nextID {
        nextID := id + 1;
      }
      if Safe(crc, hash, start) {
        PrunedRecovers(crc, hash, start, dir.now, tables, rest, nextID);
        SinceOne(crc, hash, past, old(|dir.past|), dir.now, View(crc, hash, start));
      }
    }
  }

  lemma PrunedOpens(crc: Checksum, hash: Hash, a: DiskState, b: DiskState, tables: seq<Handle>, nextID: nat)
    requires Pruned(a, b, tables, {}, nextID) && IdsOf(tables) == a.manifest && AllOpen(a.files, tables)
    ensures b.wal == a.wal
    ensures forall id :: id in a.files || id in b.files ==> id < nextID
    ensures Safe(crc, hash, a) ==>
              && TablesMatch(crc, hash, b, tables)
              && View(crc, hash, a) == Holds(Puts(Replay(crc, a.wal).recs), TableRuns(crc, tables))
  {
    hide Opened, Whole, Replay, Puts, Holds, ContentOf;
    if Safe(crc, hash, a) {
      assert RunsOf(crc, a.files, a.manifest) == TableRuns(crc, tables);
    }
  }

  /** The i-th table of the manifest can be opened. */
  ghost predicate Listed(d: DiskState, i: nat)
    requires i < |d.manifest|
  {
    d.manifest[i] in d.files && Opened(d.files[d.manifest[i]]).Ok?
  }

  lemma SafeOpens(crc: Checksum, hash: Hash, d: DiskState)
    ensures Safe(crc, hash, d) ==> Replay(crc, d.wal).ok
    ensures Safe(crc, hash, d) ==> forall i :: 0 <= i < |d.manifest| ==> Listed(d, i)
  {
  }

  lemma PutsNone()
    ensures Puts([]) == []
  {
  }

  /** The log's records, put into a memtable one by one. */
  method Rebuild(recs: seq<Rec>) returns (mem: Memtable)
    ensures fresh(mem) && fresh(mem.all) && mem.Valid() && mem.Recs() == Puts(recs)
  {
    hide GoodList, RecsOf, Weights, Upsert, Puts;
    assert Puts(recs[..0]) == [] by { PutsNone(); }
    mem := new Memtable();
    var i := 0;
    while i < |recs|
      invariant i <= |recs| && fresh(mem) && fresh(mem.all) && mem.Valid() && mem.Recs() == Puts(recs[..i])
    {
      assert recs[..i + 1] == recs[..i] + [recs[i]];
      PutsMore(recs[..i], recs[i]);
      var h: nat :| 1 <= h <= MAX_HEIGHT;
      ghost var before := mem.all;
      mem.Put(recs[i], h);
      forall j | 0 <= j < |mem.all|
        ensures fresh(mem.all[j])
      {
        assert mem.all[j] in before || fresh(mem.all[j]);
      }
      i := i + 1;
    }
    assert recs[..i] == recs;
  }

  // ---- records come only from writes ----

  ghost predicate HeldIn(x: Rec, mem: seq<Rec>, runs: seq<seq<Rec>>) {
    x in mem || exists i :: 0 <= i < |runs| && x in runs[i]
  }

  /** What is held afterwards was held before or is among `more`. */
  ghost predicate Adds(mem: seq<Rec>, runs: seq<seq<Rec>>, more: set<Rec>, mem': seq<Rec>, runs': seq<seq<Rec>>) {
    forall x :: HeldIn(x, mem', runs') ==> HeldIn(x, mem, runs) || x in more
  }

  lemma AddsNothing(mem: seq<Rec>, runs: seq<seq<Rec>>)
    ensures Adds(mem, runs, {}, mem, runs)
  {
  }

  lemma UpsertAdds(mem: seq<Rec>, runs: seq<seq<Rec>>, r: Rec)
    requires Sorted(mem)
    ensures Adds(mem, runs, {r}, Upsert(mem, r), runs)
  {
    UpsertSorted(mem, r);
  }

  lemma FlushAdds(mem: seq<Rec>, runs: seq<seq<Rec>>)
    ensures Adds(mem, runs, {}, [], (if mem == [] then [] else [mem]) + runs)
  {
    var more := (if mem == [] then [] else [mem]) + runs;
    forall x | HeldIn(x, [], more)
      ensures HeldIn(x, mem, runs)
    {
      var i :| 0 <= i < |more| && x in more[i];
      var at := if mem == [] then i else i - 1;
      assert at >= 0 ==> more[i] == runs[at];
    }
  }

  lemma CompactAdds(mem: seq<Rec>, runs: seq<seq<Rec>>)
    ensures Adds(mem, runs, {}, mem, [Live(MergeAll(runs))])
  {
    LiveMembers(MergeAll(runs));
    MergeMembers(runs);
    var one := [Live(MergeAll(runs))];
    forall x | HeldIn(x, mem, one)
      ensures HeldIn(x, mem, runs)
    {
      if x !in mem {
        var i :| 0 <= i < |one| && x in one[i];
      }
    }
  }

  /** One write, on the map. */
  function Written(m: map<Bytes, Bytes>, r: Rec): map<Bytes, Bytes> {
    if r.tomb then m - {r.key} else m[r.key := r.val]
  }

  lemma Relisted(crc: Checksum, hash: Hash, a: DiskState, b: DiskState, tables: seq<Handle>)
    requires TablesMatch(crc, hash, a, tables) && b.files == a.files && b.manifest == a.manifest
    ensures TablesMatch(crc, hash, b, tables)
  {
  }

  /** While a record is appended to the log, the directory recovers to the map before; with the
      last byte it recovers to the map after. */
  lemma AppendRecovers(crc: Checksum, hash: Hash, d: DiskState, past: seq<DiskState>, n: nat,
                       tables: seq<Handle>, mem: seq<Rec>, r: Rec)
    requires TablesMatch(crc, hash, d, tables) && LogIs(crc, d.wal, mem) && Fits(r)
    requires |past| == n + |EncodeRec(crc, r)|
    requires forall i :: n <= i < |past| ==> past[i] == LogGrown(d, EncodeRec(crc, r), i - n + 1)
    ensures LogIs(crc, d.wal + EncodeRec(crc, r), Upsert(mem, r))
    ensures Switches(crc, hash, past, n, |past|, Holds(mem, TableRuns(crc, tables)), Holds(Upsert(mem, r), TableRuns(crc, tables)))
  {
    hide TablesMatch, LogIs, Recovers, Holds, Fits, EncodeRec, Replays, Upsert, TableRuns;
    var whole := EncodeRec(crc, r);
    LogGrows(crc, d.wal, mem, r, |whole|);
    forall i | n <= i < |past|
      ensures Recovers(crc, hash, past[i], Holds(if i < |past| - 1 then mem else Upsert(mem, r), TableRuns(crc, tables)))
    {
      var k := i - n + 1;
      LogGrows(crc, d.wal, mem, r, k);
      Relisted(crc, hash, d, past[i], tables);
      MatchingRecovers(crc, hash, past[i], tables, if k < |whole| then mem else Upsert(mem, r));
    }
    assert SwitchAt(crc, hash, past, n, |past| - 1, |past|, Holds(mem, TableRuns(crc, tables)), Holds(Upsert(mem, r), TableRuns(crc, tables)));
  }

  /** What the engine has acknowledged is safe: a crash now recovers to its map. */
  lemma ReplayableRecovers(db: DB)
    requires db.Valid() && db.Replayable()
    ensures Recovers(db.crc, db.hash, db.dir.now, db.Model())
  {
    hide TablesMatch, Replays, Recovers, Holds, GoodList;
    MatchingRecovers(db.crc, db.hash, db.dir.now, db.tables, db.mem.Recs());
  }

  lemma LoggedRecovers(db: DB)
    requires db.Valid() && db.Logged()
    ensures db.Replayable() && Recovers(db.crc, db.hash, db.dir.now, db.Model())
  {
    hide TablesMatch, Replays, Recovers, Holds, LogIs, GoodList;
    LogReplays(db.crc, db.dir.now.wal, db.mem.Recs());
    ReplayableRecovers(db);
  }

  lemma Unmoved(crc: Checksum, hash: Hash, past: seq<DiskState>, m: map<Bytes, Bytes>)
    ensures Switches(crc, hash, past, |past|, |past|, m, m)
  {
    assert SwitchAt(crc, hash, past, |past|, |past|, |past|, m, m);
  }

  lemma UnlistedRemoved(crc: Checksum, hash: Hash, d: DiskState, tables: seq<Handle>, id: nat, mem: seq<Rec>)
    requires TablesMatch(crc, hash, d, tables) && forall j :: 0 <= j < |tables| ==> tables[j].id != id
    ensures var b := d.(files := d.files - {id});
            TablesMatch(crc, hash, b, tables) && (Replays(crc, d.wal, mem) ==> Recovers(crc, hash, b, Holds(mem, TableRuns(crc, tables))))
  {
    hide Recovers, Holds, Replays;
    var b := d.(files := d.files - {id});
    OthersMatch(crc, hash, d, b, tables, id);
    if Replays(crc, d.wal, mem) {
      MatchingRecovers(crc, hash, b, tables, mem);
    }
  }

  /** The step that makes a compacted table take the place of all others. */
  lemma CompactSteps(crc: Checksum, hash: Hash, d: DiskState, tables: seq<Handle>, h: Handle, mem: seq<Rec>)
    requires TablesMatch(crc, hash, d, tables) && h.id !in IdsOf(tables) && Stored(crc, hash, d.files, h)
    ensures var d2 := d.(manifest := [h.id]);
            && TablesMatch(crc, hash, d2, [h]) && TableRuns(crc, [h]) == [ContentOf(crc, h.table)]
            && (Replays(crc, d.wal, mem) ==> Recovers(crc, hash, d2, Holds(mem, [ContentOf(crc, h.table)])))
    ensures forall i :: 0 <= i < |tables| ==> tables[i].id != h.id
  {
    hide Recovers, Holds, Replays, ContentOf, Opened, Whole;
    var d2, one := d.(manifest := [h.id]), [h];
    assert IdsOf(one) == [h.id];
    assert forall i :: 0 <= i < |tables| ==> IdsOf(tables)[i] == tables[i].id;
    if Replays(crc, d.wal, mem) {
      MatchingRecovers(crc, hash, d2, one, mem);
    }
  }

  lemma FreshId(crc: Checksum, hash: Hash, d: DiskState, tables: seq<Handle>, id: nat)
    requires TablesMatch(crc, hash, d, tables) && id !in d.files
    ensures id !in IdsOf(tables)
  {
  }

  /** Another file changing, the open tables stay as they are. */
  lemma OthersMatch(crc: Checksum, hash: Hash, a: DiskState, b: DiskState, tables: seq<Handle>, id: nat)
    requires TablesMatch(crc, hash, a, tables) && OnlyFileChanged(a, b, id) && id !in IdsOf(tables)
    ensures TablesMatch(crc, hash, b, tables) && b.wal == a.wal
  {
    hide Whole, Opened;
    OthersSame(a, b, id);
    StillMatch(crc, hash, a, b, tables);
  }

  lemma OthersSame(a: DiskState, b: DiskState, id: nat)
    requires OnlyFileChanged(a, b, id)
    ensures forall j :: j in a.files && j != id ==> j in b.files && b.files[j] == a.files[j]
  {
    forall j | j in a.files && j != id
      ensures j in b.files && b.files[j] == a.files[j]
    {
      assert j in a.files - {id};
      assert j in b.files - {id};
    }
  }

  lemma FromNothing(rs: seq<Rec>)
    ensures From(rs, []) == rs
  {
  }
}
