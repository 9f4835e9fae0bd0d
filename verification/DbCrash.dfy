/** Any sequence of operations, a crash at any moment of it, and the engine opened again. */
module DbCrash {
  import opened Common
  import opened Codec
  import opened Wal
  import opened Runs
  import opened SkipList
  import opened Merge
  import opened SSTable
  import opened Disk
  import opened Db

  datatype Op = PutOp(key: Bytes, val: Bytes) | DeleteOp(key: Bytes) | FlushOp | CompactOp

  function Effect(m: map<Bytes, Bytes>, op: Op): map<Bytes, Bytes> {
    match op
    case PutOp(key, val) => if key == [] then m else m[key := val]
    case DeleteOp(key) => if key == [] then m else m - {key}
    case _ => m
  }

  function Effects(m: map<Bytes, Bytes>, ops: seq<Op>): map<Bytes, Bytes> {
    if ops == [] then m else Effect(Effects(m, ops[..|ops| - 1]), ops[|ops| - 1])
  }

  function RecsOfOp(op: Op): set<Rec> {
    match op
    case PutOp(key, val) => {Rec(key, val, false)}
    case DeleteOp(key) => {Rec(key, [], true)}
    case _ => {}
  }

  /** Tables can be written of any of these records. */
  ghost predicate RoomOver(db: DB, all: set<Rec>) {
    forall rs: seq<Rec> :: Sorted(rs) && (forall x :: x in rs ==> x in all) ==> Writable(db.crc, db.hash, db.bitsPerKey, rs)
  }

  ghost predicate Within(mem: seq<Rec>, runs: seq<seq<Rec>>, all: set<Rec>) {
    forall x :: HeldIn(x, mem, runs) ==> x in all
  }

  lemma RoomFor(db: DB, all: set<Rec>, r: Rec)
    requires db.Valid() && RoomOver(db, all) && Within(db.mem.Recs(), TableRuns(db.crc, db.tables), all) && r in all
    ensures db.RoomFor(r)
  {
    hide TablesMatch, GoodList, Writable, MergeAll, Live, Upsert, Sorted, AllSorted, Fits, RoomOver, Within, DB.RoomToCompact;
    var mem, runs := db.mem.Recs(), TableRuns(db.crc, db.tables);
    RecsSorted(db.mem);
    UpsertSorted(mem, r);
    AllHeld(mem, runs, all);
    OneFits(db, all, r);
    RoomForMem(db, all, Upsert(mem, r));
    MatchingTables(db.crc, db.hash, db.dir.now, db.tables);
    OneMoreRun(Upsert(mem, r), mem, runs, all);
    RoomToCompact(db, all, [Upsert(mem, r)] + runs);
  }

  lemma OneMoreRun(run: seq<Rec>, mem: seq<Rec>, runs: seq<seq<Rec>>, all: set<Rec>)
    requires Within(mem, runs, all) && Sorted(run) && AllSorted(runs) && forall x :: x in run ==> x in all
    ensures Within([], [run] + runs, all) && AllSorted([run] + runs)
  {
    hide Sorted;
    var more := [run] + runs;
    forall x | HeldIn(x, [], more)
      ensures x in all
    {
      var i :| 0 <= i < |more| && x in more[i];
      assert i > 0 ==> more[i] == runs[i - 1];
      assert i > 0 ==> HeldIn(x, mem, runs);
    }
  }

  lemma AllHeld(mem: seq<Rec>, runs: seq<seq<Rec>>, all: set<Rec>)
    requires Within(mem, runs, all)
    ensures forall x :: x in mem ==> x in all
  {
    forall x | x in mem
      ensures x in all
    {
      assert HeldIn(x, mem, runs);
    }
  }

  lemma RoomForMem(db: DB, all: set<Rec>, rs: seq<Rec>)
    requires RoomOver(db, all) && Sorted(rs) && forall x :: x in rs ==> x in all
    ensures db.Roomy(rs)
  {
    hide Writable, Sorted;
  }

  lemma OneFits(db: DB, all: set<Rec>, r: Rec)
    requires RoomOver(db, all) && r in all
    ensures Fits(r)
  {
    assert Sorted([r]);
    assert Writable(db.crc, db.hash, db.bitsPerKey, [r]);
    assert [r][0] == r;
  }

  lemma RoomToCompact(db: DB, all: set<Rec>, runs: seq<seq<Rec>>)
    requires RoomOver(db, all) && AllSorted(runs) && Within([], runs, all)
    ensures db.RoomToCompact(runs)
  {
    hide Writable, Sorted;
    var merged := MergeAll(runs);
    MergeLayers(runs);
    MergeMembers(runs);
    LiveSorted(merged);
    LiveMembers(merged);
    forall x | x in Live(merged)
      ensures x in all
    {
      assert HeldIn(x, [], runs);
    }
    RoomForMem(db, all, Live(merged));
  }

  /** One operation. */
  method Perform(db: DB, op: Op, ghost all: set<Rec>)
    requires db.Valid() && db.Logged() && !db.closed && RoomOver(db, all) && RecsOfOp(op) <= all
    requires Within(db.mem.Recs(), TableRuns(db.crc, db.tables), all)
    modifies db, db.mem, db.mem.all, db.dir
    ensures db.Valid() && db.Logged() && !db.closed && Within(db.mem.Recs(), TableRuns(db.crc, db.tables), all)
    ensures db.mem == old(db.mem) || fresh(db.mem)
    ensures forall x :: x in db.mem.all ==> x in old(db.mem.all) || fresh(x)
    ensures db.Model() == Effect(old(db.Model()), op) && old(db.dir.past) <= db.dir.past
    ensures Recovers(db.crc, db.hash, db.dir.now, db.Model())
    ensures Switches(db.crc, db.hash, db.dir.past, |old(db.dir.past)|, |db.dir.past|, old(db.Model()), db.Model())
  {
    hide TablesMatch, GoodList, LogIs, Replays, Recovers, RecoverSince, Switches, Holds, Writable, RoomOver, MergeAll, Live, Fits;
    ghost var mem, runs, n := db.mem.Recs(), TableRuns(db.crc, db.tables), |db.dir.past|;
    match op
    case PutOp(key, val) =>
      RoomFor(db, all, Rec(key, val, false));
      var _ := db.Write(Rec(key, val, false));
    case DeleteOp(key) =>
      RoomFor(db, all, Rec(key, [], true));
      var _ := db.Write(Rec(key, [], true));
    case FlushOp =>
      RecsSorted(db.mem);
      AllHeld(mem, runs, all);
      RoomForMem(db, all, mem);
      LoggedRecovers(db);
      var _ := db.Flush();
      LoggedRecovers(db);
      NoSwitch(db.crc, db.hash, db.dir.past, n, db.Model());
    case CompactOp =>
      MatchingTables(db.crc, db.hash, db.dir.now, db.tables);
      TablesWithin(mem, runs, all);
      RoomToCompact(db, all, runs);
      LoggedRecovers(db);
      var _ := db.Compact();
      LoggedRecovers(db);
      NoSwitch(db.crc, db.hash, db.dir.past, n, db.Model());
  }

  lemma TablesWithin(mem: seq<Rec>, runs: seq<seq<Rec>>, all: set<Rec>)
    requires Within(mem, runs, all)
    ensures Within([], runs, all)
  {
    forall x | HeldIn(x, [], runs)
      ensures x in all
    {
      assert HeldIn(x, mem, runs);
    }
  }

  lemma EffectsMore(m: map<Bytes, Bytes>, ops: seq<Op>, op: Op)
    ensures Effects(m, ops + [op]) == Effect(Effects(m, ops), op)
  {
    assert (ops + [op])[..|ops|] == ops;
  }

  /** What the directory went through during some operations: `marks[k]` is how many states
      there were when the k-th began. While an operation is under way the states recover to the
      map before it, and from one moment on to the map after it; when it returns, to the map
      after it. */
  ghost predicate Story(db: DB, past: seq<DiskState>, marks: seq<nat>, m: map<Bytes, Bytes>, ops: seq<Op>) {
    Returns(db, past, marks, m, ops) && InBetween(db, past, marks, m, ops)
  }

  ghost predicate Returns(db: DB, past: seq<DiskState>, marks: seq<nat>, m: map<Bytes, Bytes>, ops: seq<Op>) {
    && |marks| == |ops| + 1
    && forall k :: 0 <= k < |marks| ==> 1 <= marks[k] <= |past| && Recovers(db.crc, db.hash, past[marks[k] - 1], Effects(m, ops[..k]))
  }

  ghost predicate InBetween(db: DB, past: seq<DiskState>, marks: seq<nat>, m: map<Bytes, Bytes>, ops: seq<Op>) {
    && |marks| == |ops| + 1
    && forall k :: 0 <= k < |ops| ==>
         Switches(db.crc, db.hash, past, marks[k], marks[k + 1], Effects(m, ops[..k]), Effects(m, ops[..k + 1]))
  }

  lemma ReturnsMore(db: DB, past: seq<DiskState>, more: seq<DiskState>, marks: seq<nat>, m: map<Bytes, Bytes>, ops: seq<Op>, op: Op)
    requires Returns(db, past, marks, m, ops) && past <= more && |more| >= 1
    requires Recovers(db.crc, db.hash, more[|more| - 1], Effects(m, ops + [op]))
    ensures Returns(db, more, marks + [|more|], m, ops + [op])
  {
    hide Recovers, Effects;
    var all, marks' := ops + [op], marks + [|more|];
    forall k | 0 <= k < |marks'|
      ensures 1 <= marks'[k] <= |more| && Recovers(db.crc, db.hash, more[marks'[k] - 1], Effects(m, all[..k]))
    {
      if k < |marks| {
        assert all[..k] == ops[..k];
      } else {
        assert all[..k] == all;
      }
    }
  }

  lemma InBetweenMore(db: DB, past: seq<DiskState>, more: seq<DiskState>, marks: seq<nat>, m: map<Bytes, Bytes>, ops: seq<Op>, op: Op)
    requires InBetween(db, past, marks, m, ops) && past <= more && marks[|ops|] == |past|
    requires Switches(db.crc, db.hash, more, |past|, |more|, Effects(m, ops), Effects(m, ops + [op]))
    ensures InBetween(db, more, marks + [|more|], m, ops + [op])
  {
    hide Recovers, Effects, Switches;
    var all, marks' := ops + [op], marks + [|more|];
    forall k | 0 <= k < |all|
      ensures Switches(db.crc, db.hash, more, marks'[k], marks'[k + 1], Effects(m, all[..k]), Effects(m, all[..k + 1]))
    {
      if k < |ops| {
        assert all[..k] == ops[..k] && all[..k + 1] == ops[..k + 1];
        SwitchesStay(db, past, more, marks[k], marks[k + 1], Effects(m, ops[..k]), Effects(m, ops[..k + 1]));
      } else {
        assert all[..k] == ops && all[..k + 1] == all;
      }
    }
  }

  lemma SwitchesStay(db: DB, past: seq<DiskState>, more: seq<DiskState>, n: nat, e: nat, before: map<Bytes, Bytes>, after: map<Bytes, Bytes>)
    requires past <= more && Switches(db.crc, db.hash, past, n, e, before, after)
    ensures Switches(db.crc, db.hash, more, n, e, before, after)
  {
    hide Recovers;
    var k: nat :| SwitchAt(db.crc, db.hash, past, n, k, e, before, after);
    assert SwitchAt(db.crc, db.hash, more, n, k, e, before, after);
  }

  lemma StoryGoesOn(db: DB, past: seq<DiskState>, more: seq<DiskState>, marks: seq<nat>, m: map<Bytes, Bytes>, ops: seq<Op>, op: Op)
    requires Story(db, past, marks, m, ops) && past <= more && |more| >= 1 && |marks| == |ops| + 1 && marks[|ops|] == |past|
    requires Recovers(db.crc, db.hash, more[|more| - 1], Effect(Effects(m, ops), op))
    requires Switches(db.crc, db.hash, more, |past|, |more|, Effects(m, ops), Effect(Effects(m, ops), op))
    ensures Story(db, more, marks + [|more|], m, ops + [op]) && Effects(m, ops + [op]) == Effect(Effects(m, ops), op)
  {
    hide Recovers, Switches, Effect, Effects, Returns, InBetween;
    EffectsMore(m, ops, op);
    ReturnsMore(db, past, more, marks, m, ops, op);
    InBetweenMore(db, past, more, marks, m, ops, op);
  }

  /** One operation more, behind those done. */
  method PerformNext(db: DB, ghost m: map<Bytes, Bytes>, ghost done: seq<Op>, op: Op, ghost marks: seq<nat>, ghost all: set<Rec>)
    requires db.Valid() && db.Logged() && !db.closed && RoomOver(db, all) && RecsOfOp(op) <= all
    requires Within(db.mem.Recs(), TableRuns(db.crc, db.tables), all)
    requires Story(db, db.dir.past, marks, m, done) && db.Model() == Effects(m, done)
    requires |marks| == |done| + 1 && marks[|done|] == |db.dir.past|
    modifies db, db.mem, db.mem.all, db.dir
    ensures db.Valid() && db.Logged() && !db.closed && Within(db.mem.Recs(), TableRuns(db.crc, db.tables), all)
    ensures db.mem == old(db.mem) || fresh(db.mem)
    ensures forall x :: x in db.mem.all ==> x in old(db.mem.all) || fresh(x)
    ensures Story(db, db.dir.past, marks + [|db.dir.past|], m, done + [op]) && db.Model() == Effects(m, done + [op])
    ensures old(db.dir.past) <= db.dir.past
  {
    hide TablesMatch, GoodList, LogIs, Recovers, Switches, Holds, RoomOver, Within, Effect, Effects, Story;
    ghost var past := db.dir.past;
    Perform(db, op, all);
    StoryGoesOn(db, past, db.dir.past, marks, m, done, op);
  }

  /** Operations one after the other. */
  method PerformAll(db: DB, ops: seq<Op>, ghost all: set<Rec>) returns (ghost marks: seq<nat>)
    requires db.Valid() && db.Logged() && !db.closed && RoomOver(db, all) && forall op :: op in ops ==> RecsOfOp(op) <= all
    requires Within(db.mem.Recs(), TableRuns(db.crc, db.tables), all)
    modifies db, db.mem, db.mem.all, db.dir
    ensures db.Valid() && db.Logged() && !db.closed && Within(db.mem.Recs(), TableRuns(db.crc, db.tables), all)
    ensures db.mem == old(db.mem) || fresh(db.mem)
    ensures forall x :: x in db.mem.all ==> x in old(db.mem.all) || fresh(x)
    ensures db.Model() == Effects(old(db.Model()), ops) && old(db.dir.past) <= db.dir.past
    ensures |marks| == |ops| + 1 && marks[0] == |old(db.dir.past)| && marks[|ops|] == |db.dir.past|
    ensures Story(db, db.dir.past, marks, old(db.Model()), ops)
  {
    hide TablesMatch, GoodList, LogIs, Recovers, Switches, Holds, RoomOver, Within, Effect, Effects, Story;
    ghost var m := db.Model();
    if ops == [] {
      LoggedRecovers(db);
      marks := [|db.dir.past|];
      StoryBegins(db, m);
    } else {
      var done, op := ops[..|ops| - 1], ops[|ops| - 1];
      assert ops == done + [op] && op in ops;
      marks := PerformAll(db, done, all);
      forall j | 0 <= j < |db.mem.all|
        ensures db.mem.all[j] in old(db.mem.all) || fresh(db.mem.all[j])
      {
        assert db.mem.all[j] in db.mem.all;
      }
      PerformNext(db, m, done, op, marks, all);
      marks := marks + [|db.dir.past|];
    }
  }

  lemma StoryBegins(db: DB, m: map<Bytes, Bytes>)
    requires db.Valid() && Recovers(db.crc, db.hash, db.dir.now, m)
    ensures Story(db, db.dir.past, [|db.dir.past|], m, []) && Effects(m, []) == m
  {
    var none: seq<Op> := [];
    assert Effects(m, none[..0]) == m;
  }

  /** An engine that is open and stands for `m`. */
  ghost predicate Shows(db: DB?, m: map<Bytes, Bytes>)
    reads db, if db == null then {} else {db.dir, db.mem}, if db == null then [] else db.mem.all
  {
    db != null && db.Valid() && db.Model() == m
  }

  /** The engine, opened on a directory that a crash left like this. */
  method Reopen(crc: Checksum, hash: Hash, opts: Options, d: DiskState) returns (db: DB?)
    ensures forall m :: Recovers(crc, hash, d, m) ==> Shows(db, m)
  {
    hide Safe, View, GoodList, TablesMatch, Holds;
    var dir := new Directory(d);
    db := DB.Open(crc, hash, opts, dir);
  }

  /** Durability. After any operations, let the directory be as it was at any moment on the way:
      opening it gives the map of the operations that had returned, or of these and the one that
      was under way; and if none was, exactly the former. */
  method CrashAndOpen(db: DB, ops: seq<Op>, ghost all: set<Rec>, d: DiskState, opts: Options) returns (db2: DB?, ghost marks: seq<nat>)
    requires db.Valid() && db.Logged() && !db.closed && RoomOver(db, all) && forall op :: op in ops ==> RecsOfOp(op) <= all
    requires Within(db.mem.Recs(), TableRuns(db.crc, db.tables), all)
    modifies db, db.mem, db.mem.all, db.dir
    ensures |marks| == |ops| + 1 && marks[0] == |old(db.dir.past)| && marks[|ops|] == |db.dir.past|
    ensures forall k :: 0 <= k <= |ops| ==> 1 <= marks[k] <= |db.dir.past|
    ensures forall k :: 0 <= k < |ops| ==> marks[k] <= marks[k + 1]
    ensures forall k, i :: 0 <= k < |ops| && marks[k] <= i < marks[k + 1] && db.dir.past[i] == d ==>
              Shows(db2, Effects(old(db.Model()), ops[..k])) || Shows(db2, Effects(old(db.Model()), ops[..k + 1]))
    ensures forall k :: 0 <= k <= |ops| && db.dir.past[marks[k] - 1] == d ==> Shows(db2, Effects(old(db.Model()), ops[..k]))
  {
    hide TablesMatch, GoodList, LogIs, Holds, RoomOver, Within, Effects, Story, Recovers, Shows;
    ghost var m := db.Model();
    marks := PerformAll(db, ops, all);
    OpensTo(db, db.dir.past, marks, m, ops, d);
    db2 := Reopen(db.crc, db.hash, opts, d);
  }

  lemma OpensTo(db: DB, past: seq<DiskState>, marks: seq<nat>, m: map<Bytes, Bytes>, ops: seq<Op>, d: DiskState)
    requires Story(db, past, marks, m, ops)
    ensures |marks| == |ops| + 1 && forall k :: 0 <= k <= |ops| ==> 1 <= marks[k] <= |past|
    ensures forall k :: 0 <= k < |ops| ==> marks[k] <= marks[k + 1]
    ensures forall k, i :: 0 <= k < |ops| && marks[k] <= i < marks[k + 1] && past[i] == d ==>
              Recovers(db.crc, db.hash, d, Effects(m, ops[..k])) || Recovers(db.crc, db.hash, d, Effects(m, ops[..k + 1]))
    ensures forall k :: 0 <= k <= |ops| && past[marks[k] - 1] == d ==> Recovers(db.crc, db.hash, d, Effects(m, ops[..k]))
  {
    hide Recovers, Effects;
    forall k | 0 <= k < |ops|
      ensures marks[k] <= marks[k + 1]
    {
      var at: nat :| SwitchAt(db.crc, db.hash, past, marks[k], at, marks[k + 1], Effects(m, ops[..k]), Effects(m, ops[..k + 1]));
    }
    forall k, i | 0 <= k < |ops| && marks[k] <= i < marks[k + 1] && past[i] == d
      ensures Recovers(db.crc, db.hash, d, Effects(m, ops[..k])) || Recovers(db.crc, db.hash, d, Effects(m, ops[..k + 1]))
    {
      var at: nat :| SwitchAt(db.crc, db.hash, past, marks[k], at, marks[k + 1], Effects(m, ops[..k]), Effects(m, ops[..k + 1]));
      assert if i < at then Recovers(db.crc, db.hash, past[i], Effects(m, ops[..k])) else Recovers(db.crc, db.hash, past[i], Effects(m, ops[..k + 1]));
    }
  }
}
