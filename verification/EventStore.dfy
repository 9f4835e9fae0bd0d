/** The append-only event store: one batch record per append, and an index in memory that the
    batches determine. */
module EventStore {
  import opened Common
  import opened Keys

  datatype EventData = EventData(typ: string, data: Bytes)

  datatype Event = Event(global: nat, stream: string, seq_: nat, typ: string, data: Bytes, at: int)

  datatype Batch = Batch(stream: string, at: int, firstSeq: nat, firstGlobal: nat, events: seq<EventData>)

  datatype AppendResult = Appended(events: seq<Event>) | NoStream | NoEvents | Conflict

  const ANY_VERSION: int := -1

  /** The record key of a batch: "g/" and its first global number, in eight bytes. */
  function GKey(global: nat): Bytes
    requires global < Exp256(8)
  {
    [103, 47] + BigEndian(global, 8)
  }

  /** Batches are scanned in the order of their global numbers, and never overwrite each other. */
  lemma GKeyOrder(a: nat, b: nat)
    requires a < Exp256(8) && b < Exp256(8)
    ensures Less(GKey(a), GKey(b)) <==> a < b
    ensures GKey(a) == GKey(b) <==> a == b
  {
    BigEndianOrder(a, b, 8);
    PrefixOrder([103, 47], BigEndian(a, 8), BigEndian(b, 8));
    assert GKey(a)[2..] == BigEndian(a, 8) && GKey(b)[2..] == BigEndian(b, 8);
  }

  // ---- the flat list ----

  function EventAt(b: Batch, i: nat): Event
    requires i < |b.events|
  {
    Event(b.firstGlobal + i, b.stream, b.firstSeq + i, b.events[i].typ, b.events[i].data, b.at)
  }

  function EventsOf(b: Batch): (es: seq<Event>)
    ensures |es| == |b.events| && forall i :: 0 <= i < |es| ==> es[i] == EventAt(b, i)
  {
    seq(|b.events|, i requires 0 <= i < |b.events| => EventAt(b, i))
  }

  function Flat(bs: seq<Batch>): seq<Event> {
    if bs == [] then [] else Flat(bs[..|bs| - 1]) + EventsOf(bs[|bs| - 1])
  }

  /** The events of one stream. */
  function StreamOf(log: seq<Event>, s: string): seq<Event> {
    if log == [] then []
    else StreamOf(log[..|log| - 1], s) + (if log[|log| - 1].stream == s then [log[|log| - 1]] else [])
  }

  /** A batch that continues a log: the check a reopening makes. */
  predicate Continues(log: seq<Event>, b: Batch) {
    b.firstGlobal == |log| + 1 && b.firstSeq == |StreamOf(log, b.stream)| + 1
  }

  predicate Gapless(bs: seq<Batch>) {
    bs == [] || (Gapless(bs[..|bs| - 1]) && Continues(Flat(bs[..|bs| - 1]), bs[|bs| - 1]))
  }

  ghost predicate NoneEmpty(bs: seq<Batch>) {
    forall i :: 0 <= i < |bs| ==> bs[i].events != []
  }

  lemma {:induction false} StreamOfJoins(a: seq<Event>, b: seq<Event>, s: string)
    ensures StreamOf(a + b, s) == StreamOf(a, s) + StreamOf(b, s)
    decreases |b|
  {
    if b == [] {
      assert a + b == a;
    } else {
      StreamOfJoins(a, b[..|b| - 1], s);
      assert (a + b)[..|a + b| - 1] == a + b[..|b| - 1];
    }
  }

  lemma {:induction false} StreamOfSame(es: seq<Event>, s: string, t: string)
    requires forall e :: e in es ==> e.stream == s
    ensures StreamOf(es, t) == if s == t then es else []
  {
    if es != [] {
      StreamOfSame(es[..|es| - 1], s, t);
      assert es == es[..|es| - 1] + [es[|es| - 1]];
    }
  }

  lemma FlatMore(bs: seq<Batch>, b: Batch)
    ensures Flat(bs + [b]) == Flat(bs) + EventsOf(b)
    ensures forall s :: StreamOf(Flat(bs + [b]), s) == StreamOf(Flat(bs), s) + (if s == b.stream then EventsOf(b) else [])
    ensures Gapless(bs + [b]) <==> Gapless(bs) && Continues(Flat(bs), b)
  {
    assert (bs + [b])[..|bs|] == bs;
    forall s
      ensures StreamOf(Flat(bs + [b]), s) == StreamOf(Flat(bs), s) + (if s == b.stream then EventsOf(b) else [])
    {
      StreamOfJoins(Flat(bs), EventsOf(b), s);
      StreamOfSame(EventsOf(b), b.stream, s);
    }
  }

  /** Every event's global number is its place in the list, from 1. */
  ghost predicate GlobalsDense(log: seq<Event>) {
    forall i :: 0 <= i < |log| ==> log[i].global == i + 1
  }

  ghost predicate SeqsDense(log: seq<Event>) {
    forall s, i :: 0 <= i < |StreamOf(log, s)| ==> StreamOf(log, s)[i].seq_ == i + 1 && StreamOf(log, s)[i].stream == s
  }

  /** The numbers of a gapless log are dense: the globals over all, the seqs in every stream. */
  lemma {:induction false} GaplessIsDense(bs: seq<Batch>)
    requires Gapless(bs)
    ensures GlobalsDense(Flat(bs)) && SeqsDense(Flat(bs))
  {
    if bs != [] {
      var front, b := bs[..|bs| - 1], bs[|bs| - 1];
      GaplessIsDense(front);
      assert front + [b] == bs;
      FlatMore(front, b);
    }
  }

  // ---- the index, as a function of the list ----

  function Lookup<V>(m: map<string, V>, s: string, zero: V): V {
    if s in m then m[s] else zero
  }

  function VersionsOf(log: seq<Event>): map<string, nat> {
    if log == [] then map[]
    else
      var m, s := VersionsOf(log[..|log| - 1]), log[|log| - 1].stream;
      m[s := Lookup(m, s, 0) + 1]
  }

  function StreamsOf(log: seq<Event>): map<string, seq<nat>> {
    if log == [] then map[]
    else
      var m, s := StreamsOf(log[..|log| - 1]), log[|log| - 1].stream;
      m[s := Lookup(m, s, []) + [|log|]]
  }

  function StartsOf(bs: seq<Batch>): (starts: seq<nat>)
    ensures |starts| == |bs| && forall i :: 0 <= i < |bs| ==> starts[i] == bs[i].firstGlobal
  {
    seq(|bs|, i requires 0 <= i < |bs| => bs[i].firstGlobal)
  }

  function GlobalsOf(es: seq<Event>): (gs: seq<nat>)
    ensures |gs| == |es| && forall i :: 0 <= i < |es| ==> gs[i] == es[i].global
  {
    seq(|es|, i requires 0 <= i < |es| => es[i].global)
  }

  /** The index holds for each stream its length and the globals of its events. */
  lemma {:induction false} IndexIsRight(log: seq<Event>, s: string)
    requires GlobalsDense(log)
    ensures Lookup(VersionsOf(log), s, 0) == |StreamOf(log, s)|
    ensures Lookup(StreamsOf(log), s, []) == GlobalsOf(StreamOf(log, s))
  {
    if log != [] {
      var front := log[..|log| - 1];
      assert GlobalsDense(front);
      IndexIsRight(front, s);
    }
  }

  /** The batches under their keys. */
  ghost predicate Stores(db: map<nat, Batch>, bs: seq<Batch>) {
    forall k: nat, b: Batch :: (k in db && db[k] == b) <==> (b in bs && b.firstGlobal == k)
  }

  lemma {:induction false} FlatPrefix(bs: seq<Batch>, n: nat)
    requires n <= |bs|
    ensures Flat(bs[..n]) <= Flat(bs)
  {
    if n < |bs| {
      FlatPrefix(bs[..|bs| - 1], n);
      assert bs[..|bs| - 1][..n] == bs[..n];
    } else {
      assert bs[..n] == bs;
    }
  }

  lemma {:induction false} FlatStart(bs: seq<Batch>, i: nat)
    requires Gapless(bs) && i < |bs|
    ensures bs[i].firstGlobal == |Flat(bs[..i])| + 1
  {
    GaplessPrefix(bs, i + 1);
    assert bs[..i + 1][..i] == bs[..i];
  }

  lemma StartsAscend(bs: seq<Batch>, i: nat)
    requires Gapless(bs) && NoneEmpty(bs) && i < |bs|
    ensures 1 <= bs[i].firstGlobal && bs[i].firstGlobal + |bs[i].events| <= |Flat(bs)| + 1
    ensures i + 1 < |bs| ==> bs[i].firstGlobal + |bs[i].events| == bs[i + 1].firstGlobal
    ensures forall j :: i < j < |bs| ==> bs[i].firstGlobal < bs[j].firstGlobal
  {
    hide Flat, Gapless, StreamOf, EventsOf;
    FlatStart(bs, i);
    BatchEnds(bs, i);
    FlatPrefix(bs, i + 1);
    if i + 1 < |bs| { FlatStart(bs, i + 1); }
    forall j | i < j < |bs|
      ensures bs[i].firstGlobal < bs[j].firstGlobal
    {
      FlatStart(bs, j);
      FlatPrefix(bs[..j], i + 1);
      assert bs[..j][..i + 1] == bs[..i + 1];
    }
  }

  lemma BatchEnds(bs: seq<Batch>, i: nat)
    requires i < |bs|
    ensures |Flat(bs[..i + 1])| == |Flat(bs[..i])| + |bs[i].events|
  {
    hide Flat, StreamOf;
    assert bs[..i + 1] == bs[..i] + [bs[i]];
    FlatMore(bs[..i], bs[i]);
  }

  lemma {:induction false} GaplessPrefix(bs: seq<Batch>, n: nat)
    requires Gapless(bs) && n <= |bs|
    ensures Gapless(bs[..n])
  {
    if n < |bs| {
      GaplessPrefix(bs[..|bs| - 1], n);
      assert bs[..|bs| - 1][..n] == bs[..n];
    } else {
      assert bs[..n] == bs;
    }
  }

  // ---- finding an event's batch ----

  lemma FlatAt(bs: seq<Batch>, i: nat, j: nat)
    requires Gapless(bs) && NoneEmpty(bs) && i < |bs| && j < |bs[i].events|
    ensures 1 <= bs[i].firstGlobal && bs[i].firstGlobal - 1 + j < |Flat(bs)|
    ensures Flat(bs)[bs[i].firstGlobal - 1 + j] == EventAt(bs[i], j)
  {
    hide Flat, Gapless, StreamOf, NoneEmpty;
    StartsAscend(bs, i);
    FlatStart(bs, i);
    FlatPrefix(bs, i + 1);
    assert bs[..i + 1] == bs[..i] + [bs[i]];
    FlatMore(bs[..i], bs[i]);
  }

  /** The batch that holds event number `g` of the log. */
  ghost predicate BatchOf(bs: seq<Batch>, g: nat, i: nat) {
    && i < |bs| && (i == 0 || bs[i].firstGlobal <= g)
    && (i + 1 < |bs| ==> g < bs[i + 1].firstGlobal)
  }

  lemma BatchHolds(bs: seq<Batch>, g: nat, i: nat)
    requires Gapless(bs) && NoneEmpty(bs) && BatchOf(bs, g, i) && 1 <= g <= |Flat(bs)|
    ensures bs[i].firstGlobal <= g < bs[i].firstGlobal + |bs[i].events|
    ensures Flat(bs)[g - 1] == EventAt(bs[i], g - bs[i].firstGlobal)
  {
    assert |Flat(bs[..0])| == 0;
    hide Flat, Gapless, StreamOf, NoneEmpty;
    StartsAscend(bs, i);
    FlatStart(bs, i);
    if i == |bs| - 1 {
      assert bs == bs[..i] + [bs[i]];
      FlatMore(bs[..i], bs[i]);
    }
    FlatAt(bs, i, g - bs[i].firstGlobal);
  }

  // ---- reading ----

  /** The part of a list a read returns: from the from-th element on, at most `limit` of them
      unless `limit` is not positive. */
  function Window(log: seq<Event>, from: nat, limit: int): seq<Event> {
    var first := if from == 0 then 0 else from - 1;
    var tail := if first <= |log| then log[first..] else [];
    if 0 < limit < |tail| then tail[..limit] else tail
  }

  /** What has been collected once the first `p` events have been looked at. */
  function Collected(log: seq<Event>, from: nat, p: nat): seq<Event>
    requires p <= |log|
  {
    if 1 <= from <= p then log[from - 1..p] else []
  }

  class Store {
    var db: map<nat, Batch>
    var global: nat
    var versions: map<string, nat>
    var streamIdx: map<string, seq<nat>>
    var batchStarts: seq<nat>
    ghost var batches: seq<Batch>

    /** The flat list of all events. */
    ghost function Log(): seq<Event>
      reads this
    {
      Flat(batches)
    }

    /** The index is the one the log determines. */
    ghost predicate Indexed()
      reads this
    {
      && global == |Log()| && versions == VersionsOf(Log()) && streamIdx == StreamsOf(Log())
      && batchStarts == StartsOf(batches)
    }

    ghost predicate Valid()
      reads this
    {
      Gapless(batches) && NoneEmpty(batches) && Stores(db, batches) && Indexed()
    }

    constructor (db: map<nat, Batch>)
      ensures this.db == db && batches == [] && Indexed()
    {
      this.db, global, versions, streamIdx, batchStarts, batches := db, 0, map[], map[], [], [];
    }

    /** Takes the events of one batch into the index. */
    method Index(b: Batch)
      requires Indexed()
      modifies this
      ensures Indexed() && batches == old(batches) + [b] && db == old(db)
    {
      hide VersionsOf, StreamsOf, StartsOf;
      ghost var log := Log();
      FlatMore(batches, b);
      StartsMore(batches, b);
      batchStarts := batchStarts + [b.firstGlobal];
      ghost var es := EventsOf(b);
      var i := 0;
      assert log + es[..0] == log;
      while i < |b.events|
        invariant i <= |b.events| == |es| && db == old(db) && batches == old(batches)
        invariant batchStarts == old(batchStarts) + [b.firstGlobal]
        invariant global == |log| + i && versions == VersionsOf(log + es[..i]) && streamIdx == StreamsOf(log + es[..i])
      {
        VersionsMore(log + es[..i], es[i]);
        StreamsMore(log + es[..i], es[i]);
        assert log + es[..i + 1] == log + es[..i] + [es[i]];
        global := global + 1;
        versions := versions[b.stream := Lookup(versions, b.stream, 0) + 1];
        streamIdx := streamIdx[b.stream := Lookup(streamIdx, b.stream, []) + [global]];
        i := i + 1;
      }
      assert es[..i] == es;
      batches := batches + [b];
    }

    /** Appends the events as one batch, or fails and changes nothing. */
    method Append(stream: string, expected: int, events: seq<EventData>, now: int) returns (r: AppendResult)
      requires Valid()
      modifies this
      ensures Valid()
      ensures r == Attempt(old(Log()), stream, expected, events, now)
      ensures Log() == old(Log()) + (if r.Appended? then r.events else [])
      ensures !r.Appended? ==> db == old(db) && batches == old(batches)
      ensures batches == old(batches) + if r.Appended? then [NewBatch(old(Log()), stream, events, now)] else []
    {
      hide VersionsOf, StreamsOf, StartsOf, Flat, StreamOf, Gapless, NoneEmpty, Stores, EventsOf;
      if stream == "" {
        return NoStream;
      }
      if events == [] {
        return NoEvents;
      }
      GaplessIsDense(batches);
      IndexIsRight(Log(), stream);
      var cur := Lookup(versions, stream, 0);
      if expected >= 0 && expected != cur {
        return Conflict;
      }
      var b := Batch(stream, now, cur + 1, global + 1, events);
      FlatMore(batches, b);
      StoresMore(db, batches, b);
      NoneEmptyMore(batches, b);
      db := db[b.firstGlobal := b];
      Index(b);
      return Appended(EventsOf(b));
    }

    method BatchStartFor(g: nat) returns (start: nat, ghost at: nat)
      requires Valid()
      ensures batches == [] ==> start == 0
      ensures batches != [] ==> BatchOf(batches, g, at) && start == batches[at].firstGlobal && start >= 1
    {
      at := 0;
      if batchStarts == [] {
        return 0, 0;
      }
      var lo, hi := 0, |batchStarts|;
      while lo < hi
        invariant 0 <= lo <= hi <= |batchStarts|
        invariant lo > 0 ==> batchStarts[lo - 1] <= g
        invariant hi < |batchStarts| ==> batchStarts[hi] > g
      {
        var mid := (lo + hi) / 2;
        if batchStarts[mid] > g {
          hi := mid;
        } else {
          lo := mid + 1;
        }
      }
      var i := if lo == 0 then 0 else lo - 1;
      StartsAscend(batches, i);
      return batchStarts[i], i;
    }

    /** The events from number `from` on. */
    method ReadAll(from: nat, limit: int) returns (out: seq<Event>)
      requires Valid()
      ensures out == Window(Log(), from, limit)
    {
      hide Stores, NoneEmpty, Ascending, Flat, Gapless, VersionsOf, StreamsOf, BatchOf, StartsOf, StartPos, Collected, Window, EventAt;
      var first := if from == 0 then 1 else from;
      var start, at := BatchStartFor(first);
      out := [];
      ghost var log := Log();
      WindowFromOne(log, limit);
      if start == 0 {
        NothingToRead(first, limit);
        return;
      }
      BatchInside(batches, first, at);
      var keys := Scan(db.Keys, start);
      KeysAre(db, batches, keys, at);
      SkippedBefore(batches, first, at);
      var i := 0;
      while i < |keys|
        invariant i <= |keys| && at + |keys| == |batches|
        invariant out == Collected(log, first, StartPos(batches, at + i))
        invariant limit > 0 ==> |out| < limit
      {
        BatchAt(batches, at + i);
        var full;
        out, full := Collect(db[keys[i]], first, limit, out, log, StartPos(batches, at + i));
        if full {
          return;
        }
        i := i + 1;
      }
      StartPosEnd(batches);
      AllCollected(log, first, limit);
    }

    /** The events of a stream from number `fromSeq` on. */
    method ReadStream(stream: string, fromSeq: nat, limit: int) returns (out: seq<Event>)
      requires Valid()
      ensures out == Window(StreamOf(Log(), stream), fromSeq, limit)
    {
      hide Stores, NoneEmpty, Flat, StreamOf, Gapless, VersionsOf, StreamsOf, BatchOf, StartsOf;
      var first := if fromSeq == 0 then 1 else fromSeq;
      ghost var mine := StreamOf(Log(), stream);
      GaplessIsDense(batches);
      IndexIsRight(Log(), stream);
      var idx := Lookup(streamIdx, stream, []);
      out := [];
      if first > |idx| {
        return;
      }
      var globals := idx[first - 1..];
      if 0 < limit < |globals| {
        globals := globals[..limit];
      }
      out := Fetch(stream, first, globals);
    }

    /** The events with these global numbers, keeping the batch read last at hand. */
    method Fetch(stream: string, first: nat, globals: seq<nat>) returns (out: seq<Event>)
      requires Valid() && first >= 1 && first - 1 + |globals| <= |StreamOf(Log(), stream)|
      requires forall i :: 0 <= i < |globals| ==> globals[i] == StreamOf(Log(), stream)[first - 1 + i].global
      ensures out == StreamOf(Log(), stream)[first - 1..first - 1 + |globals|]
    {
      hide Stores, NoneEmpty, Flat, StreamOf, Gapless, VersionsOf, StreamsOf, BatchOf, StartsOf;
      ghost var mine := StreamOf(Log(), stream);
      out := [];
      var cached: Option<Batch> := None;
      var cachedStart := 0;
      var i := 0;
      while i < |globals|
        invariant i <= |globals| && out == mine[first - 1..first - 1 + i]
        invariant cachedStart != 0 ==> cachedStart in db && cached == Some(db[cachedStart])
      {
        var g := globals[i];
        var start, at := BatchStartFor(g);
        EventFrom(db, batches, stream, first - 1 + i, at);
        if start != cachedStart {
          cached, cachedStart := Some(db[start]), start;
        }
        var off := g - cached.value.firstGlobal;
        out := out + [Event(g, stream, first + i, cached.value.events[off].typ, cached.value.events[off].data, cached.value.at)];
        i := i + 1;
      }
    }

    /** Rebuilds the store from what is on disk; null when there is a gap. `bs` is any list
        of batches a store may have left there. */
    static method Open(db: map<nat, Batch>, ghost bs: seq<Batch>) returns (s: Store?)
      ensures s != null ==> fresh(s) && s.db == db && s.Indexed() && Gapless(s.batches)
      ensures Gapless(bs) && NoneEmpty(bs) && Stores(db, bs) ==> s != null && s.Valid() && s.batches == bs
    {
      hide Stores, NoneEmpty, Ascending, Flat, StreamOf, Gapless, VersionsOf, StreamsOf, StartsOf;
      var keys := Scan(db.Keys, 0);
      s := new Store(db);
      ghost var scanned := Scanned(db, keys);
      ghost var sound := Gapless(bs) && NoneEmpty(bs) && Stores(db, bs);
      if sound {
        ScannedIs(db, keys, bs);
      }
      var i := 0;
      assert Gapless([]) by { GaplessNone(); }
      while i < |keys|
        invariant i <= |keys| && fresh(s) && s.Indexed() && Gapless(s.batches) && s.db == db
        invariant s.batches == scanned[..i]
      {
        var b := db[keys[i]];
        assert scanned[..i + 1] == scanned[..i] + [b];
        GaplessIsDense(s.batches);
        IndexIsRight(s.Log(), b.stream);
        FlatMore(s.batches, b);
        if sound {
          GaplessAt(bs, i);
        }
        if b.firstGlobal != s.global + 1 || b.firstSeq != Lookup(s.versions, b.stream, 0) + 1 {
          return null;
        }
        s.Index(b);
        i := i + 1;
      }
      assert scanned[..i] == scanned;
    }
  }

  lemma GaplessNone()
    ensures Gapless([])
  {
  }

  /** Adds the events of a batch that a read wants, up to its limit; `p` events of the log lie
      before the batch. */
  method Collect(b: Batch, first: nat, limit: int, found: seq<Event>, ghost log: seq<Event>, ghost p: nat)
    returns (out: seq<Event>, full: bool)
    requires first >= 1 && p + |b.events| <= |log| && b.firstGlobal == p + 1
    requires forall j :: 0 <= j < |b.events| ==> log[p + j] == EventAt(b, j)
    requires found == Collected(log, first, p) && (limit > 0 ==> |found| < limit)
    ensures full ==> out == Window(log, first, limit)
    ensures !full ==> out == Collected(log, first, p + |b.events|) && (limit > 0 ==> |out| < limit)
  {
    hide Collected, Window;
    out := found;
    var j := 0;
    while j < |b.events|
      invariant j <= |b.events| && out == Collected(log, first, p + j)
      invariant limit > 0 ==> |out| < limit
    {
      var g := b.firstGlobal + j;
      CollectedNext(log, first, p + j);
      assert log[p + j] == EventAt(b, j);
      if g >= first {
        out := out + [Event(g, b.stream, b.firstSeq + j, b.events[j].typ, b.events[j].data, b.at)];
        if limit > 0 && |out| >= limit {
          Filled(log, first, p + j + 1, limit);
          return out, true;
        }
      }
      j := j + 1;
    }
    full := false;
  }

  lemma CollectedNext(log: seq<Event>, from: nat, p: nat)
    requires p < |log| && from >= 1
    ensures Collected(log, from, p + 1) == Collected(log, from, p) + (if p + 1 >= from then [log[p]] else [])
  {
  }

  lemma Filled(log: seq<Event>, from: nat, p: nat, limit: nat)
    requires p <= |log| && from >= 1 && limit > 0 && |Collected(log, from, p)| == limit
    ensures Window(log, from, limit) == Collected(log, from, p)
  {
  }

  lemma AllCollected(log: seq<Event>, from: nat, limit: int)
    requires from >= 1 && (limit > 0 ==> |Collected(log, from, |log|)| < limit)
    ensures Window(log, from, limit) == Collected(log, from, |log|)
  {
  }

  lemma NothingToRead(from: nat, limit: int)
    ensures Window(Flat([]), from, limit) == []
  {
  }

  lemma WindowFromOne(log: seq<Event>, limit: int)
    ensures Window(log, 0, limit) == Window(log, 1, limit)
  {
  }

  lemma FlatNone()
    ensures Flat([]) == []
  {
  }

  lemma BatchInside(bs: seq<Batch>, g: nat, i: nat)
    requires BatchOf(bs, g, i)
    ensures i < |bs|
  {
  }

  lemma BatchAt(bs: seq<Batch>, i: nat)
    requires Gapless(bs) && NoneEmpty(bs) && i < |bs|
    ensures bs[i].firstGlobal == StartPos(bs, i) + 1 && StartPos(bs, i + 1) == StartPos(bs, i) + |bs[i].events|
    ensures StartPos(bs, i) + |bs[i].events| <= |Flat(bs)|
    ensures forall j :: 0 <= j < |bs[i].events| ==> Flat(bs)[StartPos(bs, i) + j] == EventAt(bs[i], j)
  {
    hide Flat, Gapless, NoneEmpty;
    StartPosNext(bs, i);
    forall j | 0 <= j < |bs[i].events|
      ensures Flat(bs)[StartPos(bs, i) + j] == EventAt(bs[i], j)
    {
      FlatAt(bs, i, j);
    }
  }

  lemma StartPosEnd(bs: seq<Batch>)
    ensures StartPos(bs, |bs|) == |Flat(bs)|
  {
    assert bs[..|bs|] == bs;
  }

  /** An event of a stream, found through its batch. */
  lemma EventFrom(db: map<nat, Batch>, bs: seq<Batch>, stream: string, k: nat, at: nat)
    requires Gapless(bs) && NoneEmpty(bs) && Stores(db, bs) && k < |StreamOf(Flat(bs), stream)|
    requires var g := StreamOf(Flat(bs), stream)[k].global; bs != [] ==> BatchOf(bs, g, at)
    ensures at < |bs| && bs[at].firstGlobal in db && db[bs[at].firstGlobal] == bs[at]
    ensures var e := StreamOf(Flat(bs), stream)[k];
            var b := bs[at];
            && b.firstGlobal <= e.global < b.firstGlobal + |b.events|
            && e == Event(e.global, stream, k + 1, b.events[e.global - b.firstGlobal].typ, b.events[e.global - b.firstGlobal].data, b.at)
  {
    hide Gapless, StreamOf, NoneEmpty, Stores, BatchOf;
    GaplessIsDense(bs);
    StreamMember(Flat(bs), stream, k);
    hide Flat;
    assert bs != [] by { if bs == [] { FlatNone(); } }
    BatchInside(bs, StreamOf(Flat(bs), stream)[k].global, at);
    BatchHolds(bs, StreamOf(Flat(bs), stream)[k].global, at);
    KeysAreStarts(db, bs);
  }

  /** What an append to a log comes to. */
  function Attempt(log: seq<Event>, stream: string, expected: int, events: seq<EventData>, now: int): AppendResult {
    if stream == "" then NoStream
    else if events == [] then NoEvents
    else if expected >= 0 && expected != |StreamOf(log, stream)| then Conflict
    else Appended(EventsOf(NewBatch(log, stream, events, now)))
  }

  function NewBatch(log: seq<Event>, stream: string, events: seq<EventData>, now: int): Batch {
    Batch(stream, now, |StreamOf(log, stream)| + 1, |log| + 1, events)
  }

  function Scanned(db: map<nat, Batch>, keys: seq<nat>): (bs: seq<Batch>)
    requires forall k :: k in keys ==> k in db
    ensures |bs| == |keys| && forall i :: 0 <= i < |bs| ==> bs[i] == db[keys[i]]
  {
    seq(|keys|, i requires 0 <= i < |keys| => assert keys[i] in keys; db[keys[i]])
  }

  lemma StartsMore(bs: seq<Batch>, b: Batch)
    ensures StartsOf(bs + [b]) == StartsOf(bs) + [b.firstGlobal]
  {
  }

  lemma VersionsMore(log: seq<Event>, e: Event)
    ensures VersionsOf(log + [e]) == VersionsOf(log)[e.stream := Lookup(VersionsOf(log), e.stream, 0) + 1]
  {
    assert (log + [e])[..|log|] == log;
  }

  lemma StreamsMore(log: seq<Event>, e: Event)
    ensures StreamsOf(log + [e]) == StreamsOf(log)[e.stream := Lookup(StreamsOf(log), e.stream, []) + [|log| + 1]]
  {
    hide Lookup;
    var all := log + [e];
    assert all[..|all| - 1] == log && all[|all| - 1] == e;
  }

  lemma NoneEmptyMore(bs: seq<Batch>, b: Batch)
    requires NoneEmpty(bs) && b.events != []
    ensures NoneEmpty(bs + [b])
  {
  }

  lemma StoresMore(db: map<nat, Batch>, bs: seq<Batch>, b: Batch)
    requires Gapless(bs) && NoneEmpty(bs) && Stores(db, bs) && b.firstGlobal == |Flat(bs)| + 1
    ensures Stores(db[b.firstGlobal := b], bs + [b])
  {
    forall x | x in bs
      ensures x.firstGlobal < b.firstGlobal
    {
      var i :| 0 <= i < |bs| && bs[i] == x;
      StartsAscend(bs, i);
    }
  }

  lemma StartsAscending(bs: seq<Batch>)
    requires Gapless(bs) && NoneEmpty(bs)
    ensures Ascending(StartsOf(bs))
  {
    forall i, j | 0 <= i < j < |bs|
      ensures StartsOf(bs)[i] < StartsOf(bs)[j]
    {
      StartsAscend(bs, i);
    }
  }

  lemma KeysAreStarts(db: map<nat, Batch>, bs: seq<Batch>)
    requires Stores(db, bs)
    ensures forall k :: k in db <==> k in StartsOf(bs)
    ensures forall i :: 0 <= i < |bs| ==> bs[i].firstGlobal in db && db[bs[i].firstGlobal] == bs[i]
  {
    forall i | 0 <= i < |bs|
      ensures bs[i].firstGlobal in db && db[bs[i].firstGlobal] == bs[i]
    {
      assert bs[i] in bs;
    }
    forall k | k in db
      ensures k in StartsOf(bs)
    {
      var b := db[k];
      assert b in bs;
      var i :| 0 <= i < |bs| && bs[i] == b;
      assert StartsOf(bs)[i] == k;
    }
  }

  lemma AscendingFrom(ks: seq<nat>, at: nat)
    requires Ascending(ks) && at < |ks|
    ensures Ascending(ks[at..]) && forall k :: k in ks[at..] <==> k in ks && ks[at] <= k
  {
    forall k | k in ks && ks[at] <= k
      ensures k in ks[at..]
    {
      var i :| 0 <= i < |ks| && ks[i] == k;
      assert i >= at;
      assert ks[at..][i - at] == k;
    }
  }

  /** A scan from a batch's first number on shows that batch and all behind it. */
  lemma KeysAre(db: map<nat, Batch>, bs: seq<Batch>, keys: seq<nat>, at: nat)
    requires Gapless(bs) && NoneEmpty(bs) && Stores(db, bs) && at < |bs|
    requires Ascending(keys) && forall k :: k in keys <==> k in db && bs[at].firstGlobal <= k
    ensures keys == StartsOf(bs)[at..]
    ensures forall i :: 0 <= i < |keys| ==> keys[i] in db && db[keys[i]] == bs[at + i]
  {
    hide Gapless, Stores, Ascending, NoneEmpty;
    StartsAscending(bs);
    KeysAreStarts(db, bs);
    AscendingFrom(StartsOf(bs), at);
    var starts := StartsOf(bs)[at..];
    forall k
      ensures k in keys <==> k in starts
    {
      assert k in db <==> k in StartsOf(bs);
    }
    InOrderUnique(keys, starts);
    forall i | 0 <= i < |keys|
      ensures keys[i] in db && db[keys[i]] == bs[at + i]
    {
      assert starts[i] == bs[at + i].firstGlobal;
    }
  }

  /** How many events come before batch `i`. */
  ghost function StartPos(bs: seq<Batch>, i: nat): (p: nat)
    requires i <= |bs|
    ensures p <= |Flat(bs)|
  {
    FlatPrefix(bs, i);
    |Flat(bs[..i])|
  }

  lemma StartPosNext(bs: seq<Batch>, i: nat)
    requires Gapless(bs) && i < |bs|
    ensures bs[i].firstGlobal == StartPos(bs, i) + 1
    ensures StartPos(bs, i + 1) == StartPos(bs, i) + |bs[i].events|
  {
    FlatStart(bs, i);
    assert bs[..i + 1] == bs[..i] + [bs[i]];
    FlatMore(bs[..i], bs[i]);
  }

  lemma SkippedBefore(bs: seq<Batch>, from: nat, at: nat)
    requires Gapless(bs) && NoneEmpty(bs) && from >= 1 && BatchOf(bs, from, at)
    ensures Collected(Flat(bs), from, StartPos(bs, at)) == []
  {
    StartPosNext(bs, at);
  }

  lemma {:induction false} StreamMember(log: seq<Event>, s: string, i: nat)
    requires GlobalsDense(log) && i < |StreamOf(log, s)|
    ensures var e := StreamOf(log, s)[i]; 1 <= e.global <= |log| && log[e.global - 1] == e
  {
    var front := log[..|log| - 1];
    assert GlobalsDense(front);
    if i < |StreamOf(front, s)| {
      StreamMember(front, s, i);
    }
  }

  /** A scan of what a store left is its batches. */
  lemma ScannedIs(db: map<nat, Batch>, keys: seq<nat>, bs: seq<Batch>)
    requires Gapless(bs) && NoneEmpty(bs) && Stores(db, bs)
    requires Ascending(keys) && forall k :: k in keys <==> k in db
    ensures Scanned(db, keys) == bs
  {
    hide Gapless, Stores, Ascending, NoneEmpty;
    StartsAscending(bs);
    KeysAreStarts(db, bs);
    InOrderUnique(keys, StartsOf(bs));
  }

  lemma GaplessAt(bs: seq<Batch>, n: nat)
    requires Gapless(bs) && n < |bs|
    ensures Continues(Flat(bs[..n]), bs[n])
  {
    hide Gapless, Flat, StreamOf, Continues;
    GaplessPrefix(bs, n + 1);
    assert bs[..n + 1] == bs[..n] + [bs[n]];
    FlatMore(bs[..n], bs[n]);
  }

  // ---- projections ----

  const PROJECTION_BATCH: int := 256

  /** A reader that follows the log from its checkpoint, a batch at a time. */
  class Projection {
    const store: Store
    var checkpoint: nat
    /** What the reader's function has been given, in order. */
    ghost var applied: seq<Event>

    /** It has been given exactly the events up to the checkpoint, each once. */
    ghost predicate Valid()
      reads this, store
    {
      store.Valid() && checkpoint <= |store.Log()| && applied == store.Log()[..checkpoint]
    }

    constructor (store: Store)
      requires store.Valid()
      ensures Valid() && this.store == store && checkpoint == 0
    {
      this.store, checkpoint, applied := store, 0, [];
    }

    /** One round: `more` tells whether there was something to read. */
    method Turn() returns (more: bool)
      requires Valid()
      modifies this
      ensures Valid() && more == (old(checkpoint) < |store.Log()|)
      ensures checkpoint == Min(old(checkpoint) + PROJECTION_BATCH, |store.Log()|)
    {
      hide Store.Valid;
      ghost var log := store.Log();
      GaplessIsDense(store.batches) by { ValidIsGapless(store); }
      var evs := store.ReadAll(checkpoint + 1, PROJECTION_BATCH);
      if evs == [] {
        return false;
      }
      applied := applied + evs;
      checkpoint := evs[|evs| - 1].global;
      return true;
    }
  }

  lemma ValidIsGapless(s: Store)
    requires s.Valid()
    ensures Gapless(s.batches)
  {
  }

  /** Appends to the store leave a reader valid: what is in the log stays where it is. */
  twostate lemma AppendsKeepReaders(p: Projection)
    requires old(p.Valid()) && p.store.Valid() && old(p.store.Log()) <= p.store.Log()
    requires p.checkpoint == old(p.checkpoint) && p.applied == old(p.applied)
    ensures p.Valid()
  {
    hide Store.Valid;
  }
}
