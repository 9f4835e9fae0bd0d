/** The immutable table file: records in key order, a sparse index of every 16th key, a
    bloom filter and a 32-byte footer. */
module SSTable {
  import opened Common
  import opened Codec
  import opened Wal
  import opened Runs
  import opened Bloom

  type Hash = Bytes -> Uint64

  const INDEX_INTERVAL: nat := 16
  const TABLE_MAGIC: nat := 0x53484152_44420001
  const FOOTER_LEN: nat := 32
  const TWO_TO_63: nat := 0x8000_0000_0000_0000

  datatype IndexEntry = IndexEntry(key: Bytes, off: nat)

  datatype Result<+T> = Ok(value: T) | Err

  // ---- the file, as a function of its records ----

  function IndexOf(crc: Checksum, rs: seq<Rec>): seq<IndexEntry> {
    if rs == [] then []
    else
      var front := rs[..|rs| - 1];
      IndexOf(crc, front) +
      (if |front| % INDEX_INTERVAL == 0 then [IndexEntry(rs[|rs| - 1].key, |EncodeAll(crc, front)|)] else [])
  }

  function HashesOf(hash: Hash, rs: seq<Rec>): (hs: seq<Uint64>)
    ensures |hs| == |rs| && forall i :: 0 <= i < |rs| ==> hs[i] == hash(rs[i].key)
  {
    if rs == [] then [] else HashesOf(hash, rs[..|rs| - 1]) + [hash(rs[|rs| - 1].key)]
  }

  function EntryBytes(e: IndexEntry): Bytes {
    Uvarint(|e.key|) + e.key + Uvarint(e.off)
  }

  function EntriesBytes(index: seq<IndexEntry>): Bytes {
    if index == [] then [] else EntryBytes(index[0]) + EntriesBytes(index[1..])
  }

  function IndexBytes(index: seq<IndexEntry>): Bytes {
    Uvarint(|index|) + EntriesBytes(index)
  }

  function Le64(n: Uint64): (b: Bytes)
    ensures |b| == 8
  {
    Le32(n % 0x1_0000_0000) + Le32(n / 0x1_0000_0000)
  }

  function FromLe64(b: Bytes): (n: Uint64)
    requires |b| == 8
  {
    FromLe32(b[..4]) + 0x1_0000_0000 * FromLe32(b[4..])
  }

  lemma Le64RoundTrip(n: Uint64)
    ensures FromLe64(Le64(n)) == n
  {
    Le32RoundTrip(n % 0x1_0000_0000);
    Le32RoundTrip(n / 0x1_0000_0000);
    hide Le32, FromLe32;
    assert Le64(n)[..4] == Le32(n % 0x1_0000_0000) && Le64(n)[4..] == Le32(n / 0x1_0000_0000);
  }

  function Footer(indexOff: Uint64, bloomOff: Uint64, n: Uint64): (b: Bytes)
    ensures |b| == FOOTER_LEN
  {
    Le64(indexOff) + Le64(bloomOff) + Le64(n) + Le64(TABLE_MAGIC)
  }

  function Sections(crc: Checksum, hash: Hash, bitsPerKey: int, rs: seq<Rec>): Bytes
    requires Buildable(|rs|, bitsPerKey)
  {
    EncodeAll(crc, rs) + IndexBytes(IndexOf(crc, rs)) + Marshal(FilterOf(HashesOf(hash, rs), bitsPerKey))
  }

  /** A table of these records can be written: its sizes stay below 2^63. */
  ghost predicate Writable(crc: Checksum, hash: Hash, bitsPerKey: int, rs: seq<Rec>) {
    && Buildable(|rs|, bitsPerKey) && AllFit(rs) && |rs| < TWO_TO_63
    && |Sections(crc, hash, bitsPerKey, rs)| + FOOTER_LEN < TWO_TO_63
  }

  ghost function TableBytes(crc: Checksum, hash: Hash, bitsPerKey: int, rs: seq<Rec>): Bytes
    requires Writable(crc, hash, bitsPerKey, rs)
  {
    Sections(crc, hash, bitsPerKey, rs)
    + Footer(|EncodeAll(crc, rs)|, |EncodeAll(crc, rs)| + |IndexBytes(IndexOf(crc, rs))|, |rs|)
  }

  // ---- writing ----

  /** The builder's test. Appending an empty key to a nil slice leaves it nil, so a run of
      empty keys at the start goes unnoticed. */
  predicate Admits(lastKey: Option<Bytes>, key: Bytes) {
    lastKey.Some? ==> Less(lastKey.value, key)
  }

  function NextLast(lastKey: Option<Bytes>, key: Bytes): Option<Bytes> {
    if lastKey == None && key == [] then None else Some(key)
  }

  function LastKey(rs: seq<Rec>): Option<Bytes> {
    if rs == [] then None else NextLast(LastKey(rs[..|rs| - 1]), rs[|rs| - 1].key)
  }

  predicate Accepts(rs: seq<Rec>) {
    rs == [] || (Accepts(rs[..|rs| - 1]) && Admits(LastKey(rs[..|rs| - 1]), rs[|rs| - 1].key))
  }

  lemma {:induction false} LastKeyIs(rs: seq<Rec>)
    ensures LastKey(rs) == None ==> forall i :: 0 <= i < |rs| ==> rs[i].key == []
    ensures LastKey(rs).Some? ==> rs != [] && LastKey(rs).value == rs[|rs| - 1].key
  {
    if rs != [] {
      LastKeyIs(rs[..|rs| - 1]);
    }
  }

  /** Strictly ascending once the leading empty keys are set aside. */
  ghost predicate Ascends(rs: seq<Rec>) {
    forall i, j :: 0 <= i < j < |rs| ==> Less(rs[i].key, rs[j].key) || rs[i].key == rs[j].key == []
  }

  /** The builder takes exactly these runs. */
  lemma {:induction false} AcceptsWhen(rs: seq<Rec>)
    ensures Accepts(rs) <==> Ascends(rs)
  {
    hide Less, Ascends;
    if rs == [] {
      AscendsNone();
    } else {
      var front := rs[..|rs| - 1];
      AcceptsWhen(front);
      AscendsFront(rs);
      if Accepts(front) {
        AdmitsWhen(front, rs[|rs| - 1]);
        assert rs == front + [rs[|rs| - 1]];
      }
    }
  }

  lemma AscendsNone()
    ensures Ascends([])
  {
  }

  lemma AscendsFront(rs: seq<Rec>)
    requires rs != []
    ensures Ascends(rs) ==> Ascends(rs[..|rs| - 1])
  {
  }

  lemma AdmitsWhen(front: seq<Rec>, last: Rec)
    requires Ascends(front) && Accepts(front)
    ensures Admits(LastKey(front), last.key) <==> Ascends(front + [last])
  {
    hide Accepts, LastKey, Less;
    var rs, n := front + [last], |front|;
    LastKeyIs(front);
    if LastKey(front) == None {
      EmptyOrBefore(last.key);
      assert forall i, j :: 0 <= i < j < |rs| ==> rs[i] == front[i] && (j == n || rs[j] == front[j]);
    } else {
      SomeLast(front);
      assert rs[n - 1] == front[n - 1] && rs[n] == last;
      if Admits(LastKey(front), last.key) {
        forall i | 0 <= i < n
          ensures Less(rs[i].key, last.key)
        {
          if i < n - 1 {
            EmptyOrBefore(front[n - 1].key);
            LessTransitive(front[i].key, front[n - 1].key, last.key);
          }
        }
      }
    }
  }

  lemma EmptyOrBefore(key: Bytes)
    ensures key == [] || Less([], key)
  {
  }

  lemma {:induction false} SomeLast(rs: seq<Rec>)
    requires LastKey(rs).Some? && Accepts(rs)
    ensures LastKey(rs).value != []
  {
    var front := rs[..|rs| - 1];
    if LastKey(front).Some? {
      SomeLast(front);
    }
  }

  lemma {:induction false} SortedAccepted(rs: seq<Rec>)
    requires Sorted(rs)
    ensures Accepts(rs)
  {
    AcceptsWhen(rs);
  }

  class Builder {
    const crc: Checksum
    const hash: Hash
    var out: Bytes
    var off: nat
    var index: seq<IndexEntry>
    var hashes: seq<Uint64>
    var n: nat
    var lastKey: Option<Bytes>

    ghost predicate Built(rs: seq<Rec>)
      reads this
    {
      && out == EncodeAll(crc, rs) && off == |out| && n == |rs|
      && index == IndexOf(crc, rs) && hashes == HashesOf(hash, rs) && lastKey == LastKey(rs)
    }

    constructor (crc: Checksum, hash: Hash)
      ensures Built([]) && this.crc == crc && this.hash == hash
    {
      this.crc, this.hash := crc, hash;
      out, off, index, hashes, n, lastKey := [], 0, [], [], 0, None;
    }

    /** Takes a record behind those taken so far, or refuses it and stays as it is. */
    method Add(r: Rec, ghost rs: seq<Rec>) returns (ok: bool)
      requires Built(rs)
      modifies this
      ensures ok <==> Admits(LastKey(rs), r.key)
      ensures Built(if ok then rs + [r] else rs)
    {
      hide EncodeRec, Less, EncodeAll, IndexOf, HashesOf, LastKey;
      BuiltMore(crc, hash, rs, r);
      if lastKey.Some? && !Less(lastKey.value, r.key) {
        return false;
      }
      if n % INDEX_INTERVAL == 0 {
        index := index + [IndexEntry(r.key, off)];
      }
      var buf := EncodeRec(crc, r);
      out, off := out + buf, off + |buf|;
      hashes, n := hashes + [hash(r.key)], n + 1;
      lastKey := if lastKey.None? && r.key == [] then None else Some(r.key);
      return true;
    }

    method Finish(bitsPerKey: int, ghost rs: seq<Rec>)
      requires Built(rs) && Writable(crc, hash, bitsPerKey, rs)
      modifies this`out
      ensures out == TableBytes(crc, hash, bitsPerKey, rs)
    {
      hide Footer, Buildable, FilterOf, Marshal, EncodeAll, IndexOf, HashesOf, EntriesBytes;
      var indexOff := off;
      var tail := Uvarint(|index|);
      var i := 0;
      assert EntriesBytes(index[..0]) == [] by { EntriesNone(); }
      while i < |index|
        invariant i <= |index| && Built(rs) && tail == Uvarint(|index|) + EntriesBytes(index[..i])
      {
        EntriesJoin(index, i);
        tail := tail + Uvarint(|index[i].key|) + index[i].key + Uvarint(index[i].off);
        i := i + 1;
      }
      assert index[..i] == index;
      var bloomOff := indexOff + |tail|;
      var f := NewBloom(hashes, bitsPerKey);
      Joined(out, tail, Marshal(f));
      assert out + (tail + Marshal(f)) == Sections(crc, hash, bitsPerKey, rs);
      tail := tail + Marshal(f);
      Joined(out, tail, Footer(indexOff, bloomOff, n));
      tail := tail + Footer(indexOff, bloomOff, n);
      out := out + tail;
    }
  }

  lemma BuiltMore(crc: Checksum, hash: Hash, rs: seq<Rec>, r: Rec)
    ensures EncodeAll(crc, rs + [r]) == EncodeAll(crc, rs) + EncodeRec(crc, r)
    ensures HashesOf(hash, rs + [r]) == HashesOf(hash, rs) + [hash(r.key)]
    ensures LastKey(rs + [r]) == NextLast(LastKey(rs), r.key)
    ensures IndexOf(crc, rs + [r]) == IndexOf(crc, rs) +
            (if |rs| % INDEX_INTERVAL == 0 then [IndexEntry(r.key, |EncodeAll(crc, rs)|)] else [])
  {
    hide EncodeRec;
    assert (rs + [r])[..|rs|] == rs;
    EncodeAllJoins(crc, rs, [r]);
    assert EncodeAll(crc, [r]) == EncodeRec(crc, r);
  }

  lemma Joined(a: Bytes, b: Bytes, c: Bytes)
    ensures a + (b + c) == a + b + c
  {
  }

  lemma EntriesNone()
    ensures EntriesBytes([]) == []
  {
  }

  lemma {:induction false} EntriesJoin(index: seq<IndexEntry>, i: nat)
    requires i < |index|
    ensures EntriesBytes(index[..i + 1]) == EntriesBytes(index[..i]) + EntryBytes(index[i])
  {
    if i > 0 {
      EntriesJoin(index[1..], i - 1);
      assert index[..i][1..] == index[1..][..i - 1] && index[..i + 1][1..] == index[1..][..i];
    }
  }

  /** Writes a table of the records, or refuses them. */
  method WriteTable(crc: Checksum, hash: Hash, bitsPerKey: int, rs: seq<Rec>) returns (file: Result<Bytes>)
    requires Writable(crc, hash, bitsPerKey, rs)
    ensures file == if Accepts(rs) then Ok(TableBytes(crc, hash, bitsPerKey, rs)) else Err
  {
    hide EncodeAll, IndexOf, HashesOf, Writable, TableBytes, LastKey, Less;
    var b := new Builder(crc, hash);
    var i := 0;
    while i < |rs|
      invariant i <= |rs| && b.Built(rs[..i]) && Accepts(rs[..i]) && b.crc == crc && b.hash == hash
    {
      assert rs[..i + 1] == rs[..i] + [rs[i]];
      assert rs[..i + 1][..i] == rs[..i];
      var ok := b.Add(rs[i], rs[..i]);
      if !ok {
        AcceptsPrefix(rs, i + 1);
        return Err;
      }
      i := i + 1;
    }
    assert rs[..i] == rs;
    b.Finish(bitsPerKey, rs);
    return Ok(b.out);
  }

  lemma {:induction false} AcceptsPrefix(rs: seq<Rec>, n: nat)
    requires n <= |rs|
    ensures Accepts(rs) ==> Accepts(rs[..n])
    decreases |rs| - n
  {
    if n == |rs| {
      assert rs[..n] == rs;
    } else {
      AcceptsPrefix(rs, n + 1);
      assert rs[..n + 1][..n] == rs[..n];
    }
  }

  // ---- opening ----

  datatype Table = Table(file: Bytes, indexOff: nat, count: nat, index: seq<IndexEntry>, filter: Filter)

  function ParseIndex(buf: Bytes, cnt: nat): Result<seq<IndexEntry>>
    decreases cnt
  {
    if cnt == 0 then Ok([])
    else
      match ReadUvarint(buf)
      case Got(klen, b1) =>
        if |b1| < klen then Err
        else (
          match ReadUvarint(b1[klen..])
          case Got(off, b2) => Prepend([IndexEntry(b1[..klen], off)], ParseIndex(b2, cnt - 1))
          case _ => Err)
      case _ => Err
  }

  function IndexIn(buf: Bytes): Result<seq<IndexEntry>> {
    match ReadUvarint(buf)
    case Got(cnt, rest) => ParseIndex(rest, cnt)
    case _ => Err
  }

  function Prepend(entries: seq<IndexEntry>, parsed: Result<seq<IndexEntry>>): Result<seq<IndexEntry>> {
    if parsed.Ok? then Ok(entries + parsed.value) else Err
  }

  method LoadIndex(buf: Bytes) returns (index: Result<seq<IndexEntry>>)
    ensures index == IndexIn(buf)
  {
    hide ReadUvarint;
    var first := ReadUvarint(buf);
    if !first.Got? {
      return Err;
    }
    var cnt, rest, entries := first.value, first.rest, [];
    var i := 0;
    assert forall more: seq<IndexEntry> :: [] + more == more;
    while i < cnt
      invariant i <= cnt && IndexIn(buf) == Prepend(entries, ParseIndex(rest, cnt - i))
    {
      var klen := ReadUvarint(rest);
      if !klen.Got? || |klen.rest| < klen.value {
        return Err;
      }
      var off := ReadUvarint(klen.rest[klen.value..]);
      if !off.Got? {
        return Err;
      }
      var e := IndexEntry(klen.rest[..klen.value], off.value);
      PrependMore(entries, e, ParseIndex(off.rest, cnt - i - 1));
      entries := entries + [e];
      rest := off.rest;
      i := i + 1;
    }
    assert entries + [] == entries;
    return Ok(entries);
  }

  lemma PrependMore(entries: seq<IndexEntry>, e: IndexEntry, parsed: Result<seq<IndexEntry>>)
    ensures Prepend(entries, Prepend([e], parsed)) == Prepend(entries + [e], parsed)
  {
    if parsed.Ok? {
      assert entries + ([e] + parsed.value) == entries + [e] + parsed.value;
    }
  }

  /** Reads a table file back: footer, index, filter. */
  method OpenTable(file: Bytes) returns (t: Result<Table>)
    ensures t == Opened(file)
  {
    hide FromLe64, IndexIn, Unmarshal;
    if |file| < FOOTER_LEN {
      return Err;
    }
    var end := |file| - FOOTER_LEN;
    if FromLe64(file[end + 24..]) != TABLE_MAGIC {
      return Err;
    }
    var indexOff, bloomOff, count := FromLe64(file[end..end + 8]), FromLe64(file[end + 8..end + 16]), FromLe64(file[end + 16..end + 24]);
    if indexOff >= TWO_TO_63 || bloomOff < indexOff || bloomOff >= TWO_TO_63 || bloomOff > end {
      return Err;
    }
    var index := LoadIndex(file[indexOff..bloomOff]);
    if index.Err? {
      return Err;
    }
    var filter := Unmarshal(file[bloomOff..end]);
    if filter.None? {
      return Err;
    }
    return Ok(Table(file, indexOff, count, index.value, filter.value));
  }

  function Opened(file: Bytes): Result<Table> {
    var end := |file| - FOOTER_LEN;
    if end < 0 || FromLe64(file[end + 24..]) != TABLE_MAGIC then Err
    else
      var indexOff, bloomOff := FromLe64(file[end..end + 8]), FromLe64(file[end + 8..end + 16]);
      if !(indexOff <= bloomOff <= end && bloomOff < TWO_TO_63) then Err
      else
        match (IndexIn(file[indexOff..bloomOff]), Unmarshal(file[bloomOff..end]))
        case (Ok(index), Some(filter)) => Ok(Table(file, indexOff, FromLe64(file[end + 16..end + 24]), index, filter))
        case _ => Err
  }

  lemma ParseEntry(e: IndexEntry, more: Bytes, cnt: nat)
    requires |e.key| < TWO_TO_64 && e.off < TWO_TO_64
    ensures ParseIndex(EntryBytes(e) + more, cnt + 1) == Prepend([e], ParseIndex(more, cnt))
  {
    hide Uvarint, ReadUvarint;
    var b1, b2 := e.key + (Uvarint(e.off) + more), Uvarint(e.off) + more;
    assert EntryBytes(e) + more == Uvarint(|e.key|) + b1;
    UvarintRoundTrip(|e.key|, b1);
    assert b1[|e.key|..] == b2 && b1[..|e.key|] == e.key;
    UvarintRoundTrip(e.off, more);
  }

  lemma EntriesEnds(index: seq<IndexEntry>, b: Bytes)
    ensures index == [] ==> EntriesBytes(index) == []
    ensures index != [] ==> EntriesBytes(index) == EntryBytes(index[0]) + EntriesBytes(index[1..])
    ensures ParseIndex(b, 0) == Ok([])
  {
    hide EntryBytes;
  }

  lemma {:induction false} ParseEntries(index: seq<IndexEntry>, tail: Bytes)
    requires forall i :: 0 <= i < |index| ==> |index[i].key| < TWO_TO_64 && index[i].off < TWO_TO_64
    ensures ParseIndex(EntriesBytes(index) + tail, |index|) == Ok(index)
  {
    hide EntryBytes, EntriesBytes, ParseIndex;
    EntriesEnds(index, EntriesBytes(index) + tail);
    if index != [] {
      var rest := index[1..];
      ParseEntries(rest, tail);
      ParseEntry(index[0], EntriesBytes(rest) + tail, |rest|);
      Associative(EntryBytes(index[0]), EntriesBytes(rest), tail);
      assert index == [index[0]] + rest;
    }
  }

  lemma IndexRoundTrip(index: seq<IndexEntry>)
    requires |index| < TWO_TO_64
    requires forall i :: 0 <= i < |index| ==> |index[i].key| < TWO_TO_64 && index[i].off < TWO_TO_64
    ensures IndexIn(IndexBytes(index)) == Ok(index)
  {
    hide Uvarint, ReadUvarint;
    UvarintRoundTrip(|index|, EntriesBytes(index));
    ParseEntries(index, []);
    assert EntriesBytes(index) + [] == EntriesBytes(index);
  }

  lemma {:induction false} IndexLength(crc: Checksum, rs: seq<Rec>)
    ensures |IndexOf(crc, rs)| == (|rs| + 15) / 16
  {
    hide EncodeAll;
    if rs != [] {
      IndexLength(crc, rs[..|rs| - 1]);
    }
  }

  /** Entry j is record 16j, at the offset of its first byte. */
  lemma {:induction false} IndexEntries(crc: Checksum, rs: seq<Rec>, j: nat)
    ensures |IndexOf(crc, rs)| == (|rs| + 15) / 16
    ensures j < |IndexOf(crc, rs)| ==>
              IndexOf(crc, rs)[j] == IndexEntry(rs[16 * j].key, |EncodeAll(crc, rs[..16 * j])|)
  {
    hide EncodeAll;
    IndexLength(crc, rs);
    if rs != [] {
      var front := rs[..|rs| - 1];
      IndexLength(crc, front);
      if 16 * j < |front| {
        IndexEntries(crc, front, j);
        assert front[..16 * j] == rs[..16 * j];
      } else if 16 * j == |front| {
        assert rs[..16 * j] == front && |front| % 16 == 0;
      }
    }
  }

  lemma EncodedSizes(crc: Checksum, rs: seq<Rec>, n: nat)
    requires n <= |rs|
    ensures EncodeAll(crc, rs) == EncodeAll(crc, rs[..n]) + EncodeAll(crc, rs[n..])
    ensures n < |rs| ==> |rs[n].key| < |EncodeAll(crc, rs)|
  {
    hide EncodeRec;
    assert rs == rs[..n] + rs[n..];
    EncodeAllJoins(crc, rs[..n], rs[n..]);
    if n < |rs| { RecordSize(crc, rs[n]); }
  }

  lemma RecordSize(crc: Checksum, r: Rec)
    ensures |r.key| < |EncodeRec(crc, r)|
  {
  }

  lemma IndexSmall(crc: Checksum, rs: seq<Rec>)
    requires |EncodeAll(crc, rs)| < TWO_TO_63 && |rs| < TWO_TO_63
    ensures |IndexOf(crc, rs)| < TWO_TO_64
    ensures forall j :: 0 <= j < |IndexOf(crc, rs)| ==>
              |IndexOf(crc, rs)[j].key| < TWO_TO_64 && IndexOf(crc, rs)[j].off < TWO_TO_64
  {
    hide EncodeAll, IndexOf;
    IndexEntries(crc, rs, 0);
    forall j | 0 <= j < |IndexOf(crc, rs)|
      ensures |IndexOf(crc, rs)[j].key| < TWO_TO_64 && IndexOf(crc, rs)[j].off < TWO_TO_64
    {
      IndexEntries(crc, rs, j);
      EncodedSizes(crc, rs, 16 * j);
    }
  }

  lemma FooterParts(file: Bytes, body: Bytes, a: Uint64, b: Uint64, n: Uint64)
    requires file == body + Footer(a, b, n)
    ensures var end := |file| - FOOTER_LEN;
            && end == |body| && file[..end] == body && FromLe64(file[end + 24..]) == TABLE_MAGIC
            && FromLe64(file[end..end + 8]) == a && FromLe64(file[end + 8..end + 16]) == b && FromLe64(file[end + 16..end + 24]) == n
  {
    hide FromLe64, Le64;
    var end := |body|;
    assert file[end..end + 8] == Le64(a) && file[end + 8..end + 16] == Le64(b);
    assert file[end + 16..end + 24] == Le64(n) && file[end + 24..] == Le64(TABLE_MAGIC);
    Le64RoundTrip(a);
    Le64RoundTrip(b);
    Le64RoundTrip(n);
    Le64RoundTrip(TABLE_MAGIC);
  }

  lemma BodyParts3(file: Bytes, a: Bytes, b: Bytes, c: Bytes)
    requires |file| >= |a| + |b| + |c| && file[..|a| + |b| + |c|] == a + b + c
    ensures file[..|a|] == a && file[|a|..|a| + |b|] == b && file[|a| + |b|..|a| + |b| + |c|] == c
  {
    var abc := a + b + c;
    assert abc[..|a|] == a && abc[|a|..|a| + |b|] == b && abc[|a| + |b|..] == c;
    assert file[..|a|] == abc[..|a|];
    assert file[|a|..|a| + |b|] == abc[|a|..|a| + |b|];
    assert file[|a| + |b|..|a| + |b| + |c|] == abc[|a| + |b|..];
  }

  /** A table written out and opened again shows the same sections. */
  lemma OpenBuilt(crc: Checksum, hash: Hash, bitsPerKey: int, rs: seq<Rec>)
    requires Writable(crc, hash, bitsPerKey, rs)
    ensures var file := TableBytes(crc, hash, bitsPerKey, rs);
            Opened(file) == Ok(Table(file, |EncodeAll(crc, rs)|, |rs|, IndexOf(crc, rs), FilterOf(HashesOf(hash, rs), bitsPerKey)))
  {
    hide FromLe64, Footer, Le64, IndexIn, Unmarshal, Marshal, EncodeAll, IndexBytes, IndexOf, FilterOf, Buildable, HashesOf;
    var data, index, filter := EncodeAll(crc, rs), IndexOf(crc, rs), FilterOf(HashesOf(hash, rs), bitsPerKey);
    var ib, fb := IndexBytes(index), Marshal(filter);
    var file := TableBytes(crc, hash, bitsPerKey, rs);
    FooterParts(file, data + ib + fb, |data|, |data| + |ib|, |rs|);
    BodyParts3(file, data, ib, fb);
    IndexSmall(crc, rs);
    IndexRoundTrip(index);
    MarshalSize(filter);
    MarshalRoundTrip(filter);
  }

  lemma MarshalSize(f: Filter)
    ensures |f.bits| < |Marshal(f)|
  {
  }

  // ---- looking a key up ----

  /** `Panicked` is a failing slice expression; a table that was written never gets there. */
  datatype Lookup = Found(rec: Rec) | Missing | Failed | Panicked

  /** The standard library's binary search for the first index key above `key`. */
  function Search(index: seq<IndexEntry>, key: Bytes, lo: nat, hi: nat): (i: nat)
    requires lo <= hi <= |index|
    ensures lo <= i <= hi
    decreases hi - lo
  {
    if lo == hi then lo
    else
      var mid := (lo + hi) / 2;
      if Less(key, index[mid].key) then Search(index, key, lo, mid) else Search(index, key, mid + 1, hi)
  }

  method FirstAbove(index: seq<IndexEntry>, key: Bytes) returns (i: nat)
    ensures i <= |index| && i == Search(index, key, 0, |index|)
  {
    var hi := |index|;
    i := 0;
    while i < hi
      invariant i <= hi <= |index| && Search(index, key, 0, |index|) == Search(index, key, i, hi)
    {
      var mid := (i + hi) / 2;
      if Less(key, index[mid].key) {
        hi := mid;
      } else {
        i := mid + 1;
      }
    }
  }

  ghost predicate IndexAscends(index: seq<IndexEntry>) {
    forall i, j :: 0 <= i < j < |index| ==> Less(index[i].key, index[j].key)
  }

  lemma {:induction false} SearchSplits(index: seq<IndexEntry>, key: Bytes, lo: nat, hi: nat)
    requires IndexAscends(index) && lo <= hi <= |index|
    requires forall j :: 0 <= j < lo ==> !Less(key, index[j].key)
    requires forall j :: hi <= j < |index| ==> Less(key, index[j].key)
    ensures forall j :: 0 <= j < Search(index, key, lo, hi) ==> !Less(key, index[j].key)
    ensures forall j :: Search(index, key, lo, hi) <= j < |index| ==> Less(key, index[j].key)
    decreases hi - lo
  {
    hide Less;
    if lo < hi {
      var mid := (lo + hi) / 2;
      if Less(key, index[mid].key) {
        forall j | mid <= j < |index|
          ensures Less(key, index[j].key)
        {
          if j > mid { LessTransitive(key, index[mid].key, index[j].key); }
        }
        SearchSplits(index, key, lo, mid);
      } else {
        forall j | 0 <= j < mid + 1
          ensures !Less(key, index[j].key)
        {
          if j < mid && Less(key, index[j].key) { LessTransitive(key, index[j].key, index[mid].key); }
        }
        SearchSplits(index, key, mid + 1, hi);
      }
    }
  }

  /** The bytes of the data section from an offset on. */
  function Section(t: Table, off: nat): Bytes {
    if off <= t.indexOff <= |t.file| then t.file[off..t.indexOff] else []
  }

  function ScanFor(crc: Checksum, b: Bytes, key: Bytes): Lookup
    decreases |b|
  {
    match DecodeRec(crc, b)
    case Eof => Missing
    case Panic => Panicked
    case Torn => Failed
    case Corrupt => Failed
    case Overflow => Failed
    case Got(r, rest) =>
      if r.key == key then Found(r)
      else if Less(key, r.key) then Missing
      else ScanFor(crc, rest, key)
  }

  /** The filter has bits to ask for. */
  predicate Usable(t: Table) {
    Askable(t.filter, t.filter.k)
  }

  function LookedUp(crc: Checksum, hash: Hash, t: Table, key: Bytes): Lookup
    requires Usable(t)
  {
    if !AllSet(t.filter, hash(key), t.filter.k) then Missing
    else
      var i := Search(t.index, key, 0, |t.index|);
      if i == 0 then Missing
      else if t.index[i - 1].off >= TWO_TO_63 then Failed
      else ScanFor(crc, Section(t, t.index[i - 1].off), key)
  }

  /** How many records a scan decodes. */
  function Decoded(crc: Checksum, b: Bytes, key: Bytes): nat
    decreases |b|
  {
    match DecodeRec(crc, b)
    case Got(r, rest) => if Less(r.key, key) then 1 + Decoded(crc, rest, key) else 1
    case _ => 0
  }

  /** The part of a lookup that decodes: none where the filter or the index ends it. */
  function DecodedBy(crc: Checksum, hash: Hash, t: Table, key: Bytes): nat
    requires Usable(t)
  {
    var i := Search(t.index, key, 0, |t.index|);
    if !AllSet(t.filter, hash(key), t.filter.k) || i == 0 || t.index[i - 1].off >= TWO_TO_63 then 0
    else Decoded(crc, Section(t, t.index[i - 1].off), key)
  }

  /** `decoded` counts the records decoded on the way. */
  method Get(crc: Checksum, hash: Hash, t: Table, key: Bytes) returns (found: Lookup, ghost decoded: nat)
    requires Usable(t)
    ensures found == LookedUp(crc, hash, t, key) && decoded == DecodedBy(crc, hash, t, key)
  {
    var may := MayContain(t.filter, hash(key));
    if !may {
      return Missing, 0;
    }
    var i := FirstAbove(t.index, key);
    if i == 0 {
      return Missing, 0;
    }
    var off := t.index[i - 1].off;
    if off >= TWO_TO_63 {
      return Failed, 0;
    }
    found, decoded := Scan(crc, Section(t, off), key);
  }

  method Scan(crc: Checksum, b: Bytes, key: Bytes) returns (found: Lookup, ghost decoded: nat)
    ensures found == ScanFor(crc, b, key) && decoded == Decoded(crc, b, key)
  {
    hide DecodeRec, Less;
    var rest := b;
    decoded := 0;
    while true
      invariant ScanFor(crc, b, key) == ScanFor(crc, rest, key)
      invariant Decoded(crc, b, key) == decoded + Decoded(crc, rest, key)
      decreases |rest|
    {
      match DecodeRec(crc, rest)
      case Eof => return Missing, decoded;
      case Panic => return Panicked, decoded;
      case Torn => return Failed, decoded;
      case Corrupt => return Failed, decoded;
      case Overflow => return Failed, decoded;
      case Got(r, more) =>
        ApartFromKey(r, key);
        decoded := decoded + 1;
        if r.key == key {
          return Found(r), decoded;
        }
        if Less(key, r.key) {
          return Missing, decoded;
        }
        rest := more;
    }
  }

  lemma ApartFromKey(r: Rec, key: Bytes)
    ensures Less(r.key, key) <==> r.key != key && !Less(key, r.key)
  {
    LessIrreflexive(key);
    LessTotal(r.key, key);
    if Less(r.key, key) { LessAsymmetric(r.key, key); }
  }

  function AsLookup(r: Option<Rec>): Lookup {
    if r.Some? then Found(r.value) else Missing
  }

  /** Scanning the encodings of a sorted run finds what the run holds. */
  lemma {:induction false} ScanFinds(crc: Checksum, rs: seq<Rec>, key: Bytes)
    requires Sorted(rs) && AllFit(rs)
    ensures ScanFor(crc, EncodeAll(crc, rs), key) == AsLookup(Find(rs, key))
  {
    hide DecodeRec, EncodeRec, Less;
    if rs == [] {
      DecodeNothing(crc);
    } else {
      DecodeRoundTrip(crc, rs[0], EncodeAll(crc, rs[1..]));
      ScanFinds(crc, rs[1..], key);
      RestLayer(rs);
      LayerAt(rs, 0);
      if Less(key, rs[0].key) { AbsentBefore(rs, key); }
    }
  }

  lemma DecodeNothing(crc: Checksum)
    ensures DecodeRec(crc, []) == Eof
  {
  }

  lemma AbsentBefore(rs: seq<Rec>, key: Bytes)
    requires Sorted(rs) && (rs != [] ==> Less(key, rs[0].key))
    ensures Find(rs, key) == None
  {
    LayerHolds(rs, key);
    LessIrreflexive(key);
    if i :| 0 <= i < |rs| && rs[i].key == key && i > 0 {
      LessTransitive(key, rs[0].key, rs[i].key);
    }
  }

  lemma {:induction false} FindBehind(rs: seq<Rec>, n: nat, key: Bytes)
    requires Sorted(rs) && n <= |rs| && forall i :: 0 <= i < n ==> rs[i].key != key
    ensures Find(rs[n..], key) == Find(rs, key) && Sorted(rs[n..])
  {
    if n > 0 {
      RestLayer(rs);
      FindBehind(rs[1..], n - 1, key);
      assert rs[1..][n - 1..] == rs[n..];
    } else {
      assert rs[n..] == rs;
    }
  }

  lemma SectionFrom(crc: Checksum, t: Table, rs: seq<Rec>, n: nat)
    requires t.indexOff == |EncodeAll(crc, rs)| <= |t.file| && t.file[..t.indexOff] == EncodeAll(crc, rs) && n <= |rs|
    ensures Section(t, |EncodeAll(crc, rs[..n])|) == EncodeAll(crc, rs[n..])
  {
    hide EncodeAll;
    EncodedSizes(crc, rs, n);
    var a, b := EncodeAll(crc, rs[..n]), EncodeAll(crc, rs[n..]);
    assert t.file[|a|..t.indexOff] == t.file[..t.indexOff][|a|..];
    assert (a + b)[|a|..] == b;
  }

  /** The table the records were written to. */
  ghost predicate TableOf(crc: Checksum, hash: Hash, t: Table, rs: seq<Rec>) {
    exists bitsPerKey: int :: TableFor(crc, hash, bitsPerKey, t, rs)
  }

  ghost predicate TableFor(crc: Checksum, hash: Hash, bitsPerKey: int, t: Table, rs: seq<Rec>) {
    Writable(crc, hash, bitsPerKey, rs) && Sorted(rs) && Opened(TableBytes(crc, hash, bitsPerKey, rs)) == Ok(t)
  }

  lemma TableShows(crc: Checksum, hash: Hash, t: Table, rs: seq<Rec>)
    requires TableOf(crc, hash, t, rs)
    ensures Usable(t) && Sorted(rs) && AllFit(rs)
    ensures t.indexOff == |EncodeAll(crc, rs)| <= |t.file| && t.indexOff < TWO_TO_63 && t.file[..t.indexOff] == EncodeAll(crc, rs)
    ensures t.index == IndexOf(crc, rs)
    ensures forall i :: 0 <= i < |rs| ==> AllSet(t.filter, hash(rs[i].key), t.filter.k)
  {
    hide EncodeAll, IndexOf, AllSet, FilterOf, IndexBytes, Marshal, Opened, Footer;
    var bitsPerKey :| TableFor(crc, hash, bitsPerKey, t, rs);
    OpenBuilt(crc, hash, bitsPerKey, rs);
    forall i | 0 <= i < |rs|
      ensures AllSet(t.filter, hash(rs[i].key), t.filter.k)
    {
      assert HashesOf(hash, rs)[i] == hash(rs[i].key);
      NoFalseNegative(HashesOf(hash, rs), bitsPerKey, hash(rs[i].key));
    }
  }

  /** Where the sparse index sends a search, and what it may leave out. */
  lemma IndexSends(crc: Checksum, rs: seq<Rec>, key: Bytes)
    requires Sorted(rs)
    ensures var i := Search(IndexOf(crc, rs), key, 0, |IndexOf(crc, rs)|);
            && (i == 0 ==> rs == [] || Less(key, rs[0].key))
            && (i > 0 ==> 16 * (i - 1) < |rs| && IndexOf(crc, rs)[i - 1].off == |EncodeAll(crc, rs[..16 * (i - 1)])|
                          && forall j :: 0 <= j < 16 * (i - 1) ==> Less(rs[j].key, key))
  {
    hide EncodeAll, Less, IndexOf;
    var index := IndexOf(crc, rs);
    IndexEntries(crc, rs, 0);
    forall a, b | 0 <= a < b < |index|
      ensures Less(index[a].key, index[b].key)
    {
      IndexEntries(crc, rs, a);
      IndexEntries(crc, rs, b);
    }
    SearchSplits(index, key, 0, |index|);
    var i := Search(index, key, 0, |index|);
    if i > 0 {
      IndexEntries(crc, rs, i - 1);
      BelowReached(rs, 16 * (i - 1), key);
    }
  }

  lemma BelowReached(rs: seq<Rec>, n: nat, key: Bytes)
    requires Sorted(rs) && n < |rs| && !Less(key, rs[n].key)
    ensures forall j :: 0 <= j < n ==> Less(rs[j].key, key)
  {
    forall j | 0 <= j < n
      ensures Less(rs[j].key, key)
    {
      NotLessBefore(rs[j].key, rs[n].key, key);
    }
  }

  /** Looking a key up in a written table, through filter, index and scan, finds exactly what
      a linear search of its records finds. */
  lemma LookupIsLinearSearch(crc: Checksum, hash: Hash, t: Table, rs: seq<Rec>, key: Bytes)
    requires TableOf(crc, hash, t, rs)
    ensures Usable(t) && LookedUp(crc, hash, t, key) == AsLookup(Find(rs, key))
  {
    hide EncodeAll, Less, IndexOf, ScanFor, TableOf, AllSet, Sorted, LayerOf;
    TableShows(crc, hash, t, rs);
    LayerHolds(rs, key);
    IndexSends(crc, rs, key);
    var i := Search(t.index, key, 0, |t.index|);
    if i == 0 {
      AbsentBefore(rs, key);
    } else {
      var n := 16 * (i - 1);
      LessIrreflexive(key);
      FindBehind(rs, n, key);
      SectionFrom(crc, t, rs, n);
      EncodedSizes(crc, rs, n);
      ScanFinds(crc, rs[n..], key);
    }
  }

  lemma {:induction false} DecodedUpTo(crc: Checksum, rs: seq<Rec>, key: Bytes, pos: nat)
    requires Splits(rs, key, pos) && AllFit(rs)
    ensures Decoded(crc, EncodeAll(crc, rs), key) == if pos < |rs| then pos + 1 else pos
  {
    hide DecodeRec, EncodeRec, Less;
    if rs == [] {
      DecodeNothing(crc);
    } else {
      DecodeRoundTrip(crc, rs[0], EncodeAll(crc, rs[1..]));
      if pos > 0 {
        DecodedUpTo(crc, rs[1..], key, pos - 1);
      }
    }
  }

  lemma {:induction false} SplitExists(rs: seq<Rec>, key: Bytes) returns (pos: nat)
    requires Sorted(rs)
    ensures Splits(rs, key, pos)
  {
    if rs == [] || !Less(rs[0].key, key) {
      pos := 0;
      forall i | 0 <= i < |rs|
        ensures !Less(rs[i].key, key)
      {
        if i > 0 && Less(rs[i].key, key) { LessTransitive(rs[0].key, rs[i].key, key); }
      }
    } else {
      pos := SplitExists(rs[1..], key);
      pos := pos + 1;
    }
  }

  /** The key lies below the first record of the next slice. */
  lemma NextSlice(crc: Checksum, rs: seq<Rec>, key: Bytes)
    requires Sorted(rs)
    ensures var i := Search(IndexOf(crc, rs), key, 0, |IndexOf(crc, rs)|);
            (|rs| <= 16 * i || !Less(rs[16 * i].key, key)) && 16 * i <= |rs| + 15
  {
    hide EncodeAll, Less, IndexOf;
    var index := IndexOf(crc, rs);
    IndexEntries(crc, rs, 0);
    forall a, b | 0 <= a < b < |index|
      ensures Less(index[a].key, index[b].key)
    {
      IndexEntries(crc, rs, a);
      IndexEntries(crc, rs, b);
    }
    SearchSplits(index, key, 0, |index|);
    var i := Search(index, key, 0, |index|);
    if i < |index| {
      IndexEntries(crc, rs, i);
      LessAsymmetric(key, index[i].key);
    }
  }

  /** A lookup decodes at most the sixteen records of a slice and the first of the next; that
      one exactly if the filter lets the key through and the key is above all of its slice. */
  lemma LookupIsShort(crc: Checksum, hash: Hash, t: Table, rs: seq<Rec>, key: Bytes)
    requires TableOf(crc, hash, t, rs)
    ensures Usable(t) && DecodedBy(crc, hash, t, key) <= 17
    ensures var i := Search(t.index, key, 0, |t.index|);
            DecodedBy(crc, hash, t, key) == 17 <==>
            AllSet(t.filter, hash(key), t.filter.k) && i > 0 && 16 * i < |rs| && Less(rs[16 * i - 1].key, key)
  {
    hide EncodeAll, Less, IndexOf, TableOf, AllSet, Decoded, Section;
    TableShows(crc, hash, t, rs);
    IndexSends(crc, rs, key);
    var i := Search(t.index, key, 0, |t.index|);
    if i > 0 {
      EncodedSizes(crc, rs, 16 * (i - 1));
      SliceIsShort(crc, t, rs, key);
    }
  }

  lemma SliceIsShort(crc: Checksum, t: Table, rs: seq<Rec>, key: Bytes)
    requires Sorted(rs) && AllFit(rs) && t.index == IndexOf(crc, rs)
    requires t.indexOff == |EncodeAll(crc, rs)| <= |t.file| && t.file[..t.indexOff] == EncodeAll(crc, rs)
    requires Search(t.index, key, 0, |t.index|) > 0
    ensures var i := Search(t.index, key, 0, |t.index|);
            var n := Decoded(crc, Section(t, t.index[i - 1].off), key);
            n <= 17 && (n == 17 <==> 16 * i < |rs| && Less(rs[16 * i - 1].key, key))
  {
    hide EncodeAll, Less, IndexOf, Decoded, Section;
    IndexSends(crc, rs, key);
    NextSlice(crc, rs, key);
    var i := Search(t.index, key, 0, |t.index|);
    var n := 16 * (i - 1);
    SectionFrom(crc, t, rs, n);
    assert Sorted(rs[n..]) && AllFit(rs[n..]);
    var pos := SplitExists(rs[n..], key);
    DecodedUpTo(crc, rs[n..], key, pos);
    assert forall j :: n <= j < |rs| ==> rs[j] == rs[n..][j - n];
  }

  // ---- reading in order ----

  /** Reads the records of a table in file order, from the first at or after `from` on. */
  class TableIter {
    const crc: Checksum
    var rest: Bytes
    var from: Option<Bytes>

    /** What the iterator has before it when its bytes are the encoding of `rs`. */
    ghost predicate Over(rs: seq<Rec>)
      reads this
    {
      rest == EncodeAll(crc, rs) && AllFit(rs)
    }

    ghost function Ahead(rs: seq<Rec>): seq<Rec>
      reads this
    {
      Tail(rs, from)
    }

    constructor (crc: Checksum, t: Table, from: Option<Bytes>)
      ensures this.crc == crc && this.from == from
      ensures rest == Section(t, StartOf(t, from))
    {
      this.crc, this.from := crc, from;
      var off := 0;
      if from.Some? && from.value != [] {
        var i := FirstAbove(t.index, from.value);
        if i > 0 {
          off := t.index[i - 1].off;
        }
      }
      rest := Section(t, off);
    }

    /** The next record; `rs` is what lies before the iterator, `more` what is left of it. */
    method Next(ghost rs: seq<Rec>) returns (r: Option<Rec>, ghost more: seq<Rec>)
      requires Over(rs)
      modifies this`rest, this`from
      ensures Over(more) && |more| <= |rs|
      ensures r == if old(Ahead(rs)) == [] then None else Some(old(Ahead(rs))[0])
      ensures Ahead(more) == if old(Ahead(rs)) == [] then [] else old(Ahead(rs))[1..]
    {
      hide DecodeRec, EncodeRec, Less;
      more := rs;
      while true
        invariant Over(more) && |more| <= |rs| && from == old(from)
        invariant Ahead(more) == old(Ahead(rs))
        decreases |more|
      {
        if more == [] {
          DecodeNothing(crc);
        } else {
          DecodeRoundTrip(crc, more[0], EncodeAll(crc, more[1..]));
        }
        match DecodeRec(crc, rest)
        case Eof =>
          return None, more;
        case Got(rec, tail) =>
          rest, more := tail, more[1..];
          if from.None? || !Less(rec.key, from.value) {
            from := None;
            return Some(rec), more;
          }
      }
    }
  }

  function StartOf(t: Table, from: Option<Bytes>): nat {
    if from.None? || from.value == [] then 0
    else
      var i := Search(t.index, from.value, 0, |t.index|);
      if i == 0 then 0 else t.index[i - 1].off
  }

  /** What is read of a run, from an optional key on. */
  function Tail(rs: seq<Rec>, from: Option<Bytes>): seq<Rec> {
    if from.Some? then From(rs, from.value) else rs
  }

  /** Skipping ahead by the index skips no record at or after `from`. */
  lemma IterationIsSuffix(crc: Checksum, hash: Hash, t: Table, rs: seq<Rec>, from: Option<Bytes>)
    requires TableOf(crc, hash, t, rs)
    ensures exists n: nat :: n <= |rs| && Section(t, StartOf(t, from)) == EncodeAll(crc, rs[n..]) && AllFit(rs[n..])
                             && Tail(rs[n..], from) == Tail(rs, from)
  {
    hide EncodeAll, Less, IndexOf, TableOf, AllSet, From, Sorted;
    TableShows(crc, hash, t, rs);
    var n := StartAt(crc, t, rs, from);
    SectionFrom(crc, t, rs, n);
  }

  lemma StartAt(crc: Checksum, t: Table, rs: seq<Rec>, from: Option<Bytes>) returns (n: nat)
    requires Sorted(rs) && t.index == IndexOf(crc, rs)
    ensures n <= |rs| && StartOf(t, from) == |EncodeAll(crc, rs[..n])| && Tail(rs[n..], from) == Tail(rs, from)
  {
    hide EncodeAll, Less, IndexOf;
    n := 0;
    if from.Some? && from.value != [] {
      IndexSends(crc, rs, from.value);
      var i := Search(t.index, from.value, 0, |t.index|);
      n := if i == 0 then 0 else 16 * (i - 1);
      FromBehind(rs, n, from.value);
    } else {
      assert rs[n..] == rs;
    }
    NothingEncoded(crc, rs);
  }

  lemma NothingEncoded(crc: Checksum, rs: seq<Rec>)
    ensures EncodeAll(crc, rs[..0]) == []
  {
  }

  lemma {:induction false} FromBehind(rs: seq<Rec>, n: nat, from: Bytes)
    requires n <= |rs| && forall i :: 0 <= i < n ==> Less(rs[i].key, from)
    ensures From(rs[n..], from) == From(rs, from)
  {
    if n > 0 {
      FromBehind(rs[1..], n - 1, from);
      assert rs[1..][n - 1..] == rs[n..];
    } else {
      assert rs[n..] == rs;
    }
  }

  /** Everything an iterator over a written table hands out. */
  method ReadFrom(crc: Checksum, ghost hash: Hash, t: Table, from: Option<Bytes>, ghost rs: seq<Rec>) returns (out: seq<Rec>)
    requires TableOf(crc, hash, t, rs)
    ensures out == Tail(rs, from)
  {
    hide Section, StartOf, TableOf, Sorted, EncodeAll, From, AllFit, Tail;
    var it := new TableIter(crc, t, from);
    IterationIsSuffix(crc, hash, t, rs, from);
    ghost var n: nat :| n <= |rs| && Section(t, StartOf(t, from)) == EncodeAll(crc, rs[n..]) && AllFit(rs[n..])
                        && Tail(rs[n..], from) == Tail(rs, from);
    ghost var ahead := rs[n..];
    out := [];
    ghost var left := it.Ahead(ahead);
    assert out + left == Tail(rs, from);
    while true
      invariant it.Over(ahead) && left == it.Ahead(ahead) && out + left == Tail(rs, from)
      decreases |left|
    {
      var r;
      r, ahead := it.Next(ahead);
      if r.None? {
        return;
      }
      HandOver(out, left);
      out, left := out + [r.value], left[1..];
    }
  }
}
