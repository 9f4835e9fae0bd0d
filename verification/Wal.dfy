/** The write-ahead log: records appended one after the other, replayed at the start,
    with a torn tail dropped. */
module Wal {
  import opened Common
  import opened Codec

  function EncodeAll(crc: Checksum, rs: seq<Rec>): Bytes {
    if rs == [] then [] else EncodeRec(crc, rs[0]) + EncodeAll(crc, rs[1..])
  }

  /** What a replay hands over, and whether it came to an end or to an error. */
  datatype Replayed = Replayed(recs: seq<Rec>, ok: bool)

  function Replay(crc: Checksum, b: Bytes): Replayed
    decreases |b|
  {
    match DecodeRec(crc, b)
    case Got(r, rest) =>
      var more := Replay(crc, rest);
      Replayed([r] + more.recs, more.ok)
    case Eof => Replayed([], true)
    case Torn => Replayed([], true)
    case Corrupt => Replayed([], true)
    case Overflow => Replayed([], false)
    case Panic => Replayed([], false)
  }

  ghost predicate AllFit(rs: seq<Rec>) {
    forall i :: 0 <= i < |rs| ==> Fits(rs[i])
  }

  lemma ReplayOne(crc: Checksum, r: Rec, rest: Bytes)
    requires Fits(r)
    ensures Replay(crc, EncodeRec(crc, r) + rest) == Replayed([r] + Replay(crc, rest).recs, Replay(crc, rest).ok)
  {
    hide EncodeRec, DecodeRec;
    DecodeRoundTrip(crc, r, rest);
  }

  lemma {:induction false} ReplayAfter(crc: Checksum, rs: seq<Rec>, tail: Bytes)
    requires AllFit(rs)
    ensures Replay(crc, EncodeAll(crc, rs) + tail) ==
            Replayed(rs + Replay(crc, tail).recs, Replay(crc, tail).ok)
    decreases |rs|
  {
    hide EncodeRec, DecodeRec, Replay;
    if rs == [] {
      assert EncodeAll(crc, rs) + tail == tail;
      assert rs + Replay(crc, tail).recs == Replay(crc, tail).recs;
    } else {
      assert EncodeAll(crc, rs) == EncodeRec(crc, rs[0]) + EncodeAll(crc, rs[1..]);
      hide EncodeAll;
      Associative(EncodeRec(crc, rs[0]), EncodeAll(crc, rs[1..]), tail);
      ReplayOne(crc, rs[0], EncodeAll(crc, rs[1..]) + tail);
      ReplayAfter(crc, rs[1..], tail);
      assert rs == [rs[0]] + rs[1..];
      Associative([rs[0]], rs[1..], Replay(crc, tail).recs);
    }
  }

  lemma ReplayNothing(crc: Checksum)
    ensures Replay(crc, []) == Replayed([], true)
  {
  }

  /** Replaying a whole log gives its records back. */
  lemma ReplayWhole(crc: Checksum, rs: seq<Rec>)
    requires AllFit(rs)
    ensures Replay(crc, EncodeAll(crc, rs)) == Replayed(rs, true)
  {
    hide EncodeRec, DecodeRec;
    ReplayNothing(crc);
    ReplayAfter(crc, rs, []);
    assert EncodeAll(crc, rs) + [] == EncodeAll(crc, rs);
    assert rs + [] == rs;
  }

  lemma {:induction false} EncodeAllJoins(crc: Checksum, a: seq<Rec>, b: seq<Rec>)
    ensures EncodeAll(crc, a + b) == EncodeAll(crc, a) + EncodeAll(crc, b)
    decreases |a|
  {
    hide EncodeRec, DecodeRec;
    if a == [] {
      assert a + b == b;
    } else {
      EncodeAllJoins(crc, a[1..], b);
      assert (a + b)[1..] == a[1..] + b;
    }
  }

  /** How many records lie wholly inside the first `k` bytes of the log. */
  function WholeWithin(crc: Checksum, rs: seq<Rec>, k: nat): (n: nat)
    ensures n <= |rs|
    decreases |rs|
  {
    if rs == [] || |EncodeRec(crc, rs[0])| > k then 0
    else 1 + WholeWithin(crc, rs[1..], k - |EncodeRec(crc, rs[0])|)
  }

  /** Wherever the log is cut, replay gives exactly the records wholly before the cut. */
  lemma {:induction false} ReplayPrefix(crc: Checksum, rs: seq<Rec>, k: nat)
    requires AllFit(rs) && k <= |EncodeAll(crc, rs)|
    ensures Replay(crc, EncodeAll(crc, rs)[..k]) == Replayed(rs[..WholeWithin(crc, rs, k)], true)
    decreases |rs|
  {
    hide EncodeRec, DecodeRec;
    if rs == [] {
      ReplayNothing(crc);
    } else {
      var e, more := EncodeRec(crc, rs[0]), EncodeAll(crc, rs[1..]);
      if |e| > k {
        assert (e + more)[..k] == e[..k];
        PrefixNeverDecodes(crc, rs[0], k);
        assert Replay(crc, e[..k]).recs == [];
      } else {
        assert (e + more)[..k] == e + more[..k - |e|];
        DecodeRoundTrip(crc, rs[0], more[..k - |e|]);
        ReplayPrefix(crc, rs[1..], k - |e|);
        assert rs[..WholeWithin(crc, rs, k)] == [rs[0]] + rs[1..][..WholeWithin(crc, rs[1..], k - |e|)];
      }
    }
  }

  // ---- appending after a torn tail ----

  /** The bytes a crash in the middle of an append may leave. */
  ghost predicate TornTail(crc: Checksum, tail: Bytes) {
    exists r: Rec, k: nat :: Fits(r) && k < |EncodeRec(crc, r)| && tail == EncodeRec(crc, r)[..k]
  }

  /** Whatever is appended next is found again by the replay. */
  ghost predicate NextAppendSurvives(crc: Checksum, rs: seq<Rec>, tail: Bytes) {
    forall r: Rec :: Fits(r) ==>
      Replay(crc, EncodeAll(crc, rs) + tail + EncodeRec(crc, r)) == Replayed(rs + [r], true)
  }

  function Zeros(n: nat): (z: Bytes)
    ensures |z| == n
  {
    seq(n, i => 0)
  }

  /** A record whose key and value together are `1 + n` bytes. */
  function Filler(n: nat): Rec {
    Rec([0], Zeros(n), false)
  }

  lemma ParsedSize(p: Bytes, rest: Bytes)
    requires ParsePayload(p, rest).Got?
    ensures var r := ParsePayload(p, rest).value;
            |p| - 11 <= |r.key| + |r.val| <= |p| - 2
  {
    UvarintWidth(p, 0);
  }

  lemma {:induction false} UvarintWidth(b: Bytes, i: nat)
    requires ReadUvarintAt(b, i).Got? && i <= 10
    ensures 1 <= |b| - |ReadUvarintAt(b, i).rest| <= 10 - i
    decreases |b|
  {
    if b[0] >= 128 {
      UvarintWidth(b[1..], i + 1);
    }
  }

  /** What is read is a number of at least this size, with no more than so many bytes behind it;
      or it is no number. */
  ghost predicate Promises(r: Read<nat>, least: nat, left: nat) {
    match r
    case Got(v, more) => v >= least && |more| <= left
    case Torn => true
    case Overflow => true
    case _ => false
  }

  /** The bytes read first count least. */
  lemma PromiseGrows(x: Byte, more: Bytes, i: nat, least: nat, left: nat, low: nat)
    requires x >= 128 && low <= 128 * least && Promises(ReadUvarintAt(more, i + 1), least, left)
    ensures Promises(ReadUvarintAt([x] + more, i), low, left)
  {
    hide ReadUvarintAt;
    ReadMore(x, more, i);
  }

  lemma LongLength(n: nat)
    requires |Uvarint(n)| > 1
    ensures n >= 128
  {
  }

  /** A cut inside the length: the next record's own length is read as its high bits, and
      promises far more bytes than there are. */
  lemma {:induction false} CutLength(n: nat, k: nat, m: nat, rest: Bytes, i: nat)
    requires 1 <= k < |Uvarint(n)| && m >= 1
    ensures Promises(ReadUvarintAt(Uvarint(n)[..k] + (Uvarint(m) + rest), i), 128 * m, |rest|)
    decreases k
  {
    hide Uvarint, ReadUvarintAt, Promises;
    LongLength(n);
    var lo, hi := Unfolded(n);
    var next, cut := Uvarint(m) + rest, Uvarint(hi)[..k - 1];
    CutBehind([lo], Uvarint(hi), k);
    Associative([lo], cut, next);
    if k == 1 {
      assert cut + next == next;
      LengthPromises(m, rest, i + 1);
      PromiseGrows(lo, next, i, m, |rest|, 128 * m);
    } else {
      CutLength(hi, k - 1, m, rest, i + 1);
      PromiseGrows(lo, cut + next, i, 128 * m, |rest|, 128 * m);
    }
  }

  lemma LengthPromises(m: nat, rest: Bytes, i: nat)
    ensures Promises(ReadUvarintAt(Uvarint(m) + rest, i), m, |rest|)
  {
    hide Uvarint, ReadUvarintAt;
    LengthMeans(m, rest, i);
  }

  lemma {:induction false} LengthMeans(m: nat, rest: Bytes, i: nat)
    ensures var r := ReadUvarintAt(Uvarint(m) + rest, i);
            match r case Got(v, more) => v == m && more == rest case Overflow => true case _ => false
    decreases m
  {
    var b := Uvarint(m) + rest;
    if m < 128 {
      assert b[0] == m && b[1..] == rest;
    } else {
      assert b[1..] == Uvarint(m / 128) + rest;
      LengthMeans(m / 128, rest, i + 1);
    }
  }

  /** The record that would be lost: long after a short torn record, short after a long one. */
  function Witness(torn: nat): (r: Rec)
    ensures Fits(r) && (|r.key| + |r.val| > torn || |r.key| + |r.val| + 11 < torn)
  {
    var r := Filler(if torn <= 1000 then 2000 else 0);
    assert Uvarint(1) == [1];
    r
  }

  lemma NotReplayed(crc: Checksum, b: Bytes, r: Rec)
    requires match DecodeRec(crc, b) case Got(x, _) => x != r case _ => true
    ensures Replay(crc, b) != Replayed([r], true)
  {
    hide DecodeRec;
    if DecodeRec(crc, b).Got? {
      assert Replay(crc, b).recs[0] != r;
    }
  }

  lemma CutInLength(crc: Checksum, torn: Rec, k: nat, r: Rec)
    requires 1 <= k < |Uvarint(|Payload(torn)|)|
    ensures !DecodeRec(crc, EncodeRec(crc, torn)[..k] + EncodeRec(crc, r)).Got?
  {
    hide Uvarint, Payload, ReadUvarintAt, ParsePayload;
    var p, q := Payload(torn), Payload(r);
    var head, rest := Uvarint(|p|), Le32(crc(q)) + q;
    assert EncodeRec(crc, torn)[..k] == head[..k];
    assert EncodeRec(crc, torn)[..k] + EncodeRec(crc, r) == head[..k] + (Uvarint(|q|) + rest);
    CutLength(|p|, k, |q|, rest, 0);
  }

  /** Cut behind the length, what decodes, if anything, is as long as the torn record. */
  lemma CutInBody(crc: Checksum, torn: Rec, k: nat, r: Rec)
    requires Fits(torn) && |Uvarint(|Payload(torn)|)| <= k < |EncodeRec(crc, torn)|
    ensures match DecodeRec(crc, EncodeRec(crc, torn)[..k] + EncodeRec(crc, r))
            case Got(x, _) => |Payload(torn)| - 11 <= |x.key| + |x.val| <= |Payload(torn)| - 2
            case _ => true
  {
    hide Uvarint, Payload, ReadUvarint, ParsePayload;
    var p := Payload(torn);
    var head, body := Uvarint(|p|), Le32(crc(p)) + p;
    var b := EncodeRec(crc, torn)[..k] + EncodeRec(crc, r);
    var more := body[..k - |head|] + EncodeRec(crc, r);
    Associative(head, Le32(crc(p)), p);
    CutBehind(head, body, k);
    Associative(head, body[..k - |head|], EncodeRec(crc, r));
    UvarintRoundTrip(|p|, more);
    if DecodeRec(crc, b).Got? {
      ParsedSize(more[4..4 + |p|], more[4 + |p|..]);
    }
  }

  /** After a torn record, some next record is not what the replay finds. */
  lemma TornTailLoses(crc: Checksum, torn: Rec, k: nat)
    requires Fits(torn) && 1 <= k < |EncodeRec(crc, torn)|
    ensures var r := Witness(|Payload(torn)|);
            Fits(r) && Replay(crc, EncodeRec(crc, torn)[..k] + EncodeRec(crc, r)) != Replayed([r], true)
  {
    hide EncodeRec, DecodeRec, Payload, Uvarint, Replay;
    var r := Witness(|Payload(torn)|);
    if k < |Uvarint(|Payload(torn)|)| {
      CutInLength(crc, torn, k, r);
    } else {
      CutInBody(crc, torn, k, r);
    }
    NotReplayed(crc, EncodeRec(crc, torn)[..k] + EncodeRec(crc, r), r);
  }

  lemma CommonPrefix<T>(rs: seq<T>, a: seq<T>, b: seq<T>)
    ensures rs + a == rs + b ==> a == b
  {
    assert (rs + a)[|rs|..] == a && (rs + b)[|rs|..] == b;
  }

  lemma CleanAppend(crc: Checksum, rs: seq<Rec>, r: Rec)
    requires AllFit(rs) && Fits(r)
    ensures Replay(crc, EncodeAll(crc, rs) + [] + EncodeRec(crc, r)) == Replayed(rs + [r], true)
  {
    hide EncodeRec, DecodeRec, Replay, Fits;
    EncodeAllJoins(crc, rs, [r]);
    assert [r][1..] == [];
    assert EncodeAll(crc, [r]) == EncodeRec(crc, r) + EncodeAll(crc, []) == EncodeRec(crc, r);
    assert EncodeAll(crc, rs) + [] == EncodeAll(crc, rs);
    assert AllFit(rs + [r]);
    ReplayWhole(crc, rs + [r]);
  }

  lemma TornAppend(crc: Checksum, rs: seq<Rec>, torn: Rec, k: nat)
    requires AllFit(rs) && Fits(torn) && 1 <= k < |EncodeRec(crc, torn)|
    ensures !NextAppendSurvives(crc, rs, EncodeRec(crc, torn)[..k])
  {
    hide EncodeRec, DecodeRec, Replay, Payload;
    var r, tail := Witness(|Payload(torn)|), EncodeRec(crc, torn)[..k];
    TornTailLoses(crc, torn, k);
    ReplayAfter(crc, rs, tail + EncodeRec(crc, r));
    assert EncodeAll(crc, rs) + tail + EncodeRec(crc, r) == EncodeAll(crc, rs) + (tail + EncodeRec(crc, r));
    CommonPrefix(rs, Replay(crc, tail + EncodeRec(crc, r)).recs, [r]);
  }

  /** Replay stops at a torn tail, but nothing cuts it off: the log is reopened for
      appending behind it. What is written next survives another crash exactly when the
      log ended on a record boundary. */
  lemma ReopenedLogIsDurableWhen(crc: Checksum, rs: seq<Rec>, tail: Bytes)
    requires AllFit(rs) && TornTail(crc, tail)
    ensures NextAppendSurvives(crc, rs, tail) <==> tail == []
  {
    hide EncodeRec, DecodeRec, Replay, Fits, AllFit, EncodeAll;
    if tail == [] {
      forall r: Rec | Fits(r)
        ensures Replay(crc, EncodeAll(crc, rs) + tail + EncodeRec(crc, r)) == Replayed(rs + [r], true)
      {
        CleanAppend(crc, rs, r);
      }
    } else {
      var torn: Rec, k: nat :| Fits(torn) && k < |EncodeRec(crc, torn)| && tail == EncodeRec(crc, torn)[..k];
      TornAppend(crc, rs, torn, k);
    }
  }

  // ---- the log as an object ----

  /** One log file. `bytes` is what is in the file. */
  class Log {
    var bytes: Bytes

    constructor (bytes: Bytes)
      ensures this.bytes == bytes
    {
      this.bytes := bytes;
    }

    method Append(crc: Checksum, r: Rec)
      modifies this
      ensures bytes == old(bytes) + EncodeRec(crc, r)
    {
      var buf := WriteRec(crc, r);
      bytes := bytes + buf;
    }

    method Reset()
      modifies this
      ensures bytes == []
    {
      bytes := [];
    }
  }

  /** The frame, assembled piece by piece. */
  method WriteRec(crc: Checksum, r: Rec) returns (dst: Bytes)
    ensures dst == EncodeRec(crc, r)
  {
    var p := WriteUvarint(|r.key|);
    p := p + r.key;
    var flags: Byte := 0;
    if r.tomb {
      flags := 1;
    }
    p := p + [flags];
    p := p + r.val;
    dst := WriteUvarint(|p|);
    dst := dst + Le32(crc(p)) + p;
  }

  method WriteUvarint(n: nat) returns (b: Bytes)
    ensures b == Uvarint(n)
  {
    b := [];
    var x := n;
    while x >= 128
      invariant b + Uvarint(x) == Uvarint(n)
    {
      assert b + Uvarint(x) == (b + [128 + x % 128]) + Uvarint(x / 128);
      b := b + [128 + x % 128];
      x := x / 128;
    }
    b := b + [x];
  }

  /** The replay loop. */
  method ReplayLog(crc: Checksum, bytes: Bytes) returns (recs: seq<Rec>, ok: bool)
    ensures Replayed(recs, ok) == Replay(crc, bytes)
  {
    recs := [];
    var b := bytes;
    while true
      invariant Replay(crc, bytes) == Replayed(recs + Replay(crc, b).recs, Replay(crc, b).ok)
      decreases |b|
    {
      match DecodeRec(crc, b)
      case Got(r, rest) =>
        assert recs + ([r] + Replay(crc, rest).recs) == recs + [r] + Replay(crc, rest).recs;
        recs := recs + [r];
        b := rest;
      case Eof => return recs, true;
      case Torn => return recs, true;
      case Corrupt => return recs, true;
      case Overflow => return recs, false;
      case Panic => return recs, false;
    }
  }
}
