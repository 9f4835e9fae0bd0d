/** The record frame WAL records and SSTable entries share:
    [payload length][checksum, 4 bytes little endian][payload], with
    payload = [key length][key][flags][value]. Checksums are any function. */
module Codec {
  import opened Common

  type Checksum = Bytes -> Uint32

  datatype Rec = Rec(key: Bytes, val: Bytes, tomb: bool)

  const MAX_REC_BYTES: nat := 0x1000_0000

  // ---- variable-length integers ----

  function Uvarint(n: nat): (b: Bytes)
    ensures |b| >= 1
  {
    if n < 128 then [n] else [128 + n % 128] + Uvarint(n / 128)
  }

  /** What reading an integer, or a record, from a stream comes to. `Torn` is an end of
      stream in the middle, `Overflow` an integer that does not fit 64 bits. */
  datatype Read<+T> = Got(value: T, rest: Bytes) | Eof | Torn | Corrupt | Overflow | Panic

  /** Reads an integer of which `i` bytes have been consumed. */
  function ReadUvarintAt(b: Bytes, i: nat): (r: Read<nat>)
    ensures r.Got? ==> |r.rest| < |b| && r.rest == b[|b| - |r.rest|..]
    decreases |b|
  {
    if i >= 10 then Overflow
    else if b == [] then (if i > 0 then Torn else Eof)
    else if b[0] < 128 then (if i == 9 && b[0] > 1 then Overflow else Got(b[0], b[1..]))
    else
      match ReadUvarintAt(b[1..], i + 1)
      case Got(v, rest) => Got(b[0] - 128 + 128 * v, rest)
      case Eof => Torn
      case r => r
  }

  function ReadUvarint(b: Bytes): (r: Read<nat>)
    ensures r.Got? ==> |r.rest| < |b| && r.rest == b[|b| - |r.rest|..]
  {
    ReadUvarintAt(b, 0)
  }

  /** One more than the greatest integer the bytes from the i-th on can still carry. */
  function Room(i: nat): nat
    decreases 10 - i
  {
    if i >= 10 then 0 else if i == 9 then 2 else 128 * Room(i + 1)
  }

  lemma RoomIs64Bits()
    ensures Room(0) == TWO_TO_64
  {
    assert Room(8) == 256;
    assert Room(7) == 0x8000;
    assert Room(6) == 0x40_0000;
    assert Room(5) == 0x2000_0000;
    assert Room(4) == 0x10_0000_0000;
    assert Room(3) == 0x800_0000_0000;
    assert Room(2) == 0x4_0000_0000_0000;
    assert Room(1) == 0x200_0000_0000_0000;
  }

  lemma ReadOneMore(x: Byte, tail: Bytes, i: nat, v: nat, rest: Bytes)
    requires x >= 128 && i < 10 && ReadUvarintAt(tail + rest, i + 1) == Got(v, rest)
    ensures ReadUvarintAt([x] + tail + rest, i) == Got(x - 128 + 128 * v, rest)
  {
    hide ReadUvarintAt;
    Associative([x], tail, rest);
    ReadMore(x, tail + rest, i);
  }

  lemma ReadMore(x: Byte, more: Bytes, i: nat)
    requires x >= 128
    ensures ReadUvarintAt([x] + more, i) ==
            if i >= 10 then Overflow
            else match ReadUvarintAt(more, i + 1)
                 case Got(v, rest) => Got(x - 128 + 128 * v, rest)
                 case Eof => Torn
                 case r => r
  {
    assert ([x] + more)[1..] == more;
  }

  lemma ReadLast(x: Byte, rest: Bytes, i: nat)
    requires x < 128 && i < 10 && (i == 9 ==> x <= 1)
    ensures ReadUvarintAt([x] + rest, i) == Got(x, rest)
  {
    assert ([x] + rest)[1..] == rest;
  }

  /** Each byte takes seven bits of what is left. */
  lemma RoomShrinks(n: nat, i: nat)
    requires n < Room(i)
    ensures i < 10 && (i == 9 ==> n <= 1) && (n >= 128 ==> n / 128 < Room(i + 1))
  {
  }

  lemma Unfolded(n: nat) returns (lo: Byte, hi: nat)
    requires n >= 128
    ensures lo >= 128 && hi < n && hi == n / 128 && n == lo - 128 + 128 * hi && Uvarint(n) == [lo] + Uvarint(hi)
  {
    lo, hi := 128 + n % 128, n / 128;
  }

  lemma {:induction false} UvarintRoundTripAt(n: nat, i: nat, rest: Bytes)
    requires n < Room(i)
    ensures ReadUvarintAt(Uvarint(n) + rest, i) == Got(n, rest)
    decreases n
  {
    RoomShrinks(n, i);
    if n < 128 {
      ReadLast(n, rest, i);
    } else {
      hide *;
      var lo, hi := Unfolded(n);
      var tail := Uvarint(hi);
      UvarintRoundTripAt(hi, i + 1, rest);
      ReadOneMore(lo, tail, i, hi, rest);
    }
  }

  lemma UvarintRoundTrip(n: nat, rest: Bytes)
    requires n < TWO_TO_64
    ensures ReadUvarint(Uvarint(n) + rest) == Got(n, rest)
  {
    RoomIs64Bits();
    UvarintRoundTripAt(n, 0, rest);
  }

  lemma {:induction false} UvarintTornAt(n: nat, i: nat, k: nat)
    requires n < Room(i) && k < |Uvarint(n)|
    ensures ReadUvarintAt(Uvarint(n)[..k], i) == if i == 0 && k == 0 then Eof else Torn
    decreases n
  {
    if n >= 128 && k > 0 {
      assert n / 128 < Room(i + 1);
      UvarintTornAt(n / 128, i + 1, k - 1);
      assert Uvarint(n)[..k][1..] == Uvarint(n / 128)[..k - 1];
    }
  }

  lemma UvarintTorn(n: nat, k: nat)
    requires n < TWO_TO_64 && k < |Uvarint(n)|
    ensures ReadUvarint(Uvarint(n)[..k]) == if k == 0 then Eof else Torn
  {
    RoomIs64Bits();
    UvarintTornAt(n, 0, k);
  }

  // ---- fixed-length integers ----

  function Le32(n: Uint32): (b: Bytes)
    ensures |b| == 4
  {
    [n % 256, n / 0x100 % 256, n / 0x1_0000 % 256, n / 0x100_0000]
  }

  function FromLe32(b: Bytes): (n: Uint32)
    requires |b| == 4
  {
    b[0] as int + 0x100 * (b[1] as int) + 0x1_0000 * (b[2] as int) + 0x100_0000 * (b[3] as int)
  }

  lemma Le32RoundTrip(n: Uint32)
    ensures FromLe32(Le32(n)) == n
  {
    var a, b, c := n / 0x100, n / 0x1_0000, n / 0x100_0000;
    assert n == 0x100 * a + n % 256 && a == 0x100 * b + a % 256 && b == 0x100 * c + b % 256;
  }

  // ---- records ----

  function Payload(r: Rec): (p: Bytes)
    ensures |p| >= 2 + |r.key| + |r.val|
  {
    Uvarint(|r.key|) + r.key + [if r.tomb then 1 else 0] + r.val
  }

  /** The encoder does not check this; the decoder does. */
  predicate Fits(r: Rec) {
    |Payload(r)| <= MAX_REC_BYTES
  }

  function EncodeRec(crc: Checksum, r: Rec): (b: Bytes)
    ensures |b| >= 5
  {
    var p := Payload(r);
    Uvarint(|p|) + Le32(crc(p)) + p
  }

  /** Takes a payload apart. The length sum is taken modulo 2^64, so a length near the top
      slips through the check and the slice expressions fail. */
  function ParsePayload(p: Bytes, rest: Bytes): (r: Read<Rec>)
    ensures r.Got? ==> r.rest == rest
  {
    match ReadUvarint(p)
    case Got(klen, body) =>
      var n := |p| - |body|;
      if (n + klen + 1) % TWO_TO_64 > |p| then Corrupt
      else if n + klen + 1 > |p| then Panic
      else Got(Rec(body[..klen], body[klen + 1..], body[klen] % 2 == 1), rest)
    case _ => Corrupt
  }

  function DecodeRec(crc: Checksum, b: Bytes): (r: Read<Rec>)
    ensures r.Got? ==> |r.rest| < |b|
  {
    match ReadUvarint(b)
    case Eof => Eof
    case Torn => Torn
    case Corrupt => Corrupt
    case Overflow => Overflow
    case Panic => Panic
    case Got(plen, body) =>
      if plen == 0 || plen > MAX_REC_BYTES then Corrupt
      else if |body| < 4 + plen then Torn
      else
        var p := body[4..4 + plen];
        if crc(p) != FromLe32(body[..4]) then Corrupt
        else ParsePayload(p, body[4 + plen..])
  }

  lemma ParseRoundTrip(r: Rec, rest: Bytes)
    requires Fits(r)
    ensures ParsePayload(Payload(r), rest) == Got(r, rest)
  {
    hide Uvarint, ReadUvarint;
    var p := Payload(r);
    var flag: Bytes := [if r.tomb then 1 else 0];
    var head, body := Uvarint(|r.key|), r.key + flag + r.val;
    Associative(head, r.key, flag);
    Associative(head, r.key + flag, r.val);
    UvarintRoundTrip(|r.key|, body);
    assert |p| - |body| == |head| && |head| + |r.key| + 1 <= |p| < TWO_TO_64;
    assert (|head| + |r.key| + 1) % TWO_TO_64 == |head| + |r.key| + 1;
    BodyParts(r.key, flag, r.val);
  }

  lemma BodyParts(key: Bytes, flag: Bytes, val: Bytes)
    requires |flag| == 1
    ensures var body := key + flag + val;
            body[..|key|] == key && body[|key|] == flag[0] && body[|key| + 1..] == val
  {
  }

  /** Decoding what was encoded gives the record back, and leaves what follows it. */
  lemma DecodeRoundTrip(crc: Checksum, r: Rec, rest: Bytes)
    requires Fits(r)
    ensures DecodeRec(crc, EncodeRec(crc, r) + rest) == Got(r, rest)
  {
    var p := Payload(r);
    var body := Le32(crc(p)) + p + rest;
    assert EncodeRec(crc, r) + rest == Uvarint(|p|) + body;
    UvarintRoundTrip(|p|, body);
    Le32RoundTrip(crc(p));
    assert body[..4] == Le32(crc(p)) && body[4..4 + |p|] == p && body[4 + |p|..] == rest;
    ParseRoundTrip(r, rest);
  }

  /** No proper prefix of a record decodes: cut at its start it is the end of the stream,
      cut anywhere else it is a torn tail. */
  lemma PrefixNeverDecodes(crc: Checksum, r: Rec, k: nat)
    requires Fits(r) && k < |EncodeRec(crc, r)|
    ensures DecodeRec(crc, EncodeRec(crc, r)[..k]) == if k == 0 then Eof else Torn
  {
    var p := Payload(r);
    var head, body := Uvarint(|p|), Le32(crc(p)) + p;
    assert EncodeRec(crc, r) == head + body;
    if k < |head| {
      assert (head + body)[..k] == head[..k];
      UvarintTorn(|p|, k);
    } else {
      assert (head + body)[..k] == head + body[..k - |head|];
      UvarintRoundTrip(|p|, body[..k - |head|]);
    }
  }

  /** The encoder writes what the decoder will refuse: the round trip holds exactly for
      records whose payload fits. */
  lemma RoundTripExactlyWhenFits(crc: Checksum, r: Rec, rest: Bytes)
    requires |Payload(r)| < TWO_TO_64
    ensures DecodeRec(crc, EncodeRec(crc, r) + rest) == Got(r, rest) <==> Fits(r)
  {
    if Fits(r) {
      DecodeRoundTrip(crc, r, rest);
    } else {
      var p := Payload(r);
      assert EncodeRec(crc, r) + rest == Uvarint(|p|) + (Le32(crc(p)) + p + rest);
      UvarintRoundTrip(|p|, Le32(crc(p)) + p + rest);
    }
  }

  lemma {:induction false} UvarintSize(n: nat)
    ensures |Uvarint(n)| <= n + 1
  {
    if n >= 128 {
      UvarintSize(n / 128);
    }
  }

  /** A record the encoder writes and the decoder refuses: a key of one byte more than the
      limit. */
  lemma SomeRecordIsRefused(crc: Checksum, rest: Bytes) returns (r: Rec)
    ensures |r.key| == MAX_REC_BYTES + 1 && |Payload(r)| < TWO_TO_64
    ensures DecodeRec(crc, EncodeRec(crc, r) + rest) == Corrupt
  {
    hide Uvarint, ReadUvarint;
    r := Rec(seq(MAX_REC_BYTES + 1, _ => 0), [], false);
    UvarintSize(MAX_REC_BYTES + 1);
    var p := Payload(r);
    assert EncodeRec(crc, r) + rest == Uvarint(|p|) + (Le32(crc(p)) + p + rest);
    UvarintRoundTrip(|p|, Le32(crc(p)) + p + rest);
  }
}
