/** The bloom filter of a table: a bit array in which every key's hash sets `k` bits, chosen
    in 32-bit arithmetic that wraps around. */
module Bloom {
  import opened Common
  import opened Codec

  type Uint64 = n: int | 0 <= n < 0x1_0000_0000_0000_0000

  datatype Filter = Filter(k: Byte, bits: Bytes)

  // ---- bits of a byte ----

  predicate HasBit(b: nat, j: nat) {
    if j == 0 then b % 2 == 1 else HasBit(b / 2, j - 1)
  }

  function Values(bits: nat): (n: nat)
    ensures n >= 1
  {
    if bits == 0 then 1 else 2 * Values(bits - 1)
  }

  /** A number of `width` bits with bit `j` or-ed in. */
  function OrBit(b: nat, j: nat, width: nat): (c: nat)
    requires b < Values(width) && j < width
    ensures c < Values(width)
  {
    if j == 0 then b / 2 * 2 + 1 else 2 * OrBit(b / 2, j - 1, width - 1) + b % 2
  }

  lemma {:induction false} OrBitSets(b: nat, j: nat, width: nat, i: nat)
    requires b < Values(width) && j < width
    ensures HasBit(OrBit(b, j, width), i) <==> i == j || HasBit(b, i)
    decreases j
  {
    if j > 0 && i > 0 {
      OrBitSets(b / 2, j - 1, width - 1, i - 1);
    }
  }

  function SetBit(b: Byte, j: nat): (c: Byte)
    requires j < 8
    ensures forall i: nat :: HasBit(c, i) <==> i == j || HasBit(b, i)
  {
    assert Values(8) == 256 by { assert Values(4) == 16; }
    assert forall i: nat :: HasBit(OrBit(b, j, 8), i) <==> i == j || HasBit(b, i) by {
      forall i: nat { OrBitSets(b, j, 8, i); }
    }
    OrBit(b, j, 8)
  }

  /** Bit `n` of an array of bytes. */
  predicate BitAt(bits: Bytes, n: nat) {
    n / 8 < |bits| && HasBit(bits[n / 8], n % 8)
  }

  function WithBit(bits: Bytes, n: nat): (c: Bytes)
    requires n < 8 * |bits|
    ensures |c| == |bits|
    ensures forall m: nat :: BitAt(c, m) <==> m == n || BitAt(bits, m)
  {
    var c := bits[n / 8 := SetBit(bits[n / 8], n % 8)];
    assert forall m: nat :: m / 8 == n / 8 && m % 8 == n % 8 ==> m == n;
    c
  }

  // ---- probes ----

  /** The number of hashes per key: bitsPerKey times 0.69, kept between 1 and 30. */
  function Hashes(bitsPerKey: int): (k: Byte)
    ensures 1 <= k <= 30
  {
    var k := bitsPerKey * 69 / 100;
    if k < 1 then 1 else if k > 30 then 30 else k
  }

  /** The size of the array for `n` keys, in bits: at least 64, a whole number of bytes. */
  function Size(n: nat, bitsPerKey: int): (bits: nat)
    ensures bits >= 64 && bits % 8 == 0 && bits >= n * bitsPerKey
  {
    var bits := n * bitsPerKey;
    (if bits < 64 then 64 else bits + 7) / 8 * 8
  }

  /** The i-th bit a hash sets or asks for in an array of `nbits` bits, all in unsigned 32-bit
      arithmetic; the array size is cut to 32 bits as well. */
  function Probe(h: Uint64, i: nat, nbits: nat): (bit: nat)
    requires nbits % TWO_TO_32 != 0
    ensures bit < nbits
  {
    var h1, h2 := h % TWO_TO_32, h / TWO_TO_32;
    var odd := if h2 % 2 == 0 then h2 + 1 else h2;
    (h1 + i * odd % TWO_TO_32) % TWO_TO_32 % (nbits % TWO_TO_32)
  }

  function AddKey(bits: Bytes, h: Uint64, k: nat): (c: Bytes)
    requires 8 * |bits| % TWO_TO_32 != 0
    ensures |c| == |bits|
  {
    if k == 0 then bits else WithBit(AddKey(bits, h, k - 1), Probe(h, k - 1, 8 * |bits|))
  }

  function AddKeys(bits: Bytes, hashes: seq<Uint64>, k: nat): (c: Bytes)
    requires 8 * |bits| % TWO_TO_32 != 0
    ensures |c| == |bits|
    decreases |hashes|
  {
    if hashes == [] then bits else AddKey(AddKeys(bits, hashes[..|hashes| - 1], k), hashes[|hashes| - 1], k)
  }

  /** The division by the array size fails only when its low 32 bits are all zero. */
  predicate Buildable(n: nat, bitsPerKey: int) {
    Size(n, bitsPerKey) % TWO_TO_32 != 0
  }

  function FilterOf(hashes: seq<Uint64>, bitsPerKey: int): (f: Filter)
    requires Buildable(|hashes|, bitsPerKey)
    ensures 8 * |f.bits| == Size(|hashes|, bitsPerKey)
  {
    var k, n := Hashes(bitsPerKey), Size(|hashes|, bitsPerKey) / 8;
    Filter(k, AddKeys(seq(n, _ => 0), hashes, k))
  }

  method NewBloom(hashes: seq<Uint64>, bitsPerKey: int) returns (f: Filter)
    requires Buildable(|hashes|, bitsPerKey)
    ensures f == FilterOf(hashes, bitsPerKey)
  {
    hide Probe, SetBit, Size, Hashes, BitAt, HasBit;
    var k, nbits := Hashes(bitsPerKey), Size(|hashes|, bitsPerKey);
    var bits := seq(nbits / 8, _ => 0);
    ghost var none := bits;
    var j := 0;
    while j < |hashes|
      invariant j <= |hashes| && bits == AddKeys(none, hashes[..j], k)
    {
      ghost var before := bits;
      var i := 0;
      while i < k
        invariant 0 <= i <= k && bits == AddKey(before, hashes[j], i)
      {
        var bit := Probe(hashes[j], i, nbits);
        bits := bits[bit / 8 := SetBit(bits[bit / 8], bit % 8)];
        i := i + 1;
      }
      assert hashes[..j + 1][..j] == hashes[..j];
      j := j + 1;
    }
    assert hashes[..j] == hashes;
    return Filter(k, bits);
  }

  /** The division by the array size is only made when there is something to ask. */
  predicate Askable(f: Filter, n: nat) {
    n == 0 || 8 * |f.bits| % TWO_TO_32 != 0
  }

  predicate AllSet(f: Filter, h: Uint64, n: nat)
    requires Askable(f, n)
  {
    forall i :: 0 <= i < n ==> BitAt(f.bits, Probe(h, i, 8 * |f.bits|))
  }

  method MayContain(f: Filter, h: Uint64) returns (may: bool)
    requires Askable(f, f.k)
    ensures may <==> AllSet(f, h, f.k)
  {
    var i := 0;
    while i < f.k
      invariant 0 <= i <= f.k && AllSet(f, h, i)
    {
      var bit := Probe(h, i, 8 * |f.bits|);
      if !HasBit(f.bits[bit / 8], bit % 8) {
        assert !BitAt(f.bits, bit);
        return false;
      }
      i := i + 1;
    }
    return true;
  }

  // ---- no false negative ----

  /** Some hash probes this bit. */
  ghost predicate Probed(hashes: seq<Uint64>, k: nat, nbits: nat, bit: nat)
    requires nbits % TWO_TO_32 != 0
  {
    exists j, i: nat :: 0 <= j < |hashes| && i < k && Probe(hashes[j], i, nbits) == bit
  }

  lemma {:induction false} AddKeySets(bits: Bytes, h: Uint64, k: nat, bit: nat)
    requires 8 * |bits| % TWO_TO_32 != 0
    ensures BitAt(AddKey(bits, h, k), bit) <==> BitAt(bits, bit) || exists i: nat :: i < k && Probe(h, i, 8 * |bits|) == bit
  {
    hide Probe, BitAt;
    if k > 0 {
      AddKeySets(bits, h, k - 1, bit);
      if i: nat :| i < k && Probe(h, i, 8 * |bits|) == bit {
        assert i == k - 1 || i < k - 1;
      }
    }
  }

  lemma {:induction false} AddKeysSets(bits: Bytes, hashes: seq<Uint64>, k: nat, bit: nat)
    requires 8 * |bits| % TWO_TO_32 != 0
    ensures BitAt(AddKeys(bits, hashes, k), bit) <==> BitAt(bits, bit) || Probed(hashes, k, 8 * |bits|, bit)
    decreases |hashes|
  {
    hide Probe, BitAt, AddKey;
    if hashes != [] {
      var n := |hashes| - 1;
      var front, nbits := hashes[..n], 8 * |bits|;
      AddKeysSets(bits, front, k, bit);
      AddKeySets(AddKeys(bits, front, k), hashes[n], k, bit);
      if j, i: nat :| 0 <= j < |hashes| && i < k && Probe(hashes[j], i, nbits) == bit {
        assert j < n ==> Probe(front[j], i, nbits) == bit;
      }
      if j, i: nat :| 0 <= j < |front| && i < k && Probe(front[j], i, nbits) == bit {
        assert Probe(hashes[j], i, nbits) == bit;
      }
      if i: nat :| i < k && Probe(hashes[n], i, nbits) == bit {
        assert 0 <= n < |hashes|;
      }
    }
  }

  /** A bit of a filter is set exactly when some key probes it. */
  lemma FilterBits(hashes: seq<Uint64>, bitsPerKey: int, bit: nat)
    requires Buildable(|hashes|, bitsPerKey)
    ensures BitAt(FilterOf(hashes, bitsPerKey).bits, bit) <==>
            Probed(hashes, Hashes(bitsPerKey), Size(|hashes|, bitsPerKey), bit)
  {
    var none := seq(Size(|hashes|, bitsPerKey) / 8, _ => 0);
    AddKeysSets(none, hashes, Hashes(bitsPerKey), bit);
    assert !BitAt(none, bit);
  }

  /** Every key the filter was built from is let through, however the 32-bit arithmetic
      wrapped. */
  lemma NoFalseNegative(hashes: seq<Uint64>, bitsPerKey: int, h: Uint64)
    requires Buildable(|hashes|, bitsPerKey) && h in hashes
    ensures var f := FilterOf(hashes, bitsPerKey); Askable(f, f.k) && AllSet(f, h, f.k)
  {
    hide Probe, AddKeys;
    var f := FilterOf(hashes, bitsPerKey);
    var j :| 0 <= j < |hashes| && hashes[j] == h;
    forall i | 0 <= i < f.k
      ensures BitAt(f.bits, Probe(h, i, 8 * |f.bits|))
    {
      FilterBits(hashes, bitsPerKey, Probe(hashes[j], i, 8 * |f.bits|));
    }
  }

  // ---- on disk ----

  function Marshal(f: Filter): (b: Bytes)
    ensures |b| >= 2
  {
    [f.k] + Uvarint(|f.bits|) + f.bits
  }

  function Unmarshal(b: Bytes): Option<Filter> {
    if |b| < 2 then None
    else
      match ReadUvarint(b[1..])
      case Got(n, rest) => if |rest| == n then Some(Filter(b[0], rest)) else None
      case _ => None
  }

  lemma MarshalRoundTrip(f: Filter)
    requires |f.bits| < TWO_TO_64
    ensures Unmarshal(Marshal(f)) == Some(f)
  {
    assert Marshal(f)[1..] == Uvarint(|f.bits|) + f.bits;
    UvarintRoundTrip(|f.bits|, f.bits);
  }

  /** Only a marshalled filter unmarshals, up to how its length is written. */
  lemma UnmarshalIsExact(b: Bytes)
    ensures Unmarshal(b).Some? ==>
              exists len: Bytes :: b == [Unmarshal(b).value.k] + len + Unmarshal(b).value.bits
                                   && ReadUvarint(len + Unmarshal(b).value.bits) == Got(|Unmarshal(b).value.bits|, Unmarshal(b).value.bits)
  {
    if Unmarshal(b).Some? {
      var f, tail := Unmarshal(b).value, b[1..];
      var len := tail[..|tail| - |f.bits|];
      assert tail == len + f.bits;
      assert b == [f.k] + len + f.bits;
    }
  }
}
