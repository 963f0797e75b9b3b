/** Decoding of chunk section arrays (world.py): the 1.16 non-spanning
    block-state unpacker, the nibble arrays (block data, the `Add` ids, sky
    and block light) and the pre-1.13 block/data section layout.

    Arrays are modelled flat: numpy's (16, 16, 8) reshape followed by the
    even/odd expansion of the last axis yields, in flat order, the even/odd
    expansion of the flat byte string. */
module ChunkDecode {
  import opened Wrappers
  import opened Bits

  type Byte = x: nat | x < 256
  type U64 = x: nat | x < 0x1_0000_0000_0000_0000

  function Max(a: int, b: int): int
  {
    if a >= b then a else b
  }

  // ---------------------------------------------------------------------
  // The 1.16 unpacker: `_packed_longarray_to_shorts_v116`

  /** Bits per value as the unpacker derives it from the array length. */
  function Bpv116(len: nat, n: nat): nat
    requires n > 0
  {
    Max(4, len * 64 / n)
  }

  /** Number of entries of `result[i::spl]`, and of `b[:j]` it is given. */
  function Slots(n: nat, spl: nat, i: nat): nat
    requires spl > 0 && i < spl
  {
    (n + spl - 1 - i) / spl
  }

  /** `b[q]`, or the single long numpy broadcasts over the whole slice. */
  function LongAt(longs: seq<U64>, q: nat): U64
    requires q < |longs| || |longs| == 1
  {
    if |longs| == 1 then longs[0] else longs[q]
  }

  /** Bits `lo .. lo + w - 1` of x: `(x >> lo) & ((1 << w) - 1)`. */
  function Field(x: nat, lo: nat, w: nat): nat
  {
    Low(Shr(x, lo), w)
  }

  /** Entry k of the result: field k mod spl of long k div spl, stored as uint16. */
  function Elem116(longs: seq<U64>, bpv: nat, spl: nat, k: nat): nat
    requires spl > 0 && (k / spl < |longs| || |longs| == 1)
  {
    Field(LongAt(longs, k / spl), bpv * (k % spl), bpv) % 0x1_0000
  }

  /** A slice assignment fails exactly when the first slice is longer than
      the long array and numpy cannot broadcast it. */
  predicate ShapeMismatch(len: nat, n: nat, spl: nat)
  {
    spl > 0 && (n + spl - 1) / spl > len && len != 1
  }

  /** The unpacker once `bpv` has been chosen. */
  function Unpack116With(longs: seq<U64>, n: nat, bpv: nat): (r: Result<seq<nat>>)
    requires bpv >= 4
    ensures r.Ok? ==> |r.value| == n
    ensures r.Ok? && bpv <= 16 ==> forall k :: 0 <= k < n ==> r.value[k] < Pow2(bpv)
  {
    var spl := 64 / bpv;
    if ShapeMismatch(|longs|, n, spl) then Err(ValueError)
    else if spl == 0 then Ok(seq(n, k => 0))
    else
      var out := seq(n, k requires 0 <= k < n => (SlotBound(n, spl, k, |longs|); Elem116(longs, bpv, spl, k)));
      assert bpv <= 16 ==> forall k :: 0 <= k < n ==> out[k] < Pow2(bpv) by {
        if bpv <= 16 {
          forall k | 0 <= k < n
            ensures out[k] < Pow2(bpv)
          {
            SlotBound(n, spl, k, |longs|);
            Elem116Bound(longs, bpv, spl, k);
          }
        }
      }
      Ok(out)
  }

  lemma Elem116Bound(longs: seq<U64>, bpv: nat, spl: nat, k: nat)
    requires bpv <= 16 && spl > 0 && (k / spl < |longs| || |longs| == 1)
    ensures Elem116(longs, bpv, spl, k) < Pow2(bpv)
  {
    var f := Field(LongAt(longs, k / spl), bpv * (k % spl), bpv);
    assert f < Pow2(bpv) by {
      LowBound(Shr(LongAt(longs, k / spl), bpv * (k % spl)), bpv);
    }
    assert Pow2(bpv) <= 0x1_0000 by {
      Pow2Monotone(bpv, 16);
      Pow2Sixteen();
    }
    assert f % 0x1_0000 == f by {
      DivModUnique(f, 0x1_0000, 0, f);
    }
  }

  /** `_packed_longarray_to_shorts_v116(long_array, n, num_palette)` as written. */
  function Unpack116(longs: seq<U64>, n: nat): (r: Result<seq<nat>>)
    ensures n == 0 <==> r == Err(ZeroDivision)
    ensures r.Ok? ==> |r.value| == n
  {
    if n == 0 then Err(ZeroDivision) else Unpack116With(longs, n, Bpv116(|longs|, n))
  }

  lemma DivBounds(m: int, d: int)
    requires d > 0
    ensures m / d * d <= m < m / d * d + d
  {
  }


  lemma DivMono(a: int, b: int, d: int)
    requires a <= b && d > 0
    ensures a / d <= b / d
  {
    DivBounds(a, d);
    DivBounds(b, d);
    assert (b / d + 1) * d == b / d * d + d;
    LtFromMul(a / d, b / d + 1, d);
  }

  lemma LtFromMul(x: int, y: int, c: int)
    requires c > 0 && x * c < y * c
    ensures x < y
  {
  }

  lemma SlotBound(n: nat, spl: nat, k: nat, len: nat)
    requires spl > 0 && k < n && !ShapeMismatch(len, n, spl)
    ensures k / spl < len || len == 1
  {
    var q, l := k / spl, (n + spl - 1) / spl;
    DivBounds(k, spl);
    DivBounds(n + spl - 1, spl);
    if q >= l {
      MulMono(l, q, spl);
    }
  }


  /** The slot written at step (i, t) of the loops is entry i + t*spl. */
  lemma SlotIndex(n: nat, spl: nat, i: nat, t: nat)
    requires spl > 0 && i < spl && t < Slots(n, spl, i)
    ensures i + t * spl < n
    ensures (i + t * spl) % spl == i && (i + t * spl) / spl == t
  {
    var j := Slots(n, spl, i);
    DivBounds(n + spl - 1 - i, spl);
    MulMono(t, j - 1, spl);
    assert (j - 1) * spl == j * spl - spl;
    DivModUnique(i + t * spl, spl, t, i);
  }

  /** Every entry with k mod spl == i is reached by step i of the outer loop. */
  lemma SlotCovered(n: nat, spl: nat, i: nat, k: nat)
    requires spl > 0 && i < spl && k < n && k % spl == i
    ensures k / spl < Slots(n, spl, i)
  {
    var q := k / spl;
    var m := n + spl - 1 - i;
    DivBounds(k, spl);
    DivBounds(m, spl);
    if q >= m / spl {
      MulMono(m / spl, q, spl);
    }
  }

  /** Later slices are never longer than the first one. */
  lemma SlotsShrink(n: nat, spl: nat, i: nat)
    requires spl > 0 && i < spl
    ensures Slots(n, spl, i) <= Slots(n, spl, 0) == (n + spl - 1) / spl
  {
    DivMono(n + spl - 1 - i, n + spl - 1, spl);
  }

  /** `_packed_longarray_to_shorts_v116`: a zeroed array of n shorts is
      filled slice by slice, one slice per field position i of a long. */
  method UnpackV116(longs: seq<U64>, n: nat) returns (r: Result<seq<nat>>)
    ensures r == Unpack116(longs, n)
  {
    if n == 0 {
      return Err(ZeroDivision);
    }
    var bpv := Bpv116(|longs|, n);
    var result := new nat[n](k => 0);
    var spl := 64 / bpv;
    for i := 0 to spl
      invariant forall k :: 0 <= k < n ==> result[k] == Filled(longs, bpv, spl, i, k)
      invariant i > 0 ==> !ShapeMismatch(|longs|, n, spl)
    {
      var j := (n + spl - 1 - i) / spl;
      SlotsShrink(n, spl, i);
      if j > |longs| && |longs| != 1 {
        return Err(ValueError);
      }
      FillSlice(result, longs, bpv, spl, i, j);
    }
    FilledComplete(longs, n, result[..]);
    r := Ok(result[..]);
  }

  /** Once every slice is written the array holds the unpacked values. */
  lemma FilledComplete(longs: seq<U64>, n: nat, s: seq<nat>)
    requires n > 0 && |s| == n
    requires var spl := 64 / Bpv116(|longs|, n); spl == 0 || !ShapeMismatch(|longs|, n, spl)
    requires forall k :: 0 <= k < n ==> s[k] == Filled(longs, Bpv116(|longs|, n), 64 / Bpv116(|longs|, n), 64 / Bpv116(|longs|, n), k)
    ensures Unpack116(longs, n) == Ok(s)
  {
    var bpv := Bpv116(|longs|, n);
    var spl := 64 / bpv;
    var r := Unpack116(longs, n);
    assert r == Unpack116With(longs, n, bpv);
    if spl == 0 {
      assert r.value == s;
    } else {
      assert r.Ok?;
      forall k | 0 <= k < n
        ensures r.value[k] == s[k]
      {
        SlotBound(n, spl, k, |longs|);
        assert k % spl < spl;
        assert r.value[k] == Elem116(longs, bpv, spl, k);
        assert s[k] == Filled(longs, bpv, spl, spl, k) == Elem116(longs, bpv, spl, k);
      }
      assert r.value == s;
    }
  }

  /** The result after the slices 0 .. i-1 have been written. */
  function Filled(longs: seq<U64>, bpv: nat, spl: nat, i: nat, k: nat): nat
  {
    if spl > 0 && k % spl < i then Elem116Total(longs, bpv, spl, k) else 0
  }

  /** `result[i::spl] = (b[:j] >> (bits_per_value * i)) & mask` */
  method FillSlice(result: array<nat>, longs: seq<U64>, bpv: nat, spl: nat, i: nat, j: nat)
    requires spl > 0 && i < spl && j == Slots(result.Length, spl, i)
    requires j <= |longs| || |longs| == 1
    requires forall k :: 0 <= k < result.Length ==> result[k] == Filled(longs, bpv, spl, i, k)
    modifies result
    ensures forall k :: 0 <= k < result.Length ==> result[k] == Filled(longs, bpv, spl, i + 1, k)
  {
    var n := result.Length;
    var mask := Pow2(bpv) - 1;
    for t := 0 to j
      invariant forall k :: 0 <= k < n ==> result[k] == Partial(longs, bpv, spl, i, t, k)
    {
      SlotIndex(n, spl, i, t);
      var x := Shr(LongAt(longs, t), bpv * i);
      SlotValue(longs, bpv, spl, i, t);
      AndLow(x, bpv);
      result[i + t * spl] := And(x, mask) % 0x1_0000;
      forall k | 0 <= k < n
        ensures result[k] == Partial(longs, bpv, spl, i, t + 1, k)
      {
        PartialStep(longs, bpv, spl, i, t, k);
      }
    }
    forall k | 0 <= k < n
      ensures result[k] == Filled(longs, bpv, spl, i + 1, k)
    {
      if k % spl == i {
        SlotCovered(n, spl, i, k);
      }
    }
  }

  /** The slice being written, after its first t entries. */
  function Partial(longs: seq<U64>, bpv: nat, spl: nat, i: nat, t: nat, k: nat): nat
    requires spl > 0
  {
    if k % spl == i && k / spl < t then Elem116Total(longs, bpv, spl, k) else Filled(longs, bpv, spl, i, k)
  }

  lemma PartialStep(longs: seq<U64>, bpv: nat, spl: nat, i: nat, t: nat, k: nat)
    requires spl > 0 && i < spl
    ensures Partial(longs, bpv, spl, i, t + 1, k) ==
      if k == i + t * spl then Elem116Total(longs, bpv, spl, k) else Partial(longs, bpv, spl, i, t, k)
  {
    DivModUnique(i + t * spl, spl, t, i);
    DivBounds(k, spl);
  }

  lemma SlotValue(longs: seq<U64>, bpv: nat, spl: nat, i: nat, t: nat)
    requires spl > 0 && i < spl && (t < |longs| || |longs| == 1)
    ensures Elem116Total(longs, bpv, spl, i + t * spl) == Field(LongAt(longs, t), bpv * i, bpv) % 0x1_0000
  {
    DivModUnique(i + t * spl, spl, t, i);
  }

  /** `Elem116` where it is defined, 0 elsewhere (never used there). */
  function Elem116Total(longs: seq<U64>, bpv: nat, spl: nat, k: nat): nat
  {
    if spl > 0 && (k / spl < |longs| || |longs| == 1) then Elem116(longs, bpv, spl, k) else 0
  }

  // ---------------------------------------------------------------------
  // The layout the unpacker reads: spl fields of bpv bits per long, low
  // bits first, none spanning two longs.

  /** Values `vs[lo .. hi]` packed into one integer, `w` bits each, the
      first value lowest. */
  function PackSpan(vs: seq<nat>, lo: nat, hi: nat, w: nat): nat
    requires lo <= hi <= |vs|
    decreases hi - lo
  {
    if lo == hi then 0 else vs[lo] + Pow2(w) * PackSpan(vs, lo + 1, hi, w)
  }

  predicate AllBelow(vs: seq<nat>, bound: nat)
  {
    forall k :: 0 <= k < |vs| ==> vs[k] < bound
  }

  lemma {:induction false} PackSpanBound(vs: seq<nat>, lo: nat, hi: nat, w: nat)
    requires lo <= hi <= |vs| && AllBelow(vs, Pow2(w))
    ensures PackSpan(vs, lo, hi, w) < Pow2(w * (hi - lo))
    decreases hi - lo
  {
    if lo < hi {
      var m := hi - lo - 1;
      PackSpanBound(vs, lo + 1, hi, w);
      Pow2Add(w, w * m);
      assert w * (hi - lo) == w + w * m;
      BoundStep(vs[lo], Pow2(w), PackSpan(vs, lo + 1, hi, w), Pow2(w * m));
    }
  }

  lemma BoundStep(v: int, p: int, rest: int, big: int)
    requires 0 <= v < p && 0 <= rest < big
    ensures v + p * rest < p * big
  {
    MulMono(rest, big - 1, p);
    assert (big - 1) * p == big * p - p;
  }

  /** Field r of a packed long is value lo + r. */
  lemma {:induction false} PackSpanField(vs: seq<nat>, lo: nat, hi: nat, w: nat, r: nat)
    requires lo + r < hi <= |vs| && AllBelow(vs, Pow2(w))
    ensures Field(PackSpan(vs, lo, hi, w), w * r, w) == vs[lo + r]
    decreases r
  {
    var y, rest := PackSpan(vs, lo, hi, w), PackSpan(vs, lo + 1, hi, w);
    assert y == vs[lo] + Pow2(w) * rest;
    if r == 0 {
      assert w * r == 0;
      LowPacked(vs[lo], rest, w);
    } else {
      PackSpanField(vs, lo + 1, hi, w, r - 1);
      assert w * r == w + w * (r - 1);
      ShrAdd(y, w, w * (r - 1));
      ShrPacked(vs[lo], rest, w);
    }
  }


  function Min(a: int, b: int): int
  {
    if a <= b then a else b
  }

  /** Long q of the packing: values q*spl up to (q+1)*spl, `w` bits each;
      the last long may be partly used. */
  function PackAt(vs: seq<nat>, w: nat, spl: nat, q: nat): nat
  {
    var lo := Min(q * spl, |vs|);
    PackSpan(vs, lo, Min(lo + spl, |vs|), w)
  }

  /** With w * spl <= 64 every packed long fits in 64 bits. */
  lemma PackAtFits(vs: seq<nat>, w: nat, spl: nat, q: nat)
    requires w * spl <= 64 && AllBelow(vs, Pow2(w))
    ensures PackAt(vs, w, spl, q) < 0x1_0000_0000_0000_0000
  {
    var lo := Min(q * spl, |vs|);
    SpanFits(vs, lo, Min(lo + spl, |vs|), w, spl);
  }

  lemma SpanFits(vs: seq<nat>, lo: nat, hi: nat, w: nat, spl: nat)
    requires lo <= hi <= |vs| && hi - lo <= spl && w * spl <= 64 && AllBelow(vs, Pow2(w))
    ensures PackSpan(vs, lo, hi, w) < 0x1_0000_0000_0000_0000
  {
    var m := hi - lo;
    PackSpanBound(vs, lo, hi, w);
    assert w * m <= 64 by {
      MulMono(m, spl, w);
      assert m * w == w * m && spl * w == w * spl;
    }
    Pow2Monotone(w * m, 64);
    Pow2SixtyFour();
  }


  /** Long q of the packing, typed as the unpacker's input. */
  function PackAtU64(vs: seq<nat>, w: nat, spl: nat, q: nat): U64
    requires w * spl <= 64 && AllBelow(vs, Pow2(w))
  {
    PackAtFits(vs, w, spl, q);
    PackAt(vs, w, spl, q)
  }

  /** The packed longs, spl values per long. */
  function PackU64(vs: seq<nat>, w: nat, spl: nat): (longs: seq<U64>)
    requires spl > 0 && w * spl <= 64 && AllBelow(vs, Pow2(w))
    ensures |longs| == (|vs| + spl - 1) / spl
  {
    seq((|vs| + spl - 1) / spl, q requires 0 <= q => PackAtU64(vs, w, spl, q))
  }

  /** The packing the 1.16 format uses: as many w-bit values per long as fit. */
  function Pack116(vs: seq<nat>, w: nat): (longs: seq<U64>)
    requires 4 <= w <= 64 && AllBelow(vs, Pow2(w))
    ensures |longs| == LongsFor(|vs|, w)
  {
    SplRange(w);
    PackU64(vs, w, 64 / w)
  }

  lemma SplRange(w: nat)
    requires 4 <= w <= 64
    ensures 1 <= 64 / w <= 16 && w * (64 / w) <= 64
  {
    DivBounds(64, w);
  }

  /** Unpacking with the packing width inverts packing. */
  lemma Unpack116WithPack(vs: seq<nat>, w: nat)
    requires |vs| > 0 && 4 <= w <= 16 && AllBelow(vs, Pow2(w))
    ensures Unpack116With(Pack116(vs, w), |vs|, w) == Ok(vs)
  {
    var spl := 64 / w;
    SplRange(w);
    assert Pack116(vs, w) == PackU64(vs, w, spl);
    UnpackWithPackU64(vs, w, spl);
  }

  lemma UnpackWithPackU64(vs: seq<nat>, w: nat, spl: nat)
    requires |vs| > 0 && 4 <= w <= 16 && AllBelow(vs, Pow2(w))
    requires spl == 64 / w && spl > 0 && w * spl <= 64
    ensures Unpack116With(PackU64(vs, w, spl), |vs|, w) == Ok(vs)
  {
    var n := |vs|;
    var longs := PackU64(vs, w, spl);
    assert !ShapeMismatch(|longs|, n, spl);
    var r := Unpack116With(longs, n, w);
    assert r.Ok? && |r.value| == n;
    forall k | 0 <= k < n
      ensures r.value[k] == vs[k]
    {
      UnpackPackAt(vs, w, spl, k);
      assert r.value[k] == Elem116(longs, w, spl, k);
    }
    assert r.value == vs;
  }

  /** Entry k of the unpacked packing is vs[k]. */
  lemma UnpackPackAt(vs: seq<nat>, w: nat, spl: nat, k: nat)
    requires w <= 16 && spl > 0 && w * spl <= 64 && AllBelow(vs, Pow2(w)) && k < |vs|
    ensures k / spl < |PackU64(vs, w, spl)|
    ensures Elem116(PackU64(vs, w, spl), w, spl, k) == vs[k]
  {
    var longs := PackU64(vs, w, spl);
    var q, i := k / spl, k % spl;
    assert q * spl + i == k && i < spl by {
      ChunkIndex(|vs|, spl, k);
    }
    assert q < |longs| && Field(LongAt(longs, q), w * i, w) == vs[k] by {
      PackElem(vs, w, spl, q, i);
    }
    assert vs[k] < 0x1_0000 by {
      Pow2Monotone(w, 16);
      Pow2Sixteen();
    }
    ElemOfField(longs, w, spl, k, vs[k]);
  }

  /** An entry whose field holds a value below 2^16 is that value. */
  lemma ElemOfField(longs: seq<U64>, bpv: nat, spl: nat, k: nat, v: nat)
    requires spl > 0 && k / spl < |longs| && v < 0x1_0000
    requires Field(LongAt(longs, k / spl), bpv * (k % spl), bpv) == v
    ensures Elem116(longs, bpv, spl, k) == v
  {
    DivModUnique(v, 0x1_0000, 0, v);
  }

  /** Field i of long q of the packing is value q * spl + i. */
  lemma PackElem(vs: seq<nat>, w: nat, spl: nat, q: nat, i: nat)
    requires spl > 0 && w * spl <= 64 && AllBelow(vs, Pow2(w)) && i < spl && q * spl + i < |vs|
    ensures q < |PackU64(vs, w, spl)|
    ensures Field(LongAt(PackU64(vs, w, spl), q), w * i, w) == vs[q * spl + i]
  {
    var longs := PackU64(vs, w, spl);
    assert q < |longs| by {
      ChunkIndex(|vs|, spl, q * spl + i);
      DivModUnique(q * spl + i, spl, q, i);
    }
    assert LongAt(longs, q) == PackAt(vs, w, spl, q) by {
      assert longs[q] == PackAtU64(vs, w, spl, q);
    }
    PackAtField(vs, w, spl, q, i);
  }

  lemma PackAtField(vs: seq<nat>, w: nat, spl: nat, q: nat, i: nat)
    requires AllBelow(vs, Pow2(w)) && i < spl && q * spl + i < |vs|
    ensures Field(PackAt(vs, w, spl, q), w * i, w) == vs[q * spl + i]
  {
    PackSpanField(vs, q * spl, Min(q * spl + spl, |vs|), w, i);
  }


  /** Entry k sits at position k mod spl of chunk k div spl. */
  lemma ChunkIndex(n: nat, spl: nat, k: nat)
    requires spl > 0 && k < n
    ensures k / spl < (n + spl - 1) / spl
    ensures k / spl * spl + k % spl == k
    ensures k / spl * spl <= k < k / spl * spl + spl
    ensures k % spl < Min(k / spl * spl + spl, n) - k / spl * spl
  {
    SlotBound(n, spl, k, (n + spl - 1) / spl);
    DivBounds(k, spl);
  }

  /** The number of longs the unpacker expects for n values of width w. */
  function LongsFor(n: nat, w: nat): nat
    requires 4 <= w <= 64
  {
    (n + 64 / w - 1) / (64 / w)
  }

  /** The unpacker as written inverts packing whenever the width it derives
      from the array length is the packing width. */
  lemma Unpack116Pack(vs: seq<nat>, w: nat)
    requires |vs| > 0 && 4 <= w <= 16 && AllBelow(vs, Pow2(w))
    requires Bpv116(LongsFor(|vs|, w), |vs|) == w
    ensures Unpack116(Pack116(vs, w), |vs|) == Ok(vs)
  {
    Unpack116WithPack(vs, w);
  }

  /** For a 4096-block section the derived width is right for the widths 4
      to 10 and 12, but not for 11 (nor 13 to 15). */
  lemma SectionWidths()
    ensures forall w :: 4 <= w <= 10 || w == 12 ==> Bpv116(LongsFor(4096, w), 4096) == w
    ensures Bpv116(LongsFor(4096, 11), 4096) == 12
  {
    assert LongsFor(4096, 4) == 256 && LongsFor(4096, 5) == 342 && LongsFor(4096, 6) == 410;
    assert LongsFor(4096, 7) == 456 && LongsFor(4096, 8) == 512 && LongsFor(4096, 9) == 586;
    assert LongsFor(4096, 10) == 683 && LongsFor(4096, 11) == 820 && LongsFor(4096, 12) == 820;
  }

  /** A section with a palette of 1025 to 2048 entries is packed 11 bits per
      value; read back at the derived width 12 it decodes wrongly: the value
      of block 1 shows up in block 0. */
  lemma Unpack116ElevenBitSection()
    ensures var vs := seq(4096, k => if k == 1 then 1 else 0);
      AllBelow(vs, Pow2(11)) &&
      Unpack116(Pack116(vs, 11), 4096).Ok? &&
      Unpack116(Pack116(vs, 11), 4096).value[0] == 2048 != vs[0]
  {
    var vs := seq(4096, k => if k == 1 then 1 else 0);
    assert AllBelow(vs, Pow2(11)) by {
      assert Pow2(11) == 2048;
    }
    var longs := Pack116(vs, 11);
    assert |longs| == 820 by {
      assert LongsFor(4096, 11) == 820;
    }
    assert longs[0] == 2048 by {
      assert longs[0] == PackAtU64(vs, 11, 5, 0) == PackSpan(vs, 0, 5, 11);
      PackSpanZeros(vs, 2, 5, 11);
      assert PackSpan(vs, 1, 5, 11) == 1 + Pow2(11) * PackSpan(vs, 2, 5, 11);
      assert Pow2(11) == 2048;
    }
    assert Bpv116(820, 4096) == 12 && 64 / 12 == 5;
    assert !ShapeMismatch(820, 4096, 5);
    var r := Unpack116(longs, 4096);
    assert r == Unpack116With(longs, 4096, 12);
    assert r.Ok? && r.value[0] == Elem116(longs, 12, 5, 0);
    assert Field(2048, 0, 12) == 2048 by {
      assert Pow2(12) == 4096;
      LowSmall(2048, 12);
    }
  }

  lemma {:induction false} PackSpanZeros(vs: seq<nat>, lo: nat, hi: nat, w: nat)
    requires lo <= hi <= |vs| && forall k :: lo <= k < hi ==> vs[k] == 0
    ensures PackSpan(vs, lo, hi, w) == 0
    decreases hi - lo
  {
    if lo < hi {
      PackSpanZeros(vs, lo + 1, hi, w);
    }
  }


  // The corrected width: from the palette size, as the writer chooses it.

  /** Number of bits needed to write x. */
  function BitLength(x: nat): (r: nat)
    ensures x < Pow2(r)
    ensures r > 0 ==> Pow2(r - 1) <= x
  {
    if x == 0 then 0 else 1 + BitLength(x / 2)
  }

  /** `max(4, ceil(log2(num_palette)))` */
  function PaletteBits(numPalette: nat): nat
  {
    Max(4, BitLength(if numPalette > 0 then numPalette - 1 else 0))
  }

  /** The 1.16 unpacker with the width taken from the palette size. */
  function Unpack116Palette(longs: seq<U64>, n: nat, numPalette: nat): (r: Result<seq<nat>>)
    ensures r.Ok? ==> |r.value| == n
  {
    if n == 0 then Err(ZeroDivision) else Unpack116With(longs, n, PaletteBits(numPalette))
  }

  /** Palette indices packed at the palette's width decode to themselves. */
  lemma Unpack116PalettePack(vs: seq<nat>, numPalette: nat)
    requires |vs| > 0 && numPalette <= 0x1_0000 && AllBelow(vs, numPalette)
    ensures PaletteBits(numPalette) <= 16
    ensures AllBelow(vs, Pow2(PaletteBits(numPalette)))
    ensures Unpack116Palette(Pack116(vs, PaletteBits(numPalette)), |vs|, numPalette) == Ok(vs)
  {
    var w := PaletteBits(numPalette);
    var b := BitLength(if numPalette > 0 then numPalette - 1 else 0);
    if b > 16 {
      Pow2Monotone(16, b - 1);
      Pow2Sixteen();
    }
    Pow2Monotone(b, w);
    Unpack116WithPack(vs, w);
  }

  // ---------------------------------------------------------------------
  // Nibble arrays

  /** Byte i gives its low nibble at 2i and its high nibble at 2i + 1. */
  function Expand(bytes: seq<Byte>): (r: seq<nat>)
    ensures |r| == 2 * |bytes|
  {
    seq(2 * |bytes|, k requires 0 <= k < 2 * |bytes| =>
      if k % 2 == 0 then And(bytes[k / 2], 0x0F) else Shr(And(bytes[k / 2], 0xF0), 4))
  }

  /** The two nibbles of a byte. */
  lemma NibblesOfByte(x: Byte)
    ensures And(x, 0x0F) == x % 16
    ensures Shr(And(x, 0xF0), 4) == x / 16
  {
    AndLowNibble(x);
    AndHighNibble(x);
    ShrFour(x / 16);
  }

  /** Expansion yields nibbles, and each pair recombines into its byte. */
  lemma ExpandNibbles(bytes: seq<Byte>)
    ensures forall k :: 0 <= k < |Expand(bytes)| ==> Expand(bytes)[k] < 16
    ensures forall i :: 0 <= i < |bytes| ==> Expand(bytes)[2 * i] + 16 * Expand(bytes)[2 * i + 1] == bytes[i]
  {
    forall k | 0 <= k < |Expand(bytes)|
      ensures Expand(bytes)[k] < 16
    {
      ExpandAt(bytes, k);
    }
    forall i | 0 <= i < |bytes|
      ensures Expand(bytes)[2 * i] + 16 * Expand(bytes)[2 * i + 1] == bytes[i]
    {
      ExpandAt(bytes, 2 * i);
      ExpandAt(bytes, 2 * i + 1);
    }
  }

  /** Entry k of the expansion, in arithmetic terms. */
  lemma ExpandAt(bytes: seq<Byte>, k: nat)
    requires k < 2 * |bytes|
    ensures Expand(bytes)[k] == if k % 2 == 0 then bytes[k / 2] % 16 else bytes[k / 2] / 16
    ensures Expand(bytes)[k] < 16
  {
    NibblesOfByte(bytes[k / 2]);
  }

  /** Two nibbles per byte, low nibble first: the layout `Expand` reads. */
  function Compress(nibbles: seq<nat>): (r: seq<Byte>)
    requires |nibbles| % 2 == 0 && AllBelow(nibbles, 16)
    ensures |r| == |nibbles| / 2
  {
    seq(|nibbles| / 2, i requires 0 <= i < |nibbles| / 2 => nibbles[2 * i] + 16 * nibbles[2 * i + 1])
  }

  lemma ExpandCompress(nibbles: seq<nat>)
    requires |nibbles| % 2 == 0 && AllBelow(nibbles, 16)
    ensures Expand(Compress(nibbles)) == nibbles
  {
    var bytes := Compress(nibbles);
    forall k | 0 <= k < |nibbles|
      ensures Expand(bytes)[k] == nibbles[k]
    {
      var i := k / 2;
      NibblesOfByte(bytes[i]);
      DivModUnique(bytes[i], 16, nibbles[2 * i + 1], nibbles[2 * i]);
    }
  }

  /** A 16x16x8 nibble array expanded to 4096 entries; numpy's reshape
      rejects any other length. */
  function ExpandSection(bytes: seq<Byte>): (r: Result<seq<nat>>)
    ensures r.Ok? <==> |bytes| == 2048
    ensures r.Ok? ==> |r.value| == 4096 && r.value == Expand(bytes)
  {
    if |bytes| != 2048 then Err(ValueError) else Ok(Expand(bytes))
  }

  /** Sky light of one section in `get_chunk`: full bright for a "spawn"
      chunk with a `Lights` entry, else the expanded array or zeros. */
  function SkyLight(status: string, hasLights: bool, skylight: Option<seq<Byte>>): (r: Result<seq<nat>>)
    ensures status == "spawn" && hasLights ==> r == Ok(seq(4096, k => 255))
    ensures !(status == "spawn" && hasLights) && skylight.None? ==> r == Ok(seq(4096, k => 0))
    ensures !(status == "spawn" && hasLights) && skylight.Some? ==> r == ExpandSection(skylight.value)
  {
    if status == "spawn" && hasLights then Ok(seq(4096, k => 255))
    else
      var r := ExpandSection(if skylight.Some? then skylight.value else seq(2048, k => 0));
      assert skylight.None? ==> r.value == seq(4096, k => 0) by {
        if skylight.None? {
          forall k | 0 <= k < 4096
            ensures r.value[k] == 0
          {
            NibblesOfByte(0);
          }
        }
      }
      r
  }

  /** Block light of one section: the expanded array, or zeros when absent. */
  function BlockLight(blocklight: Option<seq<Byte>>): (r: Result<seq<nat>>)
    ensures blocklight.None? ==> r == Ok(seq(4096, k => 0))
    ensures blocklight.Some? ==> r == ExpandSection(blocklight.value)
  {
    SkyLight("", false, blocklight)
  }

  // ---------------------------------------------------------------------
  // Pre-1.13 sections: `_get_blockdata_v112`

  /** The `Add` nibbles shifted into bits 8..11 of the block id. */
  function AddExpanded(add: seq<Byte>): (r: seq<nat>)
    ensures |r| == 2 * |add|
  {
    seq(2 * |add|, k requires 0 <= k < 2 * |add| =>
      if k % 2 == 0 then Shl(And(add[k / 2], 0x0F), 8) else Shl(And(add[k / 2], 0xF0), 4))
  }

  /** `blocks += additional_expanded` */
  function MergeAdd(blocks: seq<Byte>, add: Option<seq<Byte>>): (r: Result<seq<nat>>)
    ensures r.Ok? ==> |r.value| == |blocks|
  {
    if add.None? then
      if |blocks| != 4096 then Err(ValueError) else Ok(seq(|blocks|, k requires 0 <= k < |blocks| => blocks[k] as nat))
    else if |blocks| != 4096 || |add.value| != 2048 then Err(ValueError)
    else
      var ex := AddExpanded(add.value);
      Ok(seq(4096, k requires 0 <= k < 4096 => blocks[k] + ex[k]))
  }

  /** A merged id is the block byte plus 256 times its `Add` nibble, so it
      stays below 4096. */
  lemma MergeAddIds(blocks: seq<Byte>, add: seq<Byte>)
    requires |blocks| == 4096 && |add| == 2048
    ensures MergeAdd(blocks, Some(add)).Ok?
    ensures forall k :: 0 <= k < 4096 ==>
      MergeAdd(blocks, Some(add)).value[k] == blocks[k] + 256 * Expand(add)[k] < 4096
  {
    forall k | 0 <= k < 4096
      ensures MergeAdd(blocks, Some(add)).value[k] == blocks[k] + 256 * Expand(add)[k] < 4096
    {
      MergeAddAt(blocks, add, k);
    }
  }

  lemma MergeAddAt(blocks: seq<Byte>, add: seq<Byte>, k: nat)
    requires |blocks| == 4096 && |add| == 2048 && k < 4096
    ensures MergeAdd(blocks, Some(add)).Ok?
    ensures MergeAdd(blocks, Some(add)).value[k] == blocks[k] + 256 * Expand(add)[k] < 4096
  {
    var x := add[k / 2];
    AddNibbles(x);
    NibblesOfByte(x);
    assert AddExpanded(add)[k] == 256 * Expand(add)[k];
  }

  /** The two shifted `Add` nibbles of a byte. */
  lemma AddNibbles(x: Byte)
    ensures Shl(And(x, 0x0F), 8) == 256 * (x % 16)
    ensures Shl(And(x, 0xF0), 4) == 256 * (x / 16)
    ensures x % 16 < 16 && x / 16 < 16
  {
    AndLowNibble(x);
    AndHighNibble(x);
    assert Pow2(8) == 256 && Pow2(4) == 16;
  }

  /** `_get_blockdata_v112`: block ids (with `Add` merged) and the expanded data nibbles. */
  function BlockDataV112(blocks: seq<Byte>, data: seq<Byte>, add: Option<seq<Byte>>): (r: Result<(seq<nat>, seq<nat>)>)
    ensures r.Ok? <==> |data| == 2048 && |blocks| == 4096 && (add.Some? ==> |add.value| == 2048)
    ensures r.Ok? ==> r.value.1 == Expand(data) && |r.value.0| == 4096
    ensures r.Ok? ==> forall k :: 0 <= k < 4096 ==> r.value.0[k] < 4096 && r.value.1[k] < 16
  {
    var d := ExpandSection(data);
    if d.Err? then Err(d.error)
    else
      var b := MergeAdd(blocks, add);
      if b.Err? then Err(b.error)
      else
        V112Bounds(blocks, data, add);
        Ok((b.value, d.value))
  }

  lemma V112Bounds(blocks: seq<Byte>, data: seq<Byte>, add: Option<seq<Byte>>)
    requires |data| == 2048 && |blocks| == 4096 && (add.Some? ==> |add.value| == 2048)
    ensures MergeAdd(blocks, add).Ok?
    ensures forall k :: 0 <= k < 4096 ==> MergeAdd(blocks, add).value[k] < 4096 && Expand(data)[k] < 16
  {
    ExpandNibbles(data);
    if add.Some? {
      MergeAddIds(blocks, add.value);
    }
  }
}
