/** The pre-1.16 unpacker `_packed_longarray_to_shorts` (world.py) as an
    operation: the width checks, the byte and nibble widths, the table
    widths and the zero array left for a width that is not a whole number.
    `bits_per_value` is Python's true division `64 * len / n`; the model
    compares the exact rational instead of its float. */
module LegacyDecode {
  import opened Wrappers
  import opened Bits
  import opened ChunkDecode
  import opened LegacyUnpack

  /** Entry j of a decoded array: formula j % V on the group of B bytes
      numbered j / V. */
  function Decode(b: seq<Byte>, layout: Layout, n: nat): (r: seq<nat>)
    requires |layout.formulas| > 0
    ensures |r| == n
  {
    seq(n, j requires 0 <= j < n => GroupValue(b, layout, j))
  }

  function GroupValue(b: seq<Byte>, layout: Layout, j: nat): nat
    requires |layout.formulas| > 0
  {
    var v := |layout.formulas|;
    Eval(layout.formulas[j % v], b, (j / v) * layout.bytes)
  }

  /** A table layout: one formula per value of a group. */
  predicate WellFormed(eleven: Layout)
  {
    |eleven.formulas| == 8 && eleven.bytes == 11
  }

  /** `_packed_longarray_to_shorts(long_array, n, _)`, with `eleven` the
      table it uses for 11-bit values. */
  function PackedToShortsWith(longs: seq<U64>, n: nat, eleven: Layout): (r: Result<seq<nat>>)
    requires WellFormed(eleven)
    ensures r == Err(ZeroDivision) <==> n == 0
    ensures r == Err(CorruptChunk) <==> n > 0 && (64 * |longs| < 4 * n || 12 * n < 64 * |longs|)
    ensures r.Ok? ==> |r.value| == n
  {
    if n == 0 then Err(ZeroDivision)
    else
      var bits := 64 * |longs|;
      if bits < 4 * n || 12 * n < bits then Err(CorruptChunk)
      else if bits == 8 * n then Ok(BytesOf(longs))
      else if bits == 4 * n then Ok(Expand(BytesOf(longs)))
      else if bits % n == 0 && LayoutFor(bits / n, eleven).Some? then
        Ok(Decode(BytesOf(longs), LayoutFor(bits / n, eleven).value, n))
      else Ok(seq(n, j => 0))
  }

  /** The unpacker with the 11-bit table as world.py:1568-1576 writes it. */
  function PackedToShortsAsWritten(longs: seq<U64>, n: nat): Result<seq<nat>>
  {
    PackedToShortsWith(longs, n, ElevenAsWritten)
  }

  /** The unpacker with value 6 of the 11-bit table reading its bits in
      stream order: the corrected unpacker. */
  function PackedToShorts(longs: seq<U64>, n: nat): Result<seq<nat>>
  {
    PackedToShortsWith(longs, n, Eleven)
  }

  // ---------------------------------------------------------------------
  // The operation

  /** `_packed_longarray_to_shorts`: a zeroed array of n shorts, filled by
      the slice assignments of the width found. */
  method PackedLongarrayToShorts(longs: seq<U64>, n: nat, eleven: Layout) returns (r: Result<seq<nat>>)
    requires WellFormed(eleven)
    ensures r == PackedToShortsWith(longs, n, eleven)
  {
    if n == 0 {
      return Err(ZeroDivision);
    }
    var bits := 64 * |longs|;
    if bits < 4 * n || 12 * n < bits {
      return Err(CorruptChunk);
    }
    var b := BytesOf(longs);
    if bits == 8 * n {
      return Ok(b);
    }
    var values := Unpack(longs, n, eleven);
    r := Ok(values);
  }

  /** The widths other than 8: `result = zeros(n)` filled by the nibble
      expansion or by one of the tables. */
  method Unpack(longs: seq<U64>, n: nat, eleven: Layout) returns (values: seq<nat>)
    requires WellFormed(eleven) && n > 0
    requires 4 * n <= 64 * |longs| <= 12 * n && 64 * |longs| != 8 * n
    ensures PackedToShortsWith(longs, n, eleven) == Ok(values)
  {
    var bits := 64 * |longs|;
    var b := BytesOf(longs);
    var result := new nat[n](j => 0);
    if bits == 4 * n {
      FillNibbles(result, b);
    } else if bits % n == 0 && LayoutFor(bits / n, eleven).Some? {
      var k := bits / n;
      var layout := LayoutFor(k, eleven).value;
      DivModUnique(bits, n, k, 0);
      GroupsDivide(|longs|, n, k, eleven);
      FillGroups(result, b, layout);
    } else {
      assert result[..] == seq(n, j => 0);
    }
    values := result[..];
  }

  /** `result[0::2] = b & 0x0f` then `result[1::2] = (b & 0xf0) >> 4`. */
  method FillNibbles(result: array<nat>, b: seq<Byte>)
    requires result.Length == 2 * |b|
    requires forall j :: 0 <= j < result.Length ==> result[j] == 0
    modifies result
    ensures result[..] == Expand(b)
  {
    var n := result.Length;
    for i := 0 to |b|
      invariant forall j :: 0 <= j < n ==> result[j] == if j % 2 == 0 && j / 2 < i then Expand(b)[j] else 0
    {
      result[2 * i] := And(b[i], 0x0F);
    }
    for i := 0 to |b|
      invariant forall j :: 0 <= j < n ==> result[j] == if j % 2 == 0 || j / 2 < i then Expand(b)[j] else 0
    {
      result[2 * i + 1] := Shr(And(b[i], 0xF0), 4);
    }
  }

  /** `result[i::V] = formula_i(b[0::B], b[1::B], ...)` for i = 0 .. V - 1. */
  method FillGroups(result: array<nat>, b: seq<Byte>, layout: Layout)
    requires |layout.formulas| > 0 && result.Length % |layout.formulas| == 0
    requires forall j :: 0 <= j < result.Length ==> result[j] == 0
    modifies result
    ensures result[..] == Decode(b, layout, result.Length)
  {
    var n, v := result.Length, |layout.formulas|;
    assert result[..] == Filling(b, layout, n, 0, 0);
    for i := 0 to v
      invariant result[..] == Filling(b, layout, n, i, 0)
    {
      FillSlice(result, b, layout, i);
    }
    FillingComplete(b, layout, n);
  }

  /** One slice assignment `result[i::V] = formula_i(...)`, group by group. */
  method FillSlice(result: array<nat>, b: seq<Byte>, layout: Layout, i: nat)
    requires 0 <= i < |layout.formulas| && result.Length % |layout.formulas| == 0
    requires result[..] == Filling(b, layout, result.Length, i, 0)
    modifies result
    ensures result[..] == Filling(b, layout, result.Length, i + 1, 0)
  {
    var n, v := result.Length, |layout.formulas|;
    var groups := n / v;
    for g := 0 to groups
      invariant result[..] == Filling(b, layout, n, i, g)
    {
      var x := SlotOf(n, v, i, g);
      var value := Eval(layout.formulas[i], b, g * layout.bytes);
      ghost var before := result[..];
      result[x] := value;
      assert result[..] == before[x := value];
      FillingStep(b, layout, n, i, g);
    }
    FillingSlice(b, layout, n, i);
  }

  /** The array after slices 0 .. i - 1 and the first g groups of slice i. */
  function Filling(b: seq<Byte>, layout: Layout, n: nat, i: nat, g: nat): (r: seq<nat>)
    requires |layout.formulas| > 0
    ensures |r| == n
  {
    seq(n, j requires 0 <= j < n => GroupsFilled(b, layout, i, g, j))
  }

  function GroupsFilled(b: seq<Byte>, layout: Layout, i: nat, g: nat, j: nat): nat
    requires |layout.formulas| > 0
  {
    var v := |layout.formulas|;
    if j % v < i || (j % v == i && j / v < g) then GroupValue(b, layout, j) else 0
  }

  /** The position of group g in slice i. */
  function SlotOf(n: nat, v: nat, i: nat, g: nat): (x: nat)
    requires 0 <= i < v && n % v == 0 && g < n / v
    ensures x == i + g * v && x < n
  {
    MulMono(g + 1, n / v, v);
    i + g * v
  }

  /** Writing group g of slice i. */
  lemma FillingStep(b: seq<Byte>, layout: Layout, n: nat, i: nat, g: nat)
    requires 0 <= i < |layout.formulas| && i + g * |layout.formulas| < n
    ensures Filling(b, layout, n, i, g + 1) ==
      Filling(b, layout, n, i, g)[i + g * |layout.formulas| := Eval(layout.formulas[i], b, g * layout.bytes)]
  {
    var v := |layout.formulas|;
    DivModUnique(i + g * v, v, g, i);
    forall j | 0 <= j < n
      ensures GroupsFilled(b, layout, i, g + 1, j) ==
        if j == i + g * v then Eval(layout.formulas[i], b, g * layout.bytes) else GroupsFilled(b, layout, i, g, j)
    {
      if j % v == i && j / v == g {
        DivModUnique(j, v, g, i);
      }
    }
  }

  /** Every entry of slice i lies in one of its n / V groups. */
  lemma FillingSlice(b: seq<Byte>, layout: Layout, n: nat, i: nat)
    requires 0 <= i < |layout.formulas| && n % |layout.formulas| == 0
    ensures Filling(b, layout, n, i, n / |layout.formulas|) == Filling(b, layout, n, i + 1, 0)
  {
    var before := Filling(b, layout, n, i, n / |layout.formulas|);
    var after := Filling(b, layout, n, i + 1, 0);
    forall j | 0 <= j < n
      ensures before[j] == after[j]
    {
      SliceDone(b, layout, n, i, j);
    }
  }

  lemma SliceDone(b: seq<Byte>, layout: Layout, n: nat, i: nat, j: nat)
    requires 0 <= i < |layout.formulas| && n % |layout.formulas| == 0 && j < n
    ensures GroupsFilled(b, layout, i, n / |layout.formulas|, j) == GroupsFilled(b, layout, i + 1, 0, j)
  {
    BelowGroups(n, |layout.formulas|, j);
  }

  lemma BelowGroups(n: nat, v: nat, j: nat)
    requires v > 0 && n % v == 0 && j < n
    ensures j / v < n / v
  {
    DivBounds(j, v);
    assert n == n / v * v;
    LtFromMul(j / v, n / v, v);
  }

  lemma FillingComplete(b: seq<Byte>, layout: Layout, n: nat)
    requires |layout.formulas| > 0
    ensures Filling(b, layout, n, |layout.formulas|, 0) == Decode(b, layout, n)
  {
  }

  // ---------------------------------------------------------------------
  // Properties

  /** With an exact width k of 4 .. 12 bits the longs hold whole groups:
      V divides n, where V is the number of formulas of the width's table. */
  lemma GroupsDivide(longs: nat, n: nat, k: nat, eleven: Layout)
    requires WellFormed(eleven) && 64 * longs == k * n && LayoutFor(k, eleven).Some?
    ensures n % |LayoutFor(k, eleven).value.formulas| == 0
    ensures k * |LayoutFor(k, eleven).value.formulas| == 8 * LayoutFor(k, eleven).value.bytes
  {
    if k == 5 {
      WholeGroups5(longs, n);
    } else if k == 6 {
      WholeGroups6(longs, n);
    } else if k == 7 {
      WholeGroups7(longs, n);
    } else if k == 9 {
      WholeGroups9(longs, n);
    } else if k == 10 {
      WholeGroups10(longs, n);
    } else if k == 11 {
      WholeGroups11(longs, n);
    } else {
      WholeGroups12(longs, n);
    }
  }

  // `64 * longs == k * n` forces a multiple of V in n: n is 64 * longs
  // times the inverse of k's odd part modulo a power of two.

  lemma WholeGroups5(longs: nat, n: nat)
    requires 64 * longs == 5 * n
    ensures n % 8 == 0
  {
    var t := 13 * longs - n;
    assert n == 64 * t;
    DivModUnique(n, 8, 8 * t, 0);
  }

  lemma WholeGroups6(longs: nat, n: nat)
    requires 64 * longs == 6 * n
    ensures n % 4 == 0
  {
    var t := 11 * longs - n;
    assert n == 32 * t;
    DivModUnique(n, 4, 8 * t, 0);
  }

  lemma WholeGroups7(longs: nat, n: nat)
    requires 64 * longs == 7 * n
    ensures n % 8 == 0
  {
    var t := 55 * longs - 6 * n;
    assert n == 64 * t;
    DivModUnique(n, 8, 8 * t, 0);
  }

  lemma WholeGroups9(longs: nat, n: nat)
    requires 64 * longs == 9 * n
    ensures n % 8 == 0
  {
    var t := 57 * longs - 8 * n;
    assert n == 64 * t;
    DivModUnique(n, 8, 8 * t, 0);
  }

  lemma WholeGroups10(longs: nat, n: nat)
    requires 64 * longs == 10 * n
    ensures n % 4 == 0
  {
    var t := 13 * longs - 2 * n;
    assert n == 32 * t;
    DivModUnique(n, 4, 8 * t, 0);
  }

  lemma WholeGroups11(longs: nat, n: nat)
    requires 64 * longs == 11 * n
    ensures n % 8 == 0
  {
    var t := 35 * longs - 6 * n;
    assert n == 64 * t;
    DivModUnique(n, 8, 8 * t, 0);
  }

  lemma WholeGroups12(longs: nat, n: nat)
    requires 64 * longs == 12 * n
    ensures n % 2 == 0
  {
    var t := 11 * longs - 2 * n;
    assert n == 16 * t;
    DivModUnique(n, 2, 8 * t, 0);
  }

  // ---------------------------------------------------------------------
  // Every whole width reads the little-endian bit stream

  /** For a whole width k of 4 .. 12 bits, entry j of the unpacked array is
      stream bits k j .. k j + k - 1 of the longs' bytes, so it is below 2^k. */
  lemma PackedToShortsReadsStream(longs: seq<U64>, n: nat, k: nat)
    requires n > 0 && 4 <= k <= 12 && 64 * |longs| == k * n
    ensures PackedToShorts(longs, n).Ok?
    ensures forall j :: 0 <= j < n ==> PackedToShorts(longs, n).value[j] == StreamBits(BytesOf(longs), k * j, k)
    ensures forall j :: 0 <= j < n ==> PackedToShorts(longs, n).value[j] < Pow2(k)
  {
    forall j | 0 <= j < n
      ensures PackedToShorts(longs, n).Ok? && PackedToShorts(longs, n).value[j] == StreamBits(BytesOf(longs), k * j, k)
    {
      if k == 8 {
        StreamAtByte(longs, n, j);
      } else if k == 4 {
        StreamAtNibble(longs, n, j);
      } else {
        StreamAtTable(longs, n, k, j);
      }
    }
    forall j | 0 <= j < n
      ensures PackedToShorts(longs, n).value[j] < Pow2(k)
    {
      StreamBound(BytesOf(longs), k * j, k);
    }
  }

  lemma StreamAtByte(longs: seq<U64>, n: nat, j: nat)
    requires n > 0 && 64 * |longs| == 8 * n && j < n
    ensures PackedToShorts(longs, n).Ok? && PackedToShorts(longs, n).value[j] == StreamBits(BytesOf(longs), 8 * j, 8)
  {
    ByteIsStream(BytesOf(longs), j);
  }

  lemma StreamAtNibble(longs: seq<U64>, n: nat, j: nat)
    requires n > 0 && 64 * |longs| == 4 * n && j < n
    ensures PackedToShorts(longs, n).Ok? && PackedToShorts(longs, n).value[j] == StreamBits(BytesOf(longs), 4 * j, 4)
  {
    NibbleIsStream(BytesOf(longs), j);
  }

  lemma StreamAtTable(longs: seq<U64>, n: nat, k: nat, j: nat)
    requires n > 0 && 4 < k <= 12 && k != 8 && 64 * |longs| == k * n && j < n
    ensures PackedToShorts(longs, n).Ok? && PackedToShorts(longs, n).value[j] == StreamBits(BytesOf(longs), k * j, k)
  {
    TableResult(longs, n, k);
    GroupsDivide(|longs|, n, k, Eleven);
    TableValue(BytesOf(longs), n, k, j);
  }

  /** At an exact table width the result is the table decoding. */
  lemma TableResult(longs: seq<U64>, n: nat, k: nat)
    requires n > 0 && 4 < k <= 12 && k != 8 && 64 * |longs| == k * n
    ensures LayoutFor(k, Eleven).Some?
    ensures PackedToShorts(longs, n) == Ok(Decode(BytesOf(longs), LayoutFor(k, Eleven).value, n))
  {
    TableWidth(64 * |longs|, n, k);
  }

  lemma TableWidth(bits: nat, n: nat, k: nat)
    requires n > 0 && 4 < k <= 12 && k != 8 && bits == k * n
    ensures 4 * n < bits <= 12 * n && bits != 8 * n && bits % n == 0 && bits / n == k
  {
    DivModUnique(bits, n, k, 0);
    MulGap(n, k, 4);
    MulMono(k, 12, n);
    if k < 8 {
      MulGap(n, 8, k);
    } else {
      MulGap(n, k, 8);
    }
  }

  lemma TableValue(b: seq<Byte>, n: nat, k: nat, j: nat)
    requires LayoutFor(k, Eleven).Some? && j < n
    requires k * |LayoutFor(k, Eleven).value.formulas| == 8 * LayoutFor(k, Eleven).value.bytes
    ensures Decode(b, LayoutFor(k, Eleven).value, n)[j] == StreamBits(b, k * j, k)
  {
    var layout := LayoutFor(k, Eleven).value;
    var v := |layout.formulas|;
    LayoutReads(b, (j / v) * layout.bytes, j % v, k);
    GroupPosition(j, v, layout.bytes, k);
  }

  /** A byte is the 8 stream bits starting at its first bit. */
  lemma ByteIsStream(b: seq<Byte>, j: nat)
    requires j < |b|
    ensures b[j] == StreamBits(b, 8 * j, 8)
  {
    ByteField(b, j, 0, 8, 8 * j);
    assert Shr(b[j], 0) == b[j];
    assert Pow2(8) == 256;
    LowSmall(b[j], 8);
  }

  /** Entry j of the nibble expansion is the 4 stream bits at 4 j. */
  lemma NibbleIsStream(b: seq<Byte>, j: nat)
    requires j < 2 * |b|
    ensures Expand(b)[j] == StreamBits(b, 4 * j, 4)
  {
    var x := b[j / 2];
    ExpandAt(b, j);
    ByteField(b, j / 2, 4 * (j % 2), 4, 4 * j);
    if j % 2 == 0 {
      LowNibbleField(x);
    } else {
      HighNibbleField(x);
    }
  }

  lemma LowNibbleField(x: Byte)
    ensures Low(Shr(x, 0), 4) == x % 16
  {
    LowFour(x);
  }

  lemma HighNibbleField(x: Byte)
    ensures Low(Shr(x, 4), 4) == x / 16
  {
    Pow2Four();
    ShrPacked(x % 16, x / 16, 4);
    LowFour(x / 16);
  }

  /** A width that is not a whole number of bits leaves the zeroed array. */
  lemma PackedToShortsFractional(longs: seq<U64>, n: nat, eleven: Layout)
    requires WellFormed(eleven) && n > 0 && 4 * n <= 64 * |longs| <= 12 * n && (64 * |longs|) % n != 0
    ensures PackedToShortsWith(longs, n, eleven) == Ok(seq(n, j => 0))
  {
    MultipleMod(n, 8);
    MultipleMod(n, 4);
  }

  lemma MultipleMod(n: nat, c: nat)
    requires n > 0
    ensures (c * n) % n == 0
  {
    DivModUnique(c * n, n, c, 0);
  }

  /** Formula i of the table for width k reads stream bits k i .. k i + k - 1
      of its group. */
  lemma LayoutReads(b: seq<Byte>, base: nat, i: nat, k: nat)
    requires LayoutFor(k, Eleven).Some? && i < |LayoutFor(k, Eleven).value.formulas|
    ensures Eval(LayoutFor(k, Eleven).value.formulas[i], b, base) == StreamBits(b, 8 * base + k * i, k)
  {
    if k == 5 {
      FiveReads(b, base, i, k);
    } else if k == 6 {
      SixReads(b, base, i, k);
    } else if k == 7 {
      SevenReads(b, base, i, k);
    } else if k == 9 {
      NineReads(b, base, i, k);
    } else if k == 10 {
      TenReads(b, base, i, k);
    } else if k == 11 {
      ElevenReads(b, base, i, k);
    } else {
      TwelveReads(b, base, i, k);
    }
  }

  /** Value j sits in group j / V at position j % V: its first stream bit
      is 8 B (j / V) + k (j % V) = k j when V values of k bits fill B bytes. */
  lemma GroupPosition(j: nat, v: nat, bytes: nat, k: nat)
    requires v > 0 && k * v == 8 * bytes
    ensures 8 * ((j / v) * bytes) + k * (j % v) == k * j
  {
    var q, r := j / v, j % v;
    assert j == v * q + r;
    assert k * j == k * (v * q) + k * r;
    MulAssoc(k, v, q);
    MulAssoc(8, bytes, q);
    MulComm(bytes, q);
  }

  // ---------------------------------------------------------------------
  // The 11-bit table as written

  /** The two tables differ only in value 6 of each 11-bit group, so the two
      unpackers agree on every other width and every other entry. */
  lemma AsWrittenAgrees(longs: seq<U64>, n: nat)
    ensures 64 * |longs| != 11 * n ==> PackedToShortsAsWritten(longs, n) == PackedToShorts(longs, n)
    ensures 64 * |longs| == 11 * n && n > 0 ==>
      PackedToShortsAsWritten(longs, n).Ok? && PackedToShorts(longs, n).Ok? &&
      forall j :: 0 <= j < n && j % 8 != 6 ==> PackedToShortsAsWritten(longs, n).value[j] == PackedToShorts(longs, n).value[j]
  {
    var bits := 64 * |longs|;
    if bits == 11 * n && n > 0 {
      DivModUnique(bits, n, 11, 0);
      forall j | 0 <= j < n && j % 8 != 6
        ensures PackedToShortsAsWritten(longs, n).value[j] == PackedToShorts(longs, n).value[j]
      {
        assert ElevenAsWritten.formulas[j % 8] == Eleven.formulas[j % 8];
      }
    } else if n > 0 && bits % n == 0 {
      DivModUnique(bits, n, bits / n, 0);
      assert bits / n != 11;
    }
  }

  /** Eleven longs whose second long is 256: bit 0 of byte 9 is set and
      bits 2 .. 7 of byte 8 are clear, so value 6 of the group (stream bits
      66 .. 76) is 64, while the table as written puts byte 9's low bits at
      bit 2 of the value and yields 4. */
  lemma AsWrittenMisreadsValueSix(longs: seq<U64>)
    requires |longs| == 11 && longs[1] == 256
    ensures PackedToShorts(longs, 64).Ok? && PackedToShorts(longs, 64).value[6] == 64
    ensures PackedToShortsAsWritten(longs, 64).Ok? && PackedToShortsAsWritten(longs, 64).value[6] == 4
  {
    ExampleBytes(longs);
    CorrectedValueSix(longs);
    AsWrittenValueSixOf(longs);
  }

  lemma CorrectedValueSix(longs: seq<U64>)
    requires |longs| == 11 && |BytesOf(longs)| == 88 && BytesOf(longs)[8] == 0 && BytesOf(longs)[9] == 1
    ensures PackedToShorts(longs, 64).Ok? && PackedToShorts(longs, 64).value[6] == 64
  {
    ExampleStream(BytesOf(longs));
    PackedToShortsReadsStream(longs, 64, 11);
  }

  lemma AsWrittenValueSixOf(longs: seq<U64>)
    requires |longs| == 11 && |BytesOf(longs)| == 88 && BytesOf(longs)[8] == 0 && BytesOf(longs)[9] == 1
    ensures PackedToShortsAsWritten(longs, 64).Ok? && PackedToShortsAsWritten(longs, 64).value[6] == 4
  {
    var b := BytesOf(longs);
    AsWrittenValueSix(b);
    assert PackedToShortsAsWritten(longs, 64).value[6] == GroupValue(b, ElevenAsWritten, 6);
  }

  lemma ExampleBytes(longs: seq<U64>)
    requires |longs| == 11 && longs[1] == 256
    ensures |BytesOf(longs)| == 88 && BytesOf(longs)[8] == 0 && BytesOf(longs)[9] == 1
  {
    BytesOfAt(longs, 1, 0);
    BytesOfAt(longs, 1, 1);
    SecondLongBytes();
  }

  lemma SecondLongBytes()
    ensures LeBytes(256, 8)[0] == 0 && LeBytes(256, 8)[1] == 1
  {
  }

  lemma ExampleStream(b: seq<Byte>)
    requires |b| == 88 && b[8] == 0 && b[9] == 1
    ensures StreamBits(b, 66, 11) == 64
  {
    ExampleLowBits(b);
    ExampleHighBits(b);
    StreamSplitAt(b, 66, 72, 6, 5, 11);
    assert Place(1, 6) == 64;
  }

  /** Bits 2 .. 7 of byte 8 are zero. */
  lemma ExampleLowBits(b: seq<Byte>)
    requires |b| == 88 && b[8] == 0
    ensures StreamBits(b, 66, 6) == 0
  {
    ByteField(b, 8, 2, 6, 66);
    assert Shr(0, 2) == 0 && Low(0, 6) == 0;
  }

  /** Bits 0 .. 4 of byte 9 read as 1. */
  lemma ExampleHighBits(b: seq<Byte>)
    requires |b| == 88 && b[9] == 1
    ensures StreamBits(b, 72, 5) == 1
  {
    ByteField(b, 9, 0, 5, 72);
    assert Shr(1, 0) == 1 && Low(1, 5) == 1;
  }

  lemma AsWrittenValueSix(b: seq<Byte>)
    requires |b| == 88 && b[8] == 0 && b[9] == 1
    ensures GroupValue(b, ElevenAsWritten, 6) == 4
  {
    assert ElevenAsWritten.formulas[6] == [Masked(9, 0x1f, 2, 0), Masked(8, 0xfc, 0, 2)];
    assert ByteAt(b, 9) == 1 && ByteAt(b, 8) == 0;
    assert And(1, 0x1f) == 1 && Place(1, 2) == 4 && Shr(4, 0) == 4;
    assert And(0, 0xfc) == 0 && Place(0, 0) == 0 && Shr(0, 2) == 0;
    assert Or(4, 0) == 4;
  }

  /** Byte i of long q is byte 8 q + i of the stream. */
  lemma {:induction false} BytesOfAt(longs: seq<U64>, q: nat, i: nat)
    requires q < |longs| && i < 8
    ensures BytesOf(longs)[8 * q + i] == LeBytes(longs[q], 8)[i]
    decreases q
  {
    if q > 0 {
      BytesOfAt(longs[1..], q - 1, i);
    }
  }
}
