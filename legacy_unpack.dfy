/** The pre-1.16 block-state unpacker `_packed_longarray_to_shorts`
    (world.py): values are packed as one little-endian bit stream across the
    longs, so a value may span two longs. The longs are viewed as their
    little-endian bytes and, for each width, every group of B bytes holding V
    values is decoded by V fixed formulas of shifted and masked bytes. */
module LegacyUnpack {
  import opened Wrappers
  import opened Bits
  import opened ChunkDecode

  // ---------------------------------------------------------------------
  // Bytes of the long array

  /** The k low bytes of x, least significant first. */
  function LeBytes(x: nat, k: nat): (r: seq<Byte>)
    ensures |r| == k
  {
    if k == 0 then [] else [x % 256] + LeBytes(x / 256, k - 1)
  }

  /** `numpy.frombuffer(numpy.asarray(long_array, dtype=numpy.uint64), dtype=numpy.uint8)`
      on a little-endian machine. */
  function BytesOf(longs: seq<U64>): (r: seq<Byte>)
    ensures |r| == 8 * |longs|
  {
    if longs == [] then [] else LeBytes(longs[0], 8) + BytesOf(longs[1..])
  }

  // ---------------------------------------------------------------------
  // The group formulas

  /** Byte `i` of the stream, 0 past its end. */
  function ByteAt(b: seq<Byte>, i: nat): Byte
  {
    if i < |b| then b[i] else 0
  }

  /** One operand of a formula: `(b[off::B] & mask) << shl >> shr`, or a
      whole byte `b[off::B] << shl`. */
  datatype Term = Masked(off: nat, mask: nat, shl: nat, shr: nat) | Whole(off: nat, wshl: nat)

  /** Groups of B bytes, each decoded by one formula per value:
      `result[i::V] = formulas[i]` with V the number of formulas. */
  datatype Layout = Layout(bytes: nat, formulas: seq<seq<Term>>)

  /** A term on the group starting at byte `base`; `Place(x, k)` is `x << k`. */
  function TermValue(t: Term, b: seq<Byte>, base: nat): nat
  {
    match t
    case Masked(off, mask, shl, shr) => Shr(Place(And(ByteAt(b, base + off), mask), shl), shr)
    case Whole(off, shl) => Place(ByteAt(b, base + off), shl)
  }

  /** The terms OR-ed together from left to right; every formula of the
      unpacker has one, two or three terms. */
  function Eval(terms: seq<Term>, b: seq<Byte>, base: nat): nat
  {
    if |terms| == 1 then TermValue(terms[0], b, base)
    else if |terms| == 2 then Or(TermValue(terms[0], b, base), TermValue(terms[1], b, base))
    else if |terms| == 3 then
      Or(Or(TermValue(terms[0], b, base), TermValue(terms[1], b, base)), TermValue(terms[2], b, base))
    else 0
  }

  /** world.py:1530-1538 */
  const Five := Layout(5, [
    [Masked(0, 0x1f, 0, 0)],
    [Masked(1, 0x03, 3, 0), Masked(0, 0xe0, 0, 5)],
    [Masked(1, 0x7c, 0, 2)],
    [Masked(2, 0x0f, 1, 0), Masked(1, 0x80, 0, 7)],
    [Masked(3, 0x01, 4, 0), Masked(2, 0xf0, 0, 4)],
    [Masked(3, 0x3e, 0, 1)],
    [Masked(4, 0x07, 2, 0), Masked(3, 0xc0, 0, 6)],
    [Masked(4, 0xf8, 0, 3)]])

  /** world.py:1539-1543 */
  const Six := Layout(3, [
    [Masked(0, 0x3f, 0, 0)],
    [Masked(1, 0x0f, 2, 0), Masked(0, 0xc0, 0, 6)],
    [Masked(2, 0x03, 4, 0), Masked(1, 0xf0, 0, 4)],
    [Masked(2, 0xfc, 0, 2)]])

  /** world.py:1544-1552 */
  const Seven := Layout(7, [
    [Masked(0, 0x7f, 0, 0)],
    [Masked(1, 0x3f, 1, 0), Masked(0, 0x80, 0, 7)],
    [Masked(2, 0x1f, 2, 0), Masked(1, 0xc0, 0, 6)],
    [Masked(3, 0x0f, 3, 0), Masked(2, 0xe0, 0, 5)],
    [Masked(4, 0x07, 4, 0), Masked(3, 0xf0, 0, 4)],
    [Masked(5, 0x03, 5, 0), Masked(4, 0xf8, 0, 3)],
    [Masked(6, 0x01, 6, 0), Masked(5, 0xfc, 0, 2)],
    [Masked(6, 0xfe, 0, 1)]])

  /** world.py:1554-1562 */
  const Nine := Layout(9, [
    [Masked(1, 0x01, 8, 0), Whole(0, 0)],
    [Masked(2, 0x03, 7, 0), Masked(1, 0xfe, 0, 1)],
    [Masked(3, 0x07, 6, 0), Masked(2, 0xfc, 0, 2)],
    [Masked(4, 0x0f, 5, 0), Masked(3, 0xf8, 0, 3)],
    [Masked(5, 0x1f, 4, 0), Masked(4, 0xf0, 0, 4)],
    [Masked(6, 0x3f, 3, 0), Masked(5, 0xe0, 0, 5)],
    [Masked(7, 0x7f, 2, 0), Masked(6, 0xc0, 0, 6)],
    [Whole(8, 1), Masked(7, 0x80, 0, 7)]])

  /** world.py:1563-1567 */
  const Ten := Layout(5, [
    [Masked(1, 0x03, 8, 0), Whole(0, 0)],
    [Masked(2, 0x0f, 6, 0), Masked(1, 0xfc, 0, 2)],
    [Masked(3, 0x3f, 4, 0), Masked(2, 0xf0, 0, 4)],
    [Whole(4, 2), Masked(3, 0xc0, 0, 6)]])

  /** The 11-bit formulas, with value 6 as world.py:1575 writes it:
      the five low bits of byte 9 are shifted left by 2. */
  const ElevenAsWritten := Layout(11, [
    [Masked(1, 0x07, 8, 0), Whole(0, 0)],
    [Masked(2, 0x3f, 5, 0), Masked(1, 0xf8, 0, 3)],
    [Masked(4, 0x01, 10, 0), Whole(3, 2), Masked(2, 0xc0, 0, 6)],
    [Masked(5, 0x0f, 7, 0), Masked(4, 0xfe, 0, 1)],
    [Masked(6, 0x7f, 4, 0), Masked(5, 0xf0, 0, 4)],
    [Masked(8, 0x03, 9, 0), Whole(7, 1), Masked(6, 0x80, 0, 7)],
    [Masked(9, 0x1f, 2, 0), Masked(8, 0xfc, 0, 2)],
    [Whole(10, 3), Masked(9, 0xe0, 0, 5)]])

  /** The 11-bit formulas with value 6 taking byte 9's five low bits as its
      bits 6-10 (`<< 6`), after the six bits of byte 8. */
  const Eleven := Layout(11, [
    [Masked(1, 0x07, 8, 0), Whole(0, 0)],
    [Masked(2, 0x3f, 5, 0), Masked(1, 0xf8, 0, 3)],
    [Masked(4, 0x01, 10, 0), Whole(3, 2), Masked(2, 0xc0, 0, 6)],
    [Masked(5, 0x0f, 7, 0), Masked(4, 0xfe, 0, 1)],
    [Masked(6, 0x7f, 4, 0), Masked(5, 0xf0, 0, 4)],
    [Masked(8, 0x03, 9, 0), Whole(7, 1), Masked(6, 0x80, 0, 7)],
    [Masked(9, 0x1f, 6, 0), Masked(8, 0xfc, 0, 2)],
    [Whole(10, 3), Masked(9, 0xe0, 0, 5)]])

  /** world.py:1577-1579 */
  const Twelve := Layout(3, [
    [Masked(1, 0x0f, 8, 0), Whole(0, 0)],
    [Whole(2, 4), Masked(1, 0xf0, 0, 4)]])

  /** The formulas of each width; `eleven` is the table used for 11 bits. */
  function LayoutFor(k: nat, eleven: Layout): Option<Layout>
  {
    if k == 5 then Some(Five) else if k == 6 then Some(Six) else if k == 7 then Some(Seven)
    else if k == 9 then Some(Nine) else if k == 10 then Some(Ten) else if k == 11 then Some(eleven)
    else if k == 12 then Some(Twelve) else None
  }

  // ---------------------------------------------------------------------
  // The bit stream the formulas are meant to read

  /** The w-bit value starting at bit s of the little-endian bit stream of b. */
  function StreamBits(b: seq<Byte>, s: nat, w: nat): nat
    decreases w, s
  {
    if w == 0 then 0 else Bit(ByteAt(b, s / 8), s % 8) + 2 * StreamBits(b, s + 1, w - 1)
  }

  /** `(2^w - 1) << lo` */
  function RunMask(lo: nat, w: nat): nat
  {
    if lo == 0 then Pow2(w) - 1 else 2 * RunMask(lo - 1, w)
  }

  /** Term t moves the w stream bits starting at bit s of its group to bit
      `target` of the value: a masked term's mask is the contiguous run
      `(2^w - 1) << lo` of its byte. */
  predicate PieceAt(t: Term, s: nat, target: nat, w: nat)
  {
    (t.Masked? ==>
      8 * t.off <= s && s - 8 * t.off + w <= 8 && t.mask == RunMask(s - 8 * t.off, w) &&
      t.shr <= s - 8 * t.off + t.shl && target == s - 8 * t.off + t.shl - t.shr) &&
    (t.Whole? ==> 8 * t.off == s && w == 8 && target == t.wshl)
  }

  /** Stream bits p .. p + w - 1 are bits lo .. lo + w - 1 of byte j. */
  lemma {:induction false} ByteField(b: seq<Byte>, j: nat, lo: nat, w: nat, p: nat)
    requires lo + w <= 8 && p == 8 * j + lo
    ensures StreamBits(b, p, w) == Low(Shr(ByteAt(b, j), lo), w)
    decreases w
  {
    if w > 0 {
      var x := ByteAt(b, j);
      assert p / 8 == j && p % 8 == lo;
      ByteField(b, j, lo + 1, w - 1, p + 1);
      ShrAdd(x, lo, 1);
    }
  }

  /** A field of w1 + w2 stream bits is its first w1 bits below the next w2. */
  lemma {:induction false} StreamSplit(b: seq<Byte>, s: nat, w1: nat, w2: nat)
    ensures StreamBits(b, s, w1 + w2) == StreamBits(b, s, w1) + Place(StreamBits(b, s + w1, w2), w1)
    decreases w1
  {
    if w1 > 0 {
      StreamSplit(b, s + 1, w1 - 1, w2);
    }
  }

  lemma {:induction false} StreamSplitAt(b: seq<Byte>, s: nat, t: nat, w1: nat, w2: nat, w: nat)
    requires t == s + w1 && w == w1 + w2
    ensures StreamBits(b, s, w) == StreamBits(b, s, w1) + Place(StreamBits(b, t, w2), w1)
  {
    StreamSplit(b, s, w1, w2);
  }

  lemma {:induction false} StreamBound(b: seq<Byte>, s: nat, w: nat)
    ensures StreamBits(b, s, w) < Pow2(w)
    decreases w
  {
    if w > 0 {
      StreamBound(b, s + 1, w - 1);
    }
  }

  /** `x & ((2^w - 1) << lo)` keeps bits lo .. lo + w - 1 in place. */
  lemma {:induction false} AndRun(x: nat, lo: nat, w: nat)
    ensures And(x, RunMask(lo, w)) == Shl(Low(Shr(x, lo), w), lo)
    decreases lo
  {
    if lo == 0 {
      AndLow(x, w);
      ShlZero(Low(x, w));
    } else {
      var m := RunMask(lo - 1, w);
      AndShift(x, 2 * m, m);
      AndRun(x / 2, lo - 1, w);
      ShlSucc(Low(Shr(x, lo), w), lo - 1);
    }
  }

  /** What one term contributes, for the group at byte `base`, whose bit s
      is stream bit p. */
  lemma {:induction false} Piece(t: Term, b: seq<Byte>, base: nat, s: nat, target: nat, w: nat, p: nat)
    requires PieceAt(t, s, target, w) && p == 8 * base + s
    ensures TermValue(t, b, base) == Place(StreamBits(b, p, w), target)
    ensures StreamBits(b, p, w) < Pow2(w)
  {
    StreamBound(b, p, w);
    match t
    case Masked(off, mask, shl, shr) =>
      MaskedTerm(b, base, off, mask, shl, shr, s - 8 * off, w, target, p);
    case Whole(off, shl) =>
      WholeTerm(b, base, off, shl, p, w);
  }

  lemma {:induction false} MaskedTerm(b: seq<Byte>, base: nat, off: nat, mask: nat, shl: nat, shr: nat,
                                      lo: nat, w: nat, target: nat, p: nat)
    requires lo + w <= 8 && mask == RunMask(lo, w) && lo + shl == shr + target && p == 8 * (base + off) + lo
    ensures TermValue(Masked(off, mask, shl, shr), b, base) == Place(StreamBits(b, p, w), target)
  {
    var x := ByteAt(b, base + off);
    var l := Low(Shr(x, lo), w);
    AndRun(x, lo, w);
    PlaceShl(l, lo);
    PlaceAdd(l, lo, shl);
    PlaceAdd(l, target, shr);
    ShrPlace(Place(l, target), shr);
    ByteField(b, base + off, lo, w, p);
  }

  lemma {:induction false} WholeTerm(b: seq<Byte>, base: nat, off: nat, shl: nat, p: nat, w: nat)
    requires p == 8 * (base + off) && w == 8
    ensures TermValue(Whole(off, shl), b, base) == Place(StreamBits(b, p, w), shl)
  {
    var x := ByteAt(b, base + off);
    ByteField(b, base + off, 0, w, p);
    assert Pow2(8) == 256;
    LowSmall(x, w);
  }

  /** A one-term formula reading k bits from bit s of its group. */
  lemma {:induction false} One(t: Term, b: seq<Byte>, base: nat, s: nat, p: nat, k: nat)
    requires PieceAt(t, s, 0, k) && p == 8 * base + s
    ensures Eval([t], b, base) == StreamBits(b, p, k)
  {
    Piece(t, b, base, s, 0, k, p);
    PlaceZero(StreamBits(b, p, k));
  }

  /** The two terms of a two-term formula, in stream terms; q is the
      stream position of the upper run. */
  lemma {:induction false} TwoPieces(hi: Term, lo: Term, b: seq<Byte>, base: nat, s: nat, p: nat, q: nat,
                                     wl: nat, wh: nat)
    requires PieceAt(lo, s, 0, wl) && PieceAt(hi, s + wl, wl, wh) && p == 8 * base + s && q == p + wl
    ensures Eval([hi, lo], b, base) == Or(Place(StreamBits(b, q, wh), wl), StreamBits(b, p, wl))
    ensures StreamBits(b, p, wl) < Pow2(wl)
  {
    Piece(lo, b, base, s, 0, wl, p);
    PlaceZero(StreamBits(b, p, wl));
    Piece(hi, b, base, s + wl, wl, wh, q);
  }

  lemma {:induction false} TwoCombine(b: seq<Byte>, p: nat, q: nat, wl: nat, wh: nat, w: nat)
    requires q == p + wl && w == wl + wh && StreamBits(b, p, wl) < Pow2(wl)
    ensures Or(Place(StreamBits(b, q, wh), wl), StreamBits(b, p, wl)) == StreamBits(b, p, w)
  {
    OrAbove(StreamBits(b, q, wh), wl, StreamBits(b, p, wl));
    StreamSplitAt(b, p, q, wl, wh, w);
  }

  /** `(hi << wl) | lo` over two adjacent runs of stream bits. */
  lemma {:induction false} Two(hi: Term, lo: Term, b: seq<Byte>, base: nat, s: nat, p: nat, wl: nat, wh: nat, w: nat)
    requires PieceAt(lo, s, 0, wl) && PieceAt(hi, s + wl, wl, wh) && p == 8 * base + s && w == wl + wh
    ensures Eval([hi, lo], b, base) == StreamBits(b, p, w)
  {
    var q := p + wl;
    TwoPieces(hi, lo, b, base, s, p, q, wl, wh);
    TwoCombine(b, p, q, wl, wh, w);
  }

  /** The three terms of a three-term formula, in stream terms; q and r are
      the stream positions of the middle and upper runs, t2 the upper run's
      place in the value. */
  lemma {:induction false} ThreePieces(hi: Term, mid: Term, lo: Term, b: seq<Byte>, base: nat, s: nat,
                                       p: nat, q: nat, r: nat, wl: nat, wm: nat, wh: nat, t2: nat)
    requires PieceAt(lo, s, 0, wl) && PieceAt(mid, s + wl, wl, wm) && PieceAt(hi, s + wl + wm, t2, wh)
    requires p == 8 * base + s && q == p + wl && r == q + wm && t2 == wl + wm
    ensures Eval([hi, mid, lo], b, base) ==
      Or(Or(Place(StreamBits(b, r, wh), t2), Place(StreamBits(b, q, wm), wl)), StreamBits(b, p, wl))
    ensures StreamBits(b, p, wl) < Pow2(wl) && StreamBits(b, q, wm) < Pow2(wm)
  {
    Piece(lo, b, base, s, 0, wl, p);
    PlaceZero(StreamBits(b, p, wl));
    Piece(mid, b, base, s + wl, wl, wm, q);
    Piece(hi, b, base, s + wl + wm, t2, wh, r);
  }

  lemma {:induction false} ThreeCombine(b: seq<Byte>, p: nat, q: nat, r: nat, wl: nat, wm: nat, wh: nat,
                                        t2: nat, w2: nat, w: nat)
    requires q == p + wl && r == q + wm && t2 == wl + wm && w2 == wm + wh && w == wl + w2
    requires StreamBits(b, p, wl) < Pow2(wl) && StreamBits(b, q, wm) < Pow2(wm)
    ensures Or(Or(Place(StreamBits(b, r, wh), t2), Place(StreamBits(b, q, wm), wl)), StreamBits(b, p, wl)) ==
      StreamBits(b, p, w)
  {
    var l, m, h := StreamBits(b, p, wl), StreamBits(b, q, wm), StreamBits(b, r, wh);
    var upper := m + Place(h, wm);
    OrStack(wl, wm, t2, h, m);
    OrAbove(upper, wl, l);
    StreamSplitAt(b, q, r, wm, wh, w2);
    StreamSplitAt(b, p, q, wl, w2, w);
    PlaceCong(StreamBits(b, q, w2), upper, wl);
    OrCong(Or(Place(h, t2), Place(m, wl)), Place(upper, wl), l);
  }

  /** `(hi << (wl + wm)) | (mid << wl) | lo` over three adjacent runs. */
  lemma {:induction false} Three(hi: Term, mid: Term, lo: Term, b: seq<Byte>, base: nat, s: nat, p: nat,
                                 wl: nat, wm: nat, wh: nat, w: nat)
    requires PieceAt(lo, s, 0, wl) && PieceAt(mid, s + wl, wl, wm) && PieceAt(hi, s + wl + wm, wl + wm, wh)
    requires p == 8 * base + s && w == wl + wm + wh
    ensures Eval([hi, mid, lo], b, base) == StreamBits(b, p, w)
  {
    var q, t2, w2 := p + wl, wl + wm, wm + wh;
    var r := q + wm;
    ThreePieces(hi, mid, lo, b, base, s, p, q, r, wl, wm, wh, t2);
    ThreeCombine(b, p, q, r, wl, wm, wh, t2, w2, w);
  }

  /** The upper two terms of a three-term formula add up. */
  lemma {:induction false} OrStack(wl: nat, wm: nat, t2: nat, h: nat, m: nat)
    requires m < Pow2(wm) && t2 == wl + wm
    ensures Or(Place(h, t2), Place(m, wl)) == Place(m + Place(h, wm), wl)
  {
    PlaceBound(m, wm, wl);
    OrAbove(h, t2, Place(m, wl));
    PlaceAdd(h, wm, wl);
    assert wm + wl == t2;
    PlaceDist(m, Place(h, wm), wl);
  }

  /** `(x << t) | c` is a sum when c has fewer than t bits. */
  lemma {:induction false} OrAbove(x: nat, t: nat, c: nat)
    requires c < Pow2(t)
    ensures Or(Place(x, t), c) == Place(x, t) + c
  {
    LowPlace(x, t);
    OrDisjoint(Place(x, t), c, t);
  }

  // Shift identities, each proved in a context of its own.

  /** `x << k` by doubling, which keeps the proofs about it linear. */
  function Place(x: nat, k: nat): nat
  {
    if k == 0 then x else 2 * Place(x, k - 1)
  }

  lemma {:induction false} PlaceShl(x: nat, k: nat)
    ensures Place(x, k) == Shl(x, k)
  {
    if k > 0 {
      PlaceShl(x, k - 1);
      ShlSucc(x, k - 1);
    }
  }

  lemma PlaceCong(x: nat, y: nat, k: nat)
    requires x == y
    ensures Place(x, k) == Place(y, k)
  {
  }

  lemma OrCong(x: nat, y: nat, c: nat)
    requires x == y
    ensures Or(x, c) == Or(y, c)
  {
  }

  lemma PlaceZero(x: nat)
    ensures Place(x, 0) == x
  {
  }

  lemma {:induction false} PlaceAdd(x: nat, a: nat, b: nat)
    ensures Place(Place(x, a), b) == Place(x, a + b)
    decreases b
  {
    if b > 0 {
      PlaceAdd(x, a, b - 1);
    }
  }

  lemma {:induction false} PlaceDist(x: nat, y: nat, k: nat)
    ensures Place(x + y, k) == Place(x, k) + Place(y, k)
  {
    if k > 0 {
      PlaceDist(x, y, k - 1);
    }
  }

  lemma {:induction false} PlaceBound(m: nat, wm: nat, wl: nat)
    requires m < Pow2(wm)
    ensures Place(m, wl) < Pow2(wl + wm)
  {
    if wl > 0 {
      PlaceBound(m, wm, wl - 1);
    }
  }

  lemma {:induction false} LowPlace(x: nat, k: nat)
    ensures Low(Place(x, k), k) == 0
  {
    PlaceShl(x, k);
    LowShl(x, k);
  }

  lemma ShlZero(x: nat)
    ensures Shl(x, 0) == x
  {
  }

  lemma ShlSucc(x: nat, k: nat)
    ensures Shl(x, k + 1) == 2 * Shl(x, k)
  {
    var p: int := Pow2(k);
    assert Pow2(k + 1) == 2 * p;
    MulAssoc(x, 2, p);
    MulComm(x, 2);
    MulAssoc(2, x, p);
  }

  lemma {:induction false} ShrShl(x: nat, k: nat)
    ensures Shr(Shl(x, k), k) == x
  {
    MulComm(x, Pow2(k));
    ShrPacked(0, x, k);
  }

  lemma {:induction false} ShrPlace(x: nat, k: nat)
    ensures Shr(Place(x, k), k) == x
  {
    PlaceShl(x, k);
    ShrShl(x, k);
  }

  lemma {:induction false} LowShl(x: nat, k: nat)
    ensures Low(Shl(x, k), k) == 0
  {
    MulComm(x, Pow2(k));
    LowPacked(0, x, k);
  }

  lemma MulAssoc(a: int, b: int, c: int)
    ensures (a * b) * c == a * (b * c)
  {
  }

  lemma MulComm(a: int, b: int)
    ensures a * b == b * a
  {
  }
  // ---------------------------------------------------------------------
  // Each table reads the stream

  /** Every 5-bit formula reads its value from the stream: value i of
      the group at byte `base` is stream bits 5i .. 5i + 4 of the group. */
  lemma FiveReads(b: seq<Byte>, base: nat, i: nat, k: nat)
    requires i < 8 && k == 5
    ensures Eval(Five.formulas[i], b, base) == StreamBits(b, 8 * base + k * i, k)
  {
    if i == 0 {
      FiveValue0(b, base, i, k, 8 * base + k * i);
    } else if i == 1 {
      FiveValue1(b, base, i, k, 8 * base + k * i);
    } else if i == 2 {
      FiveValue2(b, base, i, k, 8 * base + k * i);
    } else if i == 3 {
      FiveValue3(b, base, i, k, 8 * base + k * i);
    } else if i == 4 {
      FiveValue4(b, base, i, k, 8 * base + k * i);
    } else if i == 5 {
      FiveValue5(b, base, i, k, 8 * base + k * i);
    } else if i == 6 {
      FiveValue6(b, base, i, k, 8 * base + k * i);
    } else {
      FiveValue7(b, base, i, k, 8 * base + k * i);
    }
  }

  lemma FiveValue0(b: seq<Byte>, base: nat, i: nat, k: nat, p: nat)
    requires i == 0 && k == 5 && p == 8 * base
    ensures Eval(Five.formulas[i], b, base) == StreamBits(b, p, k)
  {
    assert Five.formulas[i] == [Masked(0, 0x1f, 0, 0)];
    One(Masked(0, 0x1f, 0, 0), b, base, 0, p, k);
  }

  lemma FiveValue1(b: seq<Byte>, base: nat, i: nat, k: nat, p: nat)
    requires i == 1 && k == 5 && p == 8 * base + 5
    ensures Eval(Five.formulas[i], b, base) == StreamBits(b, p, k)
  {
    assert Five.formulas[i] == [Masked(1, 0x03, 3, 0), Masked(0, 0xe0, 0, 5)];
    Two(Masked(1, 0x03, 3, 0), Masked(0, 0xe0, 0, 5), b, base, 5, p, 3, 2, k);
  }

  lemma FiveValue2(b: seq<Byte>, base: nat, i: nat, k: nat, p: nat)
    requires i == 2 && k == 5 && p == 8 * base + 10
    ensures Eval(Five.formulas[i], b, base) == StreamBits(b, p, k)
  {
    assert Five.formulas[i] == [Masked(1, 0x7c, 0, 2)];
    One(Masked(1, 0x7c, 0, 2), b, base, 10, p, k);
  }

  lemma FiveValue3(b: seq<Byte>, base: nat, i: nat, k: nat, p: nat)
    requires i == 3 && k == 5 && p == 8 * base + 15
    ensures Eval(Five.formulas[i], b, base) == StreamBits(b, p, k)
  {
    assert Five.formulas[i] == [Masked(2, 0x0f, 1, 0), Masked(1, 0x80, 0, 7)];
    Two(Masked(2, 0x0f, 1, 0), Masked(1, 0x80, 0, 7), b, base, 15, p, 1, 4, k);
  }

  lemma FiveValue4(b: seq<Byte>, base: nat, i: nat, k: nat, p: nat)
    requires i == 4 && k == 5 && p == 8 * base + 20
    ensures Eval(Five.formulas[i], b, base) == StreamBits(b, p, k)
  {
    assert Five.formulas[i] == [Masked(3, 0x01, 4, 0), Masked(2, 0xf0, 0, 4)];
    Two(Masked(3, 0x01, 4, 0), Masked(2, 0xf0, 0, 4), b, base, 20, p, 4, 1, k);
  }

  lemma FiveValue5(b: seq<Byte>, base: nat, i: nat, k: nat, p: nat)
    requires i == 5 && k == 5 && p == 8 * base + 25
    ensures Eval(Five.formulas[i], b, base) == StreamBits(b, p, k)
  {
    assert Five.formulas[i] == [Masked(3, 0x3e, 0, 1)];
    One(Masked(3, 0x3e, 0, 1), b, base, 25, p, k);
  }

  lemma FiveValue6(b: seq<Byte>, base: nat, i: nat, k: nat, p: nat)
    requires i == 6 && k == 5 && p == 8 * base + 30
    ensures Eval(Five.formulas[i], b, base) == StreamBits(b, p, k)
  {
    assert Five.formulas[i] == [Masked(4, 0x07, 2, 0), Masked(3, 0xc0, 0, 6)];
    Two(Masked(4, 0x07, 2, 0), Masked(3, 0xc0, 0, 6), b, base, 30, p, 2, 3, k);
  }

  lemma FiveValue7(b: seq<Byte>, base: nat, i: nat, k: nat, p: nat)
    requires i == 7 && k == 5 && p == 8 * base + 35
    ensures Eval(Five.formulas[i], b, base) == StreamBits(b, p, k)
  {
    assert Five.formulas[i] == [Masked(4, 0xf8, 0, 3)];
    One(Masked(4, 0xf8, 0, 3), b, base, 35, p, k);
  }

  /** Every 6-bit formula reads its value from the stream: value i of
      the group at byte `base` is stream bits 6i .. 6i + 5 of the group. */
  lemma SixReads(b: seq<Byte>, base: nat, i: nat, k: nat)
    requires i < 4 && k == 6
    ensures Eval(Six.formulas[i], b, base) == StreamBits(b, 8 * base + k * i, k)
  {
    if i == 0 {
      SixValue0(b, base, i, k, 8 * base + k * i);
    } else if i == 1 {
      SixValue1(b, base, i, k, 8 * base + k * i);
    } else if i == 2 {
      SixValue2(b, base, i, k, 8 * base + k * i);
    } else {
      SixValue3(b, base, i, k, 8 * base + k * i);
    }
  }

  lemma SixValue0(b: seq<Byte>, base: nat, i: nat, k: nat, p: nat)
    requires i == 0 && k == 6 && p == 8 * base
    ensures Eval(Six.formulas[i], b, base) == StreamBits(b, p, k)
  {
    assert Six.formulas[i] == [Masked(0, 0x3f, 0, 0)];
    One(Masked(0, 0x3f, 0, 0), b, base, 0, p, k);
  }

  lemma SixValue1(b: seq<Byte>, base: nat, i: nat, k: nat, p: nat)
    requires i == 1 && k == 6 && p == 8 * base + 6
    ensures Eval(Six.formulas[i], b, base) == StreamBits(b, p, k)
  {
    assert Six.formulas[i] == [Masked(1, 0x0f, 2, 0), Masked(0, 0xc0, 0, 6)];
    Two(Masked(1, 0x0f, 2, 0), Masked(0, 0xc0, 0, 6), b, base, 6, p, 2, 4, k);
  }

  lemma SixValue2(b: seq<Byte>, base: nat, i: nat, k: nat, p: nat)
    requires i == 2 && k == 6 && p == 8 * base + 12
    ensures Eval(Six.formulas[i], b, base) == StreamBits(b, p, k)
  {
    assert Six.formulas[i] == [Masked(2, 0x03, 4, 0), Masked(1, 0xf0, 0, 4)];
    Two(Masked(2, 0x03, 4, 0), Masked(1, 0xf0, 0, 4), b, base, 12, p, 4, 2, k);
  }

  lemma SixValue3(b: seq<Byte>, base: nat, i: nat, k: nat, p: nat)
    requires i == 3 && k == 6 && p == 8 * base + 18
    ensures Eval(Six.formulas[i], b, base) == StreamBits(b, p, k)
  {
    assert Six.formulas[i] == [Masked(2, 0xfc, 0, 2)];
    One(Masked(2, 0xfc, 0, 2), b, base, 18, p, k);
  }

  /** Every 7-bit formula reads its value from the stream: value i of
      the group at byte `base` is stream bits 7i .. 7i + 6 of the group. */
  lemma SevenReads(b: seq<Byte>, base: nat, i: nat, k: nat)
    requires i < 8 && k == 7
    ensures Eval(Seven.formulas[i], b, base) == StreamBits(b, 8 * base + k * i, k)
  {
    if i == 0 {
      SevenValue0(b, base, i, k, 8 * base + k * i);
    } else if i == 1 {
      SevenValue1(b, base, i, k, 8 * base + k * i);
    } else if i == 2 {
      SevenValue2(b, base, i, k, 8 * base + k * i);
    } else if i == 3 {
      SevenValue3(b, base, i, k, 8 * base + k * i);
    } else if i == 4 {
      SevenValue4(b, base, i, k, 8 * base + k * i);
    } else if i == 5 {
      SevenValue5(b, base, i, k, 8 * base + k * i);
    } else if i == 6 {
      SevenValue6(b, base, i, k, 8 * base + k * i);
    } else {
      SevenValue7(b, base, i, k, 8 * base + k * i);
    }
  }

  lemma SevenValue0(b: seq<Byte>, base: nat, i: nat, k: nat, p: nat)
    requires i == 0 && k == 7 && p == 8 * base
    ensures Eval(Seven.formulas[i], b, base) == StreamBits(b, p, k)
  {
    assert Seven.formulas[i] == [Masked(0, 0x7f, 0, 0)];
    One(Masked(0, 0x7f, 0, 0), b, base, 0, p, k);
  }

  lemma SevenValue1(b: seq<Byte>, base: nat, i: nat, k: nat, p: nat)
    requires i == 1 && k == 7 && p == 8 * base + 7
    ensures Eval(Seven.formulas[i], b, base) == StreamBits(b, p, k)
  {
    assert Seven.formulas[i] == [Masked(1, 0x3f, 1, 0), Masked(0, 0x80, 0, 7)];
    Two(Masked(1, 0x3f, 1, 0), Masked(0, 0x80, 0, 7), b, base, 7, p, 1, 6, k);
  }

  lemma SevenValue2(b: seq<Byte>, base: nat, i: nat, k: nat, p: nat)
    requires i == 2 && k == 7 && p == 8 * base + 14
    ensures Eval(Seven.formulas[i], b, base) == StreamBits(b, p, k)
  {
    assert Seven.formulas[i] == [Masked(2, 0x1f, 2, 0), Masked(1, 0xc0, 0, 6)];
    Two(Masked(2, 0x1f, 2, 0), Masked(1, 0xc0, 0, 6), b, base, 14, p, 2, 5, k);
  }

  lemma SevenValue3(b: seq<Byte>, base: nat, i: nat, k: nat, p: nat)
    requires i == 3 && k == 7 && p == 8 * base + 21
    ensures Eval(Seven.formulas[i], b, base) == StreamBits(b, p, k)
  {
    assert Seven.formulas[i] == [Masked(3, 0x0f, 3, 0), Masked(2, 0xe0, 0, 5)];
    Two(Masked(3, 0x0f, 3, 0), Masked(2, 0xe0, 0, 5), b, base, 21, p, 3, 4, k);
  }

  lemma SevenValue4(b: seq<Byte>, base: nat, i: nat, k: nat, p: nat)
    requires i == 4 && k == 7 && p == 8 * base + 28
    ensures Eval(Seven.formulas[i], b, base) == StreamBits(b, p, k)
  {
    assert Seven.formulas[i] == [Masked(4, 0x07, 4, 0), Masked(3, 0xf0, 0, 4)];
    Two(Masked(4, 0x07, 4, 0), Masked(3, 0xf0, 0, 4), b, base, 28, p, 4, 3, k);
  }

  lemma SevenValue5(b: seq<Byte>, base: nat, i: nat, k: nat, p: nat)
    requires i == 5 && k == 7 && p == 8 * base + 35
    ensures Eval(Seven.formulas[i], b, base) == StreamBits(b, p, k)
  {
    assert Seven.formulas[i] == [Masked(5, 0x03, 5, 0), Masked(4, 0xf8, 0, 3)];
    Two(Masked(5, 0x03, 5, 0), Masked(4, 0xf8, 0, 3), b, base, 35, p, 5, 2, k);
  }

  lemma SevenValue6(b: seq<Byte>, base: nat, i: nat, k: nat, p: nat)
    requires i == 6 && k == 7 && p == 8 * base + 42
    ensures Eval(Seven.formulas[i], b, base) == StreamBits(b, p, k)
  {
    assert Seven.formulas[i] == [Masked(6, 0x01, 6, 0), Masked(5, 0xfc, 0, 2)];
    Two(Masked(6, 0x01, 6, 0), Masked(5, 0xfc, 0, 2), b, base, 42, p, 6, 1, k);
  }

  lemma SevenValue7(b: seq<Byte>, base: nat, i: nat, k: nat, p: nat)
    requires i == 7 && k == 7 && p == 8 * base + 49
    ensures Eval(Seven.formulas[i], b, base) == StreamBits(b, p, k)
  {
    assert Seven.formulas[i] == [Masked(6, 0xfe, 0, 1)];
    One(Masked(6, 0xfe, 0, 1), b, base, 49, p, k);
  }

  /** Every 9-bit formula reads its value from the stream: value i of
      the group at byte `base` is stream bits 9i .. 9i + 8 of the group. */
  lemma NineReads(b: seq<Byte>, base: nat, i: nat, k: nat)
    requires i < 8 && k == 9
    ensures Eval(Nine.formulas[i], b, base) == StreamBits(b, 8 * base + k * i, k)
  {
    if i == 0 {
      NineValue0(b, base, i, k, 8 * base + k * i);
    } else if i == 1 {
      NineValue1(b, base, i, k, 8 * base + k * i);
    } else if i == 2 {
      NineValue2(b, base, i, k, 8 * base + k * i);
    } else if i == 3 {
      NineValue3(b, base, i, k, 8 * base + k * i);
    } else if i == 4 {
      NineValue4(b, base, i, k, 8 * base + k * i);
    } else if i == 5 {
      NineValue5(b, base, i, k, 8 * base + k * i);
    } else if i == 6 {
      NineValue6(b, base, i, k, 8 * base + k * i);
    } else {
      NineValue7(b, base, i, k, 8 * base + k * i);
    }
  }

  lemma NineValue0(b: seq<Byte>, base: nat, i: nat, k: nat, p: nat)
    requires i == 0 && k == 9 && p == 8 * base
    ensures Eval(Nine.formulas[i], b, base) == StreamBits(b, p, k)
  {
    assert Nine.formulas[i] == [Masked(1, 0x01, 8, 0), Whole(0, 0)];
    Two(Masked(1, 0x01, 8, 0), Whole(0, 0), b, base, 0, p, 8, 1, k);
  }

  lemma NineValue1(b: seq<Byte>, base: nat, i: nat, k: nat, p: nat)
    requires i == 1 && k == 9 && p == 8 * base + 9
    ensures Eval(Nine.formulas[i], b, base) == StreamBits(b, p, k)
  {
    assert Nine.formulas[i] == [Masked(2, 0x03, 7, 0), Masked(1, 0xfe, 0, 1)];
    Two(Masked(2, 0x03, 7, 0), Masked(1, 0xfe, 0, 1), b, base, 9, p, 7, 2, k);
  }

  lemma NineValue2(b: seq<Byte>, base: nat, i: nat, k: nat, p: nat)
    requires i == 2 && k == 9 && p == 8 * base + 18
    ensures Eval(Nine.formulas[i], b, base) == StreamBits(b, p, k)
  {
    assert Nine.formulas[i] == [Masked(3, 0x07, 6, 0), Masked(2, 0xfc, 0, 2)];
    Two(Masked(3, 0x07, 6, 0), Masked(2, 0xfc, 0, 2), b, base, 18, p, 6, 3, k);
  }

  lemma NineValue3(b: seq<Byte>, base: nat, i: nat, k: nat, p: nat)
    requires i == 3 && k == 9 && p == 8 * base + 27
    ensures Eval(Nine.formulas[i], b, base) == StreamBits(b, p, k)
  {
    assert Nine.formulas[i] == [Masked(4, 0x0f, 5, 0), Masked(3, 0xf8, 0, 3)];
    Two(Masked(4, 0x0f, 5, 0), Masked(3, 0xf8, 0, 3), b, base, 27, p, 5, 4, k);
  }

  lemma NineValue4(b: seq<Byte>, base: nat, i: nat, k: nat, p: nat)
    requires i == 4 && k == 9 && p == 8 * base + 36
    ensures Eval(Nine.formulas[i], b, base) == StreamBits(b, p, k)
  {
    assert Nine.formulas[i] == [Masked(5, 0x1f, 4, 0), Masked(4, 0xf0, 0, 4)];
    Two(Masked(5, 0x1f, 4, 0), Masked(4, 0xf0, 0, 4), b, base, 36, p, 4, 5, k);
  }

  lemma NineValue5(b: seq<Byte>, base: nat, i: nat, k: nat, p: nat)
    requires i == 5 && k == 9 && p == 8 * base + 45
    ensures Eval(Nine.formulas[i], b, base) == StreamBits(b, p, k)
  {
    assert Nine.formulas[i] == [Masked(6, 0x3f, 3, 0), Masked(5, 0xe0, 0, 5)];
    Two(Masked(6, 0x3f, 3, 0), Masked(5, 0xe0, 0, 5), b, base, 45, p, 3, 6, k);
  }

  lemma NineValue6(b: seq<Byte>, base: nat, i: nat, k: nat, p: nat)
    requires i == 6 && k == 9 && p == 8 * base + 54
    ensures Eval(Nine.formulas[i], b, base) == StreamBits(b, p, k)
  {
    assert Nine.formulas[i] == [Masked(7, 0x7f, 2, 0), Masked(6, 0xc0, 0, 6)];
    Two(Masked(7, 0x7f, 2, 0), Masked(6, 0xc0, 0, 6), b, base, 54, p, 2, 7, k);
  }

  lemma NineValue7(b: seq<Byte>, base: nat, i: nat, k: nat, p: nat)
    requires i == 7 && k == 9 && p == 8 * base + 63
    ensures Eval(Nine.formulas[i], b, base) == StreamBits(b, p, k)
  {
    assert Nine.formulas[i] == [Whole(8, 1), Masked(7, 0x80, 0, 7)];
    Two(Whole(8, 1), Masked(7, 0x80, 0, 7), b, base, 63, p, 1, 8, k);
  }

  /** Every 10-bit formula reads its value from the stream: value i of
      the group at byte `base` is stream bits 10i .. 10i + 9 of the group. */
  lemma TenReads(b: seq<Byte>, base: nat, i: nat, k: nat)
    requires i < 4 && k == 10
    ensures Eval(Ten.formulas[i], b, base) == StreamBits(b, 8 * base + k * i, k)
  {
    if i == 0 {
      TenValue0(b, base, i, k, 8 * base + k * i);
    } else if i == 1 {
      TenValue1(b, base, i, k, 8 * base + k * i);
    } else if i == 2 {
      TenValue2(b, base, i, k, 8 * base + k * i);
    } else {
      TenValue3(b, base, i, k, 8 * base + k * i);
    }
  }

  lemma TenValue0(b: seq<Byte>, base: nat, i: nat, k: nat, p: nat)
    requires i == 0 && k == 10 && p == 8 * base
    ensures Eval(Ten.formulas[i], b, base) == StreamBits(b, p, k)
  {
    assert Ten.formulas[i] == [Masked(1, 0x03, 8, 0), Whole(0, 0)];
    Two(Masked(1, 0x03, 8, 0), Whole(0, 0), b, base, 0, p, 8, 2, k);
  }

  lemma TenValue1(b: seq<Byte>, base: nat, i: nat, k: nat, p: nat)
    requires i == 1 && k == 10 && p == 8 * base + 10
    ensures Eval(Ten.formulas[i], b, base) == StreamBits(b, p, k)
  {
    assert Ten.formulas[i] == [Masked(2, 0x0f, 6, 0), Masked(1, 0xfc, 0, 2)];
    Two(Masked(2, 0x0f, 6, 0), Masked(1, 0xfc, 0, 2), b, base, 10, p, 6, 4, k);
  }

  lemma TenValue2(b: seq<Byte>, base: nat, i: nat, k: nat, p: nat)
    requires i == 2 && k == 10 && p == 8 * base + 20
    ensures Eval(Ten.formulas[i], b, base) == StreamBits(b, p, k)
  {
    assert Ten.formulas[i] == [Masked(3, 0x3f, 4, 0), Masked(2, 0xf0, 0, 4)];
    Two(Masked(3, 0x3f, 4, 0), Masked(2, 0xf0, 0, 4), b, base, 20, p, 4, 6, k);
  }

  lemma TenValue3(b: seq<Byte>, base: nat, i: nat, k: nat, p: nat)
    requires i == 3 && k == 10 && p == 8 * base + 30
    ensures Eval(Ten.formulas[i], b, base) == StreamBits(b, p, k)
  {
    assert Ten.formulas[i] == [Whole(4, 2), Masked(3, 0xc0, 0, 6)];
    Two(Whole(4, 2), Masked(3, 0xc0, 0, 6), b, base, 30, p, 2, 8, k);
  }

  /** Every 11-bit formula reads its value from the stream: value i of
      the group at byte `base` is stream bits 11i .. 11i + 10 of the group. */
  lemma ElevenReads(b: seq<Byte>, base: nat, i: nat, k: nat)
    requires i < 8 && k == 11
    ensures Eval(Eleven.formulas[i], b, base) == StreamBits(b, 8 * base + k * i, k)
  {
    if i == 0 {
      ElevenValue0(b, base, i, k, 8 * base + k * i);
    } else if i == 1 {
      ElevenValue1(b, base, i, k, 8 * base + k * i);
    } else if i == 2 {
      ElevenValue2(b, base, i, k, 8 * base + k * i);
    } else if i == 3 {
      ElevenValue3(b, base, i, k, 8 * base + k * i);
    } else if i == 4 {
      ElevenValue4(b, base, i, k, 8 * base + k * i);
    } else if i == 5 {
      ElevenValue5(b, base, i, k, 8 * base + k * i);
    } else if i == 6 {
      ElevenValue6(b, base, i, k, 8 * base + k * i);
    } else {
      ElevenValue7(b, base, i, k, 8 * base + k * i);
    }
  }

  lemma ElevenValue0(b: seq<Byte>, base: nat, i: nat, k: nat, p: nat)
    requires i == 0 && k == 11 && p == 8 * base
    ensures Eval(Eleven.formulas[i], b, base) == StreamBits(b, p, k)
  {
    assert Eleven.formulas[i] == [Masked(1, 0x07, 8, 0), Whole(0, 0)];
    Two(Masked(1, 0x07, 8, 0), Whole(0, 0), b, base, 0, p, 8, 3, k);
  }

  lemma ElevenValue1(b: seq<Byte>, base: nat, i: nat, k: nat, p: nat)
    requires i == 1 && k == 11 && p == 8 * base + 11
    ensures Eval(Eleven.formulas[i], b, base) == StreamBits(b, p, k)
  {
    assert Eleven.formulas[i] == [Masked(2, 0x3f, 5, 0), Masked(1, 0xf8, 0, 3)];
    Two(Masked(2, 0x3f, 5, 0), Masked(1, 0xf8, 0, 3), b, base, 11, p, 5, 6, k);
  }

  lemma ElevenValue2(b: seq<Byte>, base: nat, i: nat, k: nat, p: nat)
    requires i == 2 && k == 11 && p == 8 * base + 22
    ensures Eval(Eleven.formulas[i], b, base) == StreamBits(b, p, k)
  {
    assert Eleven.formulas[i] == [Masked(4, 0x01, 10, 0), Whole(3, 2), Masked(2, 0xc0, 0, 6)];
    Three(Masked(4, 0x01, 10, 0), Whole(3, 2), Masked(2, 0xc0, 0, 6), b, base, 22, p, 2, 8, 1, k);
  }

  lemma ElevenValue3(b: seq<Byte>, base: nat, i: nat, k: nat, p: nat)
    requires i == 3 && k == 11 && p == 8 * base + 33
    ensures Eval(Eleven.formulas[i], b, base) == StreamBits(b, p, k)
  {
    assert Eleven.formulas[i] == [Masked(5, 0x0f, 7, 0), Masked(4, 0xfe, 0, 1)];
    Two(Masked(5, 0x0f, 7, 0), Masked(4, 0xfe, 0, 1), b, base, 33, p, 7, 4, k);
  }

  lemma ElevenValue4(b: seq<Byte>, base: nat, i: nat, k: nat, p: nat)
    requires i == 4 && k == 11 && p == 8 * base + 44
    ensures Eval(Eleven.formulas[i], b, base) == StreamBits(b, p, k)
  {
    assert Eleven.formulas[i] == [Masked(6, 0x7f, 4, 0), Masked(5, 0xf0, 0, 4)];
    Two(Masked(6, 0x7f, 4, 0), Masked(5, 0xf0, 0, 4), b, base, 44, p, 4, 7, k);
  }

  lemma ElevenValue5(b: seq<Byte>, base: nat, i: nat, k: nat, p: nat)
    requires i == 5 && k == 11 && p == 8 * base + 55
    ensures Eval(Eleven.formulas[i], b, base) == StreamBits(b, p, k)
  {
    assert Eleven.formulas[i] == [Masked(8, 0x03, 9, 0), Whole(7, 1), Masked(6, 0x80, 0, 7)];
    Three(Masked(8, 0x03, 9, 0), Whole(7, 1), Masked(6, 0x80, 0, 7), b, base, 55, p, 1, 8, 2, k);
  }

  lemma ElevenValue6(b: seq<Byte>, base: nat, i: nat, k: nat, p: nat)
    requires i == 6 && k == 11 && p == 8 * base + 66
    ensures Eval(Eleven.formulas[i], b, base) == StreamBits(b, p, k)
  {
    assert Eleven.formulas[i] == [Masked(9, 0x1f, 6, 0), Masked(8, 0xfc, 0, 2)];
    Two(Masked(9, 0x1f, 6, 0), Masked(8, 0xfc, 0, 2), b, base, 66, p, 6, 5, k);
  }

  lemma ElevenValue7(b: seq<Byte>, base: nat, i: nat, k: nat, p: nat)
    requires i == 7 && k == 11 && p == 8 * base + 77
    ensures Eval(Eleven.formulas[i], b, base) == StreamBits(b, p, k)
  {
    assert Eleven.formulas[i] == [Whole(10, 3), Masked(9, 0xe0, 0, 5)];
    Two(Whole(10, 3), Masked(9, 0xe0, 0, 5), b, base, 77, p, 3, 8, k);
  }

  /** Every 12-bit formula reads its value from the stream: value i of
      the group at byte `base` is stream bits 12i .. 12i + 11 of the group. */
  lemma TwelveReads(b: seq<Byte>, base: nat, i: nat, k: nat)
    requires i < 2 && k == 12
    ensures Eval(Twelve.formulas[i], b, base) == StreamBits(b, 8 * base + k * i, k)
  {
    if i == 0 {
      TwelveValue0(b, base, i, k, 8 * base + k * i);
    } else {
      TwelveValue1(b, base, i, k, 8 * base + k * i);
    }
  }

  lemma TwelveValue0(b: seq<Byte>, base: nat, i: nat, k: nat, p: nat)
    requires i == 0 && k == 12 && p == 8 * base
    ensures Eval(Twelve.formulas[i], b, base) == StreamBits(b, p, k)
  {
    assert Twelve.formulas[i] == [Masked(1, 0x0f, 8, 0), Whole(0, 0)];
    Two(Masked(1, 0x0f, 8, 0), Whole(0, 0), b, base, 0, p, 8, 4, k);
  }

  lemma TwelveValue1(b: seq<Byte>, base: nat, i: nat, k: nat, p: nat)
    requires i == 1 && k == 12 && p == 8 * base + 12
    ensures Eval(Twelve.formulas[i], b, base) == StreamBits(b, p, k)
  {
    assert Twelve.formulas[i] == [Whole(2, 4), Masked(1, 0xf0, 0, 4)];
    Two(Whole(2, 4), Masked(1, 0xf0, 0, 4), b, base, 12, p, 4, 8, k);
  }
}
