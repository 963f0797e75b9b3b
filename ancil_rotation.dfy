/** The ancillary-data rewrites that textures.py applies before drawing a
    block, so that a map rendered with a rotated north direction shows the
    block facing the right way. `rotation` is the renderer's rotation (0..3,
    one quarter turn each) and `data` the block's ancillary value; the
    rewrites are Python integer bit operations, modelled with Bits. */
module AncilRotation {
  import opened Bits

  // ---------------------------------------------------------------------
  // Stairs: bits 0-2 give half and shape, bits 3-6 are one-hot facing
  // flags (north 8, east 16, south 32, west 64).
  // ---------------------------------------------------------------------

  /** One pass of the stairs loop: the facing bits `data >> 3` rotate
      right by one and the low three bits are added back unchanged. */
  function StairsStep(data: nat): nat
  {
    var dirData := Shr(data, 3);
    Shl(Shr(dirData, 1) + Shl(And(dirData, 1), 3), 3) + And(data, 7)
  }

  /** The stairs value after n passes of the loop. */
  function StairsSteps(data: nat, n: nat): nat
  {
    if n == 0 then data else StairsStep(StairsSteps(data, n - 1))
  }

  /** `for i in range(self.rotation)` rewriting the stairs data. */
  method RotateStairs(data: nat, rotation: nat) returns (r: nat)
    ensures r == StairsSteps(data, rotation)
    ensures data < 128 ==> r < 128 && r % 8 == data % 8
  {
    r := data;
    for i := 0 to rotation
      invariant r == StairsSteps(data, i)
      invariant data < 128 ==> r < 128 && r % 8 == data % 8
    {
      var dirData := Shr(r, 3);
      StairsStepKeepsShape(r);
      r := Shl(Shr(dirData, 1) + Shl(And(dirData, 1), 3), 3) + And(r, 7);
    }
  }

  /** Written with its facing flags north a, east b, south c, west e, one
      step moves each flag one place down (east to north, north to west)
      and keeps the low three bits. */
  lemma StairsStepDigits(data: nat, a: nat, b: nat, c: nat, e: nat, low: nat)
    requires a < 2 && b < 2 && c < 2 && e < 2 && low < 8
    requires data == 8 * (a + 2 * b + 4 * c + 8 * e) + low
    ensures StairsStep(data) == 8 * (b + 2 * c + 4 * e + 8 * a) + low
    ensures StairsStep(data) / 8 == b + 2 * c + 4 * e + 8 * a && StairsStep(data) % 8 == low
  {
    var f := a + 2 * b + 4 * c + 8 * e;
    assert Pow2(3) == 8;
    ShrDiv(data, 3);
    DivModUnique(data, 8, f, low);
    ShrDiv(f, 1);
    DivModUnique(f, 2, b + 2 * c + 4 * e, a);
    AndMod(f, 1);
    AndMod(data, 3);
    DivModUnique(StairsStep(data), 8, b + 2 * c + 4 * e + 8 * a, low);
  }

  /** The facing flags of a value below 128, as digits. */
  lemma StairsDigitsOf(data: nat) returns (a: nat, b: nat, c: nat, e: nat, low: nat)
    requires data < 128
    ensures a < 2 && b < 2 && c < 2 && e < 2 && low < 8
    ensures data == 8 * (a + 2 * b + 4 * c + 8 * e) + low
  {
    var f := data / 8;
    var f1 := f / 2;
    var f2 := f1 / 2;
    a, b, c, e, low := f % 2, f1 % 2, f2 % 2, f2 / 2, data % 8;
    assert data == 8 * f + low && f < 16;
    assert f == 2 * f1 + a && f1 < 8;
    assert f1 == 2 * f2 + b && f2 < 4;
    assert f2 == 2 * e + c;
  }

  /** A step keeps a value below 128 and its low three bits. */
  lemma StairsStepKeepsShape(data: nat)
    ensures data < 128 ==> StairsStep(data) < 128 && StairsStep(data) % 8 == data % 8
  {
    if data < 128 {
      var a, b, c, e, low := StairsDigitsOf(data);
      StairsStepDigits(data, a, b, c, e, low);
    }
  }

  /** A stairs block with a single facing flag still has a single one. */
  lemma StairsStepOneFacing(data: nat)
    requires data < 128 && data / 8 in {1, 2, 4, 8}
    ensures StairsStep(data) / 8 in {1, 2, 4, 8}
    ensures StairsStep(data) / 8 == (if data / 8 == 1 then 8 else data / 8 / 2)
  {
    var a, b, c, e, low := StairsDigitsOf(data);
    StairsStepDigits(data, a, b, c, e, low);
    var f := a + 2 * b + 4 * c + 8 * e;
    DivModUnique(data, 8, f, low);
    DivModUnique(f, 2, b + 2 * c + 4 * e, a);
  }

  /** Four quarter turns bring every stairs value below 128 back. */
  lemma StairsFourSteps(data: nat)
    requires data < 128
    ensures StairsSteps(data, 4) == data
  {
    var a, b, c, e, low := StairsDigitsOf(data);
    var d1 := 8 * (b + 2 * c + 4 * e + 8 * a) + low;
    var d2 := 8 * (c + 2 * e + 4 * a + 8 * b) + low;
    var d3 := 8 * (e + 2 * a + 4 * b + 8 * c) + low;
    StairsStepDigits(data, a, b, c, e, low);
    StairsStepDigits(d1, b, c, e, a, low);
    StairsStepDigits(d2, c, e, a, b, low);
    StairsStepDigits(d3, e, a, b, c, low);
    assert StairsSteps(data, 1) == d1;
    assert StairsSteps(data, 2) == d2;
    assert StairsSteps(data, 3) == d3;
  }

  // ---------------------------------------------------------------------
  // Redstone wire: bit 0 is kept; above it four two-bit direction
  // codes, east (bits 1-2), north (3-4), west (5-6), south (7-8).
  // ---------------------------------------------------------------------

  /** One pass of the wire loop: the eight bits `data >> 1` rotate right by two. */
  function WireStep(data: nat): nat
  {
    var dirData := Shr(data, 1);
    Shl(Shr(dirData, 2) + Shl(And(dirData, 3), 6), 1) + And(data, 1)
  }

  /** The wire value after n passes of the loop. */
  function WireSteps(data: nat, n: nat): nat
  {
    if n == 0 then data else WireStep(WireSteps(data, n - 1))
  }

  /** `for i in range(self.rotation)` rewriting the wire data. */
  method RotateWire(data: nat, rotation: nat) returns (r: nat)
    ensures r == WireSteps(data, rotation)
    ensures data < 512 ==> r < 512 && r % 2 == data % 2
  {
    r := data;
    for i := 0 to rotation
      invariant r == WireSteps(data, i)
      invariant data < 512 ==> r < 512 && r % 2 == data % 2
    {
      var dirData := Shr(r, 1);
      WireStepKeepsShape(r);
      r := Shl(Shr(dirData, 2) + Shl(And(dirData, 3), 6), 1) + And(r, 1);
    }
  }

  /** With direction codes east a, north b, west c, south e, one step
      moves every code one slot down (north's into east, east's into
      south) and keeps bit 0. */
  lemma WireStepDigits(data: nat, a: nat, b: nat, c: nat, e: nat, s: nat)
    requires a < 4 && b < 4 && c < 4 && e < 4 && s < 2
    requires data == 2 * (a + 4 * b + 16 * c + 64 * e) + s
    ensures WireStep(data) == 2 * (b + 4 * c + 16 * e + 64 * a) + s
    ensures WireStep(data) / 2 == b + 4 * c + 16 * e + 64 * a && WireStep(data) % 2 == s
  {
    var d := a + 4 * b + 16 * c + 64 * e;
    assert Pow2(2) == 4 && Pow2(6) == 64;
    ShrDiv(data, 1);
    DivModUnique(data, 2, d, s);
    ShrDiv(d, 2);
    DivModUnique(d, 4, b + 4 * c + 16 * e, a);
    AndMod(d, 2);
    AndMod(data, 1);
    DivModUnique(WireStep(data), 2, b + 4 * c + 16 * e + 64 * a, s);
  }

  /** The direction codes of a value below 512, as digits. */
  lemma WireDigitsOf(data: nat) returns (a: nat, b: nat, c: nat, e: nat, s: nat)
    requires data < 512
    ensures a < 4 && b < 4 && c < 4 && e < 4 && s < 2
    ensures data == 2 * (a + 4 * b + 16 * c + 64 * e) + s
  {
    var d := data / 2;
    var d1 := d / 4;
    var d2 := d1 / 4;
    a, b, c, e, s := d % 4, d1 % 4, d2 % 4, d2 / 4, data % 2;
    assert data == 2 * d + s && d < 256;
    assert d == 4 * d1 + a && d1 < 64;
    assert d1 == 4 * d2 + b && d2 < 16;
    assert d2 == 4 * e + c;
  }

  /** A step keeps a value below 512 and its bit 0. */
  lemma WireStepKeepsShape(data: nat)
    ensures data < 512 ==> WireStep(data) < 512 && WireStep(data) % 2 == data % 2
  {
    if data < 512 {
      var a, b, c, e, s := WireDigitsOf(data);
      WireStepDigits(data, a, b, c, e, s);
    }
  }

  /** Four quarter turns bring every wire value below 512 back. */
  lemma WireFourSteps(data: nat)
    requires data < 512
    ensures WireSteps(data, 4) == data
  {
    var a, b, c, e, s := WireDigitsOf(data);
    var d1 := 2 * (b + 4 * c + 16 * e + 64 * a) + s;
    var d2 := 2 * (c + 4 * e + 16 * a + 64 * b) + s;
    var d3 := 2 * (e + 4 * a + 16 * b + 64 * c) + s;
    WireStepDigits(data, a, b, c, e, s);
    WireStepDigits(d1, b, c, e, a, s);
    WireStepDigits(d2, c, e, a, b, s);
    WireStepDigits(d3, e, a, b, c, s);
    assert WireSteps(data, 1) == d1;
    assert WireSteps(data, 2) == d2;
    assert WireSteps(data, 3) == d3;
  }

  // ---------------------------------------------------------------------
  // Huge mushrooms and vines: one flag bit per face, rearranged by a
  // `bit_map` that lists, from the highest new bit down, the old bit
  // numbers (counted from 1) to take.
  // ---------------------------------------------------------------------

  /** The mushroom bit maps; bits 6..1 are down, up, east, north, west, south. */
  function MushroomBitMap(rotation: nat): (m: seq<nat>)
    requires 1 <= rotation <= 3
    ensures |m| == 6 && forall j :: 0 <= j < 6 ==> 1 <= m[j] <= 6
  {
    if rotation == 1 then [6, 5, 3, 2, 1, 4]
    else if rotation == 2 then [6, 5, 2, 1, 4, 3]
    else [6, 5, 1, 4, 3, 2]
  }

  /** The vine bit maps; bits 5..1 are up, east, north, west, south. */
  function VineBitMap(rotation: nat): (m: seq<nat>)
    requires 1 <= rotation <= 3
    ensures |m| == 5 && forall j :: 0 <= j < 5 ==> 1 <= m[j] <= 5
  {
    if rotation == 1 then [5, 3, 2, 1, 4]
    else if rotation == 2 then [5, 2, 1, 4, 3]
    else [5, 1, 4, 3, 2]
  }

  predicate PositiveEntries(bitMap: seq<nat>)
  {
    forall j :: 0 <= j < |bitMap| ==> bitMap[j] >= 1
  }

  /** The value the bit_map loop builds: each entry shifts the value left
      by one and brings in old bit `entry - 1`. */
  function Gathered(data: nat, bitMap: seq<nat>): nat
    requires PositiveEntries(bitMap)
  {
    if bitMap == [] then 0
    else 2 * Gathered(data, bitMap[..|bitMap| - 1]) + Bit(data, bitMap[|bitMap| - 1] - 1)
  }

  /** One pass of the bit_map loop: `new_data << 1`, then `|=` the next bit. */
  lemma ShiftInBit(acc: nat, data: nat, i: nat)
    requires i >= 1
    ensures Or(Shl(acc, 1), And(Shr(data, i - 1), 1)) == 2 * acc + Bit(data, i - 1)
  {
    assert Pow2(1) == 2;
    AndMod(Shr(data, i - 1), 1);
    LowPacked(0, acc, 1);
    OrDisjoint(2 * acc, Bit(data, i - 1), 1);
  }

  /** `for i in bit_map: new_data = new_data << 1; new_data |= (data >> (i - 1)) & 1` */
  method RearrangeBits(data: nat, bitMap: seq<nat>) returns (newData: nat)
    requires PositiveEntries(bitMap)
    ensures newData == Gathered(data, bitMap)
  {
    newData := 0;
    for j := 0 to |bitMap|
      invariant newData == Gathered(data, bitMap[..j])
    {
      var i := bitMap[j];
      ShiftInBit(newData, data, i);
      assert bitMap[..j + 1][..j] == bitMap[..j];
      newData := Shl(newData, 1);
      newData := Or(newData, And(Shr(data, i - 1), 1));
    }
    assert bitMap[..|bitMap|] == bitMap;
  }

  /** Bit k of the gathered value is old bit `bitMap[|bitMap| - 1 - k] - 1`,
      and the gathered value has no bits above the map's length. */
  lemma {:induction false} GatheredBit(data: nat, bitMap: seq<nat>, k: nat)
    requires PositiveEntries(bitMap) && k < |bitMap|
    ensures Bit(Gathered(data, bitMap), k) == Bit(data, bitMap[|bitMap| - 1 - k] - 1)
  {
    var init := bitMap[..|bitMap| - 1];
    var g := Gathered(data, init);
    var b := Bit(data, bitMap[|bitMap| - 1] - 1);
    assert (2 * g + b) / 2 == g;
    if k > 0 {
      GatheredBit(data, init, k - 1);
      assert init[|init| - 1 - (k - 1)] == bitMap[|bitMap| - 1 - k];
    }
  }

  lemma {:induction false} GatheredBound(data: nat, bitMap: seq<nat>)
    requires PositiveEntries(bitMap)
    ensures Gathered(data, bitMap) < Pow2(|bitMap|)
  {
    if bitMap != [] {
      GatheredBound(data, bitMap[..|bitMap| - 1]);
    }
  }

  /** Two values below 2^n with the same low n bits are equal. */
  lemma {:induction false} SameBits(x: nat, y: nat, n: nat)
    requires x < Pow2(n) && y < Pow2(n)
    requires forall k :: 0 <= k < n ==> Bit(x, k) == Bit(y, k)
    ensures x == y
  {
    if n > 0 {
      forall k | 0 <= k < n - 1
        ensures Bit(x / 2, k) == Bit(y / 2, k)
      {
        assert Bit(x, k + 1) == Bit(y, k + 1);
      }
      SameBits(x / 2, y / 2, n - 1);
      assert Bit(x, 0) == Bit(y, 0);
    }
  }

  /** The number of set bits among the low n. */
  function PopCount(x: nat, n: nat): nat
    decreases n
  {
    if n == 0 then 0 else PopCount(x, n - 1) + Bit(x, n - 1)
  }

  /** A side flag's source, `(k - rotation) mod 4`: the side `rotation`
      quarter turns round. */
  function SideSource(rotation: nat, k: nat): nat
    requires rotation < 4 && k < 4
  {
    if k >= rotation then k - rotation else k + 4 - rotation
  }

  /** The old bit that becomes bit k: the four side flags (bits 0-3) turn,
      the up and down flags (bits 4 and 5) stay. */
  function FaceSource(rotation: nat, k: nat): nat
    requires rotation < 4
  {
    if k < 4 then SideSource(rotation, k) else k
  }

  /** One more quarter turn on top of `rotation` turns. */
  lemma FaceSourceCompose(rotation: nat, k: nat)
    requires 1 <= rotation <= 3 && k < 6
    ensures FaceSource(rotation, FaceSource(1, k)) ==
            (if rotation == 3 then k else FaceSource(rotation + 1, k))
  {
  }

  /** `huge_mushroom`: the data after the rotation rewrite. */
  function MushroomRotated(rotation: nat, data: nat): nat
  {
    if 1 <= rotation <= 3 then Gathered(data, MushroomBitMap(rotation)) else data
  }

  /** `vines`: the data after the rotation rewrite. */
  function VineRotated(rotation: nat, data: nat): nat
  {
    if 1 <= rotation <= 3 then Gathered(data, VineBitMap(rotation)) else data
  }

  method RotateMushroom(rotation: nat, data: nat) returns (r: nat)
    ensures r == MushroomRotated(rotation, data)
  {
    r := data;
    if rotation in {1, 2, 3} {
      r := RearrangeBits(data, MushroomBitMap(rotation));
    }
  }

  method RotateVine(rotation: nat, data: nat) returns (r: nat)
    ensures r == VineRotated(rotation, data)
  {
    r := data;
    if rotation in {1, 2, 3} {
      r := RearrangeBits(data, VineBitMap(rotation));
    }
  }

  /** The mushroom bit map names the face sources, counted from 1. */
  lemma MushroomBitMapSource(rotation: nat, k: nat)
    requires 1 <= rotation <= 3 && k < 6
    ensures MushroomBitMap(rotation)[5 - k] - 1 == FaceSource(rotation, k)
  {
  }

  lemma VineBitMapSource(rotation: nat, k: nat)
    requires 1 <= rotation <= 3 && k < 5
    ensures VineBitMap(rotation)[4 - k] - 1 == FaceSource(rotation, k)
  {
  }

  /** Bit k of a rotated mushroom is bit `FaceSource(rotation, k)` of the
      original: down and up stay, the sides turn. */
  lemma MushroomBit(rotation: nat, data: nat, k: nat)
    requires 1 <= rotation <= 3 && k < 6
    ensures Bit(MushroomRotated(rotation, data), k) == Bit(data, FaceSource(rotation, k))
  {
    GatheredBit(data, MushroomBitMap(rotation), k);
    MushroomBitMapSource(rotation, k);
  }

  lemma VineBit(rotation: nat, data: nat, k: nat)
    requires 1 <= rotation <= 3 && k < 5
    ensures Bit(VineRotated(rotation, data), k) == Bit(data, FaceSource(rotation, k))
  {
    GatheredBit(data, VineBitMap(rotation), k);
    VineBitMapSource(rotation, k);
  }

  /** The mushroom rewrite keeps the down and up flags where they are,
      turns the four side flags and clears every bit above 5. */
  lemma MushroomBits(rotation: nat, data: nat)
    requires 1 <= rotation <= 3
    ensures MushroomRotated(rotation, data) < 64
    ensures Bit(MushroomRotated(rotation, data), 5) == Bit(data, 5)
    ensures Bit(MushroomRotated(rotation, data), 4) == Bit(data, 4)
    ensures forall k :: 0 <= k < 4 ==>
      Bit(MushroomRotated(rotation, data), k) == Bit(data, SideSource(rotation, k))
  {
    assert Pow2(6) == 64;
    GatheredBound(data, MushroomBitMap(rotation));
    forall k | 0 <= k < 6
      ensures Bit(MushroomRotated(rotation, data), k) == Bit(data, FaceSource(rotation, k))
    {
      MushroomBit(rotation, data, k);
    }
  }

  /** The vine rewrite keeps the up flag, turns the four side flags and
      clears every bit above 4. */
  lemma VineBits(rotation: nat, data: nat)
    requires 1 <= rotation <= 3
    ensures VineRotated(rotation, data) < 32
    ensures Bit(VineRotated(rotation, data), 4) == Bit(data, 4)
    ensures forall k :: 0 <= k < 4 ==>
      Bit(VineRotated(rotation, data), k) == Bit(data, SideSource(rotation, k))
  {
    assert Pow2(5) == 32;
    GatheredBound(data, VineBitMap(rotation));
    forall k | 0 <= k < 5
      ensures Bit(VineRotated(rotation, data), k) == Bit(data, FaceSource(rotation, k))
    {
      VineBit(rotation, data, k);
    }
  }

  /** The four side flags of r, taken from data's sides turned round, hold
      as many set flags as data's. */
  lemma SidesPopCount(r: nat, data: nat, rotation: nat)
    requires 1 <= rotation <= 3
    requires forall k :: 0 <= k < 4 ==> Bit(r, k) == Bit(data, SideSource(rotation, k))
    ensures PopCount(r, 4) == PopCount(data, 4)
  {
    assert Bit(r, 0) == Bit(data, SideSource(rotation, 0));
    assert Bit(r, 1) == Bit(data, SideSource(rotation, 1));
    assert Bit(r, 2) == Bit(data, SideSource(rotation, 2));
    assert Bit(r, 3) == Bit(data, SideSource(rotation, 3));
  }

  /** The flags are permuted, so the number of set flags is kept. */
  lemma MushroomPopCount(rotation: nat, data: nat)
    requires 1 <= rotation <= 3
    ensures PopCount(MushroomRotated(rotation, data), 6) == PopCount(data, 6)
  {
    MushroomBits(rotation, data);
    SidesPopCount(MushroomRotated(rotation, data), data, rotation);
  }

  lemma VinePopCount(rotation: nat, data: nat)
    requires 1 <= rotation <= 3
    ensures PopCount(VineRotated(rotation, data), 5) == PopCount(data, 5)
  {
    VineBits(rotation, data);
    SidesPopCount(VineRotated(rotation, data), data, rotation);
  }

  /** The maps for two and three quarter turns are the one-turn map
      applied again, and a fourth turn restores every value below 64. */
  lemma MushroomQuarterTurns(rotation: nat, data: nat)
    requires 1 <= rotation <= 3 && data < 64
    ensures MushroomRotated(1, MushroomRotated(rotation, data)) ==
            (if rotation == 3 then data else MushroomRotated(rotation + 1, data))
  {
    var once := MushroomRotated(rotation, data);
    var twice := MushroomRotated(1, once);
    var want := if rotation == 3 then data else MushroomRotated(rotation + 1, data);
    forall k | 0 <= k < 6
      ensures Bit(twice, k) == Bit(want, k)
    {
      MushroomBit(1, once, k);
      MushroomBit(rotation, data, FaceSource(1, k));
      FaceSourceCompose(rotation, k);
      if rotation < 3 {
        MushroomBit(rotation + 1, data, k);
      }
    }
    assert Pow2(6) == 64;
    GatheredBound(once, MushroomBitMap(1));
    if rotation < 3 {
      GatheredBound(data, MushroomBitMap(rotation + 1));
    }
    SameBits(twice, want, 6);
  }

  lemma VineQuarterTurns(rotation: nat, data: nat)
    requires 1 <= rotation <= 3 && data < 32
    ensures VineRotated(1, VineRotated(rotation, data)) ==
            (if rotation == 3 then data else VineRotated(rotation + 1, data))
  {
    var once := VineRotated(rotation, data);
    var twice := VineRotated(1, once);
    var want := if rotation == 3 then data else VineRotated(rotation + 1, data);
    forall k | 0 <= k < 5
      ensures Bit(twice, k) == Bit(want, k)
    {
      VineBit(1, once, k);
      VineBit(rotation, data, FaceSource(1, k));
      FaceSourceCompose(rotation, k);
      if rotation < 3 {
        VineBit(rotation + 1, data, k);
      }
    }
    assert Pow2(5) == 32;
    GatheredBound(once, VineBitMap(1));
    if rotation < 3 {
      GatheredBound(data, VineBitMap(rotation + 1));
    }
    SameBits(twice, want, 5);
  }

  // ---------------------------------------------------------------------
  // Furnaces, dispensers, pistons and observers: `data & 7` in 2..5 is a
  // horizontal facing, bit 3 is lit / extended / triggered.
  // ---------------------------------------------------------------------

  /** `rotation_map`, shared by furnaces, pistons and observers. */
  const FacingMaps: map<nat, map<nat, nat>> :=
    map[1 := map[2 := 5, 3 := 4, 4 := 2, 5 := 3],
        2 := map[2 := 3, 3 := 2, 4 := 5, 5 := 4],
        3 := map[2 := 4, 3 := 5, 4 := 3, 5 := 2]]

  /** The rewrite of a block facing one of the four horizontal directions. */
  function RotateFacing(rotation: nat, data: nat): nat
  {
    if rotation in {1, 2, 3} && And(data, 7) in {2, 3, 4, 5} then
      Or(And(data, 8), FacingMaps[rotation][And(data, 7)])
    else
      data
  }

  /** Each table is a bijection of {2, 3, 4, 5}: it maps the set into
      itself and the table for the opposite turn undoes it. */
  lemma FacingMapsPermute(rotation: nat, v: nat)
    requires rotation in {1, 2, 3} && v in {2, 3, 4, 5}
    ensures v in FacingMaps[rotation] && FacingMaps[rotation][v] in {2, 3, 4, 5}
    ensures FacingMaps[4 - rotation][FacingMaps[rotation][v]] == v
  {
  }

  /** The tables for two and three quarter turns are the one-turn table
      applied again, and a fourth turn is the identity. */
  lemma FacingMapsCompose(v: nat)
    requires v in {2, 3, 4, 5}
    ensures FacingMaps[2][v] == FacingMaps[1][FacingMaps[1][v]]
    ensures FacingMaps[3][v] == FacingMaps[1][FacingMaps[2][v]]
    ensures FacingMaps[1][FacingMaps[3][v]] == v
  {
  }

  /** `x & 3` is the two-bit facing; `4 * h | t` with t < 4 is addition. */
  lemma LowTwoBits(x: nat, h: nat, t: nat)
    requires t < 4
    ensures And(x, 3) == x % 4
    ensures Or(4 * h, t) == 4 * h + t
  {
    assert Pow2(2) == 4;
    AndMod(x, 2);
    LowPacked(0, h, 2);
    OrDisjoint(4 * h, t, 2);
  }

  /** `x & 7`, `x & 8` and `8 * h | t` with t < 8. */
  lemma LowFourBits(x: nat, h: nat, t: nat)
    requires x < 16 && t < 8
    ensures And(x, 7) == x % 8 && And(x, 8) == 8 * (x / 8)
    ensures Or(8 * h, t) == 8 * h + t
  {
    assert Pow2(3) == 8;
    AndMod(x, 3);
    AndSingle(x, 3);
    ShrDiv(x, 3);
    LowPacked(0, h, 3);
    OrDisjoint(8 * h, t, 3);
  }

  /** For data below 16 the rewrite keeps bit 3 and maps a horizontal facing
      through the table; data whose low three bits are 0, 1, 6 or 7 is left alone. */
  lemma RotateFacingBits(rotation: nat, data: nat)
    requires data < 16
    ensures var r := RotateFacing(rotation, data);
      r / 8 == data / 8 &&
      r % 8 == (if rotation in {1, 2, 3} && data % 8 in {2, 3, 4, 5}
                then FacingMaps[rotation][data % 8] else data % 8)
  {
    var h := data / 8;
    if rotation in {1, 2, 3} && data % 8 in {2, 3, 4, 5} {
      var v := FacingMaps[rotation][data % 8];
      LowFourBits(data, h, v);
      DivModUnique(8 * h + v, 8, h, v);
    } else {
      LowFourBits(data, h, 0);
    }
  }

  // ---------------------------------------------------------------------
  // Two-bit facings on the low bits: beds, lecterns, comparators, doors.
  // ---------------------------------------------------------------------

  /** The facing after a quarter-turn rewrite, below the kept bits. */
  function QuarterTurned(data: nat, rotation: nat, keep: nat): nat
    requires keep > 0
  {
    4 * ((data / 4) % keep) + (rotation + data) % 4
  }

  /** `data & (4 * mask)` for a mask of k ones keeps k bits above the facing. */
  lemma AndAboveFacing(data: nat, mask: nat, k: nat)
    requires mask == Pow2(k) - 1
    ensures And(data, 4 * mask) == 4 * ((data / 4) % Pow2(k))
  {
    AndShift(data, 4 * mask, 2 * mask);
    AndShift(data / 2, 2 * mask, mask);
    assert data / 2 / 2 == data / 4;
    AndMod(data / 4, k);
  }

  /** `data & (4 * mask) | ((rotation + (data & 3)) % 4)` is `QuarterTurned`. */
  lemma QuarterTurnForm(data: nat, rotation: nat, mask: nat, k: nat)
    requires mask == Pow2(k) - 1
    ensures Or(And(data, 4 * mask), (rotation + And(data, 3)) % 4) ==
            QuarterTurned(data, rotation, Pow2(k))
  {
    AndAboveFacing(data, mask, k);
    var h := (data / 4) % Pow2(k);
    var s := data % 4;
    var t := (rotation + s) % 4;
    LowTwoBits(data, h, t);
    DivModUnique(rotation + data, 4, data / 4 + (rotation + s) / 4, t);
  }

  /** Turning by r and then by 4 - r restores a value whose kept bits are all in range. */
  lemma QuarterTurnUndo(data: nat, rotation: nat, keep: nat)
    requires keep > 0 && data < 4 * keep && rotation <= 4
    ensures QuarterTurned(QuarterTurned(data, rotation, keep), 4 - rotation, keep) == data
  {
    var h := data / 4;
    var t := (rotation + data) % 4;
    assert h < keep;
    DivModUnique(h, keep, 0, h);
    var once := 4 * h + t;
    assert QuarterTurned(data, rotation, keep) == once;
    DivModUnique(once, 4, h, t);
    assert (4 - rotation + once) % 4 == (4 - rotation + t) % 4;
    assert (4 - rotation + t) % 4 == data % 4;
  }

  /** `bed`: bits 2-7 (occupancy, head/foot, colour) are kept. */
  function BedRotation(rotation: nat, data: nat): nat
  {
    Or(And(data, 0xFC), (rotation + And(data, 3)) % 4)
  }

  /** `lectern`: bit 2 (has a book) is kept. */
  function LecternRotation(rotation: nat, data: nat): nat
  {
    Or(And(data, 4), (rotation + And(data, 3)) % 4)
  }

  /** `comparator`: bits 2-3 (mode and power) are kept. */
  function ComparatorRotation(rotation: nat, data: nat): nat
  {
    Or(And(data, 0xC), (And(data, 3) + rotation) % 4)
  }

  /** `door`: one explicit table per rotation; bits 2-4 (hinge, top/bottom,
      open) are kept. */
  function DoorRotation(rotation: nat, data: nat): nat
  {
    DoorTables(rotation, And(data, 3), And(data, 0x1C), data)
  }

  /** The door tables, given the facing `data & 0b00011` and the kept bits
      `data & 0b11100`. */
  function DoorTables(rotation: nat, facing: nat, rest: nat, data: nat): nat
  {
    if rotation == 1 then
      if facing == 0 then Or(rest, 1)
      else if facing == 1 then Or(rest, 2)
      else if facing == 2 then Or(rest, 3)
      else if facing == 3 then Or(rest, 0)
      else data
    else if rotation == 2 then
      if facing == 0 then Or(rest, 2)
      else if facing == 1 then Or(rest, 3)
      else if facing == 2 then Or(rest, 0)
      else if facing == 3 then Or(rest, 1)
      else data
    else if rotation == 3 then
      if facing == 0 then Or(rest, 3)
      else if facing == 1 then Or(rest, 0)
      else if facing == 2 then Or(rest, 1)
      else if facing == 3 then Or(rest, 2)
      else data
    else
      data
  }

  lemma BedRotationForm(rotation: nat, data: nat)
    ensures BedRotation(rotation, data) == QuarterTurned(data, rotation, 64)
  {
    assert Pow2(6) == 64;
    QuarterTurnForm(data, rotation, 63, 6);
  }

  lemma LecternRotationForm(rotation: nat, data: nat)
    ensures LecternRotation(rotation, data) == QuarterTurned(data, rotation, 2)
  {
    assert Pow2(1) == 2;
    QuarterTurnForm(data, rotation, 1, 1);
  }

  lemma ComparatorRotationForm(rotation: nat, data: nat)
    ensures ComparatorRotation(rotation, data) == QuarterTurned(data, rotation, 4)
  {
    assert Pow2(2) == 4;
    QuarterTurnForm(data, rotation, 3, 2);
  }

  /** A door table entry is `rest | (facing + rotation) % 4`. */
  lemma DoorTableEntry(rotation: nat, facing: nat, rest: nat, data: nat)
    requires rotation in {1, 2, 3} && facing < 4
    ensures DoorTables(rotation, facing, rest, data) == Or(rest, (rotation + facing) % 4)
  {
  }

  lemma DoorTable(rotation: nat, data: nat)
    requires rotation in {1, 2, 3}
    ensures DoorRotation(rotation, data) == Or(And(data, 0x1C), (rotation + And(data, 3)) % 4)
  {
    LowTwoBits(data, 0, 0);
    DoorTableEntry(rotation, And(data, 3), And(data, 0x1C), data);
  }

  /** The door tables are the mod-4 form `data & 0b11100 | ((data & 3) + rotation) % 4`
      for rotations 1 to 3, and no change otherwise. */
  lemma DoorIsQuarterTurn(rotation: nat, data: nat)
    ensures rotation in {1, 2, 3} ==>
      DoorRotation(rotation, data) == Or(And(data, 0x1C), (rotation + And(data, 3)) % 4) &&
      DoorRotation(rotation, data) == QuarterTurned(data, rotation, 8)
    ensures rotation !in {1, 2, 3} ==> DoorRotation(rotation, data) == data
  {
    if rotation in {1, 2, 3} {
      DoorTable(rotation, data);
      assert Pow2(3) == 8;
      QuarterTurnForm(data, rotation, 7, 3);
    }
  }

  /** Each rewrite is undone by the opposite turn on the block's own data range. */
  lemma TwoBitRotationsUndo(rotation: nat, data: nat)
    requires rotation <= 4
    ensures data < 256 ==> BedRotation(4 - rotation, BedRotation(rotation, data)) == data
    ensures data < 8 ==> LecternRotation(4 - rotation, LecternRotation(rotation, data)) == data
    ensures data < 16 ==>
      ComparatorRotation(4 - rotation, ComparatorRotation(rotation, data)) == data
    ensures data < 32 && 1 <= rotation <= 3 ==>
      DoorRotation(4 - rotation, DoorRotation(rotation, data)) == data
  {
    if data < 256 {
      BedRotationForm(rotation, data);
      BedRotationForm(4 - rotation, BedRotation(rotation, data));
      QuarterTurnUndo(data, rotation, 64);
    }
    if data < 8 {
      LecternRotationForm(rotation, data);
      LecternRotationForm(4 - rotation, LecternRotation(rotation, data));
      QuarterTurnUndo(data, rotation, 2);
    }
    if data < 16 {
      ComparatorRotationForm(rotation, data);
      ComparatorRotationForm(4 - rotation, ComparatorRotation(rotation, data));
      QuarterTurnUndo(data, rotation, 4);
    }
    if data < 32 && 1 <= rotation <= 3 {
      DoorIsQuarterTurn(rotation, data);
      DoorIsQuarterTurn(4 - rotation, DoorRotation(rotation, data));
      QuarterTurnUndo(data, rotation, 8);
    }
  }

  // ---------------------------------------------------------------------
  // Signs (sixteen directions) and four-way blocks.
  // ---------------------------------------------------------------------

  /** `signpost`: four sixteenths per quarter turn. */
  function SignRotation(rotation: nat, data: nat): nat
  {
    if rotation == 1 then (data + 4) % 16
    else if rotation == 2 then (data + 8) % 16
    else if rotation == 3 then (data + 12) % 16
    else data
  }

  /** `loom` and `glazed_terracotta`. */
  function FourWayRotation(rotation: nat, data: nat): nat
  {
    (rotation + data) % 4
  }

  /** The sign branches are one formula, `(data + 4 * rotation) % 16`, and
      a quarter turn on top of r turns is r + 1 turns. */
  lemma SignRotationForm(rotation: nat, data: nat)
    requires rotation <= 3 && data < 16
    ensures SignRotation(rotation, data) == (data + 4 * rotation) % 16
    ensures SignRotation(1, SignRotation(rotation, data)) ==
            (if rotation == 3 then data else SignRotation(rotation + 1, data))
  {
  }

  /** Four-way rotations compose by adding turns, and four turns are none. */
  lemma FourWayRotationCompose(r1: nat, r2: nat, data: nat)
    requires data < 4
    ensures FourWayRotation(r2, FourWayRotation(r1, data)) == FourWayRotation(r1 + r2, data)
    ensures FourWayRotation(4, data) == data
  {
  }
}
