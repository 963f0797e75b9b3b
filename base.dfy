/** The decision logic of the base render primitive (base.c): the occlusion
    test, which blocks get a biome tint, which colour table they use, the
    biome clamp and 3x3 neighbourhood average of the tint multipliers, and the
    birch-foliage coordinate flip. Temperature and rainfall (floats), the
    colour-table lookup and the final tint are not modelled. */
module Base {
  import opened BlockClass
  import opened RenderState

  /** `base_occluded`: not on the x = 0, y = 15 or z = 15 face, and the three
      neighbours toward the viewer are neither hidden nor transparent. */
  predicate BaseOccluded(s: State, x: int, y: int, z: int)
  {
    x != 0 && y != 15 && z != 15 &&
    !s.hidden(x - 1, y, z) && !s.hidden(x, y, z + 1) && !s.hidden(x, y + 1, z) &&
    !s.transparent(s.blocks(x - 1, y, z)) && !s.transparent(s.blocks(x, y, z + 1)) &&
    !s.transparent(s.blocks(x, y + 1, z))
  }

  /** A block on a viewer-facing section face is never occluded. */
  lemma OccludedNeverOnFace(s: State, x: int, y: int, z: int)
    ensures x == 0 || y == 15 || z == 15 ==> !BaseOccluded(s, x, y, z)
  {
  }

  /** Occlusion depends only on the three neighbours at x-1, z+1 and y+1. */
  lemma OccludedIsLocal(s: State, s': State, x: int, y: int, z: int)
    requires forall p :: p in [(x - 1, y, z), (x, y, z + 1), (x, y + 1, z)] ==>
      s.hidden(p.0, p.1, p.2) == s'.hidden(p.0, p.1, p.2) &&
      s.transparent(s.blocks(p.0, p.1, p.2)) == s'.transparent(s'.blocks(p.0, p.1, p.2))
    ensures BaseOccluded(s, x, y, z) == BaseOccluded(s', x, y, z)
  {
    var n := [(x - 1, y, z), (x, y, z + 1), (x, y + 1, z)];
    assert n[0] in n && n[1] in n && n[2] in n;
  }

  const LeavesNames: seq<BlockName> :=
    [OakLeaves, SpruceLeaves, BirchLeaves, JungleLeaves, AcaciaLeaves, DarkOakLeaves]

  const WaterNames: seq<BlockName> := [FlowingWater, Water]

  /** The ten-entry list in the tint test: vines, lily pads, water, leaves. */
  const TintedNames: seq<BlockName> := [Vine, LilyPad] + WaterNames + LeavesNames

  /** The twelve blocks that take `grasscolor`. */
  const GrassColorNames: seq<BlockName> :=
    [GrassBlock, DeadBush, Grass, Fern, PumpkinStem, MelonStem, Vine, LilyPad,
     DoublePlant, AttachedPumpkinStem, AttachedMelonStem, TallGrass]

  /** The numbering gives distinct names distinct IDs, except that flowing and
      still water share one (mc_id.h numbers both 26). */
  predicate DistinctIds(ids: IdTable)
  {
    forall a: BlockName, b: BlockName :: ids(a) == ids(b) ==>
      a == b || (IsWater(a) && IsWater(b))
  }

  /** The names listed in `WaterNames`. */
  predicate IsWater(n: BlockName)
  {
    n == FlowingWater || n == Water
  }

  /** The tint-eligibility test of `base_draw`. */
  predicate TintEligible(s: State)
  {
    var below := BlockAt(s, s.x, s.y - 1, s.z);
    var belowData := s.getData(Data, s.x, s.y - 1, s.z) % 256;
    (s.block == Id(s, GrassBlock) && BlockAt(s, s.x, s.y + 1, s.z) != Id(s, Snow)) ||
    Member(s.ids, s.block, TintedNames) ||
    s.block == Id(s, TallGrass) || s.block == Id(s, Grass) || s.block == Id(s, Fern) ||
    ((s.block == Id(s, PumpkinStem) || s.block == Id(s, MelonStem)) && s.blockData != 7) ||
    (s.block == Id(s, DoublePlant) && (s.blockData == 2 || s.blockData == 3)) ||
    (s.block == Id(s, DoublePlant) && below == Id(s, DoublePlant) && (belowData == 2 || belowData == 3))
  }

  /** A block's ID is a name's ID only for the name itself (or its water twin). */
  lemma NotMemberUnlessListed(ids: IdTable, n: BlockName, names: seq<BlockName>)
    requires DistinctIds(ids)
    requires n !in names && (IsWater(n) ==> FlowingWater !in names && Water !in names)
    ensures !Member(ids, ids(n), names)
  {
    InIds(ids, names, ids(n));
  }

  /** Grass blocks are tinted exactly when the block above is not snow. */
  lemma GrassTintedUnlessSnowAbove(s: State)
    requires DistinctIds(s.ids) && s.block == Id(s, GrassBlock)
    ensures TintEligible(s) <==> BlockAt(s, s.x, s.y + 1, s.z) != Id(s, Snow)
  {
    var g := s.block;
    assert !Member(s.ids, g, TintedNames) by {
      NotMemberUnlessListed(s.ids, GrassBlock, TintedNames);
    }
    assert g != Id(s, TallGrass) && g != Id(s, Grass) && g != Id(s, Fern) by {
      IdsDiffer(s.ids, GrassBlock, TallGrass);
      IdsDiffer(s.ids, GrassBlock, Grass);
      IdsDiffer(s.ids, GrassBlock, Fern);
    }
    assert g != Id(s, PumpkinStem) && g != Id(s, MelonStem) && g != Id(s, DoublePlant) by {
      IdsDiffer(s.ids, GrassBlock, PumpkinStem);
      IdsDiffer(s.ids, GrassBlock, MelonStem);
      IdsDiffer(s.ids, GrassBlock, DoublePlant);
    }
  }

  /** Two different names, not both water, have different IDs. */
  lemma IdsDiffer(ids: IdTable, a: BlockName, b: BlockName)
    requires DistinctIds(ids) && a != b && !(IsWater(a) && IsWater(b))
    ensures ids(a) != ids(b)
  {
  }

  /** The colour table `base_draw` picks. */
  datatype ColorTable = GrassColor | FoliageColor | NoTable

  function ColorTableOf(s: State): ColorTable
  {
    if Member(s.ids, s.block, GrassColorNames) then GrassColor
    else if Member(s.ids, s.block, LeavesNames) then FoliageColor
    else NoTable
  }

  /** Birch foliage (data 2) reads its colour table with the axes flipped. */
  predicate FlipsXY(s: State)
  {
    ColorTableOf(s) == FoliageColor && s.blockData == 2
  }

  /** The biome lookup runs for a block with a table or for water. */
  predicate UsesBiome(s: State)
  {
    ColorTableOf(s) != NoTable || Member(s.ids, s.block, WaterNames)
  }

  /** The colour the multipliers scale: the table colour, except for water,
      which keeps 255 in every channel. */
  function BaseColour(s: State, tableColour: Rgb): Rgb
  {
    if !Member(s.ids, s.block, WaterNames) then tableColour else Rgb(255, 255, 255)
  }

  /** The grass group takes `grasscolor`. */
  lemma GrassGroupTable(s: State)
    ensures Member(s.ids, s.block, GrassColorNames) ==> ColorTableOf(s) == GrassColor
  {
  }

  /** Leaves take `foliagecolor`. */
  lemma LeavesTable(s: State, n: BlockName)
    requires DistinctIds(s.ids) && n in LeavesNames && s.block == Id(s, n)
    ensures ColorTableOf(s) == FoliageColor
  {
    NotMemberUnlessListed(s.ids, n, GrassColorNames);
    InIds(s.ids, LeavesNames, s.block);
  }

  /** Water takes no table, yet runs the biome code, and its colour stays
      white before the multipliers apply. */
  lemma WaterTable(s: State, c: Rgb)
    requires DistinctIds(s.ids) && (s.block == Id(s, Water) || s.block == Id(s, FlowingWater))
    ensures ColorTableOf(s) == NoTable && UsesBiome(s) && BaseColour(s, c) == Rgb(255, 255, 255)
  {
    var n := if s.block == Id(s, Water) then Water else FlowingWater;
    NotMemberUnlessListed(s.ids, n, GrassColorNames);
    NotMemberUnlessListed(s.ids, n, LeavesNames);
    InIds(s.ids, WaterNames, s.block);
  }

  /** The multipliers of one biome, by tint kind (one `biome_table` entry). */
  datatype BiomeColours = BiomeColours(wr: nat, wg: nat, wb: nat, gr: nat, gg: nat, gb: nat, fr: nat, fg: nat, fb: nat)

  /** Which multiplier triple a block reads. */
  datatype TintKind = WaterTint | FoliageTint | GrassTint

  function TintKindOf(s: State): TintKind
  {
    if Member(s.ids, s.block, WaterNames) then WaterTint
    else if Member(s.ids, s.block, LeavesNames) then FoliageTint
    else GrassTint
  }

  function Triple(e: BiomeColours, k: TintKind): (nat, nat, nat)
  {
    match k
    case WaterTint => (e.wr, e.wg, e.wb)
    case FoliageTint => (e.fr, e.fg, e.fb)
    case GrassTint => (e.gr, e.gg, e.gb)
  }

  /** A biome byte at or past `NUM_BIOMES` becomes `DEFAULT_BIOME`. */
  function ClampBiome(biome: nat, numBiomes: nat, defaultBiome: nat): (r: nat)
    ensures biome < numBiomes ==> r == biome
    ensures biome >= numBiomes ==> r == defaultBiome
    ensures defaultBiome < numBiomes ==> r < numBiomes
  {
    if biome >= numBiomes then defaultBiome else biome
  }

  /** The clamped biome of the column at offset (dx, dz), read as a `uint8_t`. */
  function BiomeAt(s: State, dx: int, dz: int, numBiomes: nat, defaultBiome: nat): nat
  {
    ClampBiome(s.getData(Biomes, s.x + dx, s.y, s.z + dz) % 256, numBiomes, defaultBiome)
  }

  /** The multiplier triple of the column at offset (dx, dz). */
  function Cell(s: State, table: nat -> BiomeColours, k: TintKind, dx: int, dz: int, numBiomes: nat, defaultBiome: nat): (nat, nat, nat)
  {
    Triple(table(BiomeAt(s, dx, dz, numBiomes, defaultBiome)), k)
  }

  /** The nine neighbourhood entries in loop order (dx outer, dz inner). */
  function Neighbourhood(s: State, table: nat -> BiomeColours, k: TintKind, numBiomes: nat, defaultBiome: nat): (r: seq<(nat, nat, nat)>)
    ensures |r| == 9
  {
    seq(9, i requires 0 <= i < 9 => Cell(s, table, k, i / 3 - 1, i % 3 - 1, numBiomes, defaultBiome))
  }

  /** Entry 3(dx+1) + (dz+1) is the column at offset (dx, dz). */
  lemma NeighbourhoodAt(s: State, table: nat -> BiomeColours, k: TintKind, numBiomes: nat, defaultBiome: nat, dx: int, dz: int)
    requires -1 <= dx <= 1 && -1 <= dz <= 1
    ensures Neighbourhood(s, table, k, numBiomes, defaultBiome)[3 * (dx + 1) + (dz + 1)] ==
      Cell(s, table, k, dx, dz, numBiomes, defaultBiome)
  {
    var i := 3 * (dx + 1) + (dz + 1);
    assert i / 3 - 1 == dx && i % 3 - 1 == dz;
  }

  /** Channel `c` (0 red, 1 green, 2 blue) of a multiplier triple. */
  function Pick(t: (nat, nat, nat), c: nat): nat
  {
    if c == 0 then t.0 else if c == 1 then t.1 else t.2
  }

  /** The sum of channel `c` over the first `i` triples. */
  function Sum(xs: seq<(nat, nat, nat)>, c: nat, i: nat): nat
    requires i <= |xs|
  {
    if i == 0 then 0 else Sum(xs, c, i - 1) + Pick(xs[i - 1], c)
  }

  /** The multipliers `base_draw` computes: with biomes, the integer mean of
      the neighbourhood; without, the default biome's entry. */
  function ExpectedMultipliers(s: State, table: nat -> BiomeColours, numBiomes: nat, defaultBiome: nat, useBiomes: bool): (nat, nat, nat)
  {
    if useBiomes then
      var n := Neighbourhood(s, table, TintKindOf(s), numBiomes, defaultBiome);
      (Sum(n, 0, |n|) / 9, Sum(n, 1, |n|) / 9, Sum(n, 2, |n|) / 9)
    else Triple(table(defaultBiome), TintKindOf(s))
  }

  /** The `multr/multg/multb` computation of `base_draw`. */
  method Multipliers(s: State, table: nat -> BiomeColours, numBiomes: nat, defaultBiome: nat, useBiomes: bool)
      returns (multr: nat, multg: nat, multb: nat)
    ensures (multr, multg, multb) == ExpectedMultipliers(s, table, numBiomes, defaultBiome, useBiomes)
  {
    var kind := TintKindOf(s);
    if useBiomes {
      multr, multg, multb := NeighbourhoodSums(s, table, kind, numBiomes, defaultBiome);
      multr, multg, multb := multr / 9, multg / 9, multb / 9;
    } else {
      var e := table(defaultBiome);
      multr, multg, multb := Triple(e, kind).0, Triple(e, kind).1, Triple(e, kind).2;
    }
  }

  /** The nested `dx`/`dz` loops summing the nine multiplier triples. */
  method NeighbourhoodSums(s: State, table: nat -> BiomeColours, kind: TintKind, numBiomes: nat, defaultBiome: nat)
      returns (multr: nat, multg: nat, multb: nat)
    ensures var n := Neighbourhood(s, table, kind, numBiomes, defaultBiome);
      multr == Sum(n, 0, |n|) && multg == Sum(n, 1, |n|) && multb == Sum(n, 2, |n|)
  {
    ghost var n := Neighbourhood(s, table, kind, numBiomes, defaultBiome);
    ghost var i := 0;
    multr, multg, multb := 0, 0, 0;
    var dx := -1;
    while dx <= 1
      invariant -1 <= dx <= 2 && i == 3 * (dx + 1)
      invariant multr == Sum(n, 0, i) && multg == Sum(n, 1, i) && multb == Sum(n, 2, i)
    {
      var dz := -1;
      while dz <= 1
        invariant -1 <= dz <= 2 && i == 3 * (dx + 1) + (dz + 1)
        invariant multr == Sum(n, 0, i) && multg == Sum(n, 1, i) && multb == Sum(n, 2, i)
      {
        AddCell(s, table, kind, numBiomes, defaultBiome, dx, dz, i, multr, multg, multb);
        multr, multg, multb := AddNeighbour(s, table, kind, dx, dz, numBiomes, defaultBiome, multr, multg, multb);
        i := i + 1;
        dz := dz + 1;
      }
      dx := dx + 1;
    }
  }

  /** Adding the column at (dx, dz), entry `i`, to the three running sums. */
  lemma AddCell(s: State, table: nat -> BiomeColours, k: TintKind, numBiomes: nat, defaultBiome: nat,
                dx: int, dz: int, i: nat, r: nat, g: nat, b: nat)
    requires -1 <= dx <= 1 && -1 <= dz <= 1 && i == 3 * (dx + 1) + (dz + 1)
    requires var n := Neighbourhood(s, table, k, numBiomes, defaultBiome);
      r == Sum(n, 0, i) && g == Sum(n, 1, i) && b == Sum(n, 2, i)
    ensures var n := Neighbourhood(s, table, k, numBiomes, defaultBiome);
      var cell := Cell(s, table, k, dx, dz, numBiomes, defaultBiome);
      r + cell.0 == Sum(n, 0, i + 1) && g + cell.1 == Sum(n, 1, i + 1) && b + cell.2 == Sum(n, 2, i + 1)
  {
    NeighbourhoodAt(s, table, k, numBiomes, defaultBiome, dx, dz);
    SumsStep(Neighbourhood(s, table, k, numBiomes, defaultBiome), i, Cell(s, table, k, dx, dz, numBiomes, defaultBiome), r, g, b);
  }

  /** Adding entry `i` to the three running sums. */
  lemma SumsStep(n: seq<(nat, nat, nat)>, i: nat, cell: (nat, nat, nat), r: nat, g: nat, b: nat)
    requires i < |n| && n[i] == cell
    requires r == Sum(n, 0, i) && g == Sum(n, 1, i) && b == Sum(n, 2, i)
    ensures r + cell.0 == Sum(n, 0, i + 1) && g + cell.1 == Sum(n, 1, i + 1) && b + cell.2 == Sum(n, 2, i + 1)
  {
  }

  /** One iteration of the neighbourhood loop: clamp the biome byte, add its triple. */
  method AddNeighbour(s: State, table: nat -> BiomeColours, kind: TintKind, dx: int, dz: int,
                      numBiomes: nat, defaultBiome: nat, multr: nat, multg: nat, multb: nat)
      returns (r: nat, g: nat, b: nat)
    ensures var c := Cell(s, table, kind, dx, dz, numBiomes, defaultBiome);
      r == multr + c.0 && g == multg + c.1 && b == multb + c.2
  {
    var biome := s.getData(Biomes, s.x + dx, s.y, s.z + dz) % 256;
    if biome >= numBiomes {
      biome := defaultBiome;
    }
    var e := Triple(table(biome), kind);
    r, g, b := multr + e.0, multg + e.1, multb + e.2;
  }

  /** A channel sum of values between lo and hi lies between lo and hi times the count. */
  lemma {:induction false} SumBounds(xs: seq<(nat, nat, nat)>, c: nat, i: nat, lo: nat, hi: nat)
    requires i <= |xs|
    requires forall k :: 0 <= k < i ==> lo <= Pick(xs[k], c) <= hi
    ensures lo * i <= Sum(xs, c, i) <= hi * i
  {
    if i > 0 {
      SumBounds(xs, c, i - 1, lo, hi);
      assert lo * i == lo * (i - 1) + lo && hi * i == hi * (i - 1) + hi;
    }
  }

  /** Each multiplier lies between the least and greatest neighbourhood entry
      of its channel. */
  lemma MeanWithinNeighbourhood(s: State, table: nat -> BiomeColours, numBiomes: nat, defaultBiome: nat, c: nat, lo: nat, hi: nat)
    requires c < 3
    requires var n := Neighbourhood(s, table, TintKindOf(s), numBiomes, defaultBiome);
      forall i :: 0 <= i < 9 ==> lo <= Pick(n[i], c) <= hi
    ensures lo <= Pick(ExpectedMultipliers(s, table, numBiomes, defaultBiome, true), c) <= hi
  {
    var n := Neighbourhood(s, table, TintKindOf(s), numBiomes, defaultBiome);
    SumBounds(n, c, |n|, lo, hi);
  }

  /** `flip_xy`: x becomes 255 - y and y becomes 255 - x. */
  function FlipXY(tablex: nat, tabley: nat): (r: (nat, nat))
    requires tablex < 256 && tabley < 256
    ensures r.0 < 256 && r.1 < 256
    ensures r.0 + tabley == 255 && r.1 + tablex == 255
  {
    var tmp := 255 - tablex;
    (255 - tabley, tmp)
  }

  /** Flipping twice is the identity, and the flipped point still indexes
      inside the 256 x 256 colour table. */
  lemma FlipXYInvolution(tablex: nat, tabley: nat)
    requires tablex < 256 && tabley < 256
    ensures var (x1, y1) := FlipXY(tablex, tabley); FlipXY(x1, y1) == (tablex, tabley)
    ensures var (x1, y1) := FlipXY(tablex, tabley); y1 * 256 + x1 < 65536
  {
  }
}
