/** Block classes: constant tables of block names, the membership scan the
    render primitives use on them, and the wall-band test (block_class.c). */
module BlockClass {
  import Bits

  /** `mc_block_t`: an unsigned 16-bit block ID. */
  type BlockId = bv16

  /** A numbering of the named blocks. The model keeps it abstract: every
      property below holds for any numbering. */
  type IdTable = BlockName -> BlockId

  /** The block names the class tables and the primitives refer to, one
      code each (as the `mc_block_id` enumeration names them). */
  newtype BlockName = n: int | 0 <= n < 188

  const OakStairs: BlockName := 0
  const BrickStairs: BlockName := 1
  const StoneBrickStairs: BlockName := 2
  const NetherBrickStairs: BlockName := 3
  const SandstoneStairs: BlockName := 4
  const SpruceStairs: BlockName := 5
  const BirchStairs: BlockName := 6
  const JungleStairs: BlockName := 7
  const QuartzStairs: BlockName := 8
  const AcaciaStairs: BlockName := 9
  const DarkOakStairs: BlockName := 10
  const RedSandstoneStairs: BlockName := 11
  const SmoothRedSandstoneStairs: BlockName := 12
  const PurpurStairs: BlockName := 13
  const PrismarineStairs: BlockName := 14
  const DarkPrismarineStairs: BlockName := 15
  const PrismarineBrickStairs: BlockName := 16
  const MossyCobblestoneStairs: BlockName := 17
  const CobblestoneStairs: BlockName := 18
  const SmoothQuartzStairs: BlockName := 19
  const PolishedGraniteStairs: BlockName := 20
  const PolishedDioriteStairs: BlockName := 21
  const PolishedAndesiteStairs: BlockName := 22
  const StoneStairs: BlockName := 23
  const GraniteStairs: BlockName := 24
  const DioriteStairs: BlockName := 25
  const AndesiteStairs: BlockName := 26
  const EndStoneBrickStairs: BlockName := 27
  const RedNetherBrickStairs: BlockName := 28
  const MossyStoneBrickStairs: BlockName := 29
  const SmoothSandstoneStairs: BlockName := 30
  const CrimsonStairs: BlockName := 31
  const WarpedStairs: BlockName := 32
  const BlackstoneStairs: BlockName := 33
  const PolishedBlackstoneBrickStairs: BlockName := 34
  const PolishedBlackstoneStairs: BlockName := 35
  const OakDoor: BlockName := 36
  const IronDoor: BlockName := 37
  const SpruceDoor: BlockName := 38
  const BirchDoor: BlockName := 39
  const JungleDoor: BlockName := 40
  const AcaciaDoor: BlockName := 41
  const DarkOakDoor: BlockName := 42
  const CrimsonDoor: BlockName := 43
  const WarpedDoor: BlockName := 44
  const OakFence: BlockName := 45
  const SpruceFence: BlockName := 46
  const BirchFence: BlockName := 47
  const JungleFence: BlockName := 48
  const AcaciaFence: BlockName := 49
  const CrimsonFence: BlockName := 50
  const WarpedFence: BlockName := 51
  const DarkOakFence: BlockName := 52
  const NetherBrickFence: BlockName := 53
  const OakFenceGate: BlockName := 54
  const SpruceFenceGate: BlockName := 55
  const BirchFenceGate: BlockName := 56
  const JungleFenceGate: BlockName := 57
  const AcaciaFenceGate: BlockName := 58
  const CrimsonFenceGate: BlockName := 59
  const WarpedFenceGate: BlockName := 60
  const DarkOakFenceGate: BlockName := 61
  const GrassBlock: BlockName := 62
  const FlowingWater: BlockName := 63
  const Water: BlockName := 64
  const Glass: BlockName := 65
  const Ice: BlockName := 66
  const NetherPortal: BlockName := 67
  const IronBars: BlockName := 68
  const GlassPane: BlockName := 69
  const LilyPad: BlockName := 70
  const AndesiteWall: BlockName := 71
  const BrickWall: BlockName := 72
  const CobblestoneWall: BlockName := 73
  const DioriteWall: BlockName := 74
  const EndStoneBrickWall: BlockName := 75
  const GraniteWall: BlockName := 76
  const MossyCobblestoneWall: BlockName := 77
  const MossyStoneBrickWall: BlockName := 78
  const NetherBrickWall: BlockName := 79
  const PrismarineWall: BlockName := 80
  const RedNetherBrickWall: BlockName := 81
  const RedSandstoneWall: BlockName := 82
  const SandstoneWall: BlockName := 83
  const StoneBrickWall: BlockName := 84
  const BlackstoneWall: BlockName := 85
  const PolishedBlackstoneBrickWall: BlockName := 86
  const PolishedBlackstoneWall: BlockName := 87
  const DoublePlant: BlockName := 88
  const WhiteStainedGlassPane: BlockName := 89
  const OrangeStainedGlassPane: BlockName := 90
  const MagentaStainedGlassPane: BlockName := 91
  const LightBlueStainedGlassPane: BlockName := 92
  const YellowStainedGlassPane: BlockName := 93
  const LimeStainedGlassPane: BlockName := 94
  const PinkStainedGlassPane: BlockName := 95
  const GrayStainedGlassPane: BlockName := 96
  const LightGrayStainedGlassPane: BlockName := 97
  const CyanStainedGlassPane: BlockName := 98
  const PurpleStainedGlassPane: BlockName := 99
  const BlueStainedGlassPane: BlockName := 100
  const BrownStainedGlassPane: BlockName := 101
  const GreenStainedGlassPane: BlockName := 102
  const RedStainedGlassPane: BlockName := 103
  const BlackStainedGlassPane: BlockName := 104
  const WhiteStainedGlass: BlockName := 105
  const OrangeStainedGlass: BlockName := 106
  const MagentaStainedGlass: BlockName := 107
  const LightBlueStainedGlass: BlockName := 108
  const YellowStainedGlass: BlockName := 109
  const LimeStainedGlass: BlockName := 110
  const PinkStainedGlass: BlockName := 111
  const GrayStainedGlass: BlockName := 112
  const LightGrayStainedGlass: BlockName := 113
  const CyanStainedGlass: BlockName := 114
  const PurpleStainedGlass: BlockName := 115
  const BlueStainedGlass: BlockName := 116
  const BrownStainedGlass: BlockName := 117
  const GreenStainedGlass: BlockName := 118
  const RedStainedGlass: BlockName := 119
  const BlackStainedGlass: BlockName := 120
  const OakSlab: BlockName := 121
  const SpruceSlab: BlockName := 122
  const BirchSlab: BlockName := 123
  const JungleSlab: BlockName := 124
  const AcaciaSlab: BlockName := 125
  const DarkOakSlab: BlockName := 126
  const PetrifiedOakSlab: BlockName := 127
  const StoneSlab: BlockName := 128
  const SandstoneSlab: BlockName := 129
  const CobblestoneSlab: BlockName := 130
  const BrickSlab: BlockName := 131
  const StoneBrickSlab: BlockName := 132
  const NetherBrickSlab: BlockName := 133
  const QuartzSlab: BlockName := 134
  const RedSandstoneSlab: BlockName := 135
  const PurpurSlab: BlockName := 136
  const PrismarineSlab: BlockName := 137
  const DarkPrismarineSlab: BlockName := 138
  const PrismarineBrickSlab: BlockName := 139
  const AndesiteSlab: BlockName := 140
  const DioriteSlab: BlockName := 141
  const GraniteSlab: BlockName := 142
  const PolishedAndesiteSlab: BlockName := 143
  const PolishedDioriteSlab: BlockName := 144
  const PolishedGraniteSlab: BlockName := 145
  const RedNetherBrickSlab: BlockName := 146
  const SmoothSandstoneSlab: BlockName := 147
  const CutSandstoneSlab: BlockName := 148
  const SmoothRedSandstoneSlab: BlockName := 149
  const CutRedSandstoneSlab: BlockName := 150
  const EndStoneBrickSlab: BlockName := 151
  const MossyCobblestoneSlab: BlockName := 152
  const MossyStoneBrickSlab: BlockName := 153
  const SmoothQuartzSlab: BlockName := 154
  const SmoothStoneSlab: BlockName := 155
  const CrimsonSlab: BlockName := 156
  const WarpedSlab: BlockName := 157
  const PolishedBlackstoneBrickSlab: BlockName := 158
  const BlackstoneSlab: BlockName := 159
  const PolishedBlackstoneSlab: BlockName := 160
  const Bedrock: BlockName := 161
  const Netherrack: BlockName := 162
  const NetherQuartzOre: BlockName := 163
  const Lava: BlockName := 164
  const SoulSand: BlockName := 165
  const Basalt: BlockName := 166
  const Blackstone: BlockName := 167
  const SoulSoil: BlockName := 168
  const NetherGoldOre: BlockName := 169
  const Leaves: BlockName := 170
  const Snow: BlockName := 171
  const Repeater: BlockName := 172
  const Vine: BlockName := 173
  const TallGrass: BlockName := 174
  const Grass: BlockName := 175
  const Fern: BlockName := 176
  const PumpkinStem: BlockName := 177
  const MelonStem: BlockName := 178
  const DeadBush: BlockName := 179
  const AttachedPumpkinStem: BlockName := 180
  const AttachedMelonStem: BlockName := 181
  const OakLeaves: BlockName := 182
  const SpruceLeaves: BlockName := 183
  const BirchLeaves: BlockName := 184
  const JungleLeaves: BlockName := 185
  const AcaciaLeaves: BlockName := 186
  const DarkOakLeaves: BlockName := 187

  /** `block_class_stair`, block_class.c:68-105 */
  const StairNames: seq<BlockName> := [
    OakStairs, BrickStairs, StoneBrickStairs, NetherBrickStairs, SandstoneStairs, SpruceStairs,
    BirchStairs, JungleStairs, QuartzStairs, AcaciaStairs, DarkOakStairs, RedSandstoneStairs,
    SmoothRedSandstoneStairs, PurpurStairs, PrismarineStairs, DarkPrismarineStairs,
    PrismarineBrickStairs, MossyCobblestoneStairs, CobblestoneStairs, SmoothQuartzStairs,
    PolishedGraniteStairs, PolishedDioriteStairs, PolishedAndesiteStairs, StoneStairs,
    GraniteStairs, DioriteStairs, AndesiteStairs, EndStoneBrickStairs, RedNetherBrickStairs,
    MossyStoneBrickStairs, SmoothSandstoneStairs, CrimsonStairs, WarpedStairs,
    BlackstoneStairs, PolishedBlackstoneBrickStairs, PolishedBlackstoneStairs
  ]

  /** `block_class_door`, block_class.c:109-118 */
  const DoorNames: seq<BlockName> := [
    OakDoor, IronDoor, SpruceDoor, BirchDoor, JungleDoor, AcaciaDoor, DarkOakDoor, CrimsonDoor,
    WarpedDoor
  ]

  /** `block_class_fence`, block_class.c:121-130 */
  const FenceNames: seq<BlockName> := [
    OakFence, SpruceFence, BirchFence, JungleFence, AcaciaFence, CrimsonFence, WarpedFence,
    DarkOakFence, NetherBrickFence
  ]

  /** `block_class_fence_gate`, block_class.c:133-141 */
  const FenceGateNames: seq<BlockName> := [
    OakFenceGate, SpruceFenceGate, BirchFenceGate, JungleFenceGate, AcaciaFenceGate,
    CrimsonFenceGate, WarpedFenceGate, DarkOakFenceGate
  ]

  /** `block_class_ancil`, block_class.c:144-259 */
  const AncilNames: seq<BlockName> := [
    OakDoor, IronDoor, SpruceDoor, BirchDoor, JungleDoor, AcaciaDoor, DarkOakDoor, CrimsonDoor,
    WarpedDoor, GrassBlock, FlowingWater, Water, Glass, Ice, OakFence, NetherPortal, IronBars,
    GlassPane, LilyPad, NetherBrickFence, AndesiteWall, BrickWall, CobblestoneWall,
    DioriteWall, EndStoneBrickWall, GraniteWall, MossyCobblestoneWall, MossyStoneBrickWall,
    NetherBrickWall, PrismarineWall, RedNetherBrickWall, RedSandstoneWall, SandstoneWall,
    StoneBrickWall, BlackstoneWall, PolishedBlackstoneBrickWall, PolishedBlackstoneWall,
    DoublePlant, WhiteStainedGlassPane, OrangeStainedGlassPane
  ] + [
    MagentaStainedGlassPane, LightBlueStainedGlassPane, YellowStainedGlassPane,
    LimeStainedGlassPane, PinkStainedGlassPane, GrayStainedGlassPane,
    LightGrayStainedGlassPane, CyanStainedGlassPane, PurpleStainedGlassPane,
    BlueStainedGlassPane, BrownStainedGlassPane, GreenStainedGlassPane, RedStainedGlassPane,
    BlackStainedGlassPane, WhiteStainedGlass, OrangeStainedGlass, MagentaStainedGlass,
    LightBlueStainedGlass, YellowStainedGlass, LimeStainedGlass, PinkStainedGlass,
    GrayStainedGlass, LightGrayStainedGlass, CyanStainedGlass, PurpleStainedGlass,
    BlueStainedGlass, BrownStainedGlass, GreenStainedGlass, RedStainedGlass, BlackStainedGlass,
    CrimsonFence, WarpedFence, SpruceFence, BirchFence, JungleFence, DarkOakFence, AcaciaFence
  ]

  /** `block_class_alt_height`, block_class.c:262-333 */
  const AltHeightNames: seq<BlockName> := [
    OakSlab, SpruceSlab, BirchSlab, JungleSlab, AcaciaSlab, DarkOakSlab, PetrifiedOakSlab,
    StoneSlab, SandstoneSlab, CobblestoneSlab, BrickSlab, StoneBrickSlab, NetherBrickSlab,
    QuartzSlab, RedSandstoneSlab, PurpurSlab, PrismarineSlab, DarkPrismarineSlab,
    PrismarineBrickSlab, AndesiteSlab, DioriteSlab, GraniteSlab, PolishedAndesiteSlab,
    PolishedDioriteSlab, PolishedGraniteSlab, RedNetherBrickSlab, SmoothSandstoneSlab,
    CutSandstoneSlab, SmoothRedSandstoneSlab, CutRedSandstoneSlab, EndStoneBrickSlab,
    MossyCobblestoneSlab, MossyStoneBrickSlab, SmoothQuartzSlab, SmoothStoneSlab, CrimsonSlab,
    WarpedSlab, PolishedBlackstoneBrickSlab, BlackstoneSlab, PolishedBlackstoneSlab
  ]

  /** `block_class_slab`, block_class.c:336-377 */
  const SlabNames: seq<BlockName> := [
    OakSlab, SpruceSlab, BirchSlab, JungleSlab, AcaciaSlab, DarkOakSlab, PetrifiedOakSlab,
    StoneSlab, SandstoneSlab, CobblestoneSlab, BrickSlab, StoneBrickSlab, NetherBrickSlab,
    QuartzSlab, RedSandstoneSlab, PurpurSlab, PrismarineSlab, DarkPrismarineSlab,
    PrismarineBrickSlab, AndesiteSlab, DioriteSlab, GraniteSlab, PolishedAndesiteSlab,
    PolishedDioriteSlab, PolishedGraniteSlab, RedNetherBrickSlab, SmoothSandstoneSlab,
    CutSandstoneSlab, SmoothRedSandstoneSlab, CutRedSandstoneSlab, EndStoneBrickSlab,
    MossyCobblestoneSlab, MossyStoneBrickSlab, SmoothQuartzSlab, SmoothStoneSlab, CrimsonSlab,
    WarpedSlab, PolishedBlackstoneBrickSlab, BlackstoneSlab, PolishedBlackstoneSlab
  ]

  /** `block_class_nether_roof`, block_class.c:380-389 */
  const NetherRoofNames: seq<BlockName> := [
    Bedrock, Netherrack, NetherQuartzOre, Lava, SoulSand, Basalt, Blackstone, SoulSoil,
    NetherGoldOre
  ]

  /** `block_class_no_inner_surfaces`, block_class.c:392-410 */
  const NoInnerSurfacesNames: seq<BlockName> := [
    WhiteStainedGlass, OrangeStainedGlass, MagentaStainedGlass, LightBlueStainedGlass,
    YellowStainedGlass, LimeStainedGlass, PinkStainedGlass, GrayStainedGlass,
    LightGrayStainedGlass, CyanStainedGlass, PurpleStainedGlass, BlueStainedGlass,
    BrownStainedGlass, GreenStainedGlass, RedStainedGlass, BlackStainedGlass, Glass, Ice
  ]

  /** `block_class_pane_and_bars`, block_class.c:413-431 */
  const PaneAndBarsNames: seq<BlockName> := [
    IronBars, GlassPane, WhiteStainedGlassPane, OrangeStainedGlassPane,
    MagentaStainedGlassPane, LightBlueStainedGlassPane, YellowStainedGlassPane,
    LimeStainedGlassPane, PinkStainedGlassPane, GrayStainedGlassPane,
    LightGrayStainedGlassPane, CyanStainedGlassPane, PurpleStainedGlassPane,
    BlueStainedGlassPane, BrownStainedGlassPane, GreenStainedGlassPane, RedStainedGlassPane,
    BlackStainedGlassPane
  ]

  /** The ID table the C code compiles from a name table. */
  function Ids(ids: IdTable, names: seq<BlockName>): (r: seq<BlockId>)
    ensures |r| == |names|
    ensures forall k :: 0 <= k < |names| ==> r[k] == ids(names[k])
  {
    seq(|names|, k requires 0 <= k < |names| => ids(names[k]))
  }

  /** Membership of `block` among the first `len` entries of `cls`. */
  predicate InClass(block: BlockId, cls: seq<BlockId>, len: nat)
    requires len <= |cls|
  {
    exists k :: 0 <= k < len && cls[k] == block
  }

  /** `block_class_is_subset`: an 8-wide stride when `sse2`, then a 4-wide
      stride when `mmx`, then a scalar tail, each returning on the first match. */
  method IsSubset(block: BlockId, cls: seq<BlockId>, len: nat, sse2: bool, mmx: bool)
      returns (found: bool)
    requires len <= |cls|
    ensures found <==> InClass(block, cls, len)
    ensures len == 0 ==> !found
  {
    var i: nat := 0;
    if sse2 {
      while i / 8 < len / 8
        invariant i % 8 == 0 && i <= len
        invariant forall k :: 0 <= k < i ==> cls[k] != block
      {
        LaneFits(i, len, 8);
        if exists k :: i <= k < i + 8 && cls[k] == block {
          return true;
        }
        LaneAligned(i, 8, 8);
        i := i + 8;
      }
      LaneAligned(i, 8, 0);
    }
    if mmx {
      while i / 4 < len / 4
        invariant i % 4 == 0 && i <= len
        invariant forall k :: 0 <= k < i ==> cls[k] != block
      {
        LaneFits(i, len, 4);
        if exists k :: i <= k < i + 4 && cls[k] == block {
          return true;
        }
        LaneAligned(i, 4, 4);
        i := i + 4;
      }
    }
    while i < len
      invariant i <= len
      invariant forall k :: 0 <= k < i ==> cls[k] != block
    {
      if block == cls[i] {
        return true;
      }
      i := i + 1;
    }
    return false;
  }

  /** A whole lane of `w` entries starting at an aligned `i` fits below `len`. */
  lemma LaneFits(i: nat, len: nat, w: nat)
    requires w > 0 && i % w == 0 && i <= len && i / w < len / w
    ensures i + w <= len
  {
    var q := i / w;
    assert i == w * q;
    if i + w > len {
      Bits.DivModUnique(len, w, q, len - i);
    }
  }

  /** Stepping an 8- or 4-aligned index by `step`; an 8-aligned index is 4-aligned. */
  lemma LaneAligned(i: nat, w: nat, step: nat)
    requires (w == 8 || w == 4) && i % w == 0 && (step == w || step == 0)
    ensures (i + step) % w == 0
    ensures w == 8 ==> i % 4 == 0
  {
    var q := i / w;
    assert i == w * q;
    if step == w {
      Bits.DivModUnique(i + step, w, q + 1, 0);
    }
    if w == 8 {
      Bits.DivModUnique(i, 4, 2 * q, 0);
    }
  }

  /** Membership does not depend on the order of the table. */
  lemma InClassPermutation(block: BlockId, c1: seq<BlockId>, c2: seq<BlockId>)
    requires multiset(c1) == multiset(c2)
    ensures InClass(block, c1, |c1|) <==> InClass(block, c2, |c2|)
  {
    InClassIsIn(block, c1);
    InClassIsIn(block, c2);
    assert block in c1 <==> block in multiset(c1);
    assert block in c2 <==> block in multiset(c2);
  }

  lemma InClassIsIn(block: BlockId, cls: seq<BlockId>)
    ensures InClass(block, cls, |cls|) <==> block in cls
  {
    if block in cls {
      var k :| 0 <= k < |cls| && cls[k] == block;
    }
  }

  /** A block is in a compiled table iff one of the table's names maps to it. */
  lemma InIds(ids: IdTable, names: seq<BlockName>, block: BlockId)
    ensures InClass(block, Ids(ids, names), |names|) <==> exists n :: n in names && ids(n) == block
  {
    var r := Ids(ids, names);
    if InClass(block, r, |names|) {
      var k :| 0 <= k < |names| && r[k] == block;
      assert names[k] in names;
    }
    if exists n :: n in names && ids(n) == block {
      var n :| n in names && ids(n) == block;
      var k :| 0 <= k < |names| && names[k] == n;
      assert r[k] == block;
    }
  }

  /** `block_class_is_subset(block, table, table_len)` on a name table compiled
      with the numbering `ids`, as the render primitives call it. */
  predicate Member(ids: IdTable, block: BlockId, names: seq<BlockName>)
  {
    InClass(block, Ids(ids, names), |names|)
  }

  /** Every name of `small` is a name of `big`: membership carries over for any numbering. */
  lemma SubTable(ids: IdTable, small: seq<BlockName>, big: seq<BlockName>, block: BlockId)
    requires forall n :: n in small ==> n in big
    ensures InClass(block, Ids(ids, small), |small|) ==> InClass(block, Ids(ids, big), |big|)
  {
    InIds(ids, small, block);
    InIds(ids, big, block);
  }

  /** Doors and fences are ancillary-data blocks. */
  lemma DoorFenceAreAncil(ids: IdTable, block: BlockId)
    ensures InClass(block, Ids(ids, DoorNames), |DoorNames|) ==> InClass(block, Ids(ids, AncilNames), |AncilNames|)
    ensures InClass(block, Ids(ids, FenceNames), |FenceNames|) ==> InClass(block, Ids(ids, AncilNames), |AncilNames|)
  {
    assert DoorNames == AncilNames[..9];
    var fenceAt := [14, 72, 73, 74, 76, 70, 71, 75, 19];
    forall k | 0 <= k < |FenceNames|
      ensures FenceNames[k] in AncilNames
    {
      assert FenceNames[k] == AncilNames[fenceAt[k]];
    }
    SubTable(ids, DoorNames, AncilNames, block);
    SubTable(ids, FenceNames, AncilNames, block);
  }

  /** The slab table and the alternate-height table list the same 40 blocks,
      so membership in one is membership in the other. */
  lemma SlabIsAltHeight(ids: IdTable, block: BlockId)
    ensures |SlabNames| == |AltHeightNames| == 40
    ensures InClass(block, Ids(ids, SlabNames), 40) <==> InClass(block, Ids(ids, AltHeightNames), 40)
  {
    assert SlabNames == AltHeightNames;
  }

  /** `block_class_is_wall`: the bits above the low byte must be exactly 0b111. */
  predicate IsWall(block: BlockId)
  {
    ((block & !0xFF) ^ (0x7 << 8)) == 0
  }

  /** The wall test selects exactly the band 1792..2047. */
  lemma IsWallBand(block: BlockId)
    ensures IsWall(block) <==> 1792 <= block <= 2047
    ensures !IsWall(1791) && IsWall(1792) && IsWall(2047) && !IsWall(2048)
  {
  }

  /** The wall IDs mc_id.h declares (andesite, brick, cobblestone, diorite,
      end stone brick, granite, mossy cobblestone, mossy stone brick, nether
      brick, prismarine, red nether brick, red sandstone, sandstone, stone brick). */
  const DeclaredWallIds: seq<BlockId> :=
    [661, 654, 279, 665, 664, 658, 280, 657, 660, 655, 662, 656, 663, 659]

  /** As written, the band test accepts none of the declared wall IDs. */
  lemma IsWallMissesDeclaredWalls()
    ensures forall k :: 0 <= k < |DeclaredWallIds| ==> !IsWall(DeclaredWallIds[k])
    ensures !IsWall(279)
  {
    forall k | 0 <= k < |DeclaredWallIds|
      ensures !IsWall(DeclaredWallIds[k])
    {
      IsWallBand(DeclaredWallIds[k]);
    }
  }

  /** The wall test the header describes for the IDs it declares: membership
      in the declared wall list. */
  predicate IsDeclaredWall(block: BlockId)
  {
    block in DeclaredWallIds
  }

  lemma IsDeclaredWallExact(block: BlockId)
    ensures IsDeclaredWall(block) <==> InClass(block, DeclaredWallIds, 14)
    ensures IsDeclaredWall(279) && IsDeclaredWall(280)
    ensures forall b: BlockId :: 654 <= b <= 665 ==> IsDeclaredWall(b)
  {
    InClassIsIn(block, DeclaredWallIds);
    assert DeclaredWallIds[2] == 279 && DeclaredWallIds[6] == 280;
  }
}
