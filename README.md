# Minecraft Overviewer core, modelled in Dafny

This project models the parts of Minecraft Overviewer that decide what a
rendered map shows. It covers the C render primitives, the world reader, the
texture registry and the mod extractor's code generator, and it proves
properties of each.

**C render core (`overviewer_core/src`)**
- `BlockClass` covers `block_class.c`. A block class is a constant table of block names. `block_class_is_subset` is the membership scan with its 8-wide, 4-wide and scalar strides. `block_class_is_wall` is the wall-ID band test.
- `RenderState` is the slice of the C `RenderState` these primitives read. The world-access calls are fields of an immutable record, given as parameters: `get_data`, `is_transparent`, `render_mode_hidden`, section presence, `getArrayShort3D`, the lighting colour and the face-occlusion test.
- `HideUnderground` covers `touches_light` and `underground` of the smooth-lighting-hide-underground mode.
- `SmoothLighting` covers the same file's face rule table, the four-sample corner blend, the two triangles per face and the choice between flat and smooth lighting.
- `Base` covers `base.c`: the occlusion test, the biome-tint decision, the colour-table choice, the biome clamp, the 3x3 average of the tint multipliers and the birch flip.
- `EdgeLines` covers `edge-lines.c`: which blocks get edge lines, and where they are drawn.

**World reader (`overviewer_core/world.py`)**
- `ChunkDecode` covers the 1.16 non-spanning block-state unpacker, the nibble arrays and the pre-1.13 section layout.
- `LegacyUnpack` and `LegacyDecode` cover the pre-1.16 spanning unpacker `_packed_longarray_to_shorts`. The first proves its fixed formulas against a little-endian bit stream; the second models the whole operation.
- `Palette` covers `_get_block`, which turns a 1.13+ palette entry into a (block, data) pair.
- `RegionSets` covers region paths and the rotated, cropped and cached region sets.
- `Spawn` covers `find_true_spawn`.

**Textures (`overviewer_core/textures.py`)**
- `Material` models the `material` decorator's registry, as a class, and `generate`'s flat texture table.
- `AncilRotation` models the ancillary-data rewrites that rotate a block with the map.

**Mod extractor (`tools/forgeExtractor.py`)**
- `ForgeStrings` covers the colour helpers, the path builders, the comma-key permutation lookup and `jsonPath`.
- `BiomeTable` covers `_generateBiomesC_`.
- `Injection` covers the `InjectionCode` class, as a class whose loop is a method proved against a run function.

**Shared modules**
- `Bits` holds Python's integer bit operations on unbounded naturals.
- `PyStrings` holds `split`, `join`, `find` and `replace(…, 1)`.
- `Wrappers` holds Option and Result, which stand for None and for the exceptions the code raises.

**Modelling choices**
- `mc_id.h` does not name every block that `block_class.c` uses. Block classes are therefore written over an enumeration of block names, and the render state carries an abstract numbering from names to IDs. The numeric literals of the C code stay literal.
- Floats are modelled as exact rationals where they decide something, namely the smooth-lighting blend and the unpacker's `bits_per_value`. Where they only colour a pixel, they are left out.
- Some behaviours are modelled exactly as written and stated as lemmas, without being corrected:
  - An end flag with no start flag still counts as a successful injection, and the copy replaces the source unchanged (`Injection.EndFlagAloneCopies`).
  - A model id with no folder gives a path with an empty folder segment (`ForgeStrings.ModelIdWithoutFolder`).

## Model

| member | source | states |
|---|---|---|
| BlockClass.Ids | overviewer_core/src/block_class.c:68-107 | a block-class table compiled from names has one ID per name, in order |
| BlockClass.IsSubset | overviewer_core/src/block_class.c:25-59 | the 8-wide, 4-wide and scalar scans answer true exactly when `block` is among the first `len` entries, whichever strides are enabled; an empty table never matches |
| BlockClass.LaneFits | overviewer_core/src/block_class.c:31 | a lane of the strided loop that starts at an aligned index below the last full lane stays inside the table |
| BlockClass.LaneAligned | overviewer_core/src/block_class.c:31-43 | stepping by the lane width keeps the index aligned, and leaving the 8-wide loop leaves it 4-aligned for the next loop |
| BlockClass.InClassPermutation | overviewer_core/src/block_class.c:25-59 | membership does not depend on the order of the table |
| BlockClass.InClassIsIn | overviewer_core/src/block_class.c:25-59 | scanning the whole table is sequence membership |
| BlockClass.InIds | overviewer_core/src/block_class.c:25-59 | a block is in a compiled table exactly when one of the table's names has its ID |
| BlockClass.SubTable | overviewer_core/src/block_class.c:68-432 | a table whose names are all in a bigger table matches only blocks the bigger one matches |
| BlockClass.DoorFenceAreAncil | overviewer_core/src/block_class.c:109-260 | every door and every fence is also in the ancillary-data table |
| BlockClass.SlabIsAltHeight | overviewer_core/src/block_class.c:262-378 | the slab and alternate-height tables both hold 40 blocks and match the same blocks |
| BlockClass.IsWallBand | overviewer_core/src/block_class.c:61-66 | the wall test accepts exactly the IDs 1792 to 2047 |
| BlockClass.IsWallMissesDeclaredWalls | overviewer_core/src/mc_id.h:538-555 | none of the fourteen wall IDs the header declares (279, 280, 654-665) passes the wall test as written |
| BlockClass.IsDeclaredWallExact | overviewer_core/src/mc_id.h:538-555 | the corrected wall test accepts exactly the fourteen declared wall IDs |
| Base.OccludedNeverOnFace | overviewer_core/src/primitives/base.c:59-72 | a block on the x = 0, y = 15 or z = 15 face of a section is never occluded |
| Base.OccludedIsLocal | overviewer_core/src/primitives/base.c:59-72 | occlusion depends only on the hidden flags and transparency of the three neighbours at x-1, z+1 and y+1 |
| Base.NotMemberUnlessListed | overviewer_core/src/primitives/base.c:98-99 | with distinct IDs, a block's ID matches a list only if its name (or its water twin) is listed |
| Base.GrassTintedUnlessSnowAbove | overviewer_core/src/primitives/base.c:96-110 | a grass block is tinted exactly when the block above it is not snow |
| Base.IdsDiffer | overviewer_core/src/mc_id.h:43-46 | two different names have different IDs unless both are water, which share ID 26 |
| Base.GrassGroupTable | overviewer_core/src/primitives/base.c:122-123 | the twelve grass-coloured blocks read `grasscolor` |
| Base.LeavesTable | overviewer_core/src/primitives/base.c:126-130 | the six leaves read `foliagecolor` |
| Base.WaterTable | overviewer_core/src/primitives/base.c:122-132 | water reads no colour table, still enters the biome code, and keeps white as its base colour |
| Base.ClampBiome | overviewer_core/src/primitives/base.c:145-151 | a biome below `NUM_BIOMES` is kept, any other becomes `DEFAULT_BIOME`, so the result indexes the table |
| Base.NeighbourhoodAt | overviewer_core/src/primitives/base.c:143-145 | entry 3(dx+1)+(dz+1) of the neighbourhood is the column at offset (dx, dz) |
| Base.Multipliers | overviewer_core/src/primitives/base.c:141-197 | with biomes the multipliers are the integer means of the nine neighbourhood triples, without them the default biome's triple of the block's tint kind |
| Base.NeighbourhoodSums | overviewer_core/src/primitives/base.c:143-170 | the nested dx/dz loops leave the channel sums of all nine neighbourhood triples |
| Base.AddCell | overviewer_core/src/primitives/base.c:145-168 | one iteration adds the triple of the column at (dx, dz) to each running sum |
| Base.SumsStep | overviewer_core/src/primitives/base.c:157-167 | adding entry i to the sums of the first i entries gives the sums of the first i+1 |
| Base.AddNeighbour | overviewer_core/src/primitives/base.c:145-168 | the clamped biome's water, foliage or grass triple is added to the three sums |
| Base.SumBounds | overviewer_core/src/primitives/base.c:143-176 | a channel sum of entries between lo and hi lies between lo and hi times the count |
| Base.MeanWithinNeighbourhood | overviewer_core/src/primitives/base.c:172-176 | each averaged multiplier lies between the least and greatest neighbourhood entry of its channel |
| Base.FlipXY | overviewer_core/src/primitives/base.c:210-214 | the birch flip maps (x, y) to (255 - y, 255 - x) inside the 256 x 256 table |
| Base.FlipXYInvolution | overviewer_core/src/primitives/base.c:210-217 | flipping twice gives the point back, and the flipped point indexes inside the 65536-entry table |
| EdgeLines.Increment | overviewer_core/src/primitives/edge-lines.c:45-49 | the shift is 0, 6 or 9; a bottom slab gets 6; only snow and repeaters get 9 |
| EdgeLines.EdgeLinesDraw | overviewer_core/src/primitives/edge-lines.c:34-71 | the lines drawn are those of EdgeLines.EdgeLinesShape: none unless eligible, else two one-pixel-apart lines for each of +X and -Z whose side test holds |
| EdgeLines.ComputeIncrement | overviewer_core/src/primitives/edge-lines.c:45-49 | the step-by-step assignments leave the shift of EdgeLines.Increment: 6 for a bottom slab, else 9 for snow or a repeater, else 0 |
| EdgeLines.SideTest | overviewer_core/src/primitives/edge-lines.c:53-56 | a side is drawn exactly when its block differs, is transparent or hidden, and is not a stair beside a slab (EdgeLines.SideExclusions) |
| EdgeLines.EdgeLinesShape | overviewer_core/src/primitives/edge-lines.c:51-69 | an eligible block draws two lines per drawn side, each pair one pixel apart, the +X pair starting at imgx + 12 and the -Z pair at imgx |
| EdgeLines.NoLinesUnlessEligible | overviewer_core/src/primitives/edge-lines.c:39 | only snow, slabs and opaque blocks get edge lines |
| EdgeLines.SideExclusions | overviewer_core/src/primitives/edge-lines.c:53-56 | a slab never draws toward a stair, a side showing the same block is never drawn, and any other transparent or hidden side is drawn |
| HideUnderground.TouchesLightNeighbours | overviewer_core/src/primitives/smooth-lighting-hide-underground.c:30-43 | the light test is true exactly when one of the five neighbours above, at x+1, x-1, z+1 or z-1 has non-zero data; the block below is never consulted |
| HideUnderground.TouchesLightIgnoresBelow | overviewer_core/src/primitives/smooth-lighting-hide-underground.c:30-43 | changing only the block below cannot change the light test |
| HideUnderground.RescanLowRows | overviewer_core/src/primitives/smooth-lighting-hide-underground.c:68-72 | the dy loop over rows 0 to 4 of a neighbouring column reports whether any of those rows holds a block |
| HideUnderground.DirectionFlags | overviewer_core/src/primitives/smooth-lighting-hide-underground.c:52-112 | each of the six direction flags is cleared exactly under its section-boundary condition, the four horizontal ones set again when the neighbouring column has a block in rows 0 to 4 |
| HideUnderground.FlagsClearedOnlyOnFace | overviewer_core/src/primitives/smooth-lighting-hide-underground.c:65-112 | a flag is only ever cleared for a block on that face of its section, and a horizontal flag is never cleared when the neighbouring column's lowest rows hold a block |
| HideUnderground.VerticalFlagsIgnoreBlocks | overviewer_core/src/primitives/smooth-lighting-hide-underground.c:85-93 | the -y and +y flags depend only on the section index and which sections of the chunk are present |
| HideUnderground.ColumnFirstStop | overviewer_core/src/primitives/smooth-lighting-hide-underground.c:124-132 | scanning up from a row, the first row with skylight makes the block visible, the first opaque row without skylight makes it hidden, and with neither below row 255 the scan decides nothing |
| HideUnderground.ScanColumn | overviewer_core/src/primitives/smooth-lighting-hide-underground.c:124-132 | the dy loop returns the verdict of the column scan |
| HideUnderground.Negate | overviewer_core/src/primitives/smooth-lighting-hide-underground.c:134-163 | the negated flags are set exactly for the directions whose flag is cleared |
| HideUnderground.ExposureEnumerates | overviewer_core/src/primitives/smooth-lighting-hide-underground.c:114-120 | the six-way exposure test holds exactly when some direction with a set flag has a transparent neighbour |
| HideUnderground.DirectionListed | overviewer_core/src/primitives/smooth-lighting-hide-underground.c:114-120 | one valid direction with a transparent neighbour is enough for the exposure test |
| HideUnderground.ListedDirection | overviewer_core/src/primitives/smooth-lighting-hide-underground.c:114-120 | the exposure test holds only through such a direction |
| HideUnderground.UnknownEnumerates | overviewer_core/src/primitives/smooth-lighting-hide-underground.c:134-163 | the six tests of the directions without data hold exactly when some direction with a cleared flag has a transparent neighbour |
| HideUnderground.HiddenWithListed | overviewer_core/src/primitives/smooth-lighting-hide-underground.c:114-169 | an unexposed or unlit block is hidden; for an exposed, lit block, grass and podzol (8, 11) take a deciding column scan's verdict, and otherwise the block is hidden exactly when a direction without data has a transparent neighbour |
| HideUnderground.Decide | overviewer_core/src/primitives/smooth-lighting-hide-underground.c:114-169 | the branch structure after the flags returns the hiding verdict for those flags |
| HideUnderground.Underground | overviewer_core/src/primitives/smooth-lighting-hide-underground.c:45-170 | the primitive computes the flags of the block and returns the hiding verdict for them |
| HideUnderground.HiddenUnlessExposedAndLit | overviewer_core/src/primitives/smooth-lighting-hide-underground.c:114-169 | a block none of whose valid neighbours is transparent, or that touches no skylight, is hidden |
| HideUnderground.HiddenByUnknownDirection | overviewer_core/src/primitives/smooth-lighting-hide-underground.c:134-164 | an exposed, lit block other than grass and podzol is hidden exactly when a neighbour in a direction without data is transparent |
| HideUnderground.GrassColumnDecides | overviewer_core/src/primitives/smooth-lighting-hide-underground.c:122-133 | for exposed, lit grass or podzol, the first skylit row above a clear run makes it visible and the first opaque unlit row hides it |
| SmoothLighting.RulesWellFormed | overviewer_core/src/primitives/smooth-lighting-hide-underground.c:197-246 | the rule table has three faces with four corners each; the top face carries the six touch-up points, the left and right faces none |
| SmoothLighting.ShadeChannel | overviewer_core/src/primitives/smooth-lighting-hide-underground.c:306-312 | a channel gathered from four samples, pushed toward 1020 by the complementary strength and divided by four, lies between the plain mean and 255; strength 1 gives the plain mean and strength 0 gives 255 |
| SmoothLighting.FloorBounds | overviewer_core/src/primitives/smooth-lighting-hide-underground.c:306 | truncating the pushed sum back to an integer keeps it between the gathered sum and 1020 |
| SmoothLighting.Samples | overviewer_core/src/primitives/smooth-lighting-hide-underground.c:278-304 | each corner gathers exactly four lighting samples |
| SmoothLighting.GatherCorner | overviewer_core/src/primitives/smooth-lighting-hide-underground.c:275-312 | one iteration of the corner loop gives each channel the blend of its four samples that SmoothLighting.CornerColourBounds bounds by 255 |
| SmoothLighting.CornerGathered | overviewer_core/src/primitives/smooth-lighting-hide-underground.c:274-313 | a vertex at the corner's image position with the corner's colour is that corner's vertex |
| SmoothLighting.DoShadingWithRule | overviewer_core/src/primitives/smooth-lighting-hide-underground.c:255-326 | shading a face yields the triangles of SmoothLighting.ShadeFaceOf: none when the neighbour is occluded, else the two over corners 0, 1, 2 and 0, 2, 3 |
| SmoothLighting.ShadeFaceOf | overviewer_core/src/primitives/smooth-lighting-hide-underground.c:315-325 | an unoccluded face draws the inclusive triangle over corners 0, 1, 2 with the face's touch-ups, then the triangle over corners 0, 2, 3 without touch-ups |
| SmoothLighting.ShadeFaceShape | overviewer_core/src/primitives/smooth-lighting-hide-underground.c:265-325 | a face draws nothing exactly when its neighbour is occluded; otherwise two triangles sharing corner 0 and the diagonal from corner 2, placed at the block's image position plus the corner offsets, with touch-ups only on the first |
| SmoothLighting.CornerColourBounds | overviewer_core/src/primitives/smooth-lighting-hide-underground.c:306-312 | every corner channel is at most 255; full strength gives the mean of the four samples and zero strength gives white |
| SmoothLighting.WaterFaces | overviewer_core/src/primitives/smooth-lighting-hide-underground.c:360-368 | water lights its top, left and right faces exactly when bits 4, 1 and 2 of its data are set |
| SmoothLighting.SmoothLightingDraw | overviewer_core/src/primitives/smooth-lighting-hide-underground.c:343-376 | the draw step yields flat lighting for plain transparent blocks and otherwise the gated faces' triangles, whose shape SmoothLighting.SmoothDrawShape states |
| SmoothLighting.FlatOnlyWhenPlainTransparent | overviewer_core/src/primitives/smooth-lighting-hide-underground.c:350-356 | flat lighting is used exactly for transparent blocks other than leaves, flowing water, water and ice |
| SmoothLighting.FaceIfShape | overviewer_core/src/primitives/smooth-lighting-hide-underground.c:370-375 | each gated face adds zero or two triangles, and only the top face adds touch-ups |
| SmoothLighting.SmoothDrawShape | overviewer_core/src/primitives/smooth-lighting-hide-underground.c:370-375 | a smooth drawing holds an even number of triangles, at most six, and any touch-ups are the top face's six |
| SmoothLighting.WaterFaceGating | overviewer_core/src/primitives/smooth-lighting-hide-underground.c:360-375 | water with bits 4, 1 and 2 clear draws nothing, and any block but water draws its top, left and right faces in that order |
| ChunkDecode.Unpack116With | overviewer_core/world.py:1586-1595 | once the width is fixed, a successful unpack has n entries, each below 2 to the width |
| ChunkDecode.Elem116Bound | overviewer_core/world.py:1589-1593 | an entry masked at a width of at most 16 bits is below 2 to the width |
| ChunkDecode.Unpack116 | overviewer_core/world.py:1583-1595 | n = 0 is exactly the case that fails with a division by zero; any success has n entries |
| ChunkDecode.SlotBound | overviewer_core/world.py:1591-1593 | when the slices broadcast, every entry's long lies inside the array (or the array is one long) |
| ChunkDecode.SlotIndex | overviewer_core/world.py:1592-1593 | slot t of slice i is entry i + t·spl, below n, whose remainder is i and quotient t |
| ChunkDecode.SlotCovered | overviewer_core/world.py:1592-1593 | every entry with remainder i is a slot of slice i |
| ChunkDecode.SlotsShrink | overviewer_core/world.py:1592 | slice 0 is the longest, with ceil(n / spl) slots |
| ChunkDecode.UnpackV116 | overviewer_core/world.py:1583-1595 | the loop over the spl slices returns the unpack whose inverse is the packer (ChunkDecode.Unpack116Pack), with its ZeroDivisionError for n = 0 and its ValueError when the slices do not broadcast |
| ChunkDecode.FilledComplete | overviewer_core/world.py:1591-1595 | after all spl slices are written every entry k holds field k mod spl of long k div spl, which is the whole unpack |
| ChunkDecode.FillSlice | overviewer_core/world.py:1593 | writing slice i sets exactly the entries with remainder i to their field of long k div spl, leaving the others |
| ChunkDecode.PartialStep | overviewer_core/world.py:1593 | writing slot t of a slice changes only entry i + t·spl |
| ChunkDecode.SlotValue | overviewer_core/world.py:1593 | slot t of slice i holds field i of long t, truncated to 16 bits |
| ChunkDecode.PackSpanBound | overviewer_core/world.py:1583-1595 | packing values below 2^w side by side gives a number below 2^(w·count) |
| ChunkDecode.PackSpanField | overviewer_core/world.py:1593 | field r of a packed span is the r-th packed value |
| ChunkDecode.PackAtFits | overviewer_core/world.py:1586 | a packed long of spl values of w bits fits in 64 bits |
| ChunkDecode.SpanFits | overviewer_core/world.py:1586 | a span of at most spl values fits in 64 bits |
| ChunkDecode.PackU64 | overviewer_core/world.py:1583-1595 | the inverse packer yields ceil(count / spl) longs |
| ChunkDecode.Pack116 | overviewer_core/world.py:1583-1595 | packing at width w yields the long count the unpacker expects for w |
| ChunkDecode.SplRange | overviewer_core/world.py:1588 | for widths 4 to 64 between 1 and 16 values share a long, filling at most 64 bits |
| ChunkDecode.Unpack116WithPack | overviewer_core/world.py:1586-1595 | unpacking at width w what was packed at width w gives the values back |
| ChunkDecode.UnpackWithPackU64 | overviewer_core/world.py:1586-1595 | the same round trip over the packer with spl values per long |
| ChunkDecode.UnpackPackAt | overviewer_core/world.py:1593 | each unpacked entry of a packed array is the value packed there |
| ChunkDecode.ElemOfField | overviewer_core/world.py:1593 | an entry is its field when that field fits in 16 bits |
| ChunkDecode.PackElem | overviewer_core/world.py:1593 | field i of packed long q is value q·spl + i |
| ChunkDecode.PackAtField | overviewer_core/world.py:1593 | the same for one packed long |
| ChunkDecode.ChunkIndex | overviewer_core/world.py:1592-1593 | entry k is slot k div spl of slice k mod spl, inside the packed array |
| ChunkDecode.Unpack116Pack | overviewer_core/world.py:1583-1595 | when the width derived from the array length is the width used, the unpacker inverts the packer |
| ChunkDecode.SectionWidths | overviewer_core/world.py:1584 | for a 4096-entry section the derived width is right for the widths 4 to 10 and 12, and is 12 where 11 was used |
| ChunkDecode.Unpack116ElevenBitSection | overviewer_core/world.py:1584 | a section packed at 11 bits decodes with block 1's value in block 0 |
| ChunkDecode.PackSpanZeros | overviewer_core/world.py:1593 | zeros pack to zero |
| ChunkDecode.BitLength | overviewer_core/world.py:1584 | the bit length r of x is the least r with x below 2^r |
| ChunkDecode.Unpack116Palette | overviewer_core/world.py:1583-1595 | the unpacker with its width taken from the palette size yields n entries |
| ChunkDecode.Unpack116PalettePack | overviewer_core/world.py:1583-1595 | with the width taken from the palette size, any palette indices packed at that width decode back to themselves |
| ChunkDecode.Expand | overviewer_core/world.py:1625-1628 | the nibble expansion doubles the length |
| ChunkDecode.NibblesOfByte | overviewer_core/world.py:1627-1628 | masking with 0x0F is the low nibble and masking with 0xF0 then shifting by 4 the high one |
| ChunkDecode.ExpandNibbles | overviewer_core/world.py:1625-1628 | every expanded entry is a nibble, and each byte is its even entry plus 16 times its odd entry |
| ChunkDecode.ExpandAt | overviewer_core/world.py:1627-1628 | even entry 2i is the low nibble of byte i and odd entry 2i+1 its high nibble |
| ChunkDecode.Compress | overviewer_core/world.py:1625-1628 | the inverse packs each pair of nibbles into one byte |
| ChunkDecode.ExpandCompress | overviewer_core/world.py:1625-1628 | expanding compressed nibbles gives them back |
| ChunkDecode.ExpandSection | overviewer_core/world.py:1774-1779 | a nibble array reshapes exactly when it has 2048 bytes, and then expands to 4096 nibbles |
| ChunkDecode.SkyLight | overviewer_core/world.py:1769-1781 | a spawn-status chunk with lights is full-bright 255, a missing sky-light array is all zero, and otherwise the array is expanded |
| ChunkDecode.BlockLight | overviewer_core/world.py:1784-1793 | a missing block-light array is all zero, otherwise it is expanded |
| ChunkDecode.AddExpanded | overviewer_core/world.py:1640-1644 | the Add nibbles, shifted into bits 8 to 11, double the length |
| ChunkDecode.MergeAdd | overviewer_core/world.py:1632-1648 | merging keeps one id per block |
| ChunkDecode.MergeAddIds | overviewer_core/world.py:1632-1648 | with a 2048-byte Add array each block id is its byte plus 256 times its Add nibble, below 4096 |
| ChunkDecode.MergeAddAt | overviewer_core/world.py:1643-1645 | the same, one block at a time |
| ChunkDecode.AddNibbles | overviewer_core/world.py:1643-1644 | the 0x0F mask shifted left 8 and the 0xF0 mask shifted left 4 both give 256 times the nibble |
| ChunkDecode.BlockDataV112 | overviewer_core/world.py:1622-1650 | the pre-1.13 layout decodes exactly when Data has 2048 bytes, Blocks 4096 and any Add 2048; then the data are the expanded nibbles and every id is below 4096 |
| ChunkDecode.V112Bounds | overviewer_core/world.py:1622-1650 | under those sizes every id is below 4096 and every data value below 16 |
| Palette.Digit | overviewer_core/world.py:1219 | a decimal digit has a value below 10 |
| Palette.DigitChar | overviewer_core/world.py:1219 | the character written for a value below 10 is a digit with that value |
| Palette.ParseInt | overviewer_core/world.py:1219 | on the canonical property strings Minecraft writes, `int()` succeeds exactly on a non-empty run of ASCII digits; the wider forms Python also accepts are not modelled |
| Palette.Decimal | overviewer_core/world.py:1219 | a number's decimal text is never empty |
| Palette.ParseDecimal | overviewer_core/world.py:1219 | parsing a number's decimal text gives the number back |
| Palette.DelayLayout | overviewer_core/world.py:1218-1219 | the repeater and comparator data is the facing code plus four times delay - 1, Python's negative shift for delay 0 included |
| Palette.StairsLayout | overviewer_core/world.py:1366-1412 | the stairs data is 1 for a non-bottom half, plus twice the shape code, plus eight times a facing bit that is 0, 1, 2, 4 or 8 |
| Palette.DoorLayout | overviewer_core/world.py:1413-1422 | from a zero base a door's data is 16 for a left hinge, 8 for the upper half, 4 when open, plus the facing code |
| Palette.WireSumAll | overviewer_core/world.py:1225-1233 | with all four sides present the wire loop adds each side's code at bit positions 1, 3, 5 and 7 |
| Palette.WireMissing | overviewer_core/world.py:1228-1229 | a wire entry missing any of east, north, west or south fails with a KeyError |
| Palette.WireLoop | overviewer_core/world.py:1225-1233 | the loop over the four directions adds each side's code as Palette.WireLayout states, and fails with a KeyError when a direction is missing |
| Palette.WireSideCode | overviewer_core/world.py:1229-1232 | "side" adds 2^index and "up" adds 2^(index+1) |
| Palette.WireLayout | overviewer_core/world.py:1225-1233 | the wire data is the powered bit plus two bits per side, east lowest and south highest, and is below 512 |
| Palette.GetBlock | overviewer_core/world.py:1176-1178 | an unknown block name fails with a KeyError |
| Palette.WaterloggedIsWater | overviewer_core/world.py:1180-1184 | a waterlogged entry becomes (water, 0) when the water branch copies its pair |
| Palette.PlainKeepsPair | overviewer_core/world.py:1176-1494 | a block no branch accepts keeps the block map's pair |
| Palette.StairsEntry | overviewer_core/world.py:1366-1412 | a stairs entry succeeds exactly when half, shape and facing are present, and then gives the stairs data |
| Palette.DoorEntry | overviewer_core/world.py:1413-1422 | a door entry succeeds exactly when hinge, open, half and a known facing are present, and then gives the door layout |
| Palette.WireEntry | overviewer_core/world.py:1225-1233 | a wire entry succeeds exactly when its properties hold all wire keys; its data is below 512 and at least 256 exactly when south is "up" |
| Palette.RedstoneDeviceEntry | overviewer_core/world.py:1213-1219 | a powered repeater or comparator moves to the next block id, and its data is the facing plus four times delay - 1 |
| Palette.SnowyGrassEntry | overviewer_core/world.py:1235-1237 | a snowy grass block gets 16 added to its data |
| Palette.CeilingButtonEntry | overviewer_core/world.py:1275-1280 | a ceiling button becomes air |
| Palette.BarrelEntry | overviewer_core/world.py:1440-1442 | a barrel's data is twice its facing code plus one when open, below 12 |
| Palette.SeaPickleEntry | overviewer_core/world.py:1488-1492 | a sea pickle needs properties; a non-empty waterlogged value turns it into air, otherwise into water, keeping the map's data |
| LegacyUnpack.LeBytes | overviewer_core/world.py:1520 | a number's k little-endian bytes are exactly k bytes |
| LegacyUnpack.BytesOf | overviewer_core/world.py:1520 | viewing the longs as bytes gives eight bytes per long |
| LegacyUnpack.ByteField | overviewer_core/world.py:1528-1579 | stream bits p onward are the same bits of the byte that holds them, when the run stays inside that byte |
| LegacyUnpack.StreamSplit | overviewer_core/world.py:1528-1579 | a run of stream bits is its first part plus its second part shifted above it |
| LegacyUnpack.StreamSplitAt | overviewer_core/world.py:1528-1579 | the same split at a given stream position |
| LegacyUnpack.StreamBound | overviewer_core/world.py:1528-1579 | a run of w stream bits is below 2^w |
| LegacyUnpack.AndRun | overviewer_core/world.py:1528-1579 | masking a byte with a contiguous run of ones keeps exactly those bits in place |
| LegacyUnpack.Piece | overviewer_core/world.py:1528-1579 | a masked-and-shifted byte term places its run of stream bits at its target bit of the value |
| LegacyUnpack.MaskedTerm | overviewer_core/world.py:1528-1579 | `(b[j] & mask) << l >> r` with a contiguous mask is that run of stream bits, moved |
| LegacyUnpack.WholeTerm | overviewer_core/world.py:1555-1579 | an unmasked byte shifted left is eight stream bits moved to the shift |
| LegacyUnpack.One | overviewer_core/world.py:1528-1579 | a formula of one term reads k consecutive stream bits |
| LegacyUnpack.TwoPieces | overviewer_core/world.py:1528-1579 | the two terms of a two-term formula read adjacent runs of stream bits |
| LegacyUnpack.TwoCombine | overviewer_core/world.py:1528-1579 | OR-ing the lower run with the upper run shifted above it is the combined run |
| LegacyUnpack.Two | overviewer_core/world.py:1528-1579 | a two-term formula reads its value's consecutive stream bits |
| LegacyUnpack.ThreePieces | overviewer_core/world.py:1571-1574 | the three terms of a three-term formula read adjacent runs of stream bits |
| LegacyUnpack.ThreeCombine | overviewer_core/world.py:1571-1574 | OR-ing three adjacent runs at their places is the combined run |
| LegacyUnpack.Three | overviewer_core/world.py:1571-1574 | a three-term formula reads its value's consecutive stream bits |
| LegacyUnpack.FiveReads | overviewer_core/world.py:1530-1538 | each of the 8 formulas of the 5-bit branch reads value i of its group as stream bits 5i to 5i + 4 |
| LegacyUnpack.FiveValue0 | overviewer_core/world.py:1531 | value 0 of a 5-bit group is stream bits 0 to 4 of the group |
| LegacyUnpack.FiveValue1 | overviewer_core/world.py:1532 | value 1 of a 5-bit group is stream bits 5 to 9 of the group |
| LegacyUnpack.FiveValue2 | overviewer_core/world.py:1533 | value 2 of a 5-bit group is stream bits 10 to 14 of the group |
| LegacyUnpack.FiveValue3 | overviewer_core/world.py:1534 | value 3 of a 5-bit group is stream bits 15 to 19 of the group |
| LegacyUnpack.FiveValue4 | overviewer_core/world.py:1535 | value 4 of a 5-bit group is stream bits 20 to 24 of the group |
| LegacyUnpack.FiveValue5 | overviewer_core/world.py:1536 | value 5 of a 5-bit group is stream bits 25 to 29 of the group |
| LegacyUnpack.FiveValue6 | overviewer_core/world.py:1537 | value 6 of a 5-bit group is stream bits 30 to 34 of the group |
| LegacyUnpack.FiveValue7 | overviewer_core/world.py:1538 | value 7 of a 5-bit group is stream bits 35 to 39 of the group |
| LegacyUnpack.SixReads | overviewer_core/world.py:1539-1543 | each of the 4 formulas of the 6-bit branch reads value i of its group as stream bits 6i to 6i + 5 |
| LegacyUnpack.SixValue0 | overviewer_core/world.py:1540 | value 0 of a 6-bit group is stream bits 0 to 5 of the group |
| LegacyUnpack.SixValue1 | overviewer_core/world.py:1541 | value 1 of a 6-bit group is stream bits 6 to 11 of the group |
| LegacyUnpack.SixValue2 | overviewer_core/world.py:1542 | value 2 of a 6-bit group is stream bits 12 to 17 of the group |
| LegacyUnpack.SixValue3 | overviewer_core/world.py:1543 | value 3 of a 6-bit group is stream bits 18 to 23 of the group |
| LegacyUnpack.SevenReads | overviewer_core/world.py:1544-1552 | each of the 8 formulas of the 7-bit branch reads value i of its group as stream bits 7i to 7i + 6 |
| LegacyUnpack.SevenValue0 | overviewer_core/world.py:1545 | value 0 of a 7-bit group is stream bits 0 to 6 of the group |
| LegacyUnpack.SevenValue1 | overviewer_core/world.py:1546 | value 1 of a 7-bit group is stream bits 7 to 13 of the group |
| LegacyUnpack.SevenValue2 | overviewer_core/world.py:1547 | value 2 of a 7-bit group is stream bits 14 to 20 of the group |
| LegacyUnpack.SevenValue3 | overviewer_core/world.py:1548 | value 3 of a 7-bit group is stream bits 21 to 27 of the group |
| LegacyUnpack.SevenValue4 | overviewer_core/world.py:1549 | value 4 of a 7-bit group is stream bits 28 to 34 of the group |
| LegacyUnpack.SevenValue5 | overviewer_core/world.py:1550 | value 5 of a 7-bit group is stream bits 35 to 41 of the group |
| LegacyUnpack.SevenValue6 | overviewer_core/world.py:1551 | value 6 of a 7-bit group is stream bits 42 to 48 of the group |
| LegacyUnpack.SevenValue7 | overviewer_core/world.py:1552 | value 7 of a 7-bit group is stream bits 49 to 55 of the group |
| LegacyUnpack.NineReads | overviewer_core/world.py:1554-1562 | each of the 8 formulas of the 9-bit branch reads value i of its group as stream bits 9i to 9i + 8 |
| LegacyUnpack.NineValue0 | overviewer_core/world.py:1555 | value 0 of a 9-bit group is stream bits 0 to 8 of the group |
| LegacyUnpack.NineValue1 | overviewer_core/world.py:1556 | value 1 of a 9-bit group is stream bits 9 to 17 of the group |
| LegacyUnpack.NineValue2 | overviewer_core/world.py:1557 | value 2 of a 9-bit group is stream bits 18 to 26 of the group |
| LegacyUnpack.NineValue3 | overviewer_core/world.py:1558 | value 3 of a 9-bit group is stream bits 27 to 35 of the group |
| LegacyUnpack.NineValue4 | overviewer_core/world.py:1559 | value 4 of a 9-bit group is stream bits 36 to 44 of the group |
| LegacyUnpack.NineValue5 | overviewer_core/world.py:1560 | value 5 of a 9-bit group is stream bits 45 to 53 of the group |
| LegacyUnpack.NineValue6 | overviewer_core/world.py:1561 | value 6 of a 9-bit group is stream bits 54 to 62 of the group |
| LegacyUnpack.NineValue7 | overviewer_core/world.py:1562 | value 7 of a 9-bit group is stream bits 63 to 71 of the group |
| LegacyUnpack.TenReads | overviewer_core/world.py:1563-1567 | each of the 4 formulas of the 10-bit branch reads value i of its group as stream bits 10i to 10i + 9 |
| LegacyUnpack.TenValue0 | overviewer_core/world.py:1564 | value 0 of a 10-bit group is stream bits 0 to 9 of the group |
| LegacyUnpack.TenValue1 | overviewer_core/world.py:1565 | value 1 of a 10-bit group is stream bits 10 to 19 of the group |
| LegacyUnpack.TenValue2 | overviewer_core/world.py:1566 | value 2 of a 10-bit group is stream bits 20 to 29 of the group |
| LegacyUnpack.TenValue3 | overviewer_core/world.py:1567 | value 3 of a 10-bit group is stream bits 30 to 39 of the group |
| LegacyUnpack.ElevenReads | overviewer_core/world.py:1568-1576 | each of the 8 corrected 11-bit formulas, in which value 6 shifts byte 9 by 6 where world.py:1575 shifts it by 2, reads value i of its group as stream bits 11i to 11i + 10 |
| LegacyUnpack.ElevenValue0 | overviewer_core/world.py:1569 | value 0 of a 11-bit group is stream bits 0 to 10 of the group |
| LegacyUnpack.ElevenValue1 | overviewer_core/world.py:1570 | value 1 of a 11-bit group is stream bits 11 to 21 of the group |
| LegacyUnpack.ElevenValue2 | overviewer_core/world.py:1571 | value 2 of a 11-bit group is stream bits 22 to 32 of the group |
| LegacyUnpack.ElevenValue3 | overviewer_core/world.py:1572 | value 3 of a 11-bit group is stream bits 33 to 43 of the group |
| LegacyUnpack.ElevenValue4 | overviewer_core/world.py:1573 | value 4 of a 11-bit group is stream bits 44 to 54 of the group |
| LegacyUnpack.ElevenValue5 | overviewer_core/world.py:1574 | value 5 of a 11-bit group is stream bits 55 to 65 of the group |
| LegacyUnpack.ElevenValue6 | overviewer_core/world.py:1575 | in the corrected 11-bit formulas, value 6 (byte 9 shifted by 6 where world.py:1575 shifts it by 2) is stream bits 66 to 76 of the group |
| LegacyUnpack.ElevenValue7 | overviewer_core/world.py:1576 | value 7 of a 11-bit group is stream bits 77 to 87 of the group |
| LegacyUnpack.TwelveReads | overviewer_core/world.py:1577-1579 | each of the 2 formulas of the 12-bit branch reads value i of its group as stream bits 12i to 12i + 11 |
| LegacyUnpack.TwelveValue0 | overviewer_core/world.py:1578 | value 0 of a 12-bit group is stream bits 0 to 11 of the group |
| LegacyUnpack.TwelveValue1 | overviewer_core/world.py:1579 | value 1 of a 12-bit group is stream bits 12 to 23 of the group |
| LegacyDecode.Decode | overviewer_core/world.py:1530-1579 | decoding with a table layout yields one value per requested entry, entry j from formula j mod V of group j div V |
| LegacyDecode.PackedToShortsWith | overviewer_core/world.py:1516-1581 | the unpacker fails with a division by zero exactly when n = 0, with a corrupt-chunk error exactly when the width is below 4 or above 12 bits, and otherwise yields n values |
| LegacyDecode.PackedLongarrayToShorts | overviewer_core/world.py:1516-1581 | the branch on the width raises a corrupt-chunk error outside 4 to 12, copies bytes at 8, splits nibbles at 4 and otherwise reads the bit stream as LegacyDecode.PackedToShortsReadsStream states |
| LegacyDecode.Unpack | overviewer_core/world.py:1526-1581 | for a width between 4 and 12 other than 8 the filled array is the unpacker's result, value by value |
| LegacyDecode.FillNibbles | overviewer_core/world.py:1527-1529 | the 4-bit branch writes the low nibble of each byte at even entries and the high nibble at odd ones |
| LegacyDecode.FillGroups | overviewer_core/world.py:1530-1579 | a table branch's slice assignments, run in order, decode every group |
| LegacyDecode.FillSlice | overviewer_core/world.py:1531 | one slice assignment `result[i::V] = formula_i` writes formula i into every group and nothing else |
| LegacyDecode.Filling | overviewer_core/world.py:1530-1579 | the array between slice assignments keeps its length |
| LegacyDecode.SlotOf | overviewer_core/world.py:1531 | slot g of slice i is entry i + g·V, inside the array |
| LegacyDecode.FillingStep | overviewer_core/world.py:1531 | writing one more group of slice i changes only its entry |
| LegacyDecode.FillingSlice | overviewer_core/world.py:1531 | a finished slice i is the start of slice i + 1 |
| LegacyDecode.SliceDone | overviewer_core/world.py:1531 | the same, entry by entry |
| LegacyDecode.BelowGroups | overviewer_core/world.py:1531 | every entry lies in a whole group |
| LegacyDecode.FillingComplete | overviewer_core/world.py:1530-1579 | after all V slices the array is the decoded one |
| LegacyDecode.GroupsDivide | overviewer_core/world.py:1530-1579 | at a whole width k with a table, the array is a whole number of groups and V values of k bits fill B bytes |
| LegacyDecode.WholeGroups5 | overviewer_core/world.py:1530-1538 | 5-bit arrays hold whole groups of 8 |
| LegacyDecode.WholeGroups6 | overviewer_core/world.py:1539-1543 | 6-bit arrays hold whole groups of 4 |
| LegacyDecode.WholeGroups7 | overviewer_core/world.py:1544-1552 | 7-bit arrays hold whole groups of 8 |
| LegacyDecode.WholeGroups9 | overviewer_core/world.py:1554-1562 | 9-bit arrays hold whole groups of 8 |
| LegacyDecode.WholeGroups10 | overviewer_core/world.py:1563-1567 | 10-bit arrays hold whole groups of 4 |
| LegacyDecode.WholeGroups11 | overviewer_core/world.py:1568-1576 | 11-bit arrays hold whole groups of 8 |
| LegacyDecode.WholeGroups12 | overviewer_core/world.py:1577-1579 | 12-bit arrays hold whole groups of 2 |
| LegacyDecode.PackedToShortsReadsStream | overviewer_core/world.py:1516-1581 | for every whole width from 4 to 12, value j of the corrected unpacker is stream bits k·j to k·j + k - 1 of the little-endian bytes, below 2^k |
| LegacyDecode.StreamAtByte | overviewer_core/world.py:1523-1524 | at 8 bits each value is its byte |
| LegacyDecode.StreamAtNibble | overviewer_core/world.py:1527-1529 | at 4 bits each value is its nibble of the stream |
| LegacyDecode.StreamAtTable | overviewer_core/world.py:1530-1579 | at a table width each value is its run of stream bits |
| LegacyDecode.TableResult | overviewer_core/world.py:1526-1581 | at a table width the result is the table's decoding of the bytes |
| LegacyDecode.TableWidth | overviewer_core/world.py:1517-1518 | a whole width k of 5 to 12 bits other than 8 passes the range check and is the computed width |
| LegacyDecode.TableValue | overviewer_core/world.py:1530-1579 | each decoded table entry is its run of stream bits |
| LegacyDecode.ByteIsStream | overviewer_core/world.py:1523-1524 | a byte is its eight stream bits |
| LegacyDecode.NibbleIsStream | overviewer_core/world.py:1527-1529 | an expanded nibble is its four stream bits |
| LegacyDecode.LowNibbleField | overviewer_core/world.py:1528 | `b & 0x0f` is the low four bits |
| LegacyDecode.HighNibbleField | overviewer_core/world.py:1529 | `(b & 0xf0) >> 4` is the high four bits |
| LegacyDecode.PackedToShortsFractional | overviewer_core/world.py:1526-1581 | a width in range that is not a whole number matches no branch and yields n zeros |
| LegacyDecode.LayoutReads | overviewer_core/world.py:1530-1579 | every formula of every table reads its run of stream bits |
| LegacyDecode.GroupPosition | overviewer_core/world.py:1530-1579 | value j's run starts at bit k·j of the stream |
| LegacyDecode.AsWrittenAgrees | overviewer_core/world.py:1568-1576 | the unpacker as written agrees with the corrected one at every width but 11, and at 11 on every entry except entries 6, 14, 22, ... |
| LegacyDecode.AsWrittenMisreadsValueSix | overviewer_core/world.py:1575 | with the second long equal to 256, an 11-bit array of 64 values has value 64 at entry 6, which the code as written reads as 4 |
| LegacyDecode.CorrectedValueSix | overviewer_core/world.py:1575 | with byte 8 zero and byte 9 one, the corrected unpacker reads 64 at entry 6 |
| LegacyDecode.AsWrittenValueSixOf | overviewer_core/world.py:1575 | with those bytes the code as written reads 4 there |
| LegacyDecode.ExampleBytes | overviewer_core/world.py:1520 | the second long 256 gives byte 8 zero and byte 9 one |
| LegacyDecode.SecondLongBytes | overviewer_core/world.py:1520 | 256 is the little-endian bytes 0, 1, ... |
| LegacyDecode.ExampleStream | overviewer_core/world.py:1575 | those bytes give stream bits 66 to 76 the value 64 |
| LegacyDecode.ExampleLowBits | overviewer_core/world.py:1575 | the low six of those bits are zero |
| LegacyDecode.ExampleHighBits | overviewer_core/world.py:1575 | the high five are one |
| LegacyDecode.AsWrittenValueSix | overviewer_core/world.py:1575 | the formula as written, which shifts the five bits of byte 9 left by 2 instead of 6, gives 4 on those bytes |
| LegacyDecode.BytesOfAt | overviewer_core/world.py:1520 | byte 8q + i of the long array is byte i of long q |
| RegionSets.RegionPath | overviewer_core/world.py:1875-1881 | a chunk has a region path exactly when its region (chunk coordinates floor-divided by 32) is listed |
| RegionSets.RegionPathCovers | overviewer_core/world.py:1875-1881 | all 32 x 32 chunks of a region, negative regions included, map to that region's file |
| RegionSets.RotationIsQuarterTurns | overviewer_core/world.py:1959-1979 | rotation d is d clockwise quarter turns and unrotation d is 4 - d of them |
| RegionSets.UnrotateRotate | overviewer_core/world.py:1965-1979 | unrotating a rotated coordinate gives it back, and the other way round |
| RegionSets.TableIndex | overviewer_core/world.py:1981-1984 | indexing the four-entry rotation lists succeeds exactly for north directions -4 to 3, a negative one counting from the end, and otherwise raises an IndexError |
| RegionSets.RotatedChunks | overviewer_core/world.py:2029-2032 | the rotated listing has one entry per listed chunk |
| RegionSets.Rotated | overviewer_core/world.py:1981-1986 | wrapping succeeds exactly for north directions -4 to 3 |
| RegionSets.RotatedListingAgrees | overviewer_core/world.py:1996-2032 | each chunk of the rotated listing keeps its modification time, and fetching it or its time through the rotated set reaches the same chunk of the wrapped set |
| RegionSets.RotationInjective | overviewer_core/world.py:1974-1979 | no two chunks rotate to the same coordinate |
| RegionSets.CropBox | overviewer_core/world.py:2040-2045 | the crop bounds are the block bounds floor-divided by 16, so each block bound lies in its bound chunk |
| RegionSets.InsideChunks | overviewer_core/world.py:2056-2061 | the cropped listing holds exactly the listed chunks inside the box |
| RegionSets.CroppedHidesOutside | overviewer_core/world.py:2047-2077 | outside the box a chunk does not exist, has no time and is not listed; inside the crop changes nothing |
| RegionSets.InsideChunksAppend | overviewer_core/world.py:2056-2061 | filtering distributes over concatenated listings |
| RegionSets.CropKeepsBlockBox | overviewer_core/world.py:2040-2050 | every chunk holding a block inside the requested block bounds is kept |
| RegionSets.FirstHolding | overviewer_core/world.py:2113-2121 | the search stops at the first cache holding the key, or after the last |
| RegionSets.FirstHoldingIs | overviewer_core/world.py:2113-2121 | any index before which no cache holds the key, and at which one does, is the search's result |
| RegionSets.Store | overviewer_core/world.py:2127-2128 | storing keeps the list of caches |
| RegionSets.GetChunkEmptyCacheList | overviewer_core/world.py:2111-2130 | with at least one cache, or a failed fetch, the code as written and the corrected lookup agree; with an empty cache list and a successful fetch the code as written raises an UnboundLocalError where the corrected lookup returns the chunk |
| RegionSets.GetChunkFill | overviewer_core/world.py:2111-2130 | the corrected lookup returns the first cached value, or the fetched chunk; on success it stores the value in every cache up to the one that held it, leaves later caches and all other keys untouched, and on failure changes nothing |
| RegionSets.GetChunkTwice | overviewer_core/world.py:2111-2130 | a second lookup of the same chunk does not fetch again and changes no cache |
| RegionSets.WrapperPrefixAppend | overviewer_core/world.py:2098-2100 | one more turn of the wrapper walk appends that wrapper's class name and a dot to the key |
| RegionSets.WrapperPrefixInjective | overviewer_core/world.py:2098-2100 | dot-free class names are determined by the prefix they build |
| RegionSets.CacheKeySeparatesWorlds | overviewer_core/world.py:2093-2107 | behind the same wrappers, region sets whose `regiondir` (or `repr`) differ get different keys |
| RegionSets.CacheKeySeparatesChains | overviewer_core/world.py:2093-2107 | over the same region set, different chains of dot-free wrapper names get different keys |
| RegionSets.Cache.constructor | overviewer_core/world.py:2084-2087 | a cache object starts with the given dictionary |
| RegionSets.CachedRegionSet.constructor | overviewer_core/world.py:2084-2109 | the wrapper keeps the wrapped set and the very cache objects it is given, and its key is the wrapper class names, each followed by a dot, then the real set's `regiondir`, or its `repr` when it has none |
| RegionSets.CachedRegionSet.GetChunk | overviewer_core/world.py:2111-2130 | the result is that of the code as written; every cache object listed up to the first holder (all on a miss) now maps the key to it, wherever it is listed, and every other object is unchanged; with no object listed twice the dictionaries are exactly those of the code as written |
| RegionSets.FindHolder | overviewer_core/world.py:2113-2121 | the search loop stops at the first cache object holding the key, or after the last |
| RegionSets.FillCaches | overviewer_core/world.py:2127-2128 | the store loop maps the key to the value in exactly the cache objects listed before the bound, and leaves the others unchanged |
| RegionSets.StoreDistinct | overviewer_core/world.py:2127-2128 | when no object is listed twice, filling the objects is storing into their dictionaries position by position |
| RegionSets.SharedCachesHit | overviewer_core/world.py:2084-2087 | two wrappers with the same key and the same cache objects: a chunk the first returns is what the second returns, found in the shared caches |
| Spawn.Voxel | overviewer_core/world.py:235 | a numpy index into a 16 x 16 x 16 array is a position below 4096 |
| Spawn.ClampY | overviewer_core/world.py:202-206 | the spawn Y is kept in 0 to 255 and left alone inside it |
| Spawn.InsertByY | overviewer_core/world.py:230 | inserting a section adds exactly that section |
| Spawn.SortByY | overviewer_core/world.py:230 | sorting keeps exactly the sections, as a permutation |
| Spawn.InsertByYSorted | overviewer_core/world.py:230 | insertion keeps the sections ordered by Y |
| Spawn.InsertByYAbove | overviewer_core/world.py:230 | insertion keeps every section above a bound that all of them meet |
| Spawn.SortByYSorted | overviewer_core/world.py:230 | the sorted sections are ordered by Y |
| Spawn.FromIndex | overviewer_core/world.py:230 | slicing from the spawn's section index keeps the sections from that index on, and none when it is past the end |
| Spawn.TrueSpawn | overviewer_core/world.py:184-241 | without a region set there is no spawn; any spawn found keeps the stored X and Z |
| Spawn.FindTrueSpawn | overviewer_core/world.py:184-241 | the method returns the clamped spawn raised to the first air block above it (Spawn.ScanFindsFirstAir), no spawn without a region set, the clamped spawn when the chunk does not exist, and the chunk error otherwise |
| Spawn.ScanSections | overviewer_core/world.py:231-241 | the nested section and Y loops return the height of the first air block in the spawn column from the spawn section up, or 256 |
| Spawn.Column | overviewer_core/world.py:231-240 | the scanned column holds 16 blocks per section |
| Spawn.FirstAir | overviewer_core/world.py:233-236 | the first air position is air with no air below it, and there is none only when the column holds no air |
| Spawn.ScanFindsFirstAir | overviewer_core/world.py:227-241 | the scan returns the spawn Y plus the distance to the first air block above the starting point, or 256 when there is none |
| Spawn.StorageColumn | overviewer_core/world.py:1617 | in storage order a section's column entry at height y is element 256y + 16z + x of its blocks |
| Spawn.SpawnHeight | overviewer_core/world.py:203-241 | when the spawn chunk exists the result is 256 or at least the clamped spawn Y |
| Spawn.AsWrittenMissesAir | overviewer_core/world.py:235 | a section with air at the spawn and solid blocks along the x-indexed column is given spawn Y 256 by the code as written, while the stored order puts the spawn in air at Y 0 |
| Spawn.ExampleSections | overviewer_core/world.py:230 | one section at Y 0 sorts and slices to itself |
| Spawn.StorageOrderFindsAir | overviewer_core/world.py:235 | in storage order air at element 5 is found at once |
| Spawn.AsWrittenRunsOut | overviewer_core/world.py:235 | indexing `[x, z, y]` reads elements 1280 + y there, which are all solid, so the scan runs out |
| AncilRotation.RotateStairs | overviewer_core/textures.py:2251-2259 | the loop applies the stairs step once per quarter turn; below 128 the result stays below 128 with half and shape unchanged |
| AncilRotation.StairsStepDigits | overviewer_core/textures.py:2254-2259 | one step moves the four facing bits down by one, the lowest wrapping to the top, and keeps the low three bits |
| AncilRotation.StairsDigitsOf | overviewer_core/textures.py:2254 | a value below 128 splits into four facing bits and three low bits |
| AncilRotation.StairsStepKeepsShape | overviewer_core/textures.py:2259 | a step keeps the low three bits and stays below 128 |
| AncilRotation.StairsStepOneFacing | overviewer_core/textures.py:2254-2259 | a single facing flag stays a single flag, north 8 turning into west 64 and each other flag halving |
| AncilRotation.StairsFourSteps | overviewer_core/textures.py:2252-2259 | four quarter turns give the data back |
| AncilRotation.RotateWire | overviewer_core/textures.py:2876-2879 | the loop applies the wire step once per quarter turn; below 512 the result stays below 512 and keeps the power bit |
| AncilRotation.WireStepDigits | overviewer_core/textures.py:2878-2879 | one step moves the four two-bit side codes down by one, the lowest wrapping to the top, and keeps the power bit |
| AncilRotation.WireDigitsOf | overviewer_core/textures.py:2878 | a value below 512 splits into four side codes and the power bit |
| AncilRotation.WireStepKeepsShape | overviewer_core/textures.py:2879 | a step keeps the power bit and stays below 512 |
| AncilRotation.WireFourSteps | overviewer_core/textures.py:2877-2879 | four quarter turns give the data back |
| AncilRotation.MushroomBitMap | overviewer_core/textures.py:4574-4576 | each rotation's bit map lists six bit numbers from 1 to 6 |
| AncilRotation.VineBitMap | overviewer_core/textures.py:4714-4716 | each rotation's bit map lists five bit numbers from 1 to 5 |
| AncilRotation.ShiftInBit | overviewer_core/textures.py:4582-4583 | shifting left and OR-ing in `(data >> (i - 1)) & 1` appends bit i - 1 of the data |
| AncilRotation.RearrangeBits | overviewer_core/textures.py:4577-4584 | the loop over the bit map builds the gathered value |
| AncilRotation.GatheredBit | overviewer_core/textures.py:4581-4583 | bit k of the gathered value is the data bit named by the map's k-th entry from the end |
| AncilRotation.GatheredBound | overviewer_core/textures.py:4581-4583 | gathering n bits gives a value below 2^n |
| AncilRotation.SameBits | overviewer_core/textures.py:4581-4583 | two values below 2^n with the same n bits are equal |
| AncilRotation.FaceSourceCompose | overviewer_core/textures.py:4568-4576 | the face each bit comes from composes by quarter turns |
| AncilRotation.RotateMushroom | overviewer_core/textures.py:4573-4584 | the mushroom rewrite gathers the data through the rotation's bit map, and leaves it alone at rotation 0 |
| AncilRotation.RotateVine | overviewer_core/textures.py:4713-4724 | the vine rewrite gathers the data through the rotation's bit map, and leaves it alone at rotation 0 |
| AncilRotation.MushroomBitMapSource | overviewer_core/textures.py:4574-4576 | the mushroom bit maps are the face rotation of the comment table |
| AncilRotation.VineBitMapSource | overviewer_core/textures.py:4714-4716 | the vine bit maps are the face rotation of the comment table |
| AncilRotation.MushroomBit | overviewer_core/textures.py:4573-4584 | bit k of the rotated mushroom data is the data bit of the face that turns into face k |
| AncilRotation.VineBit | overviewer_core/textures.py:4713-4724 | bit k of the rotated vine data is the data bit of the face that turns into face k |
| AncilRotation.MushroomBits | overviewer_core/textures.py:4568-4584 | the rotated mushroom data is below 64, keeps the down and up bits, and takes each side bit from the side that turns onto it |
| AncilRotation.VineBits | overviewer_core/textures.py:4708-4724 | the rotated vine data is below 32, keeps the up bit, and takes each side bit from the side that turns onto it |
| AncilRotation.SidesPopCount | overviewer_core/textures.py:4568-4576 | permuting the four side bits keeps their count |
| AncilRotation.MushroomPopCount | overviewer_core/textures.py:4573-4584 | a rotated mushroom shows as many faces as before |
| AncilRotation.VinePopCount | overviewer_core/textures.py:4713-4724 | a rotated vine covers as many faces as before |
| AncilRotation.MushroomQuarterTurns | overviewer_core/textures.py:4568-4584 | one more quarter turn after rotation r is rotation r + 1, and after rotation 3 gives the data back |
| AncilRotation.VineQuarterTurns | overviewer_core/textures.py:4708-4724 | the same for vines |
| AncilRotation.FacingMapsPermute | overviewer_core/textures.py:1407-1411 | each furnace, piston and observer rotation map permutes the facings 2 to 5, and rotation 4 - r undoes rotation r |
| AncilRotation.FacingMapsCompose | overviewer_core/textures.py:1408-1410 | rotation 2 is rotation 1 twice and rotation 3 is rotation 1 three times |
| AncilRotation.LowTwoBits | overviewer_core/textures.py:1482 | masking with 3 is the remainder by 4, and OR-ing a value below 4 into a multiple of 4 adds it |
| AncilRotation.LowFourBits | overviewer_core/textures.py:1411 | masking with 7 and with 8 splits a value below 16, and OR-ing a value below 8 into a multiple of 8 adds it |
| AncilRotation.RotateFacingBits | overviewer_core/textures.py:1407-1411 | the facing rewrite keeps bit 3 and maps a facing of 2 to 5 through the rotation's map, leaving any other low value alone |
| AncilRotation.AndAboveFacing | overviewer_core/textures.py:1482 | masking with the bits above the two low ones keeps those bits |
| AncilRotation.QuarterTurnForm | overviewer_core/textures.py:1482 | keeping the masked bits and OR-ing in `(rotation + (data & 3)) % 4` adds the rotation to the two low bits modulo 4 and keeps the masked bits |
| AncilRotation.QuarterTurnUndo | overviewer_core/textures.py:1482 | turning by r and then by 4 - r gives the data back |
| AncilRotation.BedRotationForm | overviewer_core/textures.py:1482 | the bed rewrite is a quarter turn of the two low bits that keeps bits 2 to 7 |
| AncilRotation.LecternRotationForm | overviewer_core/textures.py:2983 | the lectern rewrite is a quarter turn of the two low bits that keeps the book bit |
| AncilRotation.ComparatorRotationForm | overviewer_core/textures.py:4444 | the comparator rewrite is a quarter turn of the two low bits that keeps bits 2 and 3 |
| AncilRotation.DoorTableEntry | overviewer_core/textures.py:3377-3391 | each line of the door table turns the facing by the rotation and keeps the other bits |
| AncilRotation.DoorTable | overviewer_core/textures.py:3377-3391 | the door tables add the rotation to the two low bits modulo 4 and keep bits 2 to 4 |
| AncilRotation.DoorIsQuarterTurn | overviewer_core/textures.py:3376-3391 | the door rewrite is that quarter turn for rotations 1 to 3 and the identity otherwise |
| AncilRotation.TwoBitRotationsUndo | overviewer_core/textures.py:1482 | turning a bed, lectern, comparator or door by r and then by 4 - r gives the data back |
| AncilRotation.SignRotationForm | overviewer_core/textures.py:3310-3315 | the sign rewrite adds 4 per quarter turn modulo 16, and one more quarter turn after rotation r is rotation r + 1 |
| AncilRotation.FourWayRotationCompose | overviewer_core/textures.py:3120 | the four-way loom and glazed terracotta rotations add modulo 4, and four turns give the data back |
| Material.MaxOf | overviewer_core/textures.py:854 | `max(data)` is an element no smaller than any other |
| Material.RaisedPastBounds | overviewer_core/textures.py:857-861 | raising `max_blockid` past each block leaves it no smaller than before, above every block, and equal to the old bound or to some block + 1 |
| Material.IndexInRange | overviewer_core/textures.py:139-143 | `blockid * max_data + data` of a registered pair falls inside the table of `max_blockid * max_data` entries |
| Material.IndexDecodes | overviewer_core/textures.py:143 | the table index gives the block and data back by division and remainder |
| Material.Registry.constructor | overviewer_core/textures.py:829-875 | an empty registry: no blocks, no data values, both bounds 0, every property set empty and no generators |
| Material.Registry.Register | overviewer_core/textures.py:830-875 | an empty data list raises a ValueError and changes nothing; otherwise the data values and blocks are recorded, `max_data` and `max_blockid` are raised past them, each block joins the property sets its keyword arguments name, and every (block, data) pair gets the generator; the registry stays consistent |
| Material.Registry.RegisterAll | overviewer_core/textures.py:853-873 | the registration loop over the blocks has exactly that effect |
| Material.Registry.AddBlock | overviewer_core/textures.py:857-872 | one block: it is known, the bound is raised past it, it joins its property sets and its pairs get the generator |
| Material.Registry.AddToProperties | overviewer_core/textures.py:862-868 | the property loop changes only the property sets |
| Material.Registry.AddGenerators | overviewer_core/textures.py:871-872 | the data loop changes only the generator map |
| Material.Registry.Generate | overviewer_core/textures.py:136-143 | the table has `max_blockid * max_data` entries, each registered pair's entry holds what its generator draws (`None` when it draws nothing, since `generate_texture_tuple` at textures.py:819-821 passes `None` on), and an entry is filled exactly when its block and data are registered and the generator draws something |
| Material.Registry.DrawAll | overviewer_core/textures.py:141-143 | after drawing every generator, each registered entry holds its generator's drawing or `None`, and every unregistered entry is `None` |
| Material.Registry.FilledStep | overviewer_core/textures.py:142-143 | drawing one pair sets its entry to the generator's drawing and changes no other |
| Material.RegisterKeepsConsistent | overviewer_core/textures.py:853-873 | registration keeps every property set inside the known blocks, every generator's pair inside the bounds, and the data values inside `max_data` |
| Material.ExtendedStep | overviewer_core/textures.py:857-868 | adding the properties of one more block extends those of the blocks before it |
| Material.AssignedStep | overviewer_core/textures.py:871-872 | the generators of one more block extend those of the blocks before it |
| Material.BlockStep | overviewer_core/textures.py:859-861 | one more block is known, and the bound is raised past it |
| Material.WalkDatas | overviewer_core/textures.py:871-872 | the data loop assigns the generator to every (block, d) pair |
| Material.AssignedOneMore | overviewer_core/textures.py:872 | one more data value assigns one more pair |
| Material.WalkProperties | overviewer_core/textures.py:862-868 | the loop over the five properties adds the block to the sets its keyword arguments name |
| Material.AddedToStep | overviewer_core/textures.py:863-868 | one property of the loop adds the block to that set exactly when its argument contains the block, or when it is a true flag |
| Material.AddedToAll | overviewer_core/textures.py:862-868 | walking all five properties extends each property set by the block exactly when its keyword argument names it or is a true flag |
| Material.ExtendedNothing | overviewer_core/textures.py:857 | registering no blocks changes no property set |
| ForgeStrings.DecToRGB | tools/forgeExtractor.py:102-108 | green and blue are bytes and the three parts recombine to the colour; red is a byte exactly when the colour is a 24-bit value |
| ForgeStrings.DecToRGBInverse | tools/forgeExtractor.py:102-108 | splitting the colour of three bytes gives the bytes back |
| ForgeStrings.HexDigitValue | tools/forgeExtractor.py:112 | a hex digit's value is below 16 |
| ForgeStrings.HexChar | tools/forgeExtractor.py:112 | the digit written for a value below 16 is a hex digit with that value |
| ForgeStrings.FormatHex | tools/forgeExtractor.py:112 | the w-digit hex text of a number has w hex digits |
| ForgeStrings.StripLeft | tools/forgeExtractor.py:112 | `int()` strips leading whitespace: what is left is empty or starts with a non-space |
| ForgeStrings.StripRight | tools/forgeExtractor.py:112 | it strips trailing whitespace likewise |
| ForgeStrings.ParseHexField | tools/forgeExtractor.py:112 | a two-character field parses, when it does, to a value from -15 to 255; two hex digits give their value and an empty field raises a ValueError |
| ForgeStrings.Slice | tools/forgeExtractor.py:112 | Python's slice `s[i:j]` is at most j - i long and is the plain subsequence when j is inside s |
| ForgeStrings.HexToRGB | tools/forgeExtractor.py:111-112 | a string shorter than five characters raises a ValueError; a parsed colour has three components from -15 to 255 |
| ForgeStrings.HexToRGBDigits | tools/forgeExtractor.py:111-112 | six leading hex digits parse as three bytes, two digits each |
| ForgeStrings.FieldAt | tools/forgeExtractor.py:112 | a slice of two characters inside the string is those characters |
| ForgeStrings.HexToRGBOfFields | tools/forgeExtractor.py:112 | three parsed fields at 0, 2 and 4 make the colour |
| ForgeStrings.FormatHexByte | tools/forgeExtractor.py:112 | the two hex digits of a byte parse back to it |
| ForgeStrings.FormatHexConcat | tools/forgeExtractor.py:112 | hex text of a number with k low digits is the high part's text followed by the low part's |
| ForgeStrings.HexPlace | tools/forgeExtractor.py:112 | dividing by 16 drops the last hex digit |
| ForgeStrings.FormatHexSix | tools/forgeExtractor.py:102-112 | the six-digit hex text of a 24-bit colour is the texts of its red, green and blue bytes |
| ForgeStrings.HexToRGBInvertsFormat | tools/forgeExtractor.py:102-112 | parsing the six-digit hex text of a 24-bit colour gives the same triple as splitting it |
| ForgeStrings.HexToRGBOfPairs | tools/forgeExtractor.py:112 | three two-digit hex pairs parse to their values |
| ForgeStrings.SixOfThree | tools/forgeExtractor.py:112 | the six characters of three pairs |
| ForgeStrings.Prefixed | tools/forgeExtractor.py:144 | prefixing keeps the number of permutations and puts x in front of each |
| ForgeStrings.Without | tools/forgeExtractor.py:144 | removing one element removes exactly that element |
| ForgeStrings.PermutationsRearrange | tools/forgeExtractor.py:144 | every permutation rearranges the same elements |
| ForgeStrings.PermutationsFromRearrange | tools/forgeExtractor.py:144 | so does every permutation starting at a later element |
| ForgeStrings.PermutationsStartWithIdentity | tools/forgeExtractor.py:144 | `itertools.permutations` lists the sequence itself first |
| ForgeStrings.CommaPermutations | tools/forgeExtractor.py:144 | the candidate keys are never empty and start with the key itself |
| ForgeStrings.JoinEach | tools/forgeExtractor.py:144 | joining each permutation gives one candidate per permutation |
| ForgeStrings.CandidatesAreRearrangements | tools/forgeExtractor.py:144 | each candidate lists the key's comma fields in some order |
| ForgeStrings.FirstInSound | tools/forgeExtractor.py:144-146 | the search returns the first candidate that is a key, and nothing exactly when none is |
| ForgeStrings.KeyPermutation | tools/forgeExtractor.py:143-146 | the loop returns the first candidate in the keys, or None |
| ForgeStrings.FirstInStep | tools/forgeExtractor.py:144-146 | one step of the loop: past the end nothing, a hit returns it, a miss goes on |
| ForgeStrings.KeyPermutationMeaning | tools/forgeExtractor.py:143-146 | a key found is in the keys and rearranges the original fields, the key itself wins when present, and nothing is found exactly when no rearrangement is a key |
| ForgeStrings.SplitModId | tools/forgeExtractor.py:157 | splitting "mod:path" on ':' gives mod and path |
| ForgeStrings.RejoinPath | tools/forgeExtractor.py:163-167 | the folders joined with '/' and the file name rebuild the path |
| ForgeStrings.TexturePathCases | tools/forgeExtractor.py:164-168 | a path with a folder becomes assets/mod/textures/path.png and one without becomes "" |
| ForgeStrings.TextureIdWithMod | tools/forgeExtractor.py:155-168 | "mod:folder/name" maps to assets/mod/textures/folder/name.png |
| ForgeStrings.TextureIdDefaultMod | tools/forgeExtractor.py:161-163 | an id without a mod uses the minecraft namespace |
| ForgeStrings.TextureIdWithoutFolder | tools/forgeExtractor.py:155-168 | an id with no folder maps to "" |
| ForgeStrings.PartOfJoin | tools/forgeExtractor.py:167 | every character of a part occurs in the join |
| ForgeStrings.ModelIdWithMod | tools/forgeExtractor.py:171-181 | "mod:folder/name" maps to assets/mod/models/folder/name.json |
| ForgeStrings.ModelIdWithoutFolder | tools/forgeExtractor.py:177-180 | a model id with no folder maps to assets/mod/models//name.json, with an empty folder segment |
| ForgeStrings.ModelIdNeedsOneColon | tools/forgeExtractor.py:171-193 | an id with no colon or more than one maps to "" in both builders |
| ForgeStrings.OverviewIdOf | tools/forgeExtractor.py:184-193 | "mod:folders/name" maps to block_mod__name whatever the folders |
| ForgeStrings.PlainSegments | tools/forgeExtractor.py:189 | folders and name are free of '/' and ':' |
| ForgeStrings.OverviewNameOf | tools/forgeExtractor.py:189-192 | the name is the last '/'-piece of the path |
| ForgeStrings.OverviewIdOfSplit | tools/forgeExtractor.py:184-193 | a well-split id maps to the overview name of its path |
| ForgeStrings.JoinAvoids | tools/forgeExtractor.py:167 | a join of parts and a separator free of a character is free of it |
| ForgeStrings.JsonPathAsWritten | tools/forgeExtractor.py:196-207 | an empty path raises an IndexError |
| ForgeStrings.PermutationsOfOne | tools/forgeExtractor.py:144 | one element has one permutation |
| ForgeStrings.PermutationsOfTwo | tools/forgeExtractor.py:144 | two elements have the two permutations in `itertools` order |
| ForgeStrings.PermutationsNonEmpty | tools/forgeExtractor.py:144 | a non-empty sequence's permutations start the walk over its elements |
| ForgeStrings.WithoutOfTwo | tools/forgeExtractor.py:144 | removing either of two elements leaves the other |
| ForgeStrings.FirstOfTwo | tools/forgeExtractor.py:144 | the permutations starting with the first of two elements |
| ForgeStrings.SecondOfTwo | tools/forgeExtractor.py:144 | the permutations starting with the second of two elements |
| ForgeStrings.PermutationsFromStep | tools/forgeExtractor.py:144 | the permutations from element i are those starting with it, then those from i + 1 |
| ForgeStrings.PrefixedOne | tools/forgeExtractor.py:144 | prefixing one permutation |
| ForgeStrings.CommaPermutationsOfPair | tools/forgeExtractor.py:144 | a key of two comma fields has the candidates "a,b" and "b,a" |
| ForgeStrings.CommaPermutationsVia | tools/forgeExtractor.py:144 | the candidates are the joined permutations of the fields |
| ForgeStrings.JoinTwo | tools/forgeExtractor.py:144 | joining two fields puts one comma between them |
| ForgeStrings.AsWrittenRaisesOnRearrangedKey | tools/forgeExtractor.py:204-205 | when the object holds only the rearranged key "b,a", a path through "a,b" passes the test and then raises a KeyError in the code as written |
| ForgeStrings.SwappedPairDiffers | tools/forgeExtractor.py:204 | two distinct comma-free fields make two different keys |
| ForgeStrings.AsWrittenInnerKeyError | tools/forgeExtractor.py:204-205 | whenever only a rearrangement of the key is present, and the path goes on, the code as written raises a KeyError |
| ForgeStrings.MatchedKey | tools/forgeExtractor.py:202-205 | the matched key is in the object and is the key or one of its comma rearrangements, exists exactly when the key or a rearrangement is present, and is the key itself when present |
| ForgeStrings.JsonPath | tools/forgeExtractor.py:196-207 | the corrected test raises an IndexError on an empty path and never a KeyError |
| ForgeStrings.JsonPathAgreesOnExactKeys | tools/forgeExtractor.py:196-207 | wherever the code as written raises no KeyError the corrected test gives the same answer |
| ForgeStrings.JsonPathFindsExactPaths | tools/forgeExtractor.py:196-207 | a path of keys present exactly as written is found by both |
| ForgeStrings.JsonPathSound | tools/forgeExtractor.py:196-207 | a True answer from the corrected test means a chain of objects along the path exists, each key present as spelt or as a comma rearrangement, which callers such as tools/forgeExtractor.py:413-414 rely on before indexing |
| ForgeStrings.JsonPathAsWrittenSound | tools/forgeExtractor.py:196-207 | the same holds for a True answer from the code as written |
| ForgeStrings.JsonPathFindsRearranged | tools/forgeExtractor.py:202-205 | the corrected test answers True on the document {"b,a": {"c": ...}} with the path ["a,b", "c"], where the code as written raises KeyError |
| Injection.ContainsChar | tools/forgeExtractor.py:261-267 | a one-character flag occurs in a line exactly when the character does |
| Injection.ContainsNeedsHead | tools/forgeExtractor.py:261-267 | a flag whose first character is absent from a line does not occur in it |
| Injection.EndFlagOfHashFlag | tools/forgeExtractor.py:249 | a `#` flag without quotes or slashes gets " END" after its `#` |
| Injection.EndFlagOfBlockFlag | tools/forgeExtractor.py:249 | a `/*` flag without quotes or `#` gets " END" after its `/*` |
| Injection.RunFromAppend | tools/forgeExtractor.py:260-269 | copying two runs of lines is copying the first, then the second from the state the first left |
| Injection.CopiesPlainLines | tools/forgeExtractor.py:260-265 | lines without the start flag are copied unchanged, in any state but skipping, and leave the copy not skipping |
| Injection.DropsOldBlock | tools/forgeExtractor.py:261-265 | while skipping, lines without either flag are dropped |
| Injection.RunOne | tools/forgeExtractor.py:260-269 | one line: the end flag stops skipping, the line is written unless skipping, and the start flag writes the code after it and starts skipping |
| Injection.Splices | tools/forgeExtractor.py:256-269 | a file with the start line, a stale block and the end line, flags nowhere else, becomes the same file with the block replaced by the code, and the run ends past the end flag |
| Injection.SpliceHead | tools/forgeExtractor.py:260-269 | up to the start line, the lines are copied and the code written after it |
| Injection.SpliceBlock | tools/forgeExtractor.py:261-265 | the stale block is dropped |
| Injection.SpliceEnd | tools/forgeExtractor.py:261-265 | the end line is copied and ends the skipping |
| Injection.SpliceTail | tools/forgeExtractor.py:260-265 | the lines after it are copied |
| Injection.NoneMeansNoFlag | tools/forgeExtractor.py:257-273 | the state stays at "no flag seen" exactly when no line holds either flag |
| Injection.StillDeletingMeansNoEnd | tools/forgeExtractor.py:257-276 | the run ends still skipping exactly when some start-flag line has no end-flag line after it |
| Injection.EndFlagAloneCopies | tools/forgeExtractor.py:261-278 | a file holding the end flag but no start flag is copied unchanged and counts as a success |
| Injection.Splice | tools/forgeExtractor.py:256-269 | the line loop returns the final state and written lines of the run that Injection.Splices, Injection.NoneMeansNoFlag and Injection.StillDeletingMeansNoEnd describe |
| Injection.InjectionCode.constructor | tools/forgeExtractor.py:246-254 | a new object has the start flag, the derived end flag and the code, and its insertion has run on the file |
| Injection.InjectionCode.InsertCode | tools/forgeExtractor.py:256-278 | the copy holds the run's output; the source is replaced by it exactly when the run ended past the end flag, which is what success reports |
| BiomeTable.Table | tools/forgeExtractor.py:1166-1177 | the table has one entry per id up to the largest |
| BiomeTable.LookupFinds | tools/forgeExtractor.py:1169-1175 | with distinct ids each biome is found under its id |
| BiomeTable.LookupMisses | tools/forgeExtractor.py:1170-1172 | an id no biome has is not found |
| BiomeTable.TableHoldsBiomes | tools/forgeExtractor.py:1173-1174 | each biome's struct sits at its id |
| BiomeTable.TableFillsGaps | tools/forgeExtractor.py:1170-1172 | every other entry is the default struct |
| BiomeTable.TableExtend | tools/forgeExtractor.py:1169-1175 | one more biome adds default structs up to its id, then its own |
| BiomeTable.GenerateBiomesC | tools/forgeExtractor.py:1166-1177 | the generator's text is the table joined with ",\n" |
| PyStrings.Split | tools/forgeExtractor.py:157 | `str.split` on one character never yields an empty list |
| PyStrings.SplitPieces | tools/forgeExtractor.py:157-163 | the pieces hold no separator, and there is more than one exactly when the separator occurs |
| PyStrings.SplitCons | tools/forgeExtractor.py:157 | how the first character enters the split |
| PyStrings.JoinSplit | tools/forgeExtractor.py:163-167 | joining the split pieces with the separator gives the string back |
| PyStrings.SplitJoin | tools/forgeExtractor.py:167 | splitting a join of separator-free pieces gives the pieces back |
| PyStrings.NoSeparatorSplit | tools/forgeExtractor.py:157 | a string without the separator splits into itself |
| PyStrings.JoinLast | tools/forgeExtractor.py:165-167 | the last piece follows the join of the others after one separator |
| PyStrings.Find | tools/forgeExtractor.py:249 | a position found holds the pattern |
| PyStrings.FindFirst | tools/forgeExtractor.py:249 | the position found is the first occurrence, and none is found exactly when the pattern does not occur |
| PyStrings.ReplaceFirstCases | tools/forgeExtractor.py:249 | replacing the first occurrence leaves a string without it alone and replaces a leading one |

## Left out

- Drawing: the C primitives' image compositing, `draw_triangle`, the edge-line rasteriser and the ink opacity are left out. The primitives return what they would draw.
- Base: temperature and rainfall are floats. The colour-table pixel lookup and the final tint multiplication are left out; the model keeps which table is used and the biome index that is averaged.
- SmoothLighting: the C float arithmetic of the corner blend is modelled as exact arithmetic on reals, so float rounding is not captured.
- World I/O: NBT parsing, region file reading, `get_chunk`'s retries and sleeps, logging and directory scans are left out. A region set is a value made of a chunk lookup, an mtime lookup and a chunk listing.
- RegionSets: `RotatedRegionSet.get_chunk` also `rot90`s the section arrays; only the coordinate mapping is modelled.
- RegionSets: the cache objects' own eviction policy (LRU) is not modelled; a cache object holds an unbounded dictionary.
- ChunkDecode: `_get_blockdata_v113`'s palette gather, which indexes the translated palette with the unpacked indices, is not modelled. The translation of each palette entry is `Palette`.
- Palette: the `ids.group_*` membership tables are kept abstract, as the first `elif` branch that accepts each block.
- Textures: image loading, drawing and the texture cache are left out. Generators are opaque values; drawing is the parameter `render` of `Material.Registry.Generate`, whose `None` stands for a generator that draws nothing (water at data 0, say), and the opaque mask that `generate_texture_tuple` pairs with an image is part of the drawn value.
- LegacyUnpack.BytesOf: `numpy.frombuffer` views the uint64 array in the host's byte order; the model takes the host to be little-endian, as the x86 and ARM machines Overviewer runs on are.
- Material: the `functools.wraps` wrapper that `material` returns is not modelled; only the registration is.
- Mod extractor: zip and file I/O, the JSON loader, the thread pool and `print` are left out. File contents are lines, and the blockstate JSON is a small value tree.
- Injection: renaming the temporary file over the source is modelled as assigning the copy to `source`.
- BiomeTable.GenerateBiomesC: requires strictly increasing ids. `getBiomes` sorts by id and is taken as given; with a repeated id the generator's padding loop never ends.
- BiomeTable: `getStructC` is taken as given, as the struct text of each biome.
- ForgeStrings.ParseHexField: requires a field of at most two characters, which is what the slices of `hexToRGB` give.
- Palette.ParseInt: `int()` is modelled on ASCII digits only; surrounding whitespace, a sign, underscores between digits and Unicode digits, which Python also accepts, give a ValueError in the model. Minecraft writes its property values in canonical form.
- ForgeStrings: `int(t, 16)` is modelled with the whitespace below U+0080 (space, tab, line ends and the separators U+001C to U+001F) and ASCII hex digits only. Python also strips whitespace above U+007F and accepts Unicode digits.

## Findings

| source | as written | input that shows it | evidently intended | confidence | as-written member | corrected member |
|---|---|---|---|---|---|---|
| overviewer_core/world.py:1575 | value 6 of an 11-bit group shifts the five bits of byte 9 left by 2 | 11 longs whose second long is 256, so value 6 is 64 | shift left by 6, so that the value reads 64 | not executed | LegacyDecode.AsWrittenMisreadsValueSix | LegacyDecode.PackedToShortsReadsStream |
| overviewer_core/world.py:1584 | the 1.16 bits per value are `max(4, len * 64 // n)`, taken from the array length | 4096 values packed at 11 bits, five per long, fill 820 longs, from which the width comes out as 12; with value 1 at entry 1 and 0 elsewhere, entry 0 reads 2048 | the width the section was packed at, which follows from the palette size | not executed | ChunkDecode.Unpack116ElevenBitSection | ChunkDecode.Unpack116PalettePack |
| overviewer_core/world.py:2111-2130 | `get_chunk` names the loop variable `i` only inside the loop and then uses it | an empty cache list and a chunk that loads | return the fetched chunk | not executed | RegionSets.GetChunkEmptyCacheList | RegionSets.GetChunkFill |
| overviewer_core/world.py:235 | the spawn scan indexes `Blocks[x, z, y]` of an array stored as Y, Z, X | a section with air at the spawn position and solid blocks at the swapped positions | index `[y, z, x]` and stop at the first air above the spawn | not executed | Spawn.AsWrittenMissesAir | Spawn.ScanFindsFirstAir |
| tools/forgeExtractor.py:204-205 | `jsonPath` accepts a rearranged comma key but recurses with the original key | an object holding only "b,a" and a path through "a,b" that goes on | recurse into the key that matched | not executed | ForgeStrings.AsWrittenRaisesOnRearrangedKey | ForgeStrings.JsonPath |
| overviewer_core/src/block_class.c:61-66 | `block_class_is_wall` tests the band 1792 to 2047 | wall ID 279, or any of 280 and 654 to 665 from `mc_id.h` | the test and the numbering agree; `mc_id.h:538-541` says every block from 1792 to 2047 is a wall, so the repair is either to renumber the walls into that band or to test the declared IDs, and the model takes the second | not executed | BlockClass.IsWallMissesDeclaredWalls | BlockClass.IsDeclaredWallExact |
