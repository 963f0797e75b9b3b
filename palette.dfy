/** Palette entries of 1.13+ sections turned into pre-1.13 (block, data)
    pairs: `RegionSet._get_block` (world.py). The `ids.group_*` membership
    tests of its `elif` chain are kept abstract: `Tables.branch` names, for
    each block id, the first branch of the chain that accepts it, together
    with the few single-block tests some branches make inside their group. */
module Palette {
  import opened Wrappers
  import opened Bits

  type Props = map<string, string>

  /** One `Palette` compound: its `Name` and, when present, its `Properties`. */
  datatype Entry = Entry(name: string, properties: Option<Props>)

  /** The data half of the result: an int, or the property string a few
      branches copy through unparsed. */
  datatype Datum = Num(n: int) | Text(s: string)

  /** The block tests made inside the shulker/piston/observer branch. */
  datatype Facing6Kind = Facing6Kind(inPistonGroup: bool, pistonHead: bool, observer: bool)

  /** The blocks of the grindstone/lectern/campfire/bell group tested one by one. */
  datatype Station = Grindstone | Lectern | Campfire | Bell | OtherStation

  /** The branches of the `elif` chain, in source order. */
  datatype Branch =
    | OreOrLamp | Seagrass | CubeFull | Gate | Rail(powerRail: bool) | RedstoneDevice
    | DaylightDetector | RedstoneWire | GrassBlock | TallSprite | Slab | OnlyFacing
    | Chest | FurnaceSmoker | Bee | Button | Age | Facing6(kind: Facing6Kind) | CubeColumn
    | Torch(lit: bool, wall: bool) | Horizontal | SixSides | Anvil | Sign(wall: bool)
    | Fence | Stairs | Door | Trapdoor | Lantern | Composter | Barrel | Bed
    | EndPortalFrame | Cauldron | StructureBlock | Cake | Farmland | Workstation(station: Station)
    | RespawnAnchor | SeaPickle
    | Plain   // no branch applies and the block map's pair is returned

  /** The tables `_get_block` consults. */
  datatype Tables = Tables(
    blockmap: map<string, (nat, nat)>,   // the name -> (block, data) map
    branch: nat -> Branch,               // the branch each block id takes
    water: nat,                          // the water block id
    air: nat,                            // the air block id
    doubleSlabs: map<nat, nat>)          // slab id -> its double-slab id

  type Out = Result<(nat, Datum)>

  function Give(block: nat, data: int): Out
  {
    Ok((block, Num(data)))
  }

  // ---------------------------------------------------------------------
  // Dictionary access

  /** `palette_entry['Properties']` */
  function Properties(e: Entry): Result<Props>
  {
    if e.properties.None? then Err(KeyError) else Ok(e.properties.value)
  }

  /** `p[key]` */
  function Req(p: Props, key: string): Result<string>
  {
    if key in p then Ok(p[key]) else Err(KeyError)
  }

  /** `p.get(key, default)` */
  function Get(p: Props, key: string, default: string): string
  {
    if key in p then p[key] else default
  }

  /** `p[key] == 'true'` */
  function Flag(p: Props, key: string): Result<bool>
  {
    var v :- Req(p, key);
    Ok(v == "true")
  }

  /** `{'south': 0, 'west': 1, 'north': 2, 'east': 3}[facing]` */
  function FacingSWNE(facing: string): Result<nat>
  {
    if facing == "south" then Ok(0) else if facing == "west" then Ok(1)
    else if facing == "north" then Ok(2) else if facing == "east" then Ok(3)
    else Err(KeyError)
  }

  /** `{'north': 2, 'south': 3, 'west': 4, 'east': 5}[facing]` */
  function FacingNSWE(facing: string): Result<nat>
  {
    if facing == "north" then Ok(2) else if facing == "south" then Ok(3)
    else if facing == "west" then Ok(4) else if facing == "east" then Ok(5)
    else Err(KeyError)
  }

  /** `{'east': 1, 'west': 2, 'south': 3, 'north': 4}[facing]` */
  function FacingEWSN(facing: string): Result<nat>
  {
    if facing == "east" then Ok(1) else if facing == "west" then Ok(2)
    else if facing == "south" then Ok(3) else if facing == "north" then Ok(4)
    else Err(KeyError)
  }

  /** `{'down': 0, 'up': 1, 'north': 2, 'south': 3, 'west': 4, 'east': 5}[facing]` */
  function Facing6Code(facing: string): Result<nat>
  {
    if facing == "down" then Ok(0) else if facing == "up" then Ok(1)
    else FacingNSWE(facing)
  }

  predicate IsDigit(c: char)
  {
    '0' <= c <= '9'
  }

  function Digit(c: char): (r: nat)
    requires IsDigit(c)
    ensures r < 10
  {
    c as int - '0' as int
  }

  function DigitChar(d: nat): (c: char)
    requires d < 10
    ensures IsDigit(c) && Digit(c) == d
  {
    ('0' as int + d) as char
  }

  /** `int(s)` on the canonical property strings Minecraft writes: a
      non-empty run of ASCII decimal digits. Any other string is taken as a
      ValueError here, although Python's `int()` also accepts surrounding
      whitespace, a sign, underscores between digits and non-ASCII digits. */
  function ParseInt(s: string): (r: Result<nat>)
    ensures r.Ok? <==> s != [] && forall k :: 0 <= k < |s| ==> IsDigit(s[k])
  {
    if s == [] || !IsDigit(s[|s| - 1]) then Err(ValueError)
    else if |s| == 1 then Ok(Digit(s[0]))
    else
      var init := s[..|s| - 1];
      assert forall k :: 0 <= k < |init| ==> init[k] == s[k];
      var hi :- ParseInt(init);
      Ok(10 * hi + Digit(s[|s| - 1]))
  }

  /** The decimal spelling of n, as `str(n)` writes it. */
  function Decimal(n: nat): (s: string)
    ensures s != []
  {
    if n < 10 then [DigitChar(n)] else Decimal(n / 10) + [DigitChar(n % 10)]
  }

  /** `int` reads back what `str` writes. */
  lemma {:induction false} ParseDecimal(n: nat)
    ensures ParseInt(Decimal(n)) == Ok(n)
  {
    if n >= 10 {
      var s := Decimal(n);
      ParseDecimal(n / 10);
      assert s[..|s| - 1] == Decimal(n / 10);
    }
  }

  /** `1 if b else 0` */
  function B(b: bool): nat
  {
    if b then 1 else 0
  }

  // ---------------------------------------------------------------------
  // Lookup tables of single branches

  /** The rail shape codes. */
  function RailShape(shape: string): Result<nat>
  {
    if shape == "north_south" then Ok(0) else if shape == "east_west" then Ok(1)
    else if shape == "ascending_east" then Ok(2) else if shape == "ascending_west" then Ok(3)
    else if shape == "ascending_north" then Ok(4) else if shape == "ascending_south" then Ok(5)
    else if shape == "south_east" then Ok(6) else if shape == "south_west" then Ok(7)
    else if shape == "north_west" then Ok(8) else if shape == "north_east" then Ok(9)
    else Err(KeyError)
  }

  /** `{'left': 0x8, 'right': 0x10, 'single': 0x0}[chest_type]` */
  function ChestType(t: string): Result<nat>
  {
    if t == "left" then Ok(8) else if t == "right" then Ok(16)
    else if t == "single" then Ok(0) else Err(KeyError)
  }

  /** `{'east': 6, 'west': 6, 'south': 5, 'north': 5}[facing]` */
  function ButtonFloor(facing: string): Result<nat>
  {
    if facing == "east" || facing == "west" then Ok(6)
    else if facing == "south" || facing == "north" then Ok(5)
    else Err(KeyError)
  }

  /** `{'south': 1, 'north': 0, 'east': 3, 'west': 2}[facing]` */
  function TrapdoorFacing(facing: string): Result<nat>
  {
    if facing == "south" then Ok(1) else if facing == "north" then Ok(0)
    else if facing == "east" then Ok(3) else if facing == "west" then Ok(2)
    else Err(KeyError)
  }

  /** `{'up': 0, 'down': 1, 'south': 2, 'east': 3, 'north': 4, 'west': 5}[facing]` */
  function BarrelFacing(facing: string): Result<nat>
  {
    if facing == "up" then Ok(0) else if facing == "down" then Ok(1)
    else if facing == "south" then Ok(2) else if facing == "east" then Ok(3)
    else if facing == "north" then Ok(4) else if facing == "west" then Ok(5)
    else Err(KeyError)
  }

  /** `{'save': 0, 'load': 1, 'corner': 2, 'data': 3}.get(mode, 0)` */
  function StructureMode(mode: string): nat
  {
    if mode == "load" then 1 else if mode == "corner" then 2
    else if mode == "data" then 3 else 0
  }

  /** `{'floor': 0, 'wall': 4, 'ceiling': 8}[face]` */
  function GrindstoneFace(face: string): Result<nat>
  {
    if face == "floor" then Ok(0) else if face == "wall" then Ok(4)
    else if face == "ceiling" then Ok(8) else Err(KeyError)
  }

  /** `{'floor': 0, 'ceiling': 4, 'single_wall': 8, 'double_wall': 12}[attachment]` */
  function BellAttachment(a: string): Result<nat>
  {
    if a == "floor" then Ok(0) else if a == "ceiling" then Ok(4)
    else if a == "single_wall" then Ok(8) else if a == "double_wall" then Ok(12)
    else Err(KeyError)
  }

  /** `{'north': 0x03, 'west': 0x02, 'south': 0x01, 'east': 0x00}[facing]` */
  function DoorFacing(facing: string): Result<nat>
  {
    if facing == "north" then Ok(3) else if facing == "west" then Ok(2)
    else if facing == "south" then Ok(1) else if facing == "east" then Ok(0)
    else Err(KeyError)
  }

  // ---------------------------------------------------------------------
  // Bit layouts

  /** `f | ((delay - 1) << 2)` with Python's infinite two's complement: for
      delay 0 the shifted value is -4, whose low two bits are clear. */
  function DelayBits(f: nat, delay: nat): int
    requires f < 4
  {
    if delay == 0 then f - 4 else Or(f, Shl(delay - 1, 2))
  }

  /** The facing sits in bits 0-1 and `delay - 1` above them. */
  lemma DelayLayout(f: nat, delay: nat)
    requires f < 4
    ensures DelayBits(f, delay) == f + 4 * (delay - 1)
  {
    if delay > 0 {
      var hi := Shl(delay - 1, 2);
      assert Pow2(2) == 4;
      assert Low(hi, 2) == 0 by {
        LowPacked(0, delay - 1, 2);
      }
      OrDisjoint(hi, f, 2);
      OrComm(hi, f);
    }
  }

  /** The stairs shape code of bits 1-2: 1 straight, 2 outer, 3 inner, 0 otherwise. */
  function ShapeCode(shape: string): nat
  {
    if shape == "straight" then 1
    else if shape == "outer_right" || shape == "outer_left" then 2
    else if shape == "inner_right" || shape == "inner_left" then 3
    else 0
  }

  predicate LeftShape(shape: string)
  {
    shape == "outer_left" || shape == "inner_left"
  }

  /** The stairs facing bits. */
  function StairsFacingBits(facing: string, shape: string): nat
  {
    var left := LeftShape(shape);
    if facing == "north" then (if left then 64 else 8)
    else if facing == "east" then (if left then 8 else 16)
    else if facing == "south" then (if left then 16 else 32)
    else if facing == "west" then (if left then 32 else 64)
    else 0
  }

  /** The stairs data: half, then shape, then facing. */
  function StairsData(half: string, shape: string, facing: string): nat
  {
    var data := if half == "bottom" then 0 else 1;
    var data := data + (if shape == "straight" then 2
      else if shape in ["outer_right", "outer_left"] then 4
      else if shape in ["inner_right", "inner_left"] then 6
      else 0);
    data + StairsFacingBits(facing, shape)
  }

  /** Clockwise from north. */
  function CompassIndex(facing: string): nat
  {
    if facing == "north" then 0 else if facing == "east" then 1
    else if facing == "south" then 2 else 3
  }

  predicate IsCompass(facing: string)
  {
    facing == "north" || facing == "east" || facing == "south" || facing == "west"
  }

  function Pow2Of4(i: nat): nat
    requires i < 4
  {
    if i == 0 then 1 else if i == 1 then 2 else if i == 2 then 4 else 8
  }

  /** The bit the facing takes in bits 3-6: clockwise from north, moved one
      step counter-clockwise for the left shapes, none for an unknown facing. */
  function FacingBit(facing: string, shape: string): nat
  {
    if IsCompass(facing) then Pow2Of4((CompassIndex(facing) + (if LeftShape(shape) then 3 else 0)) % 4)
    else 0
  }

  /** Bit 0 is the top half, bits 1-2 the shape code and bits 3-6 the single
      facing bit (an inner-left corner facing north is the inner-right corner
      facing west). */
  lemma StairsLayout(half: string, shape: string, facing: string)
    ensures StairsData(half, shape, facing) ==
      B(half != "bottom") + 2 * ShapeCode(shape) + 8 * FacingBit(facing, shape)
    ensures ShapeCode(shape) < 4 && FacingBit(facing, shape) in {0, 1, 2, 4, 8}
  {
  }

  /** The door data: `0x10` for a left hinge, `0x04` open, `0x08` upper half,
      each OR-ed in, then the facing code. */
  function DoorData(data: nat, hingeLeft: bool, open: bool, upper: bool, facingCode: nat): nat
  {
    var d := if hingeLeft then Or(data, 0x10) else data;
    var d := if open then Or(d, 0x04) else d;
    var d := if upper then Or(d, 0x08) else d;
    Or(d, facingCode)
  }

  /** From a zero data value the door flags land in separate bits. */
  lemma DoorLayout(hingeLeft: bool, open: bool, upper: bool, facingCode: nat)
    requires facingCode < 4
    ensures DoorData(0, hingeLeft, open, upper, facingCode) ==
      16 * B(hingeLeft) + 8 * B(upper) + 4 * B(open) + facingCode
  {
    assert Pow2(2) == 4 && Pow2(3) == 8;
    var d1 := 16 * B(hingeLeft);
    assert (if hingeLeft then Or(0, 0x10) else 0) == d1;
    var d2 := d1 + 4 * B(open);
    assert (if open then Or(d1, 0x04) else d1) == d2 by {
      if open {
        assert Bit(d1, 2) == 0 by {
          ShrPacked(0, 4 * B(hingeLeft), 2);
        }
        OrClearBit(d1, 2);
      }
    }
    var d3 := d2 + 8 * B(upper);
    assert (if upper then Or(d2, 0x08) else d2) == d3 by {
      if upper {
        assert Bit(d2, 3) == 0 by {
          ShrPacked(4 * B(open), 2 * B(hingeLeft), 3);
        }
        OrClearBit(d2, 3);
      }
    }
    assert Or(d3, facingCode) == d3 + facingCode by {
      assert Low(d3, 2) == 0 by {
        LowPacked(0, 4 * B(hingeLeft) + 2 * B(upper) + B(open), 2);
      }
      OrDisjoint(d3, facingCode, 2);
    }
  }

  /** `0b10 << index` for "up", `0b1 << index` for "side". */
  function WireSide(v: string, index: nat): nat
  {
    if v == "side" then Pow2(index) else if v == "up" then 2 * Pow2(index) else 0
  }

  /** The 2-bit code a wire direction is given. */
  function WireCode(v: string): nat
  {
    if v == "side" then 1 else if v == "up" then 2 else 0
  }

  /** The order the wire loop visits the four directions. */
  const WireDirections: seq<string> := ["east", "north", "west", "south"]

  /** The wire data: bit 0 is "powered", and direction j (east, north,
      west, south) takes bits 2j+1 and 2j+2. */
  function WireData(p: Props): Result<nat>
  {
    var power :- Req(p, "power");
    var east :- Req(p, "east");
    var north :- Req(p, "north");
    var west :- Req(p, "west");
    var south :- Req(p, "south");
    Ok(B(power != "0") + WireSide(east, 1) + WireSide(north, 3) + WireSide(west, 5) + WireSide(south, 7))
  }

  /** The sum of the direction terms the loop has added after `i` steps. */
  function WireSum(p: Props, i: nat): nat
    requires i <= 4
    requires forall j :: 0 <= j < i ==> WireDirections[j] in p
  {
    if i == 0 then 0 else WireSum(p, i - 1) + WireSide(p[WireDirections[i - 1]], 2 * (i - 1) + 1)
  }

  /** The four steps of the loop add up to the wire data. */
  lemma WireSumAll(p: Props)
    requires "east" in p && "north" in p && "west" in p && "south" in p
    ensures WireSum(p, 4) ==
      WireSide(p["east"], 1) + WireSide(p["north"], 3) + WireSide(p["west"], 5) + WireSide(p["south"], 7)
  {
    assert forall j :: 0 <= j < 4 ==> WireDirections[j] in p;
    assert WireSum(p, 1) == WireSide(p["east"], 1);
    assert WireSum(p, 2) == WireSum(p, 1) + WireSide(p["north"], 3);
    assert WireSum(p, 3) == WireSum(p, 2) + WireSide(p["west"], 5);
  }

  /** A missing direction is a KeyError. */
  lemma WireMissing(p: Props, i: nat)
    requires i < 4 && WireDirections[i] !in p
    ensures WireData(p) == Err(KeyError)
  {
  }

  /** The wire branch's loop. */
  method WireLoop(p: Props) returns (r: Result<nat>)
    ensures r == WireData(p)
  {
    if "power" !in p {
      return Err(KeyError);
    }
    var data := B(p["power"] != "0");
    var index := 1;
    var i := 0;
    while i < 4
      invariant 0 <= i <= 4 && index == 2 * i + 1
      invariant forall j :: 0 <= j < i ==> WireDirections[j] in p
      invariant data == B(p["power"] != "0") + WireSum(p, i)
    {
      var direction := WireDirections[i];
      if direction !in p {
        WireMissing(p, i);
        return Err(KeyError);
      }
      if p[direction] == "side" {
        data := data + Shl(1, index);
      } else if p[direction] == "up" {
        data := data + Shl(2, index);
      }
      assert data == B(p["power"] != "0") + WireSum(p, i) + WireSide(p[direction], index);
      index := index + 2;
      i := i + 1;
    }
    assert WireDirections[0] in p && WireDirections[1] in p && WireDirections[2] in p && WireDirections[3] in p;
    WireSumAll(p);
    return Ok(data);
  }

  /** `0b1 << index` and `0b10 << index` put the code at bit `index`. */
  lemma WireSideCode(v: string, index: nat)
    ensures WireSide(v, index) == Pow2(index) * WireCode(v)
  {
  }

  /** Each wire direction gets its own 2-bit digit (east at bit 1, north 3,
      west 5, south 7) holding 0, 1 (side) or 2 (up), so the data is below 512. */
  lemma WireLayout(p: Props)
    requires WireData(p).Ok?
    ensures WireData(p).value == B(p["power"] != "0") + 2 * WireCode(p["east"]) +
      8 * WireCode(p["north"]) + 32 * WireCode(p["west"]) + 128 * WireCode(p["south"])
    ensures WireData(p).value < 512
  {
    assert Pow2(1) == 2 && Pow2(3) == 8 && Pow2(5) == 32 && Pow2(7) == 128;
    WireSideCode(p["east"], 1);
    WireSideCode(p["north"], 3);
    WireSideCode(p["west"], 5);
    WireSideCode(p["south"], 7);
  }

  // ---------------------------------------------------------------------
  // The branches

  function OreOrLampBranch(e: Entry, block: nat, data: nat): Out
  {
    var p :- Properties(e);
    var lit :- Flag(p, "lit");
    Give(block, if lit then 1 else data)
  }

  /** The facing defaults to south when the entry or the key is missing. */
  function CubeFullBranch(e: Entry, block: nat): Out
  {
    var facing := if e.properties.None? then "south" else Get(e.properties.value, "facing", "south");
    var d :- FacingSWNE(facing);
    Give(block, d)
  }

  function GateBranch(e: Entry, block: nat): Out
  {
    var p :- Properties(e);
    var facing :- Req(p, "facing");
    var d :- FacingSWNE(facing);
    var open :- Flag(p, "open");
    Give(block, if open then d + 4 else d)
  }

  /** `powered` is read only for the powered-rail group. */
  function RailBranch(e: Entry, block: nat, powerRail: bool): Out
  {
    var p :- Properties(e);
    var shape :- Req(p, "shape");
    var d :- RailShape(shape);
    if powerRail then
      var powered :- Flag(p, "powered");
      Give(block, if powered then Or(d, 8) else d)
    else Give(block, d)
  }

  /** A powered repeater or comparator is the next block id. */
  function RedstoneDeviceBranch(e: Entry, block: nat): Out
  {
    var p :- Properties(e);
    var powered :- Flag(p, "powered");
    var b := if powered then block + 1 else block;
    var facing :- Req(p, "facing");
    var f :- FacingSWNE(facing);
    var delay :- ParseInt(Get(p, "delay", "1"));
    Give(b, DelayBits(f, delay))
  }

  /** An inverted daylight detector is block 178. */
  function DaylightDetectorBranch(e: Entry, block: nat, data: nat): Out
  {
    var p :- Properties(e);
    var inverted :- Flag(p, "inverted");
    Give(if inverted then 178 else block, data)
  }

  function RedstoneWireBranch(e: Entry, block: nat): Out
  {
    var p :- Properties(e);
    var d :- WireData(p);
    Give(block, d)
  }

  function GrassBlockBranch(e: Entry, block: nat, data: nat): Out
  {
    var p :- Properties(e);
    var snowy :- Flag(p, "snowy");
    Give(block, if snowy then Or(data, 0x10) else data)
  }

  function TallSpriteBranch(e: Entry, block: nat): Out
  {
    var p :- Properties(e);
    var half :- Req(p, "half");
    Give(block, if half == "lower" then 1 else 0)
  }

  /** A double slab is looked up in the double-slab table. */
  function SlabBranch(t: Tables, e: Entry, block: nat, data: nat): Out
  {
    var p :- Properties(e);
    var ty :- Req(p, "type");
    if ty == "top" then Give(block, 1)
    else if ty == "double" then
      if block in t.doubleSlabs then Give(t.doubleSlabs[block], 0) else Err(KeyError)
    else Give(block, data)
  }

  function OnlyFacingBranch(e: Entry, block: nat): Out
  {
    var p :- Properties(e);
    var facing :- Req(p, "facing");
    var d :- FacingNSWE(facing);
    Give(block, d)
  }

  function ChestBranch(e: Entry, block: nat): Out
  {
    var p :- Properties(e);
    var facing :- Req(p, "facing");
    var d :- FacingNSWE(facing);
    var c :- ChestType(Get(p, "type", "single"));
    Give(block, Or(d, c))
  }

  function FurnaceSmokerBranch(e: Entry, block: nat): Out
  {
    var p :- Properties(e);
    var facing :- Req(p, "facing");
    var d :- FacingNSWE(facing);
    Give(block, Or(d, if Get(p, "lit", "false") == "true" then 8 else 0))
  }

  /** A full hive or nest takes the second facing table, the first one
      shifted by four; both tables fail on the same facings. */
  function BeeBranch(e: Entry, block: nat): Out
  {
    var p :- Properties(e);
    var facing :- Req(p, "facing");
    var honeyText :- Req(p, "honey_level");
    var honey :- ParseInt(honeyText);
    var d :- FacingSWNE(facing);
    Give(block, if honey == 5 then d + 4 else d)
  }

  /** A ceiling button becomes (0, 0); an unknown face keeps the data. */
  function ButtonBranch(e: Entry, block: nat, data: nat): Out
  {
    var p :- Properties(e);
    var facing :- Req(p, "facing");
    var face :- Req(p, "face");
    if face == "ceiling" then Give(0, 0)
    else if face == "wall" then
      var d :- FacingEWSN(facing);
      Give(block, d)
    else if face == "floor" then
      var d :- ButtonFloor(facing);
      Give(block, d)
    else Give(block, data)
  }

  function TextBranch(e: Entry, block: nat, key: string): Out
  {
    var p :- Properties(e);
    var v :- Req(p, key);
    Ok((block, Text(v)))
  }

  /** Extended pistons, sticky piston heads and powered observers get bit 3. */
  function Facing6Branch(e: Entry, block: nat, kind: Facing6Kind): Out
  {
    var p :- Properties(e);
    var facing :- Req(p, "facing");
    var d :- Facing6Code(facing);
    var bit3 := (kind.inPistonGroup && Get(p, "extended", "false") == "true") ||
      (kind.pistonHead && Get(p, "type", "normal") == "sticky") ||
      (kind.observer && Get(p, "powered", "false") == "true");
    Give(block, if bit3 then Or(d, 0x08) else d)
  }

  function CubeColumnBranch(e: Entry, block: nat, data: nat): Out
  {
    var p :- Properties(e);
    var axis :- Req(p, "axis");
    Give(block, if axis == "x" then Or(data, 4) else if axis == "z" then Or(data, 8) else data)
  }

  /** The properties are read only by lit torches (`lit`) and wall torches
      (`facing`, through `.get`, whose None is not a key of the table). */
  function TorchBranch(e: Entry, block: nat, data: nat, lit: bool, wall: bool): Out
  {
    var d :- if lit then
        var p :- Properties(e);
        var on :- Flag(p, "lit");
        Ok(if on then data + 8 else data)
      else Ok(data);
    if wall then
      var p :- Properties(e);
      var f :- if "facing" in p then FacingEWSN(p["facing"]) else Err(KeyError);
      Give(block, d + f)
    else Give(block, d)
  }

  function HorizontalBranch(e: Entry, block: nat): Out
  {
    var p :- Properties(e);
    var facing :- Req(p, "facing");
    var d :- FacingSWNE(facing);
    Give(block, d)
  }

  /** Vines, brown and red mushroom blocks and mushroom stems: one bit per side. */
  function SixSidesBranch(e: Entry, block: nat, data: nat): Out
  {
    var p :- Properties(e);
    var south :- Flag(p, "south");
    var west :- Flag(p, "west");
    var north :- Flag(p, "north");
    var east :- Flag(p, "east");
    var up :- Flag(p, "up");
    var d := if south then Or(data, 1) else data;
    var d := if west then Or(d, 2) else d;
    var d := if north then Or(d, 4) else d;
    var d := if east then Or(d, 8) else d;
    var d := if up then Or(d, 16) else d;
    Give(block, if Get(p, "down", "false") == "true" then Or(d, 32) else d)
  }

  function AnvilBranch(e: Entry, block: nat, data: nat): Out
  {
    var p :- Properties(e);
    var facing :- Req(p, "facing");
    Give(block, data + (if facing == "west" then 1 else if facing == "north" then 2
      else if facing == "east" then 3 else 0))
  }

  /** A wall sign maps its facing; a standing sign copies `rotation`. */
  function SignBranch(e: Entry, block: nat, data: nat, wall: bool): Out
  {
    var p :- Properties(e);
    if wall then
      var facing :- Req(p, "facing");
      Give(block, if facing == "north" then 2 else if facing == "west" then 4
        else if facing == "south" then 3 else if facing == "east" then 5 else data)
    else
      var rotation :- Req(p, "rotation");
      Ok((block, Text(rotation)))
  }

  function FenceBranch(e: Entry, block: nat, data: nat): Out
  {
    var p :- Properties(e);
    var north :- Flag(p, "north");
    var west :- Flag(p, "west");
    var south :- Flag(p, "south");
    var east :- Flag(p, "east");
    var d := if north then Or(data, 1) else data;
    var d := if west then Or(d, 2) else d;
    var d := if south then Or(d, 4) else d;
    Give(block, if east then Or(d, 8) else d)
  }

  function StairsBranch(e: Entry, block: nat): Out
  {
    var p :- Properties(e);
    var half :- Req(p, "half");
    var shape :- Req(p, "shape");
    var facing :- Req(p, "facing");
    Give(block, StairsData(half, shape, facing))
  }

  function DoorBranch(e: Entry, block: nat, data: nat): Out
  {
    var p :- Properties(e);
    var hinge :- Req(p, "hinge");
    var open :- Flag(p, "open");
    var half :- Req(p, "half");
    var facing :- Req(p, "facing");
    var f :- DoorFacing(facing);
    Give(block, DoorData(data, hinge == "left", open, half == "upper", f))
  }

  function TrapdoorBranch(e: Entry, block: nat): Out
  {
    var p :- Properties(e);
    var facing :- Req(p, "facing");
    var d :- TrapdoorFacing(facing);
    var open :- Flag(p, "open");
    var half :- Req(p, "half");
    var d := if open then Or(d, 0x04) else d;
    Give(block, if half == "top" then Or(d, 0x08) else d)
  }

  function LanternBranch(e: Entry, block: nat): Out
  {
    var p :- Properties(e);
    var hanging :- Flag(p, "hanging");
    Give(block, B(hanging))
  }

  function BarrelBranch(e: Entry, block: nat): Out
  {
    var p :- Properties(e);
    var facing :- Req(p, "facing");
    var f :- BarrelFacing(facing);
    var open :- Flag(p, "open");
    Give(block, Shl(f, 1) + B(open))
  }

  function BedBranch(e: Entry, block: nat, data: nat): Out
  {
    var p :- Properties(e);
    var facing :- Req(p, "facing");
    var f :- FacingSWNE(facing);
    var d := Or(data, f);
    Give(block, if Get(p, "part", "foot") == "head" then Or(d, 8) else d)
  }

  function EndPortalFrameBranch(e: Entry, block: nat, data: nat): Out
  {
    var p :- Properties(e);
    var facing :- Req(p, "facing");
    var f :- FacingSWNE(facing);
    var d := Or(data, f);
    Give(block, if Get(p, "eye", "false") == "true" then Or(d, 4) else d)
  }

  /** `int(p.get(key, '0'))`, used by cauldrons (`level`) and cakes (`bites`). */
  function CountBranch(e: Entry, block: nat, key: string): Out
  {
    var p :- Properties(e);
    var n :- ParseInt(Get(p, key, "0"));
    Give(block, n)
  }

  function StructureBlockBranch(e: Entry, block: nat): Out
  {
    var p :- Properties(e);
    Give(block, StructureMode(Get(p, "mode", "save")))
  }

  /** Only moisture 7 has its own texture. */
  function FarmlandBranch(e: Entry, block: nat): Out
  {
    var p :- Properties(e);
    Give(block, if Get(p, "moisture", "0") == "7" then 1 else 0)
  }

  function WorkstationBranch(e: Entry, block: nat, station: Station): Out
  {
    var p :- Properties(e);
    var facing :- Req(p, "facing");
    var d :- FacingSWNE(facing);
    match station
    case Grindstone =>
      var face :- Req(p, "face");
      var g :- GrindstoneFace(face);
      Give(block, Or(d, g))
    case Lectern =>
      var book :- Flag(p, "has_book");
      Give(block, if book then Or(d, 4) else d)
    case Campfire =>
      var lit :- Flag(p, "lit");
      Give(block, if lit then Or(d, 4) else d)
    case Bell =>
      var attachment :- Req(p, "attachment");
      var a :- BellAttachment(attachment);
      Give(block, Or(d, a))
    case OtherStation => Give(block, d)
  }

  /** `p.get('waterlogged', False)` is truthy for every non-empty string,
      "false" included: such a pickle is drawn as air, one without the key
      as water. */
  function SeaPickleBranch(t: Tables, e: Entry, data: nat): Out
  {
    var p :- Properties(e);
    var truthy := "waterlogged" in p && p["waterlogged"] != "";
    Give(if truthy then t.air else t.water, data)
  }

  /** The elif chain, dispatched on the block after the waterlogged override. */
  function Dispatch(t: Tables, e: Entry, block: nat, data: nat): Out
  {
    match t.branch(block)
    case OreOrLamp => OreOrLampBranch(e, block, data)
    case Seagrass => Give(t.water, 0)
    case CubeFull => CubeFullBranch(e, block)
    case Gate => GateBranch(e, block)
    case Rail(powerRail) => RailBranch(e, block, powerRail)
    case RedstoneDevice => RedstoneDeviceBranch(e, block)
    case DaylightDetector => DaylightDetectorBranch(e, block, data)
    case RedstoneWire => RedstoneWireBranch(e, block)
    case GrassBlock => GrassBlockBranch(e, block, data)
    case TallSprite => TallSpriteBranch(e, block)
    case Slab => SlabBranch(t, e, block, data)
    case OnlyFacing => OnlyFacingBranch(e, block)
    case Chest => ChestBranch(e, block)
    case FurnaceSmoker => FurnaceSmokerBranch(e, block)
    case Bee => BeeBranch(e, block)
    case Button => ButtonBranch(e, block, data)
    case Age => TextBranch(e, block, "age")
    case Facing6(kind) => Facing6Branch(e, block, kind)
    case CubeColumn => CubeColumnBranch(e, block, data)
    case Torch(lit, wall) => TorchBranch(e, block, data, lit, wall)
    case Horizontal => HorizontalBranch(e, block)
    case SixSides => SixSidesBranch(e, block, data)
    case Anvil => AnvilBranch(e, block, data)
    case Sign(wall) => SignBranch(e, block, data, wall)
    case Fence => FenceBranch(e, block, data)
    case Stairs => StairsBranch(e, block)
    case Door => DoorBranch(e, block, data)
    case Trapdoor => TrapdoorBranch(e, block)
    case Lantern => LanternBranch(e, block)
    case Composter => TextBranch(e, block, "level")
    case Barrel => BarrelBranch(e, block)
    case Bed => BedBranch(e, block, data)
    case EndPortalFrame => EndPortalFrameBranch(e, block, data)
    case Cauldron => CountBranch(e, block, "level")
    case StructureBlock => StructureBlockBranch(e, block)
    case Cake => CountBranch(e, block, "bites")
    case Farmland => FarmlandBranch(e, block)
    case Workstation(station) => WorkstationBranch(e, block, station)
    case RespawnAnchor => TextBranch(e, block, "charges")
    case SeaPickle => SeaPickleBranch(t, e, data)
    case Plain => Give(block, data)
  }

  /** `waterlogged == 'true'` among the entry's properties. */
  predicate Waterlogged(e: Entry)
  {
    e.properties.Some? && "waterlogged" in e.properties.value &&
    e.properties.value["waterlogged"] == "true"
  }

  /** `_get_block`: a name missing from the block map is a KeyError; a
      waterlogged block is water with data 0 before the chain runs. */
  function GetBlock(t: Tables, e: Entry): (r: Out)
    ensures e.name !in t.blockmap ==> r == Err(KeyError)
  {
    if e.name !in t.blockmap then Err(KeyError)
    else
      var pair := t.blockmap[e.name];
      if Waterlogged(e) then Dispatch(t, e, t.water, 0) else Dispatch(t, e, pair.0, pair.1)
  }

  // ---------------------------------------------------------------------
  // Properties of the translation

  /** A waterlogged block of any kind is plain water. */
  lemma WaterloggedIsWater(t: Tables, e: Entry)
    requires e.name in t.blockmap && Waterlogged(e) && t.branch(t.water) == Plain
    ensures GetBlock(t, e) == Ok((t.water, Num(0)))
  {
  }

  /** Without waterlogging, a block of the plain branch keeps its block-map pair. */
  lemma PlainKeepsPair(t: Tables, e: Entry)
    requires e.name in t.blockmap && !Waterlogged(e) && t.branch(t.blockmap[e.name].0) == Plain
    ensures GetBlock(t, e) == Ok((t.blockmap[e.name].0, Num(t.blockmap[e.name].1)))
  {
  }

  /** `_get_block` on stairs: the stairs layout of the three properties, and
      a KeyError when any of them is missing. */
  lemma StairsEntry(t: Tables, e: Entry)
    requires e.name in t.blockmap && !Waterlogged(e) && t.branch(t.blockmap[e.name].0) == Stairs
    ensures var r := GetBlock(t, e);
      (e.properties.Some? && "half" in e.properties.value && "shape" in e.properties.value &&
       "facing" in e.properties.value) <==> r.Ok?
    ensures var r := GetBlock(t, e);
      r.Ok? ==> (r.value.0 == t.blockmap[e.name].0 &&
        r.value.1 == Num(StairsData(e.properties.value["half"], e.properties.value["shape"],
          e.properties.value["facing"])))
  {
  }

  /** `_get_block` on doors whose block-map data is 0. */
  lemma DoorEntry(t: Tables, e: Entry)
    requires e.name in t.blockmap && !Waterlogged(e) && t.branch(t.blockmap[e.name].0) == Door
    requires t.blockmap[e.name].1 == 0
    ensures var r := GetBlock(t, e);
      r.Ok? ==> (var p := e.properties.value;
        r.value.1 == Num(16 * B(p["hinge"] == "left") + 8 * B(p["half"] == "upper") +
          4 * B(p["open"] == "true") + DoorFacing(p["facing"]).value))
    ensures var r := GetBlock(t, e);
      r.Ok? <==> e.properties.Some? && (var p := e.properties.value;
        "hinge" in p && "open" in p && "half" in p && "facing" in p && DoorFacing(p["facing"]).Ok?)
  {
    var r := GetBlock(t, e);
    if r.Ok? {
      var p := e.properties.value;
      DoorLayout(p["hinge"] == "left", p["open"] == "true", p["half"] == "upper", DoorFacing(p["facing"]).value);
    }
  }

  /** `_get_block` on redstone wire: the wire layout, below 512, and at
      256 or above exactly when the south side goes up. */
  lemma WireEntry(t: Tables, e: Entry)
    requires e.name in t.blockmap && !Waterlogged(e) && t.branch(t.blockmap[e.name].0) == RedstoneWire
    ensures var r := GetBlock(t, e);
      r.Ok? <==> e.properties.Some? && WireData(e.properties.value).Ok?
    ensures var r := GetBlock(t, e);
      r.Ok? ==> (r.value.1 == Num(WireData(e.properties.value).value) && r.value.1.n < 512 &&
        (r.value.1.n >= 256 <==> e.properties.value["south"] == "up"))
  {
    var r := GetBlock(t, e);
    if r.Ok? {
      WireLayout(e.properties.value);
    }
  }

  /** A powered repeater or comparator moves to the next block id, and the
      delay sits above the two facing bits. */
  lemma RedstoneDeviceEntry(t: Tables, e: Entry)
    requires e.name in t.blockmap && !Waterlogged(e) && t.branch(t.blockmap[e.name].0) == RedstoneDevice
    ensures var r := GetBlock(t, e);
      r.Ok? ==> (var p := e.properties.value;
        r.value.0 == t.blockmap[e.name].0 + B(p["powered"] == "true") &&
        r.value.1 == Num(FacingSWNE(p["facing"]).value + 4 * (ParseInt(Get(p, "delay", "1")).value - 1)))
  {
    var r := GetBlock(t, e);
    if r.Ok? {
      var p := e.properties.value;
      DelayLayout(FacingSWNE(p["facing"]).value, ParseInt(Get(p, "delay", "1")).value);
    }
  }

  /** Snowy grass sets bit 4 on top of the block-map data. */
  lemma SnowyGrassEntry(t: Tables, e: Entry)
    requires e.name in t.blockmap && !Waterlogged(e) && t.branch(t.blockmap[e.name].0) == GrassBlock
    requires t.blockmap[e.name].1 < 16
    ensures var r := GetBlock(t, e);
      r.Ok? ==> r.value.1 == Num(t.blockmap[e.name].1 + 16 * B(e.properties.value["snowy"] == "true"))
  {
    var d := t.blockmap[e.name].1;
    assert Pow2(4) == 16;
    assert Bit(d, 4) == 0 by {
      ShrPacked(d, 0, 4);
    }
    OrClearBit(d, 4);
  }

  /** A ceiling button is dropped to (0, 0) whatever its facing. */
  lemma CeilingButtonEntry(t: Tables, e: Entry)
    requires e.name in t.blockmap && !Waterlogged(e) && t.branch(t.blockmap[e.name].0) == Button
    requires e.properties.Some? && "facing" in e.properties.value
    requires Get(e.properties.value, "face", "") == "ceiling"
    ensures GetBlock(t, e) == Ok((0, Num(0)))
  {
  }

  /** The barrel data is the facing code shifted up one bit with the open
      flag below it. */
  lemma BarrelEntry(t: Tables, e: Entry)
    requires e.name in t.blockmap && !Waterlogged(e) && t.branch(t.blockmap[e.name].0) == Barrel
    ensures var r := GetBlock(t, e);
      r.Ok? ==> (var p := e.properties.value;
        r.value.1.Num? && r.value.1.n / 2 == BarrelFacing(p["facing"]).value &&
        r.value.1.n % 2 == B(p["open"] == "true") && r.value.1.n < 12)
  {
  }

  /** A sea pickle is never drawn as itself. */
  lemma SeaPickleEntry(t: Tables, e: Entry)
    requires e.name in t.blockmap && !Waterlogged(e) && t.branch(t.blockmap[e.name].0) == SeaPickle
    ensures var r := GetBlock(t, e);
      r.Ok? <==> e.properties.Some?
    ensures var r := GetBlock(t, e);
      r.Ok? ==> (var p := e.properties.value;
        r.value == (if "waterlogged" in p && p["waterlogged"] != "" then t.air else t.water,
          Num(t.blockmap[e.name].1)))
  {
  }
}
