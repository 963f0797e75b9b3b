/** The hide-underground test of the smooth-lighting-hide-underground render
    mode: `touches_light` and `underground`
    (smooth-lighting-hide-underground.c). A block is hidden unless it is
    exposed through a direction whose neighbour data is known, touches sky
    light, and passes the grass/podzol column scan and the unknown-direction
    check. */
module HideUnderground {
  import opened Wrappers
  import opened BlockClass
  import opened RenderState

  /** The six neighbour directions. */
  datatype Dir = MinusX | PlusX | MinusY | PlusY | MinusZ | PlusZ

  function Offset(d: Dir): (int, int, int)
  {
    match d
    case MinusX => (-1, 0, 0)
    case PlusX => (1, 0, 0)
    case MinusY => (0, -1, 0)
    case PlusY => (0, 1, 0)
    case MinusZ => (0, 0, -1)
    case PlusZ => (0, 0, 1)
  }

  /** The coordinate on the section face a direction leaves through:
      0 for the minus directions, 15 for the plus directions. */
  predicate OnFace(d: Dir, x: int, y: int, z: int)
  {
    match d
    case MinusX => x == 0
    case PlusX => x == 15
    case MinusY => y == 0
    case PlusY => y == 15
    case MinusZ => z == 0
    case PlusZ => z == 15
  }

  /** The six `valid*` flags: whether exposure from a direction can be trusted. */
  datatype Flags = Flags(minusX: bool, plusX: bool, minusY: bool, plusY: bool, minusZ: bool, plusZ: bool)
  {
    predicate Valid(d: Dir)
    {
      match d
      case MinusX => minusX
      case PlusX => plusX
      case MinusY => minusY
      case PlusY => plusY
      case MinusZ => minusZ
      case PlusZ => plusZ
    }
  }

  /** `is_transparent(get_data(state, BLOCKS, neighbour in direction d))` */
  predicate TransparentToward(s: State, d: Dir, x: int, y: int, z: int)
  {
    var (dx, dy, dz) := Offset(d);
    TransparentAt(s, x + dx, y + dy, z + dz)
  }

  /** `touches_light`: nonzero data above or on one of the four horizontal sides. */
  predicate TouchesLight(s: State, t: DataType, x: int, y: int, z: int)
  {
    s.getData(t, x, y + 1, z) != 0 ||
    s.getData(t, x + 1, y, z) != 0 ||
    s.getData(t, x - 1, y, z) != 0 ||
    s.getData(t, x, y, z + 1) != 0 ||
    s.getData(t, x, y, z - 1) != 0
  }

  /** The neighbours `touches_light` consults, as offsets. */
  const LightNeighbours: seq<(int, int, int)> := [(0, 1, 0), (1, 0, 0), (-1, 0, 0), (0, 0, 1), (0, 0, -1)]

  function Sample(s: State, t: DataType, x: int, y: int, z: int, o: (int, int, int)): nat
  {
    s.getData(t, x + o.0, y + o.1, z + o.2)
  }

  /** `touches_light` holds iff one of the five listed neighbours has nonzero data. */
  lemma TouchesLightNeighbours(s: State, t: DataType, x: int, y: int, z: int)
    ensures TouchesLight(s, t, x, y, z) <==>
      exists k :: 0 <= k < |LightNeighbours| && Sample(s, t, x, y, z, LightNeighbours[k]) != 0
    ensures (0, -1, 0) !in LightNeighbours
  {
    var n := LightNeighbours;
    if TouchesLight(s, t, x, y, z) {
      if s.getData(t, x, y + 1, z) != 0 {
        assert Sample(s, t, x, y, z, n[0]) != 0;
      } else if s.getData(t, x + 1, y, z) != 0 {
        assert Sample(s, t, x, y, z, n[1]) != 0;
      } else if s.getData(t, x - 1, y, z) != 0 {
        assert Sample(s, t, x, y, z, n[2]) != 0;
      } else if s.getData(t, x, y, z + 1) != 0 {
        assert Sample(s, t, x, y, z, n[3]) != 0;
      } else {
        assert Sample(s, t, x, y, z, n[4]) != 0;
      }
    }
  }

  /** The block below is never consulted: changing the data there changes nothing. */
  lemma TouchesLightIgnoresBelow(s: State, s': State, t: DataType, x: int, y: int, z: int)
    requires forall a, b, c :: (a != x || b != y - 1 || c != z) ==> s.getData(t, a, b, c) == s'.getData(t, a, b, c)
    ensures TouchesLight(s, t, x, y, z) == TouchesLight(s', t, x, y, z)
  {
    assert s.getData(t, x, y + 1, z) == s'.getData(t, x, y + 1, z);
    assert s.getData(t, x + 1, y, z) == s'.getData(t, x + 1, y, z);
    assert s.getData(t, x - 1, y, z) == s'.getData(t, x - 1, y, z);
    assert s.getData(t, x, y, z + 1) == s'.getData(t, x, y, z + 1);
    assert s.getData(t, x, y, z - 1) == s'.getData(t, x, y, z - 1);
  }

  /** The neighbouring chunk `chunks[i][j]` has no block data for this section. */
  predicate MissingColumn(s: State, i: int, j: int)
  {
    !s.loaded(i, j) || !s.sectionPresent(i, j, s.chunky)
  }

  /** Some absolute row 0..4 of column (x, z) holds a nonzero block. */
  predicate LowRowsOccupied(s: State, x: int, z: int)
  {
    exists dy :: 0 <= dy < 5 && s.getData(Blocks, x, dy, z) != 0
  }

  /** The direction flags `underground` computes. */
  function ExpectedFlags(s: State, x: int, y: int, z: int): Flags
  {
    Flags(
      minusX := !(x == 0 && MissingColumn(s, 0, 1)) || LowRowsOccupied(s, x - 1, z),
      plusX := !(x == 15 && MissingColumn(s, 2, 1)) || LowRowsOccupied(s, x + 1, z),
      minusY := !(y == 0 && (s.chunky - 1 < 0 || !s.sectionPresent(1, 1, s.chunky - 1))),
      plusY := !(y == 15 && (s.chunky + 1 >= s.sectionsPerChunk || !s.sectionPresent(1, 1, s.chunky + 1))),
      minusZ := !(z == 0 && MissingColumn(s, 1, 0)) || LowRowsOccupied(s, x, z - 1),
      plusZ := !(z == 15 && MissingColumn(s, 1, 2)) || LowRowsOccupied(s, x, z + 1))
  }

  /** The rescan of absolute rows 0..4 in a neighbour column. */
  method RescanLowRows(s: State, x: int, z: int) returns (found: bool)
    ensures found <==> LowRowsOccupied(s, x, z)
  {
    found := false;
    var dy := 0;
    while dy < 5
      invariant 0 <= dy <= 5
      invariant found <==> exists d :: 0 <= d < dy && s.getData(Blocks, x, d, z) != 0
    {
      if s.getData(Blocks, x, dy, z) != 0 {
        found := true;
      }
      dy := dy + 1;
    }
  }

  /** The flag computation at the head of `underground`. */
  method DirectionFlags(s: State, x: int, y: int, z: int) returns (f: Flags)
    ensures f == ExpectedFlags(s, x, y, z)
  {
    var validMinusX, validPlusX, validMinusY, validPlusY, validMinusZ, validPlusZ := true, true, true, true, true, true;
    if x == 0 && (!s.loaded(0, 1) || !s.sectionPresent(0, 1, s.chunky)) {
      validMinusX := RescanLowRows(s, x - 1, z);
    }
    if x == 15 && (!s.loaded(2, 1) || !s.sectionPresent(2, 1, s.chunky)) {
      validPlusX := RescanLowRows(s, x + 1, z);
    }
    if y == 0 && (s.chunky - 1 < 0 || !s.sectionPresent(1, 1, s.chunky - 1)) {
      validMinusY := false;
    }
    if y == 15 && (s.chunky + 1 >= s.sectionsPerChunk || !s.sectionPresent(1, 1, s.chunky + 1)) {
      validPlusY := false;
    }
    if z == 0 && (!s.loaded(1, 0) || !s.sectionPresent(1, 0, s.chunky)) {
      validMinusZ := RescanLowRows(s, x, z - 1);
    }
    if z == 15 && (!s.loaded(1, 2) || !s.sectionPresent(1, 2, s.chunky)) {
      validPlusZ := RescanLowRows(s, x, z + 1);
    }
    f := Flags(validMinusX, validPlusX, validMinusY, validPlusY, validMinusZ, validPlusZ);
  }

  /** A flag is cleared only on the section face it points through; the X and
      Z flags come back when a low row of the neighbour column is occupied. */
  lemma FlagsClearedOnlyOnFace(s: State, x: int, y: int, z: int, d: Dir)
    ensures !ExpectedFlags(s, x, y, z).Valid(d) ==> OnFace(d, x, y, z)
    ensures d != MinusY && d != PlusY ==>
      var (dx, _, dz) := Offset(d);
      LowRowsOccupied(s, x + dx, z + dz) ==> ExpectedFlags(s, x, y, z).Valid(d)
  {
  }

  /** The Y flags have no rescan: they depend on section presence only,
      never on block data. */
  lemma VerticalFlagsIgnoreBlocks(s: State, s': State, x: int, y: int, z: int)
    requires s.chunky == s'.chunky && s.sectionsPerChunk == s'.sectionsPerChunk
    requires forall i, j, k :: s.sectionPresent(i, j, k) == s'.sectionPresent(i, j, k)
    ensures ExpectedFlags(s, x, y, z).minusY == ExpectedFlags(s', x, y, z).minusY
    ensures ExpectedFlags(s, x, y, z).plusY == ExpectedFlags(s', x, y, z).plusY
  {
  }

  /** Some direction with trusted data has a transparent neighbour. */
  predicate Exposed(s: State, f: Flags, x: int, y: int, z: int)
  {
    exists d: Dir :: f.Valid(d) && TransparentToward(s, d, x, y, z)
  }

  /** Some direction without data has a transparent neighbour. */
  predicate ExposedWhereUnknown(s: State, f: Flags, x: int, y: int, z: int)
  {
    exists d: Dir :: !f.Valid(d) && TransparentToward(s, d, x, y, z)
  }

  /** The upward scan above grass and podzol, from row `dy` to row 254:
      Some(false) at the first sky-lit voxel, Some(true) at an opaque voxel
      met first, None when the scan runs out. */
  function Column(s: State, x: int, dy: int, z: int): Option<bool>
    decreases 255 - dy
  {
    if dy >= 255 then None
    else if s.getData(SkyLight, x, dy, z) != 0 then Some(false)
    else if !TransparentAt(s, x, dy, z) then Some(true)
    else Column(s, x, dy + 1, z)
  }

  /** Every voxel in rows lo..hi-1 is dark and transparent. */
  predicate ClearBetween(s: State, x: int, lo: int, hi: int, z: int)
  {
    forall e :: lo <= e < hi ==> s.getData(SkyLight, x, e, z) == 0 && TransparentAt(s, x, e, z)
  }

  /** The column scan, characterised by the first voxel that stops it. */
  lemma {:induction false} ColumnFirstStop(s: State, x: int, lo: int, z: int)
    ensures Column(s, x, lo, z) == Some(false) <==>
      exists d :: lo <= d < 255 && s.getData(SkyLight, x, d, z) != 0 && ClearBetween(s, x, lo, d, z)
    ensures Column(s, x, lo, z) == Some(true) <==>
      exists d :: lo <= d < 255 && s.getData(SkyLight, x, d, z) == 0 && !TransparentAt(s, x, d, z) && ClearBetween(s, x, lo, d, z)
    ensures Column(s, x, lo, z) == None <==> ClearBetween(s, x, lo, 255, z)
    decreases 255 - lo
  {
    if lo >= 255 {
    } else if s.getData(SkyLight, x, lo, z) != 0 {
      assert ClearBetween(s, x, lo, lo, z);
      assert !ClearBetween(s, x, lo, 255, z);
      forall d | lo < d < 255
        ensures !ClearBetween(s, x, lo, d, z)
      {
        assert !(s.getData(SkyLight, x, lo, z) == 0);
      }
    } else if !TransparentAt(s, x, lo, z) {
      assert ClearBetween(s, x, lo, lo, z);
      assert !ClearBetween(s, x, lo, 255, z);
      forall d | lo < d < 255
        ensures !ClearBetween(s, x, lo, d, z)
      {
        assert !TransparentAt(s, x, lo, z);
      }
    } else {
      ColumnFirstStop(s, x, lo + 1, z);
      forall d | lo < d
        ensures ClearBetween(s, x, lo, d, z) <==> ClearBetween(s, x, lo + 1, d, z)
      {
      }
    }
  }

  /** What `underground` answers: true means the block is hidden. */
  predicate Hidden(s: State, x: int, y: int, z: int)
  {
    HiddenWith(s, ExpectedFlags(s, x, y, z), x, y, z)
  }

  /** The decision `underground` takes once the flags `f` are known. */
  predicate HiddenWith(s: State, f: Flags, x: int, y: int, z: int)
  {
    if !Exposed(s, f, x, y, z) || !TouchesLight(s, SkyLight, x, y, z) then true
    else if (s.blocks(x, y, z) == 8 || s.blocks(x, y, z) == 11) && Column(s, x, y + 1, z).Some? then
      Column(s, x, y + 1, z).value
    else ExposedWhereUnknown(s, f, x, y, z)
  }

  /** The six-way disjunction of the exposure test in `underground`. */
  predicate ExposedListed(s: State, f: Flags, x: int, y: int, z: int)
  {
    (f.minusX && TransparentAt(s, x - 1, y, z)) || (f.plusX && TransparentAt(s, x + 1, y, z)) ||
    (f.minusY && TransparentAt(s, x, y - 1, z)) || (f.plusY && TransparentAt(s, x, y + 1, z)) ||
    (f.minusZ && TransparentAt(s, x, y, z - 1)) || (f.plusZ && TransparentAt(s, x, y, z + 1))
  }

  /** The six `if (!valid...)` tests at the end of `underground`. */
  predicate UnknownListed(s: State, f: Flags, x: int, y: int, z: int)
  {
    (!f.minusX && TransparentAt(s, x - 1, y, z)) || (!f.plusX && TransparentAt(s, x + 1, y, z)) ||
    (!f.minusY && TransparentAt(s, x, y - 1, z)) || (!f.plusY && TransparentAt(s, x, y + 1, z)) ||
    (!f.minusZ && TransparentAt(s, x, y, z - 1)) || (!f.plusZ && TransparentAt(s, x, y, z + 1))
  }

  /** Flipping every flag turns the trusted directions into the unknown ones. */
  function Negate(f: Flags): (g: Flags)
    ensures forall d :: g.Valid(d) == !f.Valid(d)
  {
    Flags(!f.minusX, !f.plusX, !f.minusY, !f.plusY, !f.minusZ, !f.plusZ)
  }

  /** The listed disjunction enumerates the six directions. */
  lemma ExposureEnumerates(s: State, f: Flags, x: int, y: int, z: int)
    ensures Exposed(s, f, x, y, z) <==> ExposedListed(s, f, x, y, z)
  {
    if Exposed(s, f, x, y, z) {
      var d :| f.Valid(d) && TransparentToward(s, d, x, y, z);
      DirectionListed(s, f, d, x, y, z);
    }
    if ExposedListed(s, f, x, y, z) {
      ListedDirection(s, f, x, y, z);
    }
  }

  lemma DirectionListed(s: State, f: Flags, d: Dir, x: int, y: int, z: int)
    requires f.Valid(d) && TransparentToward(s, d, x, y, z)
    ensures ExposedListed(s, f, x, y, z)
  {
    match d
    case MinusX =>
    case PlusX =>
    case MinusY =>
    case PlusY =>
    case MinusZ =>
    case PlusZ =>
  }

  lemma ListedDirection(s: State, f: Flags, x: int, y: int, z: int)
    requires ExposedListed(s, f, x, y, z)
    ensures Exposed(s, f, x, y, z)
  {
    var d :=
      if f.minusX && TransparentAt(s, x - 1, y, z) then MinusX
      else if f.plusX && TransparentAt(s, x + 1, y, z) then PlusX
      else if f.minusY && TransparentAt(s, x, y - 1, z) then MinusY
      else if f.plusY && TransparentAt(s, x, y + 1, z) then PlusY
      else if f.minusZ && TransparentAt(s, x, y, z - 1) then MinusZ
      else PlusZ;
    assert f.Valid(d) && TransparentToward(s, d, x, y, z);
  }

  /** The final tests enumerate the directions without data. */
  lemma UnknownEnumerates(s: State, f: Flags, x: int, y: int, z: int)
    ensures ExposedWhereUnknown(s, f, x, y, z) <==> UnknownListed(s, f, x, y, z)
  {
    var g := Negate(f);
    ExposureEnumerates(s, g, x, y, z);
    assert ExposedWhereUnknown(s, f, x, y, z) <==> Exposed(s, g, x, y, z);
  }

  /** `underground`. */
  method Underground(s: State, x: int, y: int, z: int) returns (hidden: bool)
    ensures hidden == Hidden(s, x, y, z)
  {
    var f := DirectionFlags(s, x, y, z);
    hidden := Decide(s, f, x, y, z);
  }

  /** `HiddenWith` in terms of the listed tests `underground` makes, in its order. */
  lemma HiddenWithListed(s: State, f: Flags, x: int, y: int, z: int)
    ensures !ExposedListed(s, f, x, y, z) ==> HiddenWith(s, f, x, y, z)
    ensures !TouchesLight(s, SkyLight, x, y, z) ==> HiddenWith(s, f, x, y, z)
    ensures ExposedListed(s, f, x, y, z) && TouchesLight(s, SkyLight, x, y, z) ==>
      if (s.blocks(x, y, z) == 8 || s.blocks(x, y, z) == 11) && Column(s, x, y + 1, z).Some? then
        HiddenWith(s, f, x, y, z) == Column(s, x, y + 1, z).value
      else HiddenWith(s, f, x, y, z) == UnknownListed(s, f, x, y, z)
  {
    ExposureEnumerates(s, f, x, y, z);
    UnknownEnumerates(s, f, x, y, z);
  }

  /** The upward loop over rows `lo` to 254 above grass and podzol. */
  method ScanColumn(s: State, x: int, lo: int, z: int) returns (stop: Option<bool>)
    ensures stop == Column(s, x, lo, z)
  {
    var dy := lo;
    while dy < 255
      invariant Column(s, x, lo, z) == Column(s, x, dy, z)
      decreases 255 - dy
    {
      if s.getData(SkyLight, x, dy, z) != 0 {
        return Some(false);
      } else if !TransparentAt(s, x, dy, z) {
        return Some(true);
      }
      dy := dy + 1;
    }
    return None;
  }

  /** The exposure, sky-light, column and unknown-direction checks of `underground`. */
  method Decide(s: State, f: Flags, x: int, y: int, z: int) returns (hidden: bool)
    ensures hidden == HiddenWith(s, f, x, y, z)
  {
    HiddenWithListed(s, f, x, y, z);
    if ExposedListed(s, f, x, y, z) {
      if TouchesLight(s, SkyLight, x, y, z) {
        var blockID := s.blocks(x, y, z);
        if blockID == 8 || blockID == 11 {
          var stop := ScanColumn(s, x, y + 1, z);
          if stop.Some? {
            return stop.value;
          }
        }
        if !f.minusX && TransparentAt(s, x - 1, y, z) { return true; }
        if !f.plusX && TransparentAt(s, x + 1, y, z) { return true; }
        if !f.minusY && TransparentAt(s, x, y - 1, z) { return true; }
        if !f.plusY && TransparentAt(s, x, y + 1, z) { return true; }
        if !f.minusZ && TransparentAt(s, x, y, z - 1) { return true; }
        if !f.plusZ && TransparentAt(s, x, y, z + 1) { return true; }
        return false;
      }
      return true;
    }
    return true;
  }

  /** A block no trusted direction exposes, or one that does not touch sky
      light, is hidden. */
  lemma HiddenUnlessExposedAndLit(s: State, x: int, y: int, z: int)
    ensures !Exposed(s, ExpectedFlags(s, x, y, z), x, y, z) ==> Hidden(s, x, y, z)
    ensures !TouchesLight(s, SkyLight, x, y, z) ==> Hidden(s, x, y, z)
  {
  }

  /** Outside the grass/podzol scan, an exposed sky-lit block is hidden exactly
      when a direction without data shows a transparent neighbour. */
  lemma HiddenByUnknownDirection(s: State, x: int, y: int, z: int)
    requires Exposed(s, ExpectedFlags(s, x, y, z), x, y, z) && TouchesLight(s, SkyLight, x, y, z)
    requires s.blocks(x, y, z) != 8 && s.blocks(x, y, z) != 11
    ensures Hidden(s, x, y, z) <==> ExposedWhereUnknown(s, ExpectedFlags(s, x, y, z), x, y, z)
  {
  }

  /** For grass and podzol, the first sky-lit voxel above makes the block
      visible, and an opaque voxel reached first hides it. */
  lemma GrassColumnDecides(s: State, x: int, y: int, z: int, d: int)
    requires Exposed(s, ExpectedFlags(s, x, y, z), x, y, z) && TouchesLight(s, SkyLight, x, y, z)
    requires s.blocks(x, y, z) == 8 || s.blocks(x, y, z) == 11
    requires y + 1 <= d < 255 && ClearBetween(s, x, y + 1, d, z)
    ensures s.getData(SkyLight, x, d, z) != 0 ==> !Hidden(s, x, y, z)
    ensures s.getData(SkyLight, x, d, z) == 0 && !TransparentAt(s, x, d, z) ==> Hidden(s, x, y, z)
  {
    ColumnFirstStop(s, x, y + 1, z);
  }
}
