/** `World.find_true_spawn` (world.py): the stored spawn Y is clamped to
    0 .. 255, the chunk holding the spawn is fetched, its sections are sorted
    by Y and the ones from the spawn's section index upward are scanned,
    block by block, for the first air block (id 0) in the spawn's column. */
module Spawn {
  import opened Wrappers

  /** A section's block array, 16 x 16 x 16 ids, flat in numpy's C order. */
  type Grid = s: seq<nat> | |s| == 4096 witness seq(4096, i => 0)

  datatype Section = Section(y: int, blocks: Grid)

  /** The level.dat fields the search reads. */
  datatype LevelDat = LevelDat(spawnX: int, spawnY: int, spawnZ: int)

  /** The flat position of numpy index `[a, b, c]` of a (16, 16, 16) array. */
  function Voxel(a: nat, b: nat, c: nat): (i: nat)
    requires a < 16 && b < 16 && c < 16
    ensures i < 4096
  {
    256 * a + 16 * b + c
  }

  /** How the scan indexes a section's array. The arrays are stored with axes
      Y, Z, X (the layout `RotatedRegionSet.get_chunk` relies on); the scan
      as written indexes them `[x, z, y]`. */
  datatype Axes = XZY | YZX

  /** The block the scan reads at local height ly of column (ix, iz). */
  function Read(sec: Section, ix: nat, iz: nat, ly: nat, axes: Axes): nat
    requires ix < 16 && iz < 16 && ly < 16
  {
    if axes == YZX then sec.blocks[Voxel(ly, iz, ix)] else sec.blocks[Voxel(ix, iz, ly)]
  }

  /** `if spawnY < 0: spawnY = 0` then `if spawnY > 255: spawnY = 255` */
  function ClampY(y: int): (r: int)
    ensures 0 <= r <= 255
    ensures 0 <= y <= 255 ==> r == y
    ensures y < 0 ==> r == 0
    ensures y > 255 ==> r == 255
  {
    if y < 0 then 0 else if y > 255 then 255 else y
  }

  // ---------------------------------------------------------------------
  // sorted(chunk['Sections'], key=lambda sec: sec['Y'])

  /** Insert s before the first section whose Y is not below it. */
  function InsertByY(s: Section, ss: seq<Section>): (r: seq<Section>)
    ensures |r| == |ss| + 1
    ensures multiset(r) == multiset(ss) + multiset{s}
  {
    if ss == [] then [s]
    else if s.y <= ss[0].y then [s] + ss
    else
      assert ss == [ss[0]] + ss[1..];
      [ss[0]] + InsertByY(s, ss[1..])
  }

  /** A stable sort by Y: equal Ys keep their order. */
  function SortByY(ss: seq<Section>): (r: seq<Section>)
    ensures |r| == |ss|
    ensures multiset(r) == multiset(ss)
  {
    if ss == [] then []
    else
      assert ss == [ss[0]] + ss[1..];
      InsertByY(ss[0], SortByY(ss[1..]))
  }

  predicate SortedByY(ss: seq<Section>)
  {
    forall i, j :: 0 <= i < j < |ss| ==> ss[i].y <= ss[j].y
  }

  lemma {:induction false} InsertByYSorted(s: Section, ss: seq<Section>)
    requires SortedByY(ss)
    ensures SortedByY(InsertByY(s, ss))
  {
    if ss != [] && s.y > ss[0].y {
      InsertByYSorted(s, ss[1..]);
      InsertByYAbove(s, ss[1..], ss[0].y);
      assert InsertByY(s, ss) == [ss[0]] + InsertByY(s, ss[1..]);
    }
  }

  lemma {:induction false} InsertByYAbove(s: Section, ss: seq<Section>, lo: int)
    requires s.y >= lo && forall i :: 0 <= i < |ss| ==> ss[i].y >= lo
    ensures forall i :: 0 <= i < |InsertByY(s, ss)| ==> InsertByY(s, ss)[i].y >= lo
  {
    if ss != [] && s.y > ss[0].y {
      InsertByYAbove(s, ss[1..], lo);
      assert InsertByY(s, ss) == [ss[0]] + InsertByY(s, ss[1..]);
    }
  }

  /** The sort's result is ordered by Y. */
  lemma {:induction false} SortByYSorted(ss: seq<Section>)
    ensures SortedByY(SortByY(ss))
  {
    if ss != [] {
      SortByYSorted(ss[1..]);
      InsertByYSorted(ss[0], SortByY(ss[1..]));
    }
  }

  // ---------------------------------------------------------------------
  // The scan

  /** The scan from local height ly of the first section in ss, with y the
      absolute height reached so far: the height of the first air block read,
      or 256 when the sections run out. */
  function Scan(ss: seq<Section>, ix: nat, iz: nat, ly: nat, y: int, axes: Axes): int
    requires ix < 16 && iz < 16 && ly <= 16
    decreases |ss|, 16 - ly
  {
    if ss == [] then 256
    else if ly == 16 then Scan(ss[1..], ix, iz, 0, y, axes)
    else if Read(ss[0], ix, iz, ly, axes) == 0 then y
    else Scan(ss, ix, iz, ly + 1, y + 1, axes)
  }

  /** The sections the scan visits: `sorted(...)[chunkY:]`. */
  function FromIndex(ss: seq<Section>, k: nat): (r: seq<Section>)
    ensures |r| == if k <= |ss| then |ss| - k else 0
  {
    if k <= |ss| then ss[k..] else []
  }

  /** `find_true_spawn` with the given array indexing. None when the world
      has no region set; the clamped stored spawn when the spawn chunk does
      not exist; other errors of `get_chunk` propagate. */
  function TrueSpawn(level: LevelDat, hasRegionset: bool, getChunk: Coord -> Result<seq<Section>>, axes: Axes):
    (r: Result<Option<(int, int, int)>>)
    ensures !hasRegionset ==> r == Ok(None)
    ensures r.Ok? && r.value.Some? ==> r.value.value.0 == level.spawnX && r.value.value.2 == level.spawnZ
  {
    var y := ClampY(level.spawnY);
    if !hasRegionset then Ok(None)
    else
      var chunk := getChunk((level.spawnX / 16, level.spawnZ / 16));
      if chunk.Err? then
        if chunk.error == ChunkDoesntExist then Ok(Some((level.spawnX, y, level.spawnZ))) else Err(chunk.error)
      else
        var ss := FromIndex(SortByY(chunk.value), y / 16);
        Ok(Some((level.spawnX, Scan(ss, level.spawnX % 16, level.spawnZ % 16, y % 16, y, axes), level.spawnZ)))
  }

  type Coord = (int, int)

  /** `find_true_spawn`: two nested loops with an early return at the first
      air block; `axes` says how the section arrays are indexed. */
  method FindTrueSpawn(level: LevelDat, hasRegionset: bool, getChunk: Coord -> Result<seq<Section>>, axes: Axes)
    returns (r: Result<Option<(int, int, int)>>)
    ensures r == TrueSpawn(level, hasRegionset, getChunk, axes)
  {
    var spawnX, spawnY, spawnZ := level.spawnX, level.spawnY, level.spawnZ;
    if spawnY < 0 {
      spawnY := 0;
    }
    if spawnY > 255 {
      spawnY := 255;
    }
    var chunkX, chunkY, chunkZ := spawnX / 16, spawnY / 16, spawnZ / 16;
    var inChunkX, inChunkZ, inChunkY := spawnX % 16, spawnZ % 16, spawnY % 16;
    if !hasRegionset {
      return Ok(None);
    }
    var chunk := getChunk((chunkX, chunkZ));
    if chunk.Err? {
      if chunk.error == ChunkDoesntExist {
        return Ok(Some((spawnX, spawnY, spawnZ)));
      }
      return Err(chunk.error);
    }
    var sections := FromIndex(SortByY(chunk.value), chunkY);
    spawnY := ScanSections(sections, inChunkX, inChunkZ, inChunkY, spawnY, axes);
    return Ok(Some((spawnX, spawnY, spawnZ)));
  }

  /** The two loops of the scan: sections in turn, heights 0 .. 15 within
      each (from the spawn's local height in the first). */
  method ScanSections(sections: seq<Section>, inChunkX: nat, inChunkZ: nat, inChunkY: nat, spawnY: int, axes: Axes)
    returns (height: int)
    requires inChunkX < 16 && inChunkZ < 16 && inChunkY < 16
    ensures height == Scan(sections, inChunkX, inChunkZ, inChunkY, spawnY, axes)
  {
    var ly := inChunkY;
    height := spawnY;
    var s := 0;
    while s < |sections|
      invariant 0 <= s <= |sections| && 0 <= ly < 16
      invariant Scan(sections[s..], inChunkX, inChunkZ, ly, height, axes) ==
        Scan(sections, inChunkX, inChunkZ, inChunkY, spawnY, axes)
    {
      var y := ly;
      while y < 16
        invariant ly <= y <= 16
        invariant Scan(sections[s..], inChunkX, inChunkZ, y, height, axes) ==
          Scan(sections, inChunkX, inChunkZ, inChunkY, spawnY, axes)
      {
        if Read(sections[s], inChunkX, inChunkZ, y, axes) == 0 {
          return;
        }
        height := height + 1;
        y := y + 1;
      }
      assert sections[s..][1..] == sections[s + 1..];
      ly := 0;
      s := s + 1;
    }
    height := 256;
  }

  // ---------------------------------------------------------------------
  // What the scan finds

  /** The blocks the scan reads, section after section, 16 per section. */
  function Column(ss: seq<Section>, ix: nat, iz: nat, axes: Axes): (c: seq<nat>)
    requires ix < 16 && iz < 16
    ensures |c| == 16 * |ss|
  {
    if ss == [] then []
    else seq(16, l requires 0 <= l < 16 => Read(ss[0], ix, iz, l, axes)) + Column(ss[1..], ix, iz, axes)
  }

  /** The index of the first 0 in c, the reference the scan is checked against. */
  function FirstAir(c: seq<nat>): (r: Option<nat>)
    ensures r.Some? ==> r.value < |c| && c[r.value] == 0 && forall k :: 0 <= k < r.value ==> c[k] != 0
    ensures r.None? ==> forall k :: 0 <= k < |c| ==> c[k] != 0
  {
    if c == [] then None
    else if c[0] == 0 then Some(0)
    else match FirstAir(c[1..]) {
      case None => None
      case Some(t) => Some(t + 1)
    }
  }

  /** The scan returns the starting height plus the distance to the first
      air block of the column from local height ly on, or 256 when there is
      none. */
  lemma {:induction false} ScanFindsFirstAir(ss: seq<Section>, ix: nat, iz: nat, ly: nat, y: int, axes: Axes)
    requires ix < 16 && iz < 16 && ly <= 16 && (ss == [] ==> ly == 0)
    ensures Scan(ss, ix, iz, ly, y, axes) ==
      match FirstAir(Column(ss, ix, iz, axes)[ly..]) {
        case None => 256
        case Some(t) => y + t
      }
    decreases |ss|, 16 - ly
  {
    if ss != [] {
      var c := Column(ss, ix, iz, axes);
      if ly == 16 {
        assert c[16..] == Column(ss[1..], ix, iz, axes);
        assert Column(ss[1..], ix, iz, axes)[0..] == Column(ss[1..], ix, iz, axes);
        ScanFindsFirstAir(ss[1..], ix, iz, 0, y, axes);
      } else {
        assert c[ly] == Read(ss[0], ix, iz, ly, axes);
        assert c[ly..][1..] == c[ly + 1..];
        if Read(ss[0], ix, iz, ly, axes) != 0 {
          ScanFindsFirstAir(ss, ix, iz, ly + 1, y + 1, axes);
        }
      }
    }
  }

  /** With the arrays indexed in their storage order the column is the
      vertical column of blocks (x, z) of each section, bottom to top. */
  lemma {:induction false} StorageColumn(ss: seq<Section>, ix: nat, iz: nat, k: nat)
    requires ix < 16 && iz < 16 && k < 16 * |ss|
    ensures Column(ss, ix, iz, YZX)[k] == ss[k / 16].blocks[256 * (k % 16) + 16 * iz + ix]
  {
    if k >= 16 {
      StorageColumn(ss[1..], ix, iz, k - 16);
    }
  }

  /** When the spawn chunk exists the reported height is 256 or at least
      the clamped stored height: it is the clamped height plus the distance
      to the first air block of the scanned column. */
  lemma SpawnHeight(level: LevelDat, getChunk: Coord -> Result<seq<Section>>, axes: Axes)
    requires getChunk((level.spawnX / 16, level.spawnZ / 16)).Ok?
    ensures TrueSpawn(level, true, getChunk, axes).Ok?
    ensures var y := TrueSpawn(level, true, getChunk, axes).value.value.1;
      y == 256 || ClampY(level.spawnY) <= y
  {
    var y := ClampY(level.spawnY);
    var ss := FromIndex(SortByY(getChunk((level.spawnX / 16, level.spawnZ / 16)).value), y / 16);
    if ss != [] {
      ScanFindsFirstAir(ss, level.spawnX % 16, level.spawnZ % 16, y % 16, y, axes);
    }
  }

  // ---------------------------------------------------------------------
  // The axis order

  /** Spawn (5, 0, 0) over a single section whose only air block in column
      (5, 0) is the bottom one, at array position [0, 0, 5], and whose
      positions [5, 0, 0 .. 15] hold blocks. Read in storage order the spawn
      is at height 0; the scan as written reads row [5, 0, ...] and reports
      256. */
  lemma AsWrittenMissesAir(g: Grid, getChunk: Coord -> Result<seq<Section>>)
    requires g[5] == 0 && forall l :: 1280 <= l < 1296 ==> g[l] != 0
    requires getChunk((0, 0)) == Ok([Section(0, g)])
    ensures TrueSpawn(LevelDat(5, 0, 0), true, getChunk, YZX) == Ok(Some((5, 0, 0)))
    ensures TrueSpawn(LevelDat(5, 0, 0), true, getChunk, XZY) == Ok(Some((5, 256, 0)))
  {
    var ss := [Section(0, g)];
    ExampleSections(g);
    StorageOrderFindsAir(g);
    AsWrittenRunsOut(g);
  }

  lemma ExampleSections(g: Grid)
    ensures FromIndex(SortByY([Section(0, g)]), 0) == [Section(0, g)]
  {
    assert SortByY([Section(0, g)]) == [Section(0, g)];
  }

  lemma StorageOrderFindsAir(g: Grid)
    requires g[5] == 0
    ensures Scan([Section(0, g)], 5, 0, 0, 0, YZX) == 0
  {
    assert Read(Section(0, g), 5, 0, 0, YZX) == g[5];
  }

  lemma AsWrittenRunsOut(g: Grid)
    requires forall l :: 1280 <= l < 1296 ==> g[l] != 0
    ensures Scan([Section(0, g)], 5, 0, 0, 0, XZY) == 256
  {
    var ss := [Section(0, g)];
    ScanFindsFirstAir(ss, 5, 0, 0, 0, XZY);
    var c := Column(ss, 5, 0, XZY);
    forall k | 0 <= k < 16 ensures c[k] != 0 {
      assert c[k] == Read(ss[0], 5, 0, k, XZY) == g[1280 + k];
    }
    assert c[0..] == c;
  }
}
