/** The region-set layer of world.py: the region file a chunk lives in
    (`RegionSet._get_region_path`) and the three wrappers that sit between a
    region set and the renderer. `RotatedRegionSet` maps coordinates through
    its rotation tables, `CroppedRegionSet` hides every chunk outside a box,
    and `CachedRegionSet.get_chunk` fills a list of cache objects, which
    several wrappers may share. A region set is a value here: a chunk lookup,
    an mtime lookup and the chunk listing its iterators produce. Chunk
    contents are opaque. */
module RegionSets {
  import opened Wrappers
  import opened Bits
  import opened ChunkDecode

  type Coord = (int, int)

  /** A listed chunk: `(x, z, mtime)` as `iterate_chunks` yields it. */
  type Listed = (int, int, int)

  /** What a region set answers: `get_chunk`, `get_chunk_mtime` and the
      sequence `iterate_chunks` yields. */
  datatype RegionSet<C> = RegionSet(
    chunk: Coord -> Result<C>,
    mtime: Coord -> Option<int>,
    chunks: seq<Listed>)

  // ---------------------------------------------------------------------
  // The region file of a chunk

  /** `_get_region_path`: the file of region `(x // 32, z // 32)`, or None
      when no such region file was found. Dafny's `/` by a positive divisor
      rounds toward minus infinity like Python's `//`. */
  function RegionPath(regionfiles: map<Coord, (string, int)>, chunkX: int, chunkZ: int): (r: Option<string>)
    ensures r.Some? <==> (chunkX / 32, chunkZ / 32) in regionfiles
  {
    var k := (chunkX / 32, chunkZ / 32);
    if k in regionfiles then Some(regionfiles[k].0) else None
  }

  /** Every chunk of the 32 x 32 block of region (rx, rz) is found in that
      region's file, negative regions included. */
  lemma RegionPathCovers(regionfiles: map<Coord, (string, int)>, rx: int, rz: int, i: int, j: int)
    requires 0 <= i < 32 && 0 <= j < 32
    ensures RegionPath(regionfiles, 32 * rx + i, 32 * rz + j) ==
      if (rx, rz) in regionfiles then Some(regionfiles[(rx, rz)].0) else None
  {
    DivModUnique(32 * rx + i, 32, rx, i);
    DivModUnique(32 * rz + j, 32, rz, j);
  }

  // ---------------------------------------------------------------------
  // RotatedRegionSet

  function NoRotation(p: Coord): Coord { p }
  function RotateClockwise(p: Coord): Coord { (-p.1, p.0) }
  function RotateCounterclockwise(p: Coord): Coord { (p.1, -p.0) }
  function Rotate180(p: Coord): Coord { (-p.0, -p.1) }

  /** `_unrotation_funcs[d]`: rotated coordinates back to world coordinates. */
  function Unrotation(d: nat, p: Coord): Coord
    requires d < 4
  {
    if d == 0 then NoRotation(p)
    else if d == 1 then RotateCounterclockwise(p)
    else if d == 2 then Rotate180(p)
    else RotateClockwise(p)
  }

  /** `_rotation_funcs[d]`: world coordinates to rotated coordinates. */
  function Rotation(d: nat, p: Coord): Coord
    requires d < 4
  {
    if d == 0 then NoRotation(p)
    else if d == 1 then RotateClockwise(p)
    else if d == 2 then Rotate180(p)
    else RotateCounterclockwise(p)
  }

  /** n quarter turns clockwise, the reference the tables are checked against. */
  function Clockwise(n: nat, p: Coord): Coord
  {
    if n == 0 then p else RotateClockwise(Clockwise(n - 1, p))
  }

  /** The rotation table for north direction d turns d quarter turns
      clockwise, and the unrotation table turns the rest of the full turn. */
  lemma {:induction false} RotationIsQuarterTurns(d: nat, p: Coord)
    requires d < 4
    ensures Rotation(d, p) == Clockwise(d, p)
    ensures Unrotation(d, p) == Clockwise((4 - d) % 4, p)
  {
    assert Clockwise(1, p) == RotateClockwise(p);
    assert Clockwise(2, p) == Rotate180(p);
    assert Clockwise(3, p) == RotateCounterclockwise(p);
  }

  /** For each north direction, unrotation undoes rotation and rotation
      undoes unrotation. */
  lemma UnrotateRotate(d: nat, p: Coord)
    requires d < 4
    ensures Unrotation(d, Rotation(d, p)) == p
    ensures Rotation(d, Unrotation(d, p)) == p
  {
  }

  /** Indexing the four-entry tables with `north_dir`: Python accepts -4 .. 3
      and raises IndexError otherwise. */
  function TableIndex(northDir: int): (r: Result<nat>)
    ensures r.Ok? <==> -4 <= northDir < 4
    ensures r.Ok? ==> r.value < 4 && (northDir - r.value) % 4 == 0
    ensures r.Err? ==> r.error == IndexError
  {
    if 0 <= northDir < 4 then Ok(northDir)
    else if -4 <= northDir < 0 then Ok(northDir + 4)
    else Err(IndexError)
  }

  /** `iterate_chunks` of the rotated set: each pair rotated, mtime kept. */
  function RotatedChunks(cs: seq<Listed>, d: nat): (r: seq<Listed>)
    requires d < 4
    ensures |r| == |cs|
  {
    seq(|cs|, i requires 0 <= i < |cs| =>
      (Rotation(d, (cs[i].0, cs[i].1)).0, Rotation(d, (cs[i].0, cs[i].1)).1, cs[i].2))
  }

  /** `RotatedRegionSet(r, north_dir)`: lookups go through the unrotation
      table, listings through the rotation table. The section arrays'
      `rot90` is not modelled. */
  function Rotated<C>(r: RegionSet<C>, northDir: int): (w: Result<RegionSet<C>>)
    ensures w.Ok? <==> -4 <= northDir < 4
  {
    var d :- TableIndex(northDir);
    Ok(RegionSet(
      (p: Coord) => r.chunk(Unrotation(d, p)),
      (p: Coord) => r.mtime(Unrotation(d, p)),
      RotatedChunks(r.chunks, d)))
  }

  /** The rotated set lists chunk i of the underlying set at its rotated
      position, and looking that position up finds the underlying chunk and
      mtime. */
  lemma RotatedListingAgrees<C>(r: RegionSet<C>, northDir: int, i: nat)
    requires -4 <= northDir < 4 && i < |r.chunks|
    ensures var w := Rotated(r, northDir).value; var c := w.chunks[i];
      |w.chunks| == |r.chunks| && c.2 == r.chunks[i].2 &&
      w.chunk((c.0, c.1)) == r.chunk((r.chunks[i].0, r.chunks[i].1)) &&
      w.mtime((c.0, c.1)) == r.mtime((r.chunks[i].0, r.chunks[i].1))
  {
    var d := TableIndex(northDir).value;
    UnrotateRotate(d, (r.chunks[i].0, r.chunks[i].1));
  }

  /** Rotation is one-to-one, so two different listed chunks never land on
      the same rotated position. */
  lemma RotationInjective(d: nat, p: Coord, q: Coord)
    requires d < 4 && Rotation(d, p) == Rotation(d, q)
    ensures p == q
  {
    UnrotateRotate(d, p);
    UnrotateRotate(d, q);
  }

  // ---------------------------------------------------------------------
  // CroppedRegionSet

  /** The crop box in chunk coordinates. */
  datatype Box = Box(xmin: int, zmin: int, xmax: int, zmax: int)

  /** `CroppedRegionSet.__init__`: the block bounds divided by 16, rounding
      toward minus infinity. */
  function CropBox(xmin: int, zmin: int, xmax: int, zmax: int): (b: Box)
    ensures 16 * b.xmin <= xmin < 16 * b.xmin + 16 && 16 * b.xmax <= xmax < 16 * b.xmax + 16
    ensures 16 * b.zmin <= zmin < 16 * b.zmin + 16 && 16 * b.zmax <= zmax < 16 * b.zmax + 16
  {
    Box(xmin / 16, zmin / 16, xmax / 16, zmax / 16)
  }

  predicate Inside(b: Box, x: int, z: int)
  {
    b.xmin <= x <= b.xmax && b.zmin <= z <= b.zmax
  }

  /** The generator expressions of `iterate_chunks`: the listed chunks inside
      the box, in their original order. */
  function InsideChunks(cs: seq<Listed>, b: Box): (r: seq<Listed>)
    ensures |r| <= |cs|
    ensures forall c :: c in r <==> c in cs && Inside(b, c.0, c.1)
  {
    if cs == [] then []
    else if Inside(b, cs[0].0, cs[0].1) then [cs[0]] + InsideChunks(cs[1..], b)
    else InsideChunks(cs[1..], b)
  }

  /** `CroppedRegionSet(r, xmin, zmin, xmax, zmax)` */
  function Cropped<C>(r: RegionSet<C>, b: Box): RegionSet<C>
  {
    RegionSet(
      (p: Coord) => if Inside(b, p.0, p.1) then r.chunk(p) else Err(ChunkDoesntExist),
      (p: Coord) => if Inside(b, p.0, p.1) then r.mtime(p) else None,
      InsideChunks(r.chunks, b))
  }

  /** Outside the box the cropped set raises ChunkDoesntExist, has no mtime
      and never lists the chunk; inside it answers as the underlying set. */
  lemma CroppedHidesOutside<C>(r: RegionSet<C>, b: Box, x: int, z: int)
    ensures !Inside(b, x, z) ==>
      Cropped(r, b).chunk((x, z)) == Err(ChunkDoesntExist) && Cropped(r, b).mtime((x, z)) == None &&
      forall m :: (x, z, m) !in Cropped(r, b).chunks
    ensures Inside(b, x, z) ==>
      Cropped(r, b).chunk((x, z)) == r.chunk((x, z)) && Cropped(r, b).mtime((x, z)) == r.mtime((x, z)) &&
      forall m :: (x, z, m) in Cropped(r, b).chunks <==> (x, z, m) in r.chunks
  {
  }

  /** The cropped listing keeps the underlying order: filtering a listing
      made of two parts filters each part in turn. */
  lemma {:induction false} InsideChunksAppend(xs: seq<Listed>, ys: seq<Listed>, b: Box)
    ensures InsideChunks(xs + ys, b) == InsideChunks(xs, b) + InsideChunks(ys, b)
  {
    if xs == [] {
      assert xs + ys == ys;
    } else {
      assert (xs + ys)[0] == xs[0] && (xs + ys)[1..] == xs[1..] + ys;
      InsideChunksAppend(xs[1..], ys, b);
    }
  }

  /** Every chunk holding a block of the requested block box is kept. */
  lemma CropKeepsBlockBox(xmin: int, zmin: int, xmax: int, zmax: int, bx: int, bz: int)
    requires xmin <= bx <= xmax && zmin <= bz <= zmax
    ensures Inside(CropBox(xmin, zmin, xmax, zmax), bx / 16, bz / 16)
  {
    DivMono(xmin, bx, 16);
    DivMono(bx, xmax, 16);
    DivMono(zmin, bz, 16);
    DivMono(bz, zmax, 16);
  }

  // ---------------------------------------------------------------------
  // CachedRegionSet

  /** `(self.key, x, z)` */
  type Key = (string, int, int)

  /** The first cache holding the key, or the number of caches. */
  function FirstHolding<C>(caches: seq<map<Key, C>>, key: Key): (i: nat)
    ensures i <= |caches|
    ensures forall j :: 0 <= j < i ==> key !in caches[j]
    ensures i < |caches| ==> key in caches[i]
  {
    if caches == [] then 0
    else if key in caches[0] then 0
    else 1 + FirstHolding(caches[1..], key)
  }

  /** `for cache in self.caches[:upto]: cache[key] = retval` */
  function Store<C>(caches: seq<map<Key, C>>, key: Key, v: C, upto: nat): (r: seq<map<Key, C>>)
    ensures |r| == |caches|
  {
    seq(|caches|, j requires 0 <= j < |caches| => if j < upto then caches[j][key := v] else caches[j])
  }

  /** `get_chunk` as written: the value of the first cache holding the key,
      stored into the caches before it; on a miss the underlying chunk,
      stored into every cache. An exception of the underlying set propagates
      before anything is stored; with no caches at all the loop variable is
      never bound and the store loop raises UnboundLocalError. */
  function GetChunkAsWritten<C>(caches: seq<map<Key, C>>, key: Key, fetch: Result<C>): (Result<C>, seq<map<Key, C>>)
  {
    var i := FirstHolding(caches, key);
    if i < |caches| then (Ok(caches[i][key]), Store(caches, key, caches[i][key], i))
    else if fetch.Err? then (fetch, caches)
    else if caches == [] then (Err(UnboundLocal), caches)
    else (fetch, Store(caches, key, fetch.value, |caches|))
  }

  /** `get_chunk` as intended: with no caches the underlying chunk is
      returned and nothing is stored. */
  function GetChunkOf<C>(caches: seq<map<Key, C>>, key: Key, fetch: Result<C>): (Result<C>, seq<map<Key, C>>)
  {
    var i := FirstHolding(caches, key);
    if i < |caches| then (Ok(caches[i][key]), Store(caches, key, caches[i][key], i))
    else if fetch.Err? then (fetch, caches)
    else (fetch, Store(caches, key, fetch.value, |caches|))
  }

  /** The two agree whenever there is at least one cache or the underlying
      set raises; with no caches and a chunk that exists, the code as
      written raises UnboundLocalError where the intended version returns
      the chunk. */
  lemma GetChunkEmptyCacheList<C>(caches: seq<map<Key, C>>, key: Key, fetch: Result<C>)
    ensures caches != [] || fetch.Err? ==> GetChunkAsWritten(caches, key, fetch) == GetChunkOf(caches, key, fetch)
    ensures caches == [] && fetch.Ok? ==>
      GetChunkAsWritten(caches, key, fetch).0 == Err(UnboundLocal) && GetChunkOf(caches, key, fetch) == (fetch, [])
  {
  }

  /** The cache fill: the returned value is the first cache's entry or the
      underlying chunk; every cache before the first holder (all of them on a
      miss) now maps the key to it; the other caches and every other key are
      unchanged. */
  lemma GetChunkFill<C>(caches: seq<map<Key, C>>, key: Key, fetch: Result<C>)
    ensures var (r, after) := GetChunkOf(caches, key, fetch); var i := FirstHolding(caches, key);
      |after| == |caches| &&
      (i < |caches| ==> r == Ok(caches[i][key])) &&
      (i == |caches| ==> r == fetch) &&
      (r.Ok? ==> forall j :: 0 <= j < |caches| && j <= i ==> key in after[j] && after[j][key] == r.value) &&
      (forall j :: 0 <= j < |caches| && (i < j || r.Err?) ==> after[j] == caches[j]) &&
      (forall j, k :: 0 <= j < |caches| && k != key ==> (k in after[j] <==> k in caches[j]))
  {
    var (r, after) := GetChunkOf(caches, key, fetch);
    var i := FirstHolding(caches, key);
    forall j, k | 0 <= j < |caches| && k != key
      ensures k in after[j] <==> k in caches[j]
    {
    }
  }

  /** Asking again for a chunk that was just returned finds it in the first
      cache and changes nothing. */
  lemma GetChunkTwice<C>(caches: seq<map<Key, C>>, key: Key, fetch: Result<C>, fetch': Result<C>)
    requires GetChunkOf(caches, key, fetch).0.Ok? && caches != []
    ensures var (r, after) := GetChunkOf(caches, key, fetch);
      GetChunkOf(after, key, fetch') == (r, after)
  {
    var (r, after) := GetChunkOf(caches, key, fetch);
    GetChunkFill(caches, key, fetch);
    assert key in after[0] && after[0][key] == r.value;
    assert FirstHolding(after, key) == 0;
    assert Store(after, key, after[0][key], 0) == after;
  }

  // ---------------------------------------------------------------------
  // The cache key

  /** `s += obj.__class__.__name__ + "."` for each wrapper from the outside in. */
  function WrapperPrefix(wrappers: seq<string>): string
    decreases |wrappers|
  {
    if wrappers == [] then "" else wrappers[0] + "." + WrapperPrefix(wrappers[1..])
  }

  /** The key `__init__` builds: the wrapper class names between this wrapper
      and the real region set, then that set's `regiondir`, or its `repr`
      when it has none. */
  function CacheKey(wrappers: seq<string>, regiondir: Option<string>, repr: string): string
  {
    WrapperPrefix(wrappers) + (match regiondir case Some(d) => d case None => repr)
  }

  /** One more wrapper name appends its name and a dot. */
  lemma {:induction false} WrapperPrefixAppend(wrappers: seq<string>, name: string)
    ensures WrapperPrefix(wrappers + [name]) == WrapperPrefix(wrappers) + name + "."
    decreases |wrappers|
  {
    if wrappers != [] {
      assert (wrappers + [name])[1..] == wrappers[1..] + [name];
      WrapperPrefixAppend(wrappers[1..], name);
    }
  }

  /** Wrapper names are Python class names and hold no dot. */
  predicate DotFree(wrappers: seq<string>)
  {
    forall i :: 0 <= i < |wrappers| ==> '.' !in wrappers[i]
  }

  /** Dot-free names can be read back from their prefix. */
  lemma {:induction false} WrapperPrefixInjective(a: seq<string>, b: seq<string>)
    requires DotFree(a) && DotFree(b)
    requires WrapperPrefix(a) == WrapperPrefix(b)
    ensures a == b
    decreases |a|
  {
    if a != [] && b != [] {
      var pa, pb := WrapperPrefix(a), WrapperPrefix(b);
      var x, y := a[0], b[0];
      assert pa == x + "." + WrapperPrefix(a[1..]);
      assert pb == y + "." + WrapperPrefix(b[1..]);
      assert pa[|x|] == '.' && pb[|y|] == '.';
      assert x == pa[..|x|] == pb[..|y|] == y;
      assert WrapperPrefix(a[1..]) == pa[|x| + 1..] == pb[|y| + 1..] == WrapperPrefix(b[1..]);
      WrapperPrefixInjective(a[1..], b[1..]);
      assert a == [x] + a[1..] && b == [y] + b[1..];
    }
  }

  /** The key keeps worlds apart: behind the same wrappers, region sets with
      different directories (or representations) get different keys. */
  lemma CacheKeySeparatesWorlds(wrappers: seq<string>, d: Option<string>, r: string, d': Option<string>, r': string)
    requires (match d case Some(x) => x case None => r) != (match d' case Some(x) => x case None => r')
    ensures CacheKey(wrappers, d, r) != CacheKey(wrappers, d', r')
  {
    var p := WrapperPrefix(wrappers);
    var t, t' := (match d case Some(x) => x case None => r), (match d' case Some(x) => x case None => r');
    assert CacheKey(wrappers, d, r) == p + t && CacheKey(wrappers, d', r') == p + t';
    assert (p + t)[|p|..] == t && (p + t')[|p|..] == t';
  }

  /** ... and transformation combinations: over the same region set,
      different dot-free wrapper chains get different keys. */
  lemma CacheKeySeparatesChains(a: seq<string>, b: seq<string>, d: Option<string>, r: string)
    requires DotFree(a) && DotFree(b) && a != b
    ensures CacheKey(a, d, r) != CacheKey(b, d, r)
  {
    var t := match d case Some(x) => x case None => r;
    var pa, pb := WrapperPrefix(a), WrapperPrefix(b);
    if pa + t == pb + t {
      assert |pa| == |pb|;
      assert pa == (pa + t)[..|pa|] == (pb + t)[..|pb|] == pb;
      WrapperPrefixInjective(a, b);
    }
  }

  // ---------------------------------------------------------------------
  // Cache objects

  /** A cache object: a dictionary that `get_chunk` reads and fills in place.
      The same object may sit in the cache lists of several wrappers. */
  class Cache<C> {
    var entries: map<Key, C>

    constructor (entries: map<Key, C>)
      ensures this.entries == entries
    {
      this.entries := entries;
    }
  }

  /** The dictionaries behind a list of cache objects. */
  function Contents<C>(caches: seq<Cache<C>>): (r: seq<map<Key, C>>)
    reads caches
    ensures |r| == |caches|
    ensures forall j :: 0 <= j < |caches| ==> r[j] == caches[j].entries
    decreases |caches|
  {
    if caches == [] then [] else [caches[0].entries] + Contents(caches[1..])
  }

  /** No cache object occurs twice in the list. */
  predicate Distinct<C>(caches: seq<Cache<C>>)
  {
    forall i, j :: 0 <= i < j < |caches| ==> caches[i] != caches[j]
  }

  /** `CachedRegionSet`: a wrapper over a region set and a list of cache
      objects, which it shares with whoever else holds them. */
  class CachedRegionSet<C> {
    const inner: RegionSet<C>
    const caches: seq<Cache<C>>
    const key: string

    /** `__init__`: keep the cache objects and build the key by walking the
        wrapper chain down to the real region set. */
    constructor (inner: RegionSet<C>, caches: seq<Cache<C>>, wrappers: seq<string>, regiondir: Option<string>, repr: string)
      ensures this.inner == inner && this.caches == caches
      ensures key == CacheKey(wrappers, regiondir, repr)
    {
      var s := "";
      var i := 0;
      while i < |wrappers|
        invariant 0 <= i <= |wrappers| && s == WrapperPrefix(wrappers[..i])
      {
        assert wrappers[..i + 1] == wrappers[..i] + [wrappers[i]];
        WrapperPrefixAppend(wrappers[..i], wrappers[i]);
        s := s + wrappers[i] + ".";
        i := i + 1;
      }
      assert wrappers[..i] == wrappers;
      match regiondir {
        case Some(d) => s := s + d;
        case None => s := s + repr;
      }
      this.inner := inner;
      this.caches := caches;
      this.key := s;
    }

    /** `get_chunk`: the result of `GetChunkAsWritten` on the caches'
        dictionaries. Every cache object among those up to the first holder
        (all of them on a miss) now maps the key to the result, whichever
        positions it occupies; every other object is unchanged. With no
        object listed twice the new dictionaries are exactly those of
        `GetChunkAsWritten`. */
    method GetChunk(x: int, z: int) returns (r: Result<C>)
      modifies caches
      ensures r == GetChunkAsWritten(old(Contents(caches)), (key, x, z), inner.chunk((x, z))).0
      ensures forall j :: 0 <= j < |caches| ==> (caches[j].entries ==
        if r.Ok? && caches[j] in caches[..FirstHolding(old(Contents(caches)), (key, x, z))]
        then old(caches[j].entries)[(key, x, z) := r.value]
        else old(caches[j].entries))
      ensures Distinct(caches) ==>
        Contents(caches) == GetChunkAsWritten(old(Contents(caches)), (key, x, z), inner.chunk((x, z))).1
    {
      var k := (key, x, z);
      ghost var before := Contents(caches);
      var i := FindHolder(caches, k);
      var retval: C;
      if i < |caches| {
        retval := caches[i].entries[k];
      } else {
        var fetched := inner.chunk((x, z));
        if fetched.Err? {
          return fetched;
        }
        if caches == [] {
          return Err(UnboundLocal);
        }
        retval := fetched.value;
      }
      FillCaches(caches, k, retval, i);
      r := Ok(retval);
      StoreDistinct(caches, before, Contents(caches), k, retval, i);
    }
  }

  /** The search loop of `get_chunk`: the position of the first cache object
      holding the key, or the number of objects when none does. */
  method FindHolder<C>(caches: seq<Cache<C>>, k: Key) returns (i: nat)
    ensures i == FirstHolding(Contents(caches), k)
  {
    i := 0;
    while i < |caches|
      invariant 0 <= i <= |caches|
      invariant forall j :: 0 <= j < i ==> k !in caches[j].entries
    {
      if k in caches[i].entries {
        break;
      }
      i := i + 1;
    }
    FirstHoldingIs(Contents(caches), k, i);
  }

  /** `for cache in self.caches[:upto]: cache[key] = retval` on the objects:
      an object listed more than once is written more than once, with the
      same value. */
  method FillCaches<C>(caches: seq<Cache<C>>, k: Key, v: C, upto: nat)
    requires upto <= |caches|
    modifies caches
    ensures forall t :: 0 <= t < |caches| ==> (caches[t].entries ==
      if caches[t] in caches[..upto] then old(caches[t].entries)[k := v] else old(caches[t].entries))
  {
    var j := 0;
    while j < upto
      invariant 0 <= j <= upto
      invariant forall t :: 0 <= t < |caches| ==> (caches[t].entries ==
        if caches[t] in caches[..j] then old(caches[t].entries)[k := v] else old(caches[t].entries))
    {
      assert caches[..j + 1] == caches[..j] + [caches[j]];
      caches[j].entries := caches[j].entries[k := v];
      j := j + 1;
    }
  }

  /** With no object listed twice, filling the objects up to position `upto`
      is `Store` on their dictionaries. */
  lemma StoreDistinct<C>(caches: seq<Cache<C>>, before: seq<map<Key, C>>, after: seq<map<Key, C>>, k: Key, v: C, upto: nat)
    requires |before| == |after| == |caches| && upto <= |caches|
    requires forall t :: 0 <= t < |caches| ==> (after[t] ==
      if caches[t] in caches[..upto] then before[t][k := v] else before[t])
    ensures Distinct(caches) ==> after == Store(before, k, v, upto)
  {
    if Distinct(caches) {
      forall t | 0 <= t < |caches|
        ensures after[t] == Store(before, k, v, upto)[t]
      {
        assert caches[t] in caches[..upto] <==> t < upto by {
          if t < upto {
            assert caches[..upto][t] == caches[t];
          }
        }
      }
    }
  }

  /** Two wrappers with the same key over the same cache objects, as when a
      world's wrappers share their caches: a chunk one of them returned is
      found by the other without asking its own region set. */
  method SharedCachesHit<C>(a: CachedRegionSet<C>, b: CachedRegionSet<C>, x: int, z: int) returns (ra: Result<C>, rb: Result<C>)
    requires a.caches == b.caches && a.key == b.key && a.caches != []
    modifies a.caches
    ensures ra.Ok? ==> rb == ra
  {
    ra := a.GetChunk(x, z);
    ghost var k := (a.key, x, z);
    assert ra.Ok? ==> k in a.caches[0].entries && a.caches[0].entries[k] == ra.value by {
      if ra.Ok? {
        ghost var first := FirstHolding(old(Contents(a.caches)), k);
        if first == 0 {
          assert old(a.caches[0].entries)[k] == ra.value;
          assert a.caches[0].entries == old(a.caches[0].entries);
        } else {
          assert a.caches[0] in a.caches[..first];
        }
      }
    }
    assert ra.Ok? ==> FirstHolding(Contents(b.caches), k) == 0;
    rb := b.GetChunk(x, z);
  }

  lemma FirstHoldingIs<C>(caches: seq<map<Key, C>>, key: Key, i: nat)
    requires i <= |caches| && (forall j :: 0 <= j < i ==> key !in caches[j]) && (i < |caches| ==> key in caches[i])
    ensures FirstHolding(caches, key) == i
  {
  }
}
