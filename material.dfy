/** The block registry of textures.py: the `material` decorator records,
    for every block id and data value it is given, which texture
    generator draws that pair, which property sets the block belongs to,
    and the running bounds `max_blockid` and `max_data`; `generate` then
    lays the generators' textures out in a flat table indexed by
    `blockid * max_data + data`. */
module Material {
  import opened Wrappers
  import Bits

  /** The property sets a registration can add a block to. */
  datatype Property = Transparent | Solid | Fluid | Nospawn | Nodata

  /** The order in which `material` walks its property table. */
  const AllProperties: seq<Property> := [Transparent, Solid, Fluid, Nospawn, Nodata]

  /** A property keyword argument: a flag for every registered block, or
      the list of blocks that have the property. */
  datatype PropArg = Flag(on: bool) | Ids(ids: seq<nat>)

  /** A `blockid` or `data` argument: a single value is wrapped in a list. */
  datatype Arg = One(n: nat) | Many(items: seq<nat>)

  function Items(a: Arg): seq<nat>
  {
    match a
    case One(n) => [n]
    case Many(items) => items
  }

  /** Whether registering `block` puts it in property p's set: `block in
      kwargs[p]` when that is a list, its truth value when it is a flag,
      and never when the keyword is absent. */
  predicate Gains(kwargs: map<Property, PropArg>, p: Property, block: nat)
  {
    p in kwargs && (kwargs[p].Flag? ==> kwargs[p].on) && (kwargs[p].Ids? ==> block in kwargs[p].ids)
  }

  function MaxOf(s: seq<nat>): (m: nat)
    requires |s| > 0
    ensures m in s && forall i :: 0 <= i < |s| ==> s[i] <= m
  {
    if |s| == 1 then s[0]
    else
      var rest := MaxOf(s[..|s| - 1]);
      if s[|s| - 1] >= rest then s[|s| - 1] else rest
  }

  /** A bound after raising it past each value of s in turn, as the block
      loop raises `max_blockid`. */
  function RaisedPast(bound: nat, s: seq<nat>): nat
  {
    if s == [] then bound
    else
      var before := RaisedPast(bound, s[..|s| - 1]);
      if s[|s| - 1] >= before then s[|s| - 1] + 1 else before
  }

  /** The raised bound exceeds every value of s and never falls below the
      old bound; it is the old bound or one more than some value of s. */
  lemma {:induction false} RaisedPastBounds(bound: nat, s: seq<nat>)
    ensures RaisedPast(bound, s) >= bound
    ensures forall i :: 0 <= i < |s| ==> s[i] < RaisedPast(bound, s)
    ensures RaisedPast(bound, s) == bound || exists i :: 0 <= i < |s| && RaisedPast(bound, s) == s[i] + 1
  {
    if s != [] {
      var init := s[..|s| - 1];
      RaisedPastBounds(bound, init);
      var before := RaisedPast(bound, init);
      if before != bound {
        var i :| 0 <= i < |init| && before == init[i] + 1;
        assert s[i] == init[i];
      }
      forall i | 0 <= i < |s| - 1
        ensures s[i] < RaisedPast(bound, s)
      {
        assert s[i] == init[i];
      }
    }
  }

  function Elems(s: seq<nat>): set<nat>
  {
    set x | x in s
  }

  /** The (block, data) pairs one registration covers. */
  function Pairs(blocks: seq<nat>, datas: seq<nat>): set<(nat, nat)>
  {
    set b, d | b in blocks && d in datas :: (b, d)
  }

  /** The blocks among `blocks` that gain property p. */
  function Gaining(blocks: seq<nat>, kwargs: map<Property, PropArg>, p: Property): set<nat>
  {
    set b | b in blocks && Gains(kwargs, p, b)
  }

  /** The position of a (block, data) pair in the flat texture table. */
  function Index(maxData: nat, k: (nat, nat)): nat
  {
    k.0 * maxData + k.1
  }

  /** Every registered pair has a slot inside a table of
      `max_blockid * max_data` entries. */
  lemma IndexInRange(maxBlockid: nat, maxData: nat, k: (nat, nat))
    requires k.0 < maxBlockid && k.1 < maxData
    ensures Index(maxData, k) < maxBlockid * maxData
  {
    assert (k.0 + 1) * maxData == k.0 * maxData + maxData;
    assert (k.0 + 1) * maxData <= maxBlockid * maxData by {
      var gap := maxBlockid - (k.0 + 1);
      assert maxBlockid * maxData == (k.0 + 1) * maxData + gap * maxData;
    }
  }

  /** Distinct pairs with data below max_data have distinct slots: the slot
      gives back its pair by division. */
  lemma IndexDecodes(maxData: nat, k: (nat, nat))
    requires k.1 < maxData
    ensures Index(maxData, k) / maxData == k.0 && Index(maxData, k) % maxData == k.1
  {
    Bits.DivModUnique(Index(maxData, k), maxData, k.0, k.1);
  }

  /** The registry: the module-level `known_blocks`, `used_datas`,
      `max_blockid`, `max_data`, the five property sets and
      `blockmap_generators`, whose values are the registered generators. */
  class Registry<G> {
    var knownBlocks: set<nat>
    var usedDatas: set<nat>
    var maxBlockid: nat
    var maxData: nat
    var properties: map<Property, set<nat>>
    var generators: map<(nat, nat), G>

    /** The registry keeps its bounds above every registered id and data
        value, and only registered blocks are in property sets. */
    predicate Valid()
      reads this
    {
      Consistent(knownBlocks, usedDatas, maxBlockid, maxData, properties, generators)
    }

    constructor ()
      ensures Valid()
      ensures knownBlocks == {} && usedDatas == {} && maxBlockid == 0 && maxData == 0
      ensures generators == map[] && forall p: Property :: p in properties && properties[p] == {}
    {
      knownBlocks := {};
      usedDatas := {};
      maxBlockid := 0;
      maxData := 0;
      properties := map[Transparent := {}, Solid := {}, Fluid := {}, Nospawn := {}, Nodata := {}];
      generators := map[];
      new;
      forall p: Property
        ensures p in properties && properties[p] == {}
      {
        assert p == Transparent || p == Solid || p == Fluid || p == Nospawn || p == Nodata;
      }
    }

    /** `@material(blockid=..., data=..., **kwargs)` applied to a generator.
        An empty data list fails in `max(data)` before anything changes. */
    method Register(blockid: Arg, data: Arg, kwargs: map<Property, PropArg>, gen: G)
      returns (r: Result<()>)
      requires Valid()
      modifies this
      ensures Valid()
      ensures Items(data) == [] ==> r == Err(ValueError)
      ensures Items(data) == [] ==> (knownBlocks == old(knownBlocks) && usedDatas == old(usedDatas) &&
        maxBlockid == old(maxBlockid) && maxData == old(maxData) &&
        properties == old(properties) && generators == old(generators))
      ensures Items(data) != [] ==> r == Ok(())
      ensures Items(data) != [] ==> usedDatas == old(usedDatas) + Elems(Items(data))
      ensures Items(data) != [] ==> (maxData ==
        if MaxOf(Items(data)) >= old(maxData) then MaxOf(Items(data)) + 1 else old(maxData))
      ensures Items(data) != [] ==> knownBlocks == old(knownBlocks) + Elems(Items(blockid))
      ensures Items(data) != [] ==> maxBlockid == RaisedPast(old(maxBlockid), Items(blockid))
      ensures Items(data) != [] ==> properties == Extended(old(properties), Items(blockid), kwargs)
      ensures Items(data) != [] ==>
        generators == old(generators) + Assigned(Pairs(Items(blockid), Items(data)), gen)
    {
      var bs, ds := Items(blockid), Items(data);
      if ds == [] {
        r := Err(ValueError);
      } else {
        RegisterAll(bs, ds, kwargs, gen);
        r := Ok(());
      }
    }

    /** The body of `inner_material` once `data` is known to be non-empty. */
    method RegisterAll(bs: seq<nat>, ds: seq<nat>, kwargs: map<Property, PropArg>, gen: G)
      requires Valid() && ds != []
      modifies this
      ensures Valid()
      ensures usedDatas == old(usedDatas) + Elems(ds)
      ensures maxData == (if MaxOf(ds) >= old(maxData) then MaxOf(ds) + 1 else old(maxData))
      ensures knownBlocks == old(knownBlocks) + Elems(bs)
      ensures maxBlockid == RaisedPast(old(maxBlockid), bs)
      ensures properties == Extended(old(properties), bs, kwargs)
      ensures generators == old(generators) + Assigned(Pairs(bs, ds), gen)
    {
      ghost var known0, used0, maxB0, maxD0 := knownBlocks, usedDatas, maxBlockid, maxData;
      ghost var props0, gens0 := properties, generators;
      usedDatas := usedDatas + Elems(ds);
      var top := MaxOf(ds);
      if top >= maxData {
        maxData := top + 1;
      }
      ExtendedNothing(properties, kwargs);
      assert Pairs([], ds) == {};
      assert generators + Assigned({}, gen) == generators;
      for i := 0 to |bs|
        invariant usedDatas == old(usedDatas) + Elems(ds)
        invariant maxData == (if top >= old(maxData) then top + 1 else old(maxData))
        invariant knownBlocks == old(knownBlocks) + Elems(bs[..i])
        invariant maxBlockid == RaisedPast(old(maxBlockid), bs[..i])
        invariant properties == Extended(old(properties), bs[..i], kwargs)
        invariant generators == old(generators) + Assigned(Pairs(bs[..i], ds), gen)
      {
        AddBlock(bs[i], ds, kwargs, gen);
        ExtendedStep(old(properties), bs, i, kwargs);
        AssignedStep(old(generators), bs, i, ds, gen);
        BlockStep(old(maxBlockid), bs, i);
      }
      assert bs[..|bs|] == bs;
      RegisterKeepsConsistent(known0, used0, maxB0, maxD0, props0, gens0, bs, ds, kwargs, gen);
    }

    /** One pass of `for block in blockid`. */
    method AddBlock(block: nat, ds: seq<nat>, kwargs: map<Property, PropArg>, gen: G)
      modifies this
      ensures usedDatas == old(usedDatas) && maxData == old(maxData)
      ensures knownBlocks == old(knownBlocks) + {block}
      ensures maxBlockid == (if block >= old(maxBlockid) then block + 1 else old(maxBlockid))
      ensures properties == Extended(old(properties), [block], kwargs)
      ensures generators == old(generators) + Assigned(Pairs([block], ds), gen)
    {
      knownBlocks := knownBlocks + {block};
      if block >= maxBlockid {
        maxBlockid := block + 1;
      }
      AddToProperties(block, kwargs);
      AddGenerators(block, ds, gen);
    }

    /** `for prop in properties`: add the block to every set it gains. */
    method AddToProperties(block: nat, kwargs: map<Property, PropArg>)
      modifies this
      ensures knownBlocks == old(knownBlocks) && usedDatas == old(usedDatas)
      ensures maxBlockid == old(maxBlockid) && maxData == old(maxData)
      ensures generators == old(generators)
      ensures properties == Extended(old(properties), [block], kwargs)
    {
      properties := WalkProperties(properties, block, kwargs);
    }

    /** `for d in data`: map every (block, d) pair to the generator. */
    method AddGenerators(block: nat, ds: seq<nat>, gen: G)
      modifies this
      ensures knownBlocks == old(knownBlocks) && usedDatas == old(usedDatas)
      ensures maxBlockid == old(maxBlockid) && maxData == old(maxData)
      ensures properties == old(properties)
      ensures generators == old(generators) + Assigned(Pairs([block], ds), gen)
    {
      generators := WalkDatas(generators, block, ds, gen);
    }

    /** `generate`: a table of `max_blockid * max_data` slots in which the
        slot of every registered pair holds what its generator draws and
        every other slot is empty. Drawing is the parameter `render`,
        followed by `generate_texture_tuple`: a generator that draws
        nothing (`None`) leaves its slot empty, so a slot is filled exactly
        when its pair is registered and its generator draws something. */
    method Generate<T>(render: (G, nat, nat) -> Option<T>) returns (blockmap: array<Option<T>>)
      requires Valid()
      ensures blockmap.Length == maxBlockid * maxData
      ensures forall k :: k in generators ==>
        Index(maxData, k) < blockmap.Length &&
        blockmap[Index(maxData, k)] == render(generators[k], k.0, k.1)
      ensures forall i :: 0 <= i < blockmap.Length ==>
        (blockmap[i].Some? <==>
          (i / maxData, i % maxData) in generators &&
          render(generators[(i / maxData, i % maxData)], i / maxData, i % maxData).Some?)
    {
      blockmap := new Option<T>[maxBlockid * maxData](_ => None);
      assert maxData > 0 || blockmap.Length == 0 by {
        if maxData == 0 {
          assert maxBlockid * maxData == 0;
        }
      }
      DrawAll(blockmap, render);
      forall k | k in generators
        ensures Index(maxData, k) < blockmap.Length &&
          blockmap[Index(maxData, k)] == render(generators[k], k.0, k.1)
      {
        IndexInRange(maxBlockid, maxData, k);
        IndexDecodes(maxData, k);
      }
    }

    /** `for (blockid, data), texgen in blockmap_generators.items()`: draw
        every registered pair into its slot, in whatever order the map
        yields them; a pair whose generator draws nothing stores `None`. */
    method DrawAll<T>(blockmap: array<Option<T>>, render: (G, nat, nat) -> Option<T>)
      requires Valid() && blockmap.Length == maxBlockid * maxData
      requires maxData > 0 || blockmap.Length == 0
      requires forall i :: 0 <= i < blockmap.Length ==> blockmap[i] == None
      modifies blockmap
      ensures forall i :: 0 <= i < blockmap.Length ==> blockmap[i] == Filled(render, {}, i)
    {
      var todo := generators.Keys;
      while todo != {}
        invariant todo <= generators.Keys
        invariant forall i :: 0 <= i < blockmap.Length ==> blockmap[i] == Filled(render, todo, i)
        decreases |todo|
      {
        var k :| k in todo;
        IndexInRange(maxBlockid, maxData, k);
        FilledStep(render, todo, k);
        blockmap[Index(maxData, k)] := render(generators[k], k.0, k.1);
        todo := todo - {k};
      }
    }

    /** Drawing pair k changes the expected contents of k's slot only. */
    lemma FilledStep<T>(render: (G, nat, nat) -> Option<T>, todo: set<(nat, nat)>, k: (nat, nat))
      requires k in todo && k in generators && k.1 < maxData
      ensures Filled(render, todo - {k}, Index(maxData, k)) == render(generators[k], k.0, k.1)
      ensures forall i: nat :: i != Index(maxData, k) ==> Filled(render, todo - {k}, i) == Filled(render, todo, i)
    {
      IndexDecodes(maxData, k);
      forall i: nat | i != Index(maxData, k)
        ensures Filled(render, todo - {k}, i) == Filled(render, todo, i)
      {
        assert i == maxData * (i / maxData) + i % maxData;
      }
    }

    /** What slot i holds once every pair outside `todo` has been drawn. */
    function Filled<T>(render: (G, nat, nat) -> Option<T>, todo: set<(nat, nat)>, i: nat): Option<T>
      requires maxData > 0
      reads this
    {
      var k := (i / maxData, i % maxData);
      if k in generators && k !in todo then render(generators[k], k.0, k.1) else None
    }
  }

  /** The registry invariant over the registry's values. */
  predicate Consistent<G>(knownBlocks: set<nat>, usedDatas: set<nat>, maxBlockid: nat, maxData: nat,
                          properties: map<Property, set<nat>>, generators: map<(nat, nat), G>)
  {
    (forall p: Property :: p in properties && properties[p] <= knownBlocks) &&
    (forall b :: b in knownBlocks ==> b < maxBlockid) &&
    (forall d :: d in usedDatas ==> d < maxData) &&
    (forall k :: k in generators ==> k.0 in knownBlocks && k.1 in usedDatas)
  }

  /** A registration keeps the registry invariant. */
  lemma RegisterKeepsConsistent<G>(known: set<nat>, used: set<nat>, maxB: nat, maxD: nat,
                                   props: map<Property, set<nat>>, gens: map<(nat, nat), G>,
                                   bs: seq<nat>, ds: seq<nat>, kwargs: map<Property, PropArg>, gen: G)
    requires Consistent(known, used, maxB, maxD, props, gens) && |ds| > 0
    ensures Consistent(known + Elems(bs), used + Elems(ds), RaisedPast(maxB, bs),
                       if MaxOf(ds) >= maxD then MaxOf(ds) + 1 else maxD,
                       Extended(props, bs, kwargs), gens + Assigned(Pairs(bs, ds), gen))
  {
    var maxB', maxD' := RaisedPast(maxB, bs), if MaxOf(ds) >= maxD then MaxOf(ds) + 1 else maxD;
    RaisedPastBounds(maxB, bs);
    forall b | b in known + Elems(bs)
      ensures b < maxB'
    {
      if b !in known {
        var i :| 0 <= i < |bs| && bs[i] == b;
      }
    }
    forall d | d in used + Elems(ds)
      ensures d < maxD'
    {
      if d !in used {
        var i :| 0 <= i < |ds| && ds[i] == d;
      }
    }
  }

  /** The property sets after adding the blocks of `blocks` that gain each property. */
  function Extended(props: map<Property, set<nat>>, blocks: seq<nat>, kwargs: map<Property, PropArg>)
    : map<Property, set<nat>>
  {
    map p | p in props :: props[p] + Gaining(blocks, kwargs, p)
  }

  /** Every key of `ks` mapped to `gen`. */
  function Assigned<G>(ks: set<(nat, nat)>, gen: G): map<(nat, nat), G>
  {
    map k | k in ks :: gen
  }

  /** One more block of the loop extends the property sets by that block. */
  lemma ExtendedStep(props: map<Property, set<nat>>, bs: seq<nat>, i: nat, kwargs: map<Property, PropArg>)
    requires i < |bs|
    ensures Extended(Extended(props, bs[..i], kwargs), [bs[i]], kwargs) == Extended(props, bs[..i + 1], kwargs)
  {
    assert bs[..i + 1] == bs[..i] + [bs[i]];
    var once := Extended(props, bs[..i], kwargs);
    var twice := Extended(once, [bs[i]], kwargs);
    var whole := Extended(props, bs[..i + 1], kwargs);
    assert twice.Keys == whole.Keys;
    forall p | p in twice
      ensures twice[p] == whole[p]
    {
      assert Gaining(bs[..i + 1], kwargs, p) == Gaining(bs[..i], kwargs, p) + Gaining([bs[i]], kwargs, p);
    }
  }

  /** ... and the generator map by that block's pairs. */
  lemma AssignedStep<G>(gens: map<(nat, nat), G>, bs: seq<nat>, i: nat, ds: seq<nat>, gen: G)
    requires i < |bs|
    ensures gens + Assigned(Pairs(bs[..i], ds), gen) + Assigned(Pairs([bs[i]], ds), gen) ==
            gens + Assigned(Pairs(bs[..i + 1], ds), gen)
  {
    assert bs[..i + 1] == bs[..i] + [bs[i]];
    assert Pairs(bs[..i + 1], ds) == Pairs(bs[..i], ds) + Pairs([bs[i]], ds);
  }

  /** ... and the known blocks and the bound by that block. */
  lemma BlockStep(bound: nat, bs: seq<nat>, i: nat)
    requires i < |bs|
    ensures Elems(bs[..i + 1]) == Elems(bs[..i]) + {bs[i]}
    ensures RaisedPast(bound, bs[..i + 1]) ==
      (if bs[i] >= RaisedPast(bound, bs[..i]) then bs[i] + 1 else RaisedPast(bound, bs[..i]))
  {
    assert bs[..i + 1] == bs[..i] + [bs[i]];
    assert bs[..i + 1][..i] == bs[..i];
  }

  /** The data walk of `material` on the generator map's value. */
  method WalkDatas<G>(start: map<(nat, nat), G>, block: nat, ds: seq<nat>, gen: G)
    returns (gens: map<(nat, nat), G>)
    ensures gens == start + Assigned(Pairs([block], ds), gen)
  {
    gens := start;
    assert Pairs([block], ds[..0]) == {};
    assert start + Assigned({}, gen) == start;
    for j := 0 to |ds|
      invariant gens == start + Assigned(Pairs([block], ds[..j]), gen)
    {
      AssignedOneMore(start, block, ds, j, gen);
      gens := gens[(block, ds[j]) := gen];
    }
    assert ds[..|ds|] == ds;
  }

  lemma AssignedOneMore<G>(start: map<(nat, nat), G>, block: nat, ds: seq<nat>, j: nat, gen: G)
    requires j < |ds|
    ensures (start + Assigned(Pairs([block], ds[..j]), gen))[(block, ds[j]) := gen] ==
            start + Assigned(Pairs([block], ds[..j + 1]), gen)
  {
    assert ds[..j + 1] == ds[..j] + [ds[j]];
    assert Pairs([block], ds[..j + 1]) == Pairs([block], ds[..j]) + {(block, ds[j])};
  }

  /** The property walk of `material` on the property sets' values. */
  method WalkProperties(start: map<Property, set<nat>>, block: nat, kwargs: map<Property, PropArg>)
    returns (props: map<Property, set<nat>>)
    ensures props == Extended(start, [block], kwargs)
  {
    props := start;
    for j := 0 to |AllProperties|
      invariant props == AddedTo(start, AllProperties[..j], block, kwargs)
    {
      AddedToStep(start, AllProperties, j, block, kwargs);
      var p := AllProperties[j];
      if p in props && Gains(kwargs, p, block) {
        props := props[p := props[p] + {block}];
      }
    }
    AddedToAll(start, block, kwargs);
  }

  /** The property sets after the first properties of the walk have been considered. */
  function AddedTo(props: map<Property, set<nat>>, walked: seq<Property>, block: nat,
                   kwargs: map<Property, PropArg>): map<Property, set<nat>>
  {
    map p | p in props :: if p in walked && Gains(kwargs, p, block) then props[p] + {block} else props[p]
  }

  lemma AddedToStep(props: map<Property, set<nat>>, ps: seq<Property>, j: nat, block: nat,
                    kwargs: map<Property, PropArg>)
    requires j < |ps|
    ensures var before := AddedTo(props, ps[..j], block, kwargs);
      AddedTo(props, ps[..j + 1], block, kwargs) ==
      if ps[j] in before && Gains(kwargs, ps[j], block) && ps[j] !in ps[..j]
      then before[ps[j] := before[ps[j]] + {block}] else before
  {
    assert ps[..j + 1] == ps[..j] + [ps[j]];
  }

  /** Walking every property adds the block to exactly the sets it gains. */
  lemma AddedToAll(props: map<Property, set<nat>>, block: nat, kwargs: map<Property, PropArg>)
    ensures AddedTo(props, AllProperties[..|AllProperties|], block, kwargs) == Extended(props, [block], kwargs)
  {
    var a := AddedTo(props, AllProperties[..|AllProperties|], block, kwargs);
    var e := Extended(props, [block], kwargs);
    assert AllProperties[..|AllProperties|] == AllProperties;
    forall p | p in a
      ensures a[p] == e[p]
    {
      assert p == Transparent || p == Solid || p == Fluid || p == Nospawn || p == Nodata;
      assert Gaining([block], kwargs, p) == if Gains(kwargs, p, block) then {block} else {};
    }
    assert a.Keys == e.Keys;
  }

  lemma ExtendedNothing(props: map<Property, set<nat>>, kwargs: map<Property, PropArg>)
    ensures Extended(props, [], kwargs) == props
  {
    var e := Extended(props, [], kwargs);
    assert e.Keys == props.Keys;
    forall p | p in e
      ensures e[p] == props[p]
    {
      assert Gaining([], kwargs, p) == {};
    }
  }
}
