// The biome table the code generator writes into the C biome header
// (`_generateBiomesC_` in tools/forgeExtractor.py): one struct per biome id
// from 0 up to the largest id, with a default struct in every gap.

module BiomeTable {
  import opened Wrappers
  import opened PyStrings

  /** A biome as the generator sees it: its numeric id and its C struct text. */
  datatype Biome = Biome(id: nat, struct: string)

  /** The struct written for an id no biome has. */
  const DefaultBiome: string := "{\"\", 0.8, 0.4, 63, 118, 228, 119, 171, 47, 145, 189, 89}"

  /** `getBiomes()` sorts by id; the ids are distinct, so they strictly increase. */
  predicate Increasing(bs: seq<Biome>) {
    forall i, j :: 0 <= i < j < |bs| ==> bs[i].id < bs[j].id
  }

  /** One entry past the largest id. */
  function TableLength(bs: seq<Biome>): nat {
    if bs == [] then 0 else bs[|bs| - 1].id + 1
  }

  /** The struct of the biome with id `i`, looking from the last biome back. */
  function Lookup(bs: seq<Biome>, i: nat): Option<string>
    decreases |bs|
  {
    if bs == [] then None
    else if bs[|bs| - 1].id == i then Some(bs[|bs| - 1].struct)
    else Lookup(bs[..|bs| - 1], i)
  }

  /** The table: each id's struct, or the default. */
  function Table(bs: seq<Biome>): (t: seq<string>)
    ensures |t| == TableLength(bs)
  {
    seq(TableLength(bs), i requires 0 <= i < TableLength(bs) =>
      match Lookup(bs, i)
      case Some(s) => s
      case None => DefaultBiome)
  }

  /** With distinct ids every biome is found under its own id. */
  lemma {:induction false} LookupFinds(bs: seq<Biome>, k: nat)
    requires Increasing(bs) && k < |bs|
    ensures Lookup(bs, bs[k].id) == Some(bs[k].struct)
    decreases |bs|
  {
    var n := |bs| - 1;
    if k < n {
      assert bs[n].id != bs[k].id;
      assert Increasing(bs[..n]);
      LookupFinds(bs[..n], k);
    }
  }

  /** An id no biome has is not found. */
  lemma {:induction false} LookupMisses(bs: seq<Biome>, i: nat)
    requires forall k :: 0 <= k < |bs| ==> bs[k].id != i
    ensures Lookup(bs, i) == None
    decreases |bs|
  {
    if bs != [] {
      LookupMisses(bs[..|bs| - 1], i);
    }
  }

  /** Entry `bs[k].id` holds biome `k`'s struct. */
  lemma TableHoldsBiomes(bs: seq<Biome>, k: nat)
    requires Increasing(bs) && k < |bs|
    ensures bs[k].id < |Table(bs)| && Table(bs)[bs[k].id] == bs[k].struct
  {
    assert bs[k].id <= bs[|bs| - 1].id;
    LookupFinds(bs, k);
  }

  /** Every other entry below the length is the default. */
  lemma TableFillsGaps(bs: seq<Biome>, i: nat)
    requires i < |Table(bs)|
    requires forall k :: 0 <= k < |bs| ==> bs[k].id != i
    ensures Table(bs)[i] == DefaultBiome
  {
    LookupMisses(bs, i);
  }

  /** Adding the next biome: defaults up to its id, then its struct. */
  lemma TableExtend(bs: seq<Biome>, b: Biome)
    requires Increasing(bs + [b])
    ensures b.id >= TableLength(bs)
    ensures Table(bs + [b]) ==
      Table(bs) + seq(b.id - TableLength(bs), _ => DefaultBiome) + [b.struct]
  {
    var all := bs + [b];
    assert all[..|bs|] == bs;
    if bs != [] {
      assert all[|bs| - 1] == bs[|bs| - 1];
    }
    var lhs := Table(all);
    var rhs := Table(bs) + seq(b.id - TableLength(bs), _ => DefaultBiome) + [b.struct];
    assert |lhs| == |rhs|;
    forall i | 0 <= i < |lhs| ensures lhs[i] == rhs[i] {
      if i < TableLength(bs) {
        assert Lookup(all, i) == Lookup(bs, i);
      } else if i < b.id {
        forall k | 0 <= k < |bs| ensures bs[k].id != i {
          assert bs[k].id <= bs[|bs| - 1].id;
        }
        LookupMisses(bs, i);
      }
    }
  }

  /** `_generateBiomesC_`: walk the sorted biomes, padding with the default
      struct until `nextId` reaches each one's id, and join the entries
      with ",\n". */
  method GenerateBiomesC(bs: seq<Biome>) returns (text: string)
    requires Increasing(bs)
    ensures text == Join(Table(bs), ",\n")
  {
    var r: seq<string> := [];
    var nextId := 0;
    for j := 0 to |bs|
      invariant r == Table(bs[..j]) && nextId == |r|
    {
      var biome := bs[j];
      assert bs[..j + 1] == bs[..j] + [biome];
      TableExtend(bs[..j], biome);
      ghost var base := r;
      while biome.id != nextId
        invariant |base| <= nextId <= biome.id
        invariant r == base + seq(nextId - |base|, _ => DefaultBiome)
        decreases biome.id - nextId
      {
        r := r + [DefaultBiome];
        nextId := nextId + 1;
      }
      if biome.id == nextId {
        r := r + [biome.struct];
        nextId := nextId + 1;
      }
    }
    assert bs[..|bs|] == bs;
    text := Join(r, ",\n");
  }
}
