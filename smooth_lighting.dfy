/** Smooth-lighting face shading (smooth-lighting-hide-underground.c): the
    three-face rule table, the four-sample corner blend, the two triangles each
    face is drawn as, and the choice between flat and smooth lighting. The
    rasteriser `draw_triangle` is not modelled: the shading returns the
    triangles it would be handed. */
module SmoothLighting {
  import Bits
  import opened BlockClass
  import opened RenderState

  type Offset3 = (int, int, int)

  /** `struct SmoothLightingCorner` */
  datatype Corner = Corner(imgx: int, imgy: int, d1: Offset3, d2: Offset3)

  /** `struct SmoothLightingFace`: touch-up points are `numTouchUps` (x, y) pairs. */
  datatype Face = Face(d: Offset3, corners: seq<Corner>, touchUps: seq<int>, numTouchUps: nat)

  /** `top_touchups` */
  const TopTouchups: seq<int> := [1, 5, 3, 4, 5, 3, 7, 2, 9, 1, 11, 0]

  const FaceTop := 0
  const FaceLeft := 1
  const FaceRight := 2

  /** `lighting_rules` */
  const LightingRules: seq<Face> := [
    Face((0, 1, 0), [
        Corner(0, 6, (-1, 0, 0), (0, 0, -1)),
        Corner(12, 0, (1, 0, 0), (0, 0, -1)),
        Corner(24, 6, (1, 0, 0), (0, 0, 1)),
        Corner(12, 12, (-1, 0, 0), (0, 0, 1))],
      TopTouchups, 6),
    Face((-1, 0, 0), [
        Corner(0, 18, (0, 0, -1), (0, -1, 0)),
        Corner(0, 6, (0, 0, -1), (0, 1, 0)),
        Corner(12, 12, (0, 0, 1), (0, 1, 0)),
        Corner(12, 24, (0, 0, 1), (0, -1, 0))],
      [], 0),
    Face((0, 0, 1), [
        Corner(24, 6, (1, 0, 0), (0, 1, 0)),
        Corner(12, 12, (-1, 0, 0), (0, 1, 0)),
        Corner(12, 24, (-1, 0, 0), (0, -1, 0)),
        Corner(24, 18, (1, 0, 0), (0, -1, 0))],
      [], 0)
  ]

  predicate WellFormed(f: Face)
  {
    |f.corners| == 4 && |f.touchUps| == 2 * f.numTouchUps
  }

  /** Every rule has four corners and a touch-up count matching its points;
      only the top face has touch-up points, six pairs of them. */
  lemma RulesWellFormed()
    ensures |LightingRules| == 3
    ensures forall i :: 0 <= i < 3 ==> WellFormed(LightingRules[i])
    ensures LightingRules[FaceTop].numTouchUps == 6 && |LightingRules[FaceTop].touchUps| == 12
    ensures LightingRules[FaceLeft].numTouchUps == 0 && LightingRules[FaceRight].numTouchUps == 0
  {
  }

  /** One channel of one corner: the four-sample sum blended toward 1020 by
      `comp = 1 - strength`, truncated to an integer, then divided by 4. */
  function ShadeChannel(sum: nat, comp: real): (r: nat)
    requires sum <= 1020 && 0.0 <= comp <= 1.0
    ensures sum / 4 <= r <= 255
    ensures comp == 0.0 ==> r == sum / 4
    ensures comp == 1.0 ==> r == 255
  {
    var blended := sum as real + (1020 - sum) as real * comp;
    assert sum as real <= blended <= 1020.0 by {
      assert 0.0 <= (1020 - sum) as real * comp <= (1020 - sum) as real;
    }
    FloorBounds(sum, blended);
    blended.Floor / 4
  }

  lemma FloorBounds(sum: nat, v: real)
    requires sum as real <= v <= 1020.0
    ensures sum <= v.Floor <= 1020
  {
  }

  /** A vertex handed to `draw_triangle`: image position and colour. */
  datatype Vertex = Vertex(x: int, y: int, r: nat, g: nat, b: nat)

  /** One `draw_triangle` call. */
  datatype Triangle = Triangle(inclusive: bool, a: Vertex, b: Vertex, c: Vertex,
                               originX: int, originY: int, touchUps: seq<int>, numTouchUps: nat)

  function Add(p: Offset3, q: Offset3): Offset3
  {
    (p.0 + q.0, p.1 + q.1, p.2 + q.2)
  }

  function LightAt(s: State, p: Offset3): Rgb
  {
    s.lightColor(p.0, p.1, p.2)
  }

  /** The block the face points toward. */
  function Toward(s: State, f: Face): Offset3
  {
    Add((s.x, s.y, s.z), f.d)
  }

  /** The four light samples of a corner at `c`, `c+d1`, `c+d2` and `c+d1+d2`. */
  function Samples(s: State, c: Offset3, k: Corner): (r: seq<Rgb>)
    ensures |r| == 4
  {
    [LightAt(s, c), LightAt(s, Add(c, k.d1)), LightAt(s, Add(c, k.d2)), LightAt(s, Add(Add(c, k.d1), k.d2))]
  }

  /** The blended colour of one corner, for `comp = 1 - strength`. */
  function CornerVertex(s: State, c: Offset3, k: Corner, comp: real): Vertex
    requires 0.0 <= comp <= 1.0
  {
    var q := Samples(s, c, k);
    Vertex(s.imgx + k.imgx, s.imgy + k.imgy,
           ShadeChannel(q[0].r + q[1].r + q[2].r + q[3].r, comp),
           ShadeChannel(q[0].g + q[1].g + q[2].g + q[3].g, comp),
           ShadeChannel(q[0].b + q[1].b + q[2].b + q[3].b, comp))
  }

  /** What `do_shading_with_rule` draws. */
  function ShadeFace(s: State, f: Face, strength: real): seq<Triangle>
    requires |f.corners| == 4 && 0.0 <= strength <= 1.0
  {
    var c := Toward(s, f);
    if s.faceOccluded(c.0, c.1, c.2) then []
    else
      var comp := 1.0 - strength;
      var v0 := CornerVertex(s, c, f.corners[0], comp);
      var v1 := CornerVertex(s, c, f.corners[1], comp);
      var v2 := CornerVertex(s, c, f.corners[2], comp);
      var v3 := CornerVertex(s, c, f.corners[3], comp);
      [Triangle(true, v0, v1, v2, s.imgx, s.imgy, f.touchUps, f.numTouchUps),
       Triangle(false, v0, v2, v3, s.imgx, s.imgy, [], 0)]
  }

  /** One iteration of the corner loop: gather the four samples, blend. */
  method GatherCorner(s: State, c: Offset3, k: Corner, comp: real) returns (r: nat, g: nat, b: nat)
    requires 0.0 <= comp <= 1.0
    ensures var v := CornerVertex(s, c, k, comp); r == v.r && g == v.g && b == v.b
  {
    var rgather, ggather, bgather := 0, 0, 0;
    var q := LightAt(s, c);
    rgather, ggather, bgather := rgather + q.r, ggather + q.g, bgather + q.b;
    q := LightAt(s, Add(c, k.d1));
    rgather, ggather, bgather := rgather + q.r, ggather + q.g, bgather + q.b;
    q := LightAt(s, Add(c, k.d2));
    rgather, ggather, bgather := rgather + q.r, ggather + q.g, bgather + q.b;
    q := LightAt(s, Add(Add(c, k.d1), k.d2));
    rgather, ggather, bgather := rgather + q.r, ggather + q.g, bgather + q.b;
    r, g, b := ShadeChannel(rgather, comp), ShadeChannel(ggather, comp), ShadeChannel(bgather, comp);
  }

  /** `do_shading_with_rule`: the corner loop fills `pts_r/g/b`, then two
      triangles are emitted. */
  method DoShadingWithRule(s: State, f: Face, strength: real) returns (tris: seq<Triangle>)
    requires |f.corners| == 4 && 0.0 <= strength <= 1.0
    ensures tris == ShadeFace(s, f, strength)
  {
    var comp := 1.0 - strength;
    var c := Add((s.x, s.y, s.z), f.d);
    if s.faceOccluded(c.0, c.1, c.2) {
      return [];
    }
    var ptsR: seq<nat>, ptsG: seq<nat>, ptsB: seq<nat> := [], [], [];
    var pts := f.corners;
    for i := 0 to 4
      invariant |ptsR| == |ptsG| == |ptsB| == i
      invariant forall k :: 0 <= k < i ==>
        var v := CornerVertex(s, c, pts[k], comp);
        ptsR[k] == v.r && ptsG[k] == v.g && ptsB[k] == v.b
    {
      var r, g, b := GatherCorner(s, c, pts[i], comp);
      ptsR, ptsG, ptsB := ptsR + [r], ptsG + [g], ptsB + [b];
    }
    var x, y := s.imgx, s.imgy;
    var v0 := Vertex(x + pts[0].imgx, y + pts[0].imgy, ptsR[0], ptsG[0], ptsB[0]);
    var v1 := Vertex(x + pts[1].imgx, y + pts[1].imgy, ptsR[1], ptsG[1], ptsB[1]);
    var v2 := Vertex(x + pts[2].imgx, y + pts[2].imgy, ptsR[2], ptsG[2], ptsB[2]);
    var v3 := Vertex(x + pts[3].imgx, y + pts[3].imgy, ptsR[3], ptsG[3], ptsB[3]);
    CornerGathered(s, c, pts[0], comp, v0);
    CornerGathered(s, c, pts[1], comp, v1);
    CornerGathered(s, c, pts[2], comp, v2);
    CornerGathered(s, c, pts[3], comp, v3);
    ShadeFaceOf(s, f, strength, v0, v1, v2, v3);
    tris := [Triangle(true, v0, v1, v2, x, y, f.touchUps, f.numTouchUps),
             Triangle(false, v0, v2, v3, x, y, [], 0)];
  }

  /** A vertex with a corner's position and gathered colours is that corner's vertex. */
  lemma CornerGathered(s: State, c: Offset3, k: Corner, comp: real, v: Vertex)
    requires 0.0 <= comp <= 1.0
    requires v.x == s.imgx + k.imgx && v.y == s.imgy + k.imgy
    requires var w := CornerVertex(s, c, k, comp); v.r == w.r && v.g == w.g && v.b == w.b
    ensures v == CornerVertex(s, c, k, comp)
  {
  }

  /** The two triangles of an unoccluded face, given its four corner vertices. */
  lemma ShadeFaceOf(s: State, f: Face, strength: real, v0: Vertex, v1: Vertex, v2: Vertex, v3: Vertex)
    requires |f.corners| == 4 && 0.0 <= strength <= 1.0
    requires var c := Toward(s, f); !s.faceOccluded(c.0, c.1, c.2)
    requires v0 == CornerVertex(s, Toward(s, f), f.corners[0], 1.0 - strength)
    requires v1 == CornerVertex(s, Toward(s, f), f.corners[1], 1.0 - strength)
    requires v2 == CornerVertex(s, Toward(s, f), f.corners[2], 1.0 - strength)
    requires v3 == CornerVertex(s, Toward(s, f), f.corners[3], 1.0 - strength)
    ensures ShadeFace(s, f, strength) == [Triangle(true, v0, v1, v2, s.imgx, s.imgy, f.touchUps, f.numTouchUps),
                                          Triangle(false, v0, v2, v3, s.imgx, s.imgy, [], 0)]
  {
  }

  /** An occluded face draws nothing; otherwise two triangles share corners 0
      and 2, cover corners (0,1,2) and (0,2,3), and only the first carries the
      face's touch-up points. */
  lemma ShadeFaceShape(s: State, f: Face, strength: real)
    requires |f.corners| == 4 && 0.0 <= strength <= 1.0
    ensures var c := Toward(s, f);
      s.faceOccluded(c.0, c.1, c.2) <==> ShadeFace(s, f, strength) == []
    ensures var tris := ShadeFace(s, f, strength);
      tris != [] ==>
        |tris| == 2 && tris[0].a == tris[1].a && tris[0].c == tris[1].b &&
        tris[0].inclusive && !tris[1].inclusive &&
        tris[0].touchUps == f.touchUps && tris[0].numTouchUps == f.numTouchUps &&
        tris[1].touchUps == [] && tris[1].numTouchUps == 0 &&
        tris[0].a.x == s.imgx + f.corners[0].imgx && tris[0].b.x == s.imgx + f.corners[1].imgx &&
        tris[0].c.x == s.imgx + f.corners[2].imgx && tris[1].c.x == s.imgx + f.corners[3].imgx &&
        tris[0].a.y == s.imgy + f.corners[0].imgy && tris[0].b.y == s.imgy + f.corners[1].imgy &&
        tris[0].c.y == s.imgy + f.corners[2].imgy && tris[1].c.y == s.imgy + f.corners[3].imgy
  {
  }

  /** Every vertex colour is at most 255; at full strength it is the plain
      four-sample average, at zero strength it is white. */
  lemma CornerColourBounds(s: State, c: Offset3, k: Corner, strength: real)
    requires 0.0 <= strength <= 1.0
    ensures var v := CornerVertex(s, c, k, 1.0 - strength);
      var q := Samples(s, c, k);
      v.r <= 255 && v.g <= 255 && v.b <= 255 &&
      (strength == 1.0 ==> v.r == (q[0].r + q[1].r + q[2].r + q[3].r) / 4 &&
                           v.g == (q[0].g + q[1].g + q[2].g + q[3].g) / 4 &&
                           v.b == (q[0].b + q[1].b + q[2].b + q[3].b) / 4) &&
      (strength == 0.0 ==> v.r == 255 && v.g == 255 && v.b == 255)
  {
  }

  /** The blocks smooth-lit even though they are transparent. */
  const SmoothLitTransparent: seq<BlockName> := [Leaves, FlowingWater, Water, Ice]

  /** Falls back to flat lighting. */
  predicate FlatOnly(s: State)
  {
    !Member(s.ids, s.block, SmoothLitTransparent) && s.transparent(s.block)
  }

  /** Which of top, left, right are shaded: water by pdata bits 4, 1 and 2,
      everything else all three. */
  function LitFaces(s: State): (bool, bool, bool)
  {
    if s.block == Id(s, Water) then
      (Bits.Bit(s.blockPdata, 4) == 1, Bits.Bit(s.blockPdata, 1) == 1, Bits.Bit(s.blockPdata, 2) == 1)
    else (true, true, true)
  }

  /** The outcome of `smooth_lighting_draw`. */
  datatype Drawing = FlatLighting | Smooth(triangles: seq<Triangle>)

  function FaceIf(lit: bool, s: State, i: nat, strength: real): seq<Triangle>
    requires i < 3 && 0.0 <= strength <= 1.0
  {
    RulesWellFormed();
    if lit then ShadeFace(s, LightingRules[i], strength) else []
  }

  /** What `smooth_lighting_draw` does. */
  function SmoothDraw(s: State, strength: real): Drawing
    requires 0.0 <= strength <= 1.0
  {
    if FlatOnly(s) then FlatLighting
    else
      var (top, left, right) := LitFaces(s);
      Smooth(FaceIf(top, s, FaceTop, strength) + FaceIf(left, s, FaceLeft, strength) + FaceIf(right, s, FaceRight, strength))
  }

  /** The pdata tests for water: `pdata & (1 << 4)`, `& (1 << 1)`, `& (1 << 2)`. */
  method WaterFaces(pdata: nat) returns (top: bool, left: bool, right: bool)
    ensures top == (Bits.Bit(pdata, 4) == 1)
    ensures left == (Bits.Bit(pdata, 1) == 1)
    ensures right == (Bits.Bit(pdata, 2) == 1)
  {
    Bits.AndSingle(pdata, 4);
    Bits.AndSingle(pdata, 1);
    Bits.AndSingle(pdata, 2);
    top, left, right := true, true, true;
    if Bits.And(pdata, Bits.Pow2(4)) == 0 {
      top := false;
    }
    if Bits.And(pdata, Bits.Pow2(1)) == 0 {
      left := false;
    }
    if Bits.And(pdata, Bits.Pow2(2)) == 0 {
      right := false;
    }
  }

  /** `smooth_lighting_draw` */
  method SmoothLightingDraw(s: State, strength: real) returns (out: Drawing)
    requires 0.0 <= strength <= 1.0
    ensures out == SmoothDraw(s, strength)
  {
    var special := IsSubset(s.block, Ids(s.ids, SmoothLitTransparent), 4, s.sse2, s.mmx);
    if !special && s.transparent(s.block) {
      return FlatLighting;
    }
    var lightTop, lightLeft, lightRight := true, true, true;
    if s.block == Id(s, Water) {
      lightTop, lightLeft, lightRight := WaterFaces(s.blockPdata);
    }
    assert (lightTop, lightLeft, lightRight) == LitFaces(s);
    RulesWellFormed();
    var top, left, right: seq<Triangle> := [], [], [];
    if lightTop {
      top := DoShadingWithRule(s, LightingRules[FaceTop], strength);
    }
    assert top == FaceIf(lightTop, s, FaceTop, strength);
    if lightLeft {
      left := DoShadingWithRule(s, LightingRules[FaceLeft], strength);
    }
    assert left == FaceIf(lightLeft, s, FaceLeft, strength);
    if lightRight {
      right := DoShadingWithRule(s, LightingRules[FaceRight], strength);
    }
    assert right == FaceIf(lightRight, s, FaceRight, strength);
    return Smooth(top + left + right);
  }

  /** A transparent block outside leaves, water and ice is only flat-lit. */
  lemma FlatOnlyWhenPlainTransparent(s: State, strength: real)
    requires 0.0 <= strength <= 1.0
    ensures SmoothDraw(s, strength) == FlatLighting <==>
      s.transparent(s.block) && !Member(s.ids, s.block, SmoothLitTransparent)
  {
  }

  /** A face contributes nothing or two triangles, and touch-up points come
      only from the top face's first triangle. */
  lemma FaceIfShape(lit: bool, s: State, i: nat, strength: real)
    requires i < 3 && 0.0 <= strength <= 1.0
    ensures |FaceIf(lit, s, i, strength)| in {0, 2}
    ensures forall t :: t in FaceIf(lit, s, i, strength) && t.numTouchUps != 0 ==>
      i == FaceTop && t.touchUps == TopTouchups && t.numTouchUps == 6
  {
    RulesWellFormed();
    if lit {
      ShadeFaceShape(s, LightingRules[i], strength);
    }
  }

  /** Any block that is not flat-lit is smooth-lit with at most three faces of
      two triangles each, and no triangle but the top face's first carries
      touch-up points. */
  lemma SmoothDrawShape(s: State, strength: real)
    requires 0.0 <= strength <= 1.0
    ensures SmoothDraw(s, strength).Smooth? ==>
      var tris := SmoothDraw(s, strength).triangles;
      |tris| <= 6 && |tris| % 2 == 0 &&
      forall t :: t in tris && t.numTouchUps != 0 ==> t.touchUps == TopTouchups && t.numTouchUps == 6
  {
    if !FlatOnly(s) {
      var (top, left, right) := LitFaces(s);
      var a, b, c := FaceIf(top, s, FaceTop, strength), FaceIf(left, s, FaceLeft, strength), FaceIf(right, s, FaceRight, strength);
      FaceIfShape(top, s, FaceTop, strength);
      FaceIfShape(left, s, FaceLeft, strength);
      FaceIfShape(right, s, FaceRight, strength);
      assert SmoothDraw(s, strength).triangles == a + b + c;
      forall t | t in a + b + c
        ensures t in a || t in b || t in c
      {
      }
    }
  }

  /** Water with none of pdata bits 1, 2 and 4 set draws no face; a block
      other than water shades all three faces. */
  lemma WaterFaceGating(s: State, strength: real)
    requires 0.0 <= strength <= 1.0 && !FlatOnly(s)
    ensures s.block == Id(s, Water) && Bits.Bit(s.blockPdata, 4) == 0 &&
            Bits.Bit(s.blockPdata, 1) == 0 && Bits.Bit(s.blockPdata, 2) == 0 ==>
      SmoothDraw(s, strength) == Smooth([])
    ensures s.block != Id(s, Water) ==>
      SmoothDraw(s, strength) == Smooth(ShadeFace(s, LightingRules[FaceTop], strength) +
        ShadeFace(s, LightingRules[FaceLeft], strength) + ShadeFace(s, LightingRules[FaceRight], strength))
  {
    RulesWellFormed();
  }
}
