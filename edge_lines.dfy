/** The edge-lines render primitive (edge-lines.c): which blocks get edge
    lines, how far they are shifted down, and on which of the +X and -Z sides
    two one-pixel-apart lines are drawn. The ink opacity (a float) and the
    line rasteriser are not modelled: the primitive returns the lines it
    would draw. */
module EdgeLines {
  import opened BlockClass
  import opened RenderState

  /** One `ImagingDrawLine` call, from (x0, y0) to (x1, y1). */
  datatype Line = Line(x0: int, y0: int, x1: int, y1: int)

  /** Edge lines are considered for snow, slabs and opaque blocks. */
  predicate Eligible(s: State)
  {
    s.block == Id(s, Snow) || Member(s.ids, s.block, SlabNames) || !s.transparent(s.block)
  }

  /** The vertical shift: 6 for a bottom slab, else 9 for snow and repeaters, else 0. */
  function Increment(s: State): (r: int)
    ensures r == 0 || r == 6 || r == 9
    ensures Member(s.ids, s.block, SlabNames) && s.blockData == 0 ==> r == 6
    ensures r == 9 ==> Member(s.ids, s.block, [Snow, Repeater])
  {
    if Member(s.ids, s.block, SlabNames) && s.blockData == 0 then 6
    else if Member(s.ids, s.block, [Snow, Repeater]) then 9
    else 0
  }

  /** A side is drawn when the neighbour is a different block, is transparent
      or hidden, and the pair is not a slab beside a stair. */
  predicate SideDrawn(s: State, side: BlockId, sideHidden: bool)
  {
    side != s.block && (s.transparent(side) || sideHidden) &&
    !(Member(s.ids, s.block, SlabNames) && Member(s.ids, side, StairNames))
  }

  /** The two lines of the +X side. */
  function PlusXLines(s: State, inc: int): seq<Line>
  {
    [Line(s.imgx + 12, s.imgy + 1 + inc, s.imgx + 22 + 1, s.imgy + 5 + 1 + inc),
     Line(s.imgx + 12, s.imgy + inc, s.imgx + 22 + 1, s.imgy + 5 + inc)]
  }

  /** The two lines of the -Z side. */
  function MinusZLines(s: State, inc: int): seq<Line>
  {
    [Line(s.imgx, s.imgy + 6 + 1 + inc, s.imgx + 12 + 1, s.imgy + 1 + inc),
     Line(s.imgx, s.imgy + 6 + inc, s.imgx + 12 + 1, s.imgy + inc)]
  }

  predicate PlusXDrawn(s: State)
  {
    SideDrawn(s, BlockAt(s, s.x + 1, s.y, s.z), s.hidden(s.x + 1, s.y, s.z))
  }

  predicate MinusZDrawn(s: State)
  {
    SideDrawn(s, BlockAt(s, s.x, s.y, s.z - 1), s.hidden(s.x, s.y, s.z - 1))
  }

  /** What `edge_lines_draw` draws. */
  function EdgeLinesOf(s: State): seq<Line>
  {
    if !Eligible(s) then []
    else
      var inc := Increment(s);
      (if PlusXDrawn(s) then PlusXLines(s, inc) else []) +
      (if MinusZDrawn(s) then MinusZLines(s, inc) else [])
  }

  /** `edge_lines_draw` */
  method EdgeLinesDraw(s: State) returns (lines: seq<Line>)
    ensures lines == EdgeLinesOf(s)
  {
    lines := [];
    var isSlab := IsSubset(s.block, Ids(s.ids, SlabNames), |SlabNames|, s.sse2, s.mmx);
    assert isSlab == Member(s.ids, s.block, SlabNames);
    if s.block == Id(s, Snow) || isSlab || !s.transparent(s.block) {
      var x, y, z := s.x, s.y, s.z;
      var increment := ComputeIncrement(s, isSlab);
      var drawn := SideTest(s, BlockAt(s, x + 1, y, z), s.hidden(x + 1, y, z), isSlab);
      assert drawn == PlusXDrawn(s);
      if drawn {
        lines := lines + PlusXLines(s, increment);
      }
      assert lines == if PlusXDrawn(s) then PlusXLines(s, Increment(s)) else [];
      drawn := SideTest(s, BlockAt(s, x, y, z - 1), s.hidden(x, y, z - 1), isSlab);
      assert drawn == MinusZDrawn(s);
      if drawn {
        lines := lines + MinusZLines(s, increment);
      }
    }
  }

  /** The shift computed once per block. */
  method ComputeIncrement(s: State, isSlab: bool) returns (increment: int)
    requires isSlab == Member(s.ids, s.block, SlabNames)
    ensures increment == Increment(s)
  {
    increment := 0;
    var snowOrRepeater := IsSubset(s.block, Ids(s.ids, [Snow, Repeater]), 2, s.sse2, s.mmx);
    if isSlab && s.blockData == 0 {
      increment := 6;
    } else if snowOrRepeater {
      increment := 9;
    }
  }

  /** The test applied to one side block. */
  method SideTest(s: State, sideBlock: BlockId, sideHidden: bool, isSlab: bool) returns (drawn: bool)
    requires isSlab == Member(s.ids, s.block, SlabNames)
    ensures drawn == SideDrawn(s, sideBlock, sideHidden)
  {
    var sideStair := IsSubset(sideBlock, Ids(s.ids, StairNames), |StairNames|, s.sse2, s.mmx);
    drawn := sideBlock != s.block && (s.transparent(sideBlock) || sideHidden) && !(isSlab && sideStair);
  }

  /** A line one pixel above another, with the same horizontal extent. */
  predicate OnePixelAbove(upper: Line, lower: Line)
  {
    upper.x0 == lower.x0 && upper.x1 == lower.x1 && upper.y0 + 1 == lower.y0 && upper.y1 + 1 == lower.y1
  }

  /** Each drawn side contributes exactly two lines one pixel apart; the +X
      lines run right of the block's centre and the -Z lines left of it, and
      they appear exactly when their side is drawn. */
  lemma EdgeLinesShape(s: State)
    ensures var ls := EdgeLinesOf(s);
      |ls| == (if Eligible(s) then (if PlusXDrawn(s) then 2 else 0) + (if MinusZDrawn(s) then 2 else 0) else 0) &&
      (forall k :: 0 <= k < |ls| / 2 ==> OnePixelAbove(ls[2 * k + 1], ls[2 * k])) &&
      (forall l :: l in ls ==> (l.x0 == s.imgx + 12 <==> l in PlusXLines(s, Increment(s)))) &&
      (forall l :: l in ls ==> (l.x0 == s.imgx <==> l in MinusZLines(s, Increment(s))))
  {
    var ls := EdgeLinesOf(s);
    if Eligible(s) {
      var a := if PlusXDrawn(s) then PlusXLines(s, Increment(s)) else [];
      var b := if MinusZDrawn(s) then MinusZLines(s, Increment(s)) else [];
      assert ls == a + b;
      forall k | 0 <= k < |ls| / 2
        ensures OnePixelAbove(ls[2 * k + 1], ls[2 * k])
      {
        if k == 0 && |a| == 2 {
          assert ls[0] == a[0] && ls[1] == a[1];
        } else {
          assert ls[2 * k] == b[0] && ls[2 * k + 1] == b[1];
        }
      }
    }
  }

  /** Only snow, slabs and opaque blocks ever get edge lines. */
  lemma NoLinesUnlessEligible(s: State)
    ensures !Eligible(s) ==> EdgeLinesOf(s) == []
    ensures EdgeLinesOf(s) != [] ==> s.block == Id(s, Snow) || Member(s.ids, s.block, SlabNames) || !s.transparent(s.block)
  {
  }

  /** A slab never draws a side toward a stair; a side showing the same block
      is never drawn. */
  lemma SideExclusions(s: State, side: BlockId, sideHidden: bool)
    ensures Member(s.ids, s.block, SlabNames) && Member(s.ids, side, StairNames) ==> !SideDrawn(s, side, sideHidden)
    ensures side == s.block ==> !SideDrawn(s, side, sideHidden)
    ensures side != s.block && (s.transparent(side) || sideHidden) && !Member(s.ids, side, StairNames) ==>
      SideDrawn(s, side, sideHidden)
  {
  }
}
