/** The 2D morphology drawing rules of pyneuroml/plot/PlotMorphology.py:
    which coordinates a plane shows, how wide and in which colour a segment
    is drawn, how `add_line` nudges a degenerate line and widens the
    horizontal extent, the scalebar and axis-limit choices, and the
    styling choices of the 3D plots.  The drawing itself (matplotlib,
    plotly) is left out: a drawn line is recorded as a `Line` value. */
module Morphology {
  import opened Base

  // =====================================================================
  // Planes

  datatype Axis = X | Y | Z

  /** A plane: the axis drawn horizontally, then the one drawn vertically. */
  datatype Plane = Plane(h: Axis, v: Axis)

  predicate ValidPlane(p: Plane) {
    p.h != p.v
  }

  function AxisLetter(a: Axis): (c: char)
    ensures c in "xyz"
  {
    match a
    case X => 'x'
    case Y => 'y'
    case Z => 'z'
  }

  function LetterAxis(c: char): (r: Option<Axis>)
    ensures r.Some? <==> c in "xyz"
    ensures r.Some? ==> AxisLetter(r.value) == c
  {
    if c == 'x' then Some(X) else if c == 'y' then Some(Y) else if c == 'z' then Some(Z) else None
  }

  /** The name of a plane: the horizontal axis's letter, then the vertical's. */
  function PlaneName(p: Plane): (s: string)
    ensures |s| == 2 && s[0] == AxisLetter(p.h) && s[1] == AxisLetter(p.v)
  {
    [AxisLetter(p.h), AxisLetter(p.v)]
  }

  /** The six accepted plane names; anything else ends the plot. */
  const PlaneNames: seq<string> := ["xy", "yx", "xz", "zx", "yz", "zy"]

  function ParsePlane(s: string): Option<Plane> {
    if |s| == 2 && LetterAxis(s[0]).Some? && LetterAxis(s[1]).Some? && s[0] != s[1]
    then Some(Plane(LetterAxis(s[0]).value, LetterAxis(s[1]).value))
    else None
  }

  /** Exactly the six names parse, each to a plane of two different axes
      whose first letter names the horizontal axis and whose second names
      the vertical one. */
  lemma ParsePlaneAccepts(s: string)
    ensures ParsePlane(s).Some? <==> s in PlaneNames
    ensures ParsePlane(s).Some? ==>
              && ValidPlane(ParsePlane(s).value)
              && AxisLetter(ParsePlane(s).value.h) == s[0]
              && AxisLetter(ParsePlane(s).value.v) == s[1]
  {
    if ParsePlane(s).Some? {
      var a, b := s[0], s[1];
      assert s == [a, b];
      assert a in "xyz" && b in "xyz";
    }
  }

  lemma ParsePlaneName(p: Plane)
    requires ValidPlane(p)
    ensures ParsePlane(PlaneName(p)) == Some(p)
  {
  }

  lemma PlaneNameOfParse(s: string)
    requires ParsePlane(s).Some?
    ensures PlaneName(ParsePlane(s).value) == s
  {
    assert s == [s[0], s[1]];
  }

  // =====================================================================
  // Points, segments, cells and populations

  datatype Point = Point(x: real, y: real, z: real, diameter: real)
  datatype Position = Position(x: real, y: real, z: real)

  function PointCoord(p: Point, a: Axis): real {
    match a
    case X => p.x
    case Y => p.y
    case Z => p.z
  }

  function PositionCoord(pos: Position, a: Axis): real {
    match a
    case X => pos.x
    case Y => pos.y
    case Z => pos.z
  }

  /** A segment with its proximal point already resolved (the parent's
      distal point when the segment gives none). */
  datatype Segment = Segment(id: int, proximal: Point, distal: Point)

  /** A cell's segments and the members of its soma and axon groups (an
      absent group is empty). */
  datatype Morph = Morph(segments: seq<Segment>, somaGroup: seq<int>, axonGroup: seq<int>)

  /** A population: its cell (none for a point cell), the positions of its
      instances, and the radius and colour given for it, if any. */
  datatype Population = Population(id: string, cell: Option<Morph>, positions: seq<Position>,
                                   radius: Option<real>, colour: Option<string>)

  // =====================================================================
  // Width, colour and shape of a segment

  /** The 2D line width: the mean diameter, raised to `minWidth`. */
  function Width2D(p: Point, d: Point, minWidth: real): (w: real)
    ensures w >= minWidth && w >= (p.diameter + d.diameter) / 2.0
    ensures w == minWidth || w == (p.diameter + d.diameter) / 2.0
  {
    var width := (p.diameter + d.diameter) / 2.0;
    if width < minWidth then minWidth else width
  }

  /** The naive 3D web plot's width: the larger diameter, raised to
      `minWidth`. */
  function WebWidth(p: Point, d: Point, minWidth: real): (w: real)
    ensures w >= minWidth && w >= p.diameter && w >= d.diameter
    ensures w == minWidth || w == p.diameter || w == d.diameter
  {
    var width := if p.diameter >= d.diameter then p.diameter else d.diameter;
    if width < minWidth then minWidth else width
  }

  /** The web plot never draws a segment thinner than the 2D plot does. */
  lemma Width2DAtMostWebWidth(p: Point, d: Point, minWidth: real)
    ensures Width2D(p, d, minWidth) <= WebWidth(p, d, minWidth)
  {
  }

  /** A point cell's colour: the population's, else blue. */
  function PointColour(pop: Population): (c: string)
    ensures pop.colour.Some? ==> c == pop.colour.value
    ensures pop.colour.None? ==> c == "b"
  {
    if pop.colour.Some? then pop.colour.value else "b"
  }

  /** A point cell's radius: the population's, else 10. */
  function PointRadius(pop: Population): (r: real)
    ensures pop.radius.Some? ==> r == pop.radius.value
    ensures pop.radius.None? ==> r == 10.0
  {
    if pop.radius.Some? then pop.radius.value else 10.0
  }

  /** A segment's colour: the population's if given; otherwise blue, green
      for a soma segment, red for an axon segment, the axon test last. */
  function SegmentColour(pop: Population, m: Morph, seg: Segment): string {
    if pop.colour.Some? then pop.colour.value
    else
      var soma := if seg.id in m.somaGroup then "g" else "b";
      if seg.id in m.axonGroup then "r" else soma
  }

  lemma SegmentColourRules(pop: Population, m: Morph, seg: Segment)
    ensures pop.colour.Some? ==> SegmentColour(pop, m, seg) == pop.colour.value
    ensures pop.colour.None? && seg.id in m.axonGroup ==> SegmentColour(pop, m, seg) == "r"
    ensures pop.colour.None? && seg.id !in m.axonGroup && seg.id in m.somaGroup ==> SegmentColour(pop, m, seg) == "g"
    ensures pop.colour.None? && seg.id !in m.axonGroup && seg.id !in m.somaGroup ==> SegmentColour(pop, m, seg) == "b"
  {
  }

  /** Proximal and distal agree in position and diameter. */
  predicate IsSpherical(p: Point, d: Point) {
    p.x == d.x && p.y == d.y && p.z == d.z && p.diameter == d.diameter
  }

  /** The 3D surface drawn for a segment: a sphere, or a frustum on 2 axis
      points (a cylinder) or 3. */
  datatype Surface = Sphere(resolution: nat) | Frustum(resolution: nat)

  function SurfaceOf(p: Point, d: Point): Surface {
    if IsSpherical(p, d) then Sphere(8)
    else if p.diameter == d.diameter then Frustum(2)
    else Frustum(3)
  }

  lemma SurfaceChoice(p: Point, d: Point)
    ensures SurfaceOf(p, d).Sphere? <==> IsSpherical(p, d)
    ensures SurfaceOf(p, d) == Frustum(2) <==> !IsSpherical(p, d) && p.diameter == d.diameter
    ensures SurfaceOf(p, d) == Frustum(3) <==> p.diameter != d.diameter
  {
  }

  // =====================================================================
  // add_line

  function Abs(a: real): (r: real)
    ensures r >= 0.0 && (r == a || r == -a)
  {
    if a < 0.0 then -a else a
  }

  /** Both coordinates change by less than 0.01: a segment seen end-on, or
      a sphere, drawn as a round dot. */
  predicate Degenerate(x0: real, x1: real, y0: real, y1: real) {
    Abs(x0 - x1) < 0.01 && Abs(y0 - y1) < 0.01
  }

  /** The horizontal extent drawn so far: nothing yet (the source's
      infinite minimum and maximum), or a closed range. */
  datatype Extent = Empty | Range(lo: real, hi: real)

  /** `min` and `max` of the extent with one more coordinate. */
  function Widen(e: Extent, a: real): (r: Extent)
    ensures r.Range?
  {
    match e
    case Empty => Range(a, a)
    case Range(lo, hi) => Range(if a < lo then a else lo, if a > hi then a else hi)
  }

  /** Widening covers the new coordinate, keeps the old range, and moves
      each bound only to that coordinate. */
  lemma WidenBounds(e: Extent, a: real)
    ensures var r := Widen(e, a);
            && r.lo <= a <= r.hi
            && (e.Empty? ==> r == Range(a, a))
            && (e.Range? ==> r.lo <= e.lo && r.hi >= e.hi && (r.lo == e.lo || r.lo == a) && (r.hi == e.hi || r.hi == a))
  {
  }

  /** A drawn line, after any nudge; `round` marks the extra round-capped
      line drawn for a degenerate one. */
  datatype Line = Line(x0: real, x1: real, y0: real, y1: real, width: real, colour: string, round: bool)

  /** The line `add_line` draws for the given end points. */
  function LineFor(x0: real, x1: real, y0: real, y1: real, width: real, colour: string): (l: Line)
    ensures l.x0 == x0 && l.y0 == y0 && l.width == width && l.colour == colour
    ensures l.round <==> Degenerate(x0, x1, y0, y1)
    ensures l.round ==> l.x1 == x1 + width / 1000.0 && l.y1 == y1 + width / 1000.0
    ensures !l.round ==> l.x1 == x1 && l.y1 == y1
  {
    if Degenerate(x0, x1, y0, y1) then Line(x0, x1 + width / 1000.0, y0, y1 + width / 1000.0, width, colour, true)
    else Line(x0, x1, y0, y1, width, colour, false)
  }

  /** `add_line`: nudges the second point of a degenerate line in place,
      then widens the extent by both horizontal end points. */
  method AddLine(xv: array<real>, yv: array<real>, width: real, colour: string, ext: Extent)
    returns (r: Extent, drawn: Line)
    requires xv.Length == 2 && yv.Length == 2 && xv != yv
    modifies xv, yv
    ensures drawn == LineFor(old(xv[0]), old(xv[1]), old(yv[0]), old(yv[1]), width, colour)
    ensures xv[..] == [drawn.x0, drawn.x1] && yv[..] == [drawn.y0, drawn.y1]
    ensures r == Widen(Widen(ext, xv[0]), xv[1])
  {
    var round := false;
    if Abs(xv[0] - xv[1]) < 0.01 && Abs(yv[0] - yv[1]) < 0.01 {
      xv[1] := xv[1] + width / 1000.0;
      yv[1] := yv[1] + width / 1000.0;
      round := true;
    }
    drawn := Line(xv[0], xv[1], yv[0], yv[1], width, colour, round);
    r := ext;
    r := Widen(r, xv[0]);
    r := Widen(r, xv[1]);
  }

  /** The extent after a line: at most the old minimum and at least the old
      maximum, and it covers both end points. */
  lemma AddLineBounds(e: Extent, l: Line)
    ensures var r := Widen(Widen(e, l.x0), l.x1);
            && r.Range? && r.lo <= l.x0 <= r.hi && r.lo <= l.x1 <= r.hi
            && (e.Range? ==> r.lo <= e.lo && e.hi <= r.hi)
  {
    WidenBounds(e, l.x0);
    WidenBounds(Widen(e, l.x0), l.x1);
  }

  // =====================================================================
  // The lines of a 2D plot

  /** A point cell: one dot of the population's radius at its position. */
  function PointLine(plane: Plane, pop: Population, pos: Position): Line {
    var c := PositionCoord(pos, plane.h);
    var r := PositionCoord(pos, plane.v);
    LineFor(c, c, r, r, PointRadius(pop), PointColour(pop))
  }

  /** A segment, offset by its cell's position and projected on the plane. */
  function SegmentLine(plane: Plane, pop: Population, m: Morph, pos: Position, seg: Segment, minWidth: real): Line {
    var p, d := seg.proximal, seg.distal;
    LineFor(PositionCoord(pos, plane.h) + PointCoord(p, plane.h), PositionCoord(pos, plane.h) + PointCoord(d, plane.h),
            PositionCoord(pos, plane.v) + PointCoord(p, plane.v), PositionCoord(pos, plane.v) + PointCoord(d, plane.v),
            Width2D(p, d, minWidth), SegmentColour(pop, m, seg))
  }

  /** The lines of the first `n` segments of one cell. */
  function SegmentLines(plane: Plane, pop: Population, m: Morph, pos: Position, n: nat, minWidth: real): (ls: seq<Line>)
    requires n <= |m.segments|
    ensures |ls| == n
  {
    if n == 0 then []
    else SegmentLines(plane, pop, m, pos, n - 1, minWidth) + [SegmentLine(plane, pop, m, pos, m.segments[n - 1], minWidth)]
  }

  function CellLines(plane: Plane, pop: Population, pos: Position, minWidth: real): seq<Line> {
    match pop.cell
    case None => [PointLine(plane, pop, pos)]
    case Some(m) => SegmentLines(plane, pop, m, pos, |m.segments|, minWidth)
  }

  /** The lines of the cells at the first `n` positions of a population. */
  function PositionLines(plane: Plane, pop: Population, n: nat, minWidth: real): seq<Line>
    requires n <= |pop.positions|
  {
    if n == 0 then []
    else PositionLines(plane, pop, n - 1, minWidth) + CellLines(plane, pop, pop.positions[n - 1], minWidth)
  }

  /** The lines of the first `n` populations, in order. */
  function AllLines(plane: Plane, pops: seq<Population>, n: nat, minWidth: real): seq<Line>
    requires n <= |pops|
  {
    if n == 0 then []
    else AllLines(plane, pops, n - 1, minWidth) + PositionLines(plane, pops[n - 1], |pops[n - 1].positions|, minWidth)
  }

  /** The extent of a list of lines, widened line by line. */
  /** The extent `e` widened by the lines, one after another. */
  function ExtentFrom(e: Extent, lines: seq<Line>): Extent {
    if lines == [] then e
    else
      var n := |lines| - 1;
      Widen(Widen(ExtentFrom(e, lines[..n]), lines[n].x0), lines[n].x1)
  }

  /** The extent of a list of lines, starting from nothing drawn. */
  function ExtentOf(lines: seq<Line>): Extent {
    ExtentFrom(Empty, lines)
  }

  /** Widening by two lists in turn is widening by both. */
  lemma {:induction false} ExtentFromAppend(e: Extent, a: seq<Line>, b: seq<Line>)
    ensures ExtentFrom(e, a + b) == ExtentFrom(ExtentFrom(e, a), b)
    decreases |b|
  {
    if b == [] {
      assert a + b == a;
    } else {
      var n := |b| - 1;
      assert (a + b)[..|a + b| - 1] == a + b[..n];
      assert (a + b)[|a + b| - 1] == b[n];
      ExtentFromAppend(e, a, b[..n]);
    }
  }

  /** The extent is exactly the smallest range holding every drawn line's
      horizontal end points. */
  lemma {:induction false} ExtentCoversLines(lines: seq<Line>)
    ensures lines == [] <==> ExtentOf(lines).Empty?
    ensures lines != [] ==>
              var e := ExtentOf(lines);
              && (forall k :: 0 <= k < |lines| ==> e.lo <= lines[k].x0 <= e.hi && e.lo <= lines[k].x1 <= e.hi)
              && (exists k :: 0 <= k < |lines| && (e.lo == lines[k].x0 || e.lo == lines[k].x1))
              && (exists k :: 0 <= k < |lines| && (e.hi == lines[k].x0 || e.hi == lines[k].x1))
    decreases |lines|
  {
    if lines != [] {
      var n := |lines| - 1;
      var init := lines[..n];
      ExtentCoversLines(init);
      var e := ExtentOf(lines);
      WidenBounds(ExtentOf(init), lines[n].x0);
      WidenBounds(Widen(ExtentOf(init), lines[n].x0), lines[n].x1);
      forall k | 0 <= k < |lines|
        ensures e.lo <= lines[k].x0 <= e.hi && e.lo <= lines[k].x1 <= e.hi
      {
        if k < n {
          assert lines[k] == init[k];
        }
      }
      if init != [] {
        var e0 := ExtentOf(init);
        if e.lo == e0.lo {
          var k :| 0 <= k < |init| && (e0.lo == init[k].x0 || e0.lo == init[k].x1);
          assert lines[k] == init[k];
        } else {
          assert e.lo == lines[n].x0 || e.lo == lines[n].x1;
        }
        if e.hi == e0.hi {
          var k :| 0 <= k < |init| && (e0.hi == init[k].x0 || e0.hi == init[k].x1);
          assert lines[k] == init[k];
        } else {
          assert e.hi == lines[n].x0 || e.hi == lines[n].x1;
        }
      } else {
        assert e.lo == lines[n].x0 || e.lo == lines[n].x1;
        assert e.hi == lines[n].x0 || e.hi == lines[n].x1;
      }
    }
  }

  /** A point cell is drawn as a dot: its line is degenerate, its second
      point nudged by a thousandth of the radius. */
  lemma PointCellIsDot(plane: Plane, pop: Population, pos: Position)
    ensures var l := PointLine(plane, pop, pos);
            && l.round && l.x1 == l.x0 + PointRadius(pop) / 1000.0 && l.y1 == l.y0 + PointRadius(pop) / 1000.0
  {
  }

  // =====================================================================
  // Scalebar

  /** The extent is narrower than `c` (an empty one, from infinite limits,
      always is). */
  predicate NarrowerThan(e: Extent, c: real) {
    e.Empty? || e.hi - e.lo < c
  }

  /** The scalebar's fixed value in micrometres. */
  function ScalebarValue(e: Extent): (v: int)
    ensures v == 1 || v == 5 || v == 50
  {
    var below100 := if NarrowerThan(e, 100.0) then 5 else 50;
    if NarrowerThan(e, 10.0) then 1 else below100
  }

  /** The scalebar is 1 below a width of 10, 5 below 100, else 50; drawing
      more never makes it shorter. */
  lemma ScalebarGrows(e: Extent, a: real)
    ensures ScalebarValue(e) == 1 <==> NarrowerThan(e, 10.0)
    ensures ScalebarValue(e) == 50 <==> !NarrowerThan(e, 100.0)
    ensures ScalebarValue(e) <= ScalebarValue(Widen(e, a))
  {
  }

  /** The scalebars chosen after each of the first `n` populations. */
  function Scalebars(plane: Plane, pops: seq<Population>, n: nat, minWidth: real): (s: seq<int>)
    requires n <= |pops|
    ensures |s| == n
  {
    if n == 0 then []
    else Scalebars(plane, pops, n - 1, minWidth) + [ScalebarValue(ExtentOf(AllLines(plane, pops, n, minWidth)))]
  }

  // =====================================================================
  // plot_2D

  /** What a 2D plot draws: its lines in order, the final horizontal extent,
      and the scalebar added after each population. */
  datatype Drawing = Drawing(lines: seq<Line>, extent: Extent, scalebars: seq<int>)

  /** A point cell: one `add_line` call with both points at its position. */
  method DrawDot(plane: Plane, pop: Population, pos: Position, ext0: Extent)
    returns (line: Line, ext: Extent)
    ensures line == PointLine(plane, pop, pos) && ext == ExtentFrom(ext0, [line])
  {
    var xv := new real[2];
    var yv := new real[2];
    var c := PositionCoord(pos, plane.h);
    var r := PositionCoord(pos, plane.v);
    xv[0], xv[1] := c, c;
    yv[0], yv[1] := r, r;
    ext, line := AddLine(xv, yv, PointRadius(pop), PointColour(pop), ext0);
    assert [line][..0] == [];
  }

  /** One segment of a cell at `pos`: its width and colour, then one
      `add_line` call on its projected end points. */
  method DrawSegment(plane: Plane, pop: Population, m: Morph, pos: Position, seg: Segment, minWidth: real, ext0: Extent)
    returns (line: Line, ext: Extent)
    ensures line == SegmentLine(plane, pop, m, pos, seg, minWidth) && ext == ExtentFrom(ext0, [line])
  {
    var p, d := seg.proximal, seg.distal;
    var width := (p.diameter + d.diameter) / 2.0;
    if width < minWidth {
      width := minWidth;
    }
    var colour := "b";
    if pop.colour.Some? {
      colour := pop.colour.value;
    } else {
      if seg.id in m.somaGroup { colour := "g"; }
      if seg.id in m.axonGroup { colour := "r"; }
    }
    assert width == Width2D(p, d, minWidth) && colour == SegmentColour(pop, m, seg);
    var xv := new real[2];
    var yv := new real[2];
    var ch, cv := PositionCoord(pos, plane.h), PositionCoord(pos, plane.v);
    xv[0], xv[1] := ch + PointCoord(p, plane.h), ch + PointCoord(d, plane.h);
    yv[0], yv[1] := cv + PointCoord(p, plane.v), cv + PointCoord(d, plane.v);
    ext, line := AddLine(xv, yv, width, colour, ext0);
    assert [line][..0] == [];
  }

  /** The lines of one cell, added one `add_line` call at a time. */
  method DrawCell(plane: Plane, pop: Population, pos: Position, minWidth: real, ext0: Extent)
    returns (lines: seq<Line>, ext: Extent)
    ensures lines == CellLines(plane, pop, pos, minWidth) && ext == ExtentFrom(ext0, lines)
  {
    match pop.cell {
      case None =>
        var line;
        line, ext := DrawDot(plane, pop, pos, ext0);
        lines := [line];
      case Some(m) =>
        lines, ext := [], ext0;
        for s := 0 to |m.segments|
          invariant lines == SegmentLines(plane, pop, m, pos, s, minWidth) && ext == ExtentFrom(ext0, lines)
        {
          var line;
          line, ext := DrawSegment(plane, pop, m, pos, m.segments[s], minWidth, ext);
          ExtentFromAppend(ext0, lines, [line]);
          lines := lines + [line];
        }
    }
  }

  /** Every instance of a population, one cell after another. */
  method DrawPopulation(plane: Plane, pop: Population, minWidth: real, ext0: Extent)
    returns (lines: seq<Line>, ext: Extent)
    ensures lines == PositionLines(plane, pop, |pop.positions|, minWidth) && ext == ExtentFrom(ext0, lines)
  {
    lines, ext := [], ext0;
    for j := 0 to |pop.positions|
      invariant lines == PositionLines(plane, pop, j, minWidth) && ext == ExtentFrom(ext0, lines)
    {
      var cell;
      cell, ext := DrawCell(plane, pop, pop.positions[j], minWidth, ext);
      ExtentFromAppend(ext0, lines, cell);
      lines := lines + cell;
    }
  }

  /** `plot_2D`'s drawing loop: an unknown plane name ends the plot before
      anything is drawn; otherwise every population's cells are drawn in
      order, the extent is widened line by line, and a scalebar is chosen
      from the extent reached after each population. */
  method Plot2D(planeName: string, pops: seq<Population>, minWidth: real) returns (r: Option<Drawing>)
    ensures r.None? <==> planeName !in PlaneNames
    ensures r.Some? ==>
              var plane := ParsePlane(planeName).value;
              var lines := AllLines(plane, pops, |pops|, minWidth);
              r.value == Drawing(lines, ExtentOf(lines), Scalebars(plane, pops, |pops|, minWidth))
  {
    ParsePlaneAccepts(planeName);
    var parsed := ParsePlane(planeName);
    if parsed.None? {
      return None;
    }
    var plane := parsed.value;
    var lines: seq<Line> := [];
    var ext := Empty;
    var scalebars: seq<int> := [];
    for i := 0 to |pops|
      invariant lines == AllLines(plane, pops, i, minWidth) && ext == ExtentOf(lines)
      invariant scalebars == Scalebars(plane, pops, i, minWidth)
    {
      var popLines;
      popLines, ext := DrawPopulation(plane, pops[i], minWidth, ext);
      ExtentFromAppend(Empty, lines, popLines);
      lines := lines + popLines;
      scalebars := scalebars + [ScalebarValue(ext)];
    }
    return Some(Drawing(lines, ext, scalebars));
  }

  // =====================================================================
  // Axis limits

  /** An axis range (low, high). */
  datatype Limits = Limits(lo: real, hi: real)

  function Span(l: Limits): real {
    l.hi - l.lo
  }

  function Middle(l: Limits): real {
    l.lo + (l.hi - l.lo) / 2.0
  }

  /** `half` either side of `m`. */
  function Around(m: real, half: real): (l: Limits)
    ensures Span(l) == 2.0 * half && Middle(l) == m
  {
    Limits(m - half, m + half)
  }

  const Small: real := 0.1

  /** The limits after the tiny-range rule, from the autoscaled ones: a lone
      point gets ±100 on both axes; one tiny axis gets a tenth of the other's
      span either side of its own middle. */
  function SmallLimits(xl: Limits, yl: Limits): (r: (Limits, Limits))
    ensures Span(xl) >= Small && Span(yl) >= Small ==> r == (xl, yl)
    ensures Span(xl) < Small && Span(yl) < Small ==> r == (Limits(-100.0, 100.0), Limits(-100.0, 100.0))
    ensures Span(xl) < Small && Span(yl) >= Small ==> r == (Around(Middle(xl), Span(yl) / 10.0), yl)
    ensures Span(xl) >= Small && Span(yl) < Small ==> r == (xl, Around(Middle(yl), Span(xl) / 10.0))
  {
    if Span(xl) < Small && Span(yl) < Small then (Limits(-100.0, 100.0), Limits(-100.0, 100.0))
    else if Span(xl) < Small then (Around(Middle(xl), Span(yl) / 10.0), yl)
    else if Span(yl) < Small then (xl, Around(Middle(yl), Span(xl) / 10.0))
    else (xl, yl)
  }

  /** The square rule as written: it reads the autoscaled limits `xl`, `yl`
      even after the tiny-range rule has replaced them. */
  function SquareAsWritten(xl: Limits, yl: Limits, cur: (Limits, Limits)): (Limits, Limits) {
    var (x, y) := cur;
    var y := if Span(xl) > Span(yl) then Around(Middle(yl), Span(xl) / 2.0) else y;
    var x := if Span(xl) < Span(yl) then Around(Middle(xl), Span(yl) / 2.0) else x;
    (x, y)
  }

  function LimitsAsWritten(xl: Limits, yl: Limits, square: bool): (Limits, Limits) {
    var cur := SmallLimits(xl, yl);
    if square then SquareAsWritten(xl, yl, cur) else cur
  }

  /** A lone point whose autoscaled ranges are tiny but unequal comes out
      of the square rule with one axis 200 wide and the other 0.05. */
  lemma AsWrittenPointIsNotSquare()
    ensures var (x, y) := LimitsAsWritten(Limits(0.0, 0.05), Limits(0.0, 0.01), true);
            x == Limits(-100.0, 100.0) && Span(y) == 0.05
  {
  }

  /** The square rule on the limits in force: the shorter axis is widened
      to the longer one's span about its own middle. */
  function Square(cur: (Limits, Limits)): (r: (Limits, Limits))
    ensures Span(r.0) == Span(r.1)
    ensures Middle(r.0) == Middle(cur.0) && Middle(r.1) == Middle(cur.1)
    ensures Span(r.0) == (if Span(cur.0) >= Span(cur.1) then Span(cur.0) else Span(cur.1))
  {
    var (x, y) := cur;
    if Span(x) > Span(y) then (x, Around(Middle(y), Span(x) / 2.0))
    else if Span(x) < Span(y) then (Around(Middle(x), Span(y) / 2.0), y)
    else (x, y)
  }

  /** The axis limits of a 2D plot; with `square`, the two axes end up
      equally long. */
  function PlotLimits(xl: Limits, yl: Limits, square: bool): (r: (Limits, Limits))
    ensures square ==> Span(r.0) == Span(r.1)
  {
    var cur := SmallLimits(xl, yl);
    if square then Square(cur) else cur
  }

  /** The correction only differs from the code as written when both
      autoscaled ranges are tiny. */
  lemma PlotLimitsAgreeUnlessBothTiny(xl: Limits, yl: Limits, square: bool)
    requires Span(xl) >= Small || Span(yl) >= Small
    ensures PlotLimits(xl, yl, square) == LimitsAsWritten(xl, yl, square)
  {
  }
}
