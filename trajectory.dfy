/**
 The figure-8 trajectory that every streaming session walks: two circles of
 72 points each around a left and a right centre, joined by two straight runs
 of 12 points along the centre line. The grid bounds are parameters; the
 broadcaster's own grid is `MaxX` by `MaxY`.
 */
module Trajectory {

  /** One grid position, the `(x, y)` tuple the builder appends. */
  datatype Point = Point(x: int, y: int)

  /** The broadcaster's grid bounds. */
  const MaxX: int := 102
  const MaxY: int := 65

  /** Points on each circle (`steps`). */
  const Steps: nat := 72
  /** Points on each straight run. */
  const RunSteps: nat := 12
  /** Length of the whole trajectory. */
  const Total: nat := 2 * Steps + 2 * RunSteps

  /**
   The floating-point part of the builder, left uninterpreted: each arrow
   returns the integer that `int(round(...))` yields for one point.
     circleX(cx, rx, i) stands for round(cx + rx * cos(2*pi*i/72)),
     circleY(cy, ry, i) stands for round(cy + ry * sin(2*pi*i/72)),
     lerp(from, to, i)  stands for round((1 - i/12) * from + (i/12) * to).
   */
  datatype Rounding = Rounding(
    circleX: (int, int, nat) -> int,
    circleY: (int, int, nat) -> int,
    lerp: (int, int, nat) -> int)

  function Min(a: int, b: int): int { if a <= b then a else b }
  function Max(a: int, b: int): int { if a <= b then b else a }

  /** `max(lo, min(hi, v))`: v pulled into [lo, hi]. */
  function Clamp(v: int, lo: int, hi: int): (r: int)
    ensures lo <= r
    ensures lo <= hi ==> r <= hi
    ensures lo <= hi ==> (r == v <==> lo <= v <= hi)
    ensures lo <= hi && v < lo ==> r == lo
    ensures lo <= hi && hi < v ==> r == hi
  {
    Max(lo, Min(hi, v))
  }

  /** The values the builder derives from the grid before emitting points. */
  datatype Params = Params(centerY: int, leftX: int, rightX: int, radiusX: int, radiusY: int)

  /**
   Centre line, circle centres and radii. Python's `//` by a positive constant
   floors, as Dafny's `/` does, so the floor characterisations below hold for
   every grid, negative ones included.
   */
  function Derive(maxX: int, maxY: int): (p: Params)
    ensures 2 * p.centerY <= maxY < 2 * p.centerY + 2
    ensures 3 * p.leftX <= maxX < 3 * p.leftX + 3
    ensures 3 * p.rightX <= 2 * maxX < 3 * p.rightX + 3
    ensures 6 <= p.radiusX <= 24 && 6 <= p.radiusY <= 20
    ensures 6 <= maxX / 5 <= 24 ==> p.radiusX == maxX / 5
    ensures 6 <= maxY / 3 <= 20 ==> p.radiusY == maxY / 3
    ensures maxX / 5 < 6 ==> p.radiusX == 6
    ensures 24 < maxX / 5 ==> p.radiusX == 24
    ensures maxY / 3 < 6 ==> p.radiusY == 6
    ensures 20 < maxY / 3 ==> p.radiusY == 20
    ensures 0 <= maxX ==> 0 <= p.leftX <= p.rightX <= maxX
    ensures 0 <= maxY ==> 0 <= p.centerY <= maxY
  {
    Params(maxY / 2, maxX / 3, (2 * maxX) / 3, Clamp(maxX / 5, 6, 24), Clamp(maxY / 3, 6, 20))
  }

  /** Point i of the circle around (cx, centre line), both coordinates clamped. */
  function CirclePoint(maxX: int, maxY: int, o: Rounding, cx: int, i: nat): Point
  {
    var p := Derive(maxX, maxY);
    Point(Clamp(o.circleX(cx, p.radiusX, i), 0, maxX), Clamp(o.circleY(p.centerY, p.radiusY, i), 0, maxY))
  }

  /** Point i (1..12) of the run from `from` to `to`; only x is clamped. */
  function RunPoint(maxX: int, maxY: int, o: Rounding, from: int, to: int, i: nat): Point
  {
    Point(Clamp(o.lerp(from, to, i), 0, maxX), Derive(maxX, maxY).centerY)
  }

  function Loop(maxX: int, maxY: int, o: Rounding, cx: int): seq<Point>
  {
    seq(Steps, i requires 0 <= i < Steps => CirclePoint(maxX, maxY, o, cx, i))
  }

  function Run(maxX: int, maxY: int, o: Rounding, from: int, to: int): seq<Point>
  {
    seq(RunSteps, k requires 0 <= k < RunSteps => RunPoint(maxX, maxY, o, from, to, k + 1))
  }

  /** The trajectory: left circle, run right, right circle, run back. */
  function Figure8(maxX: int, maxY: int, o: Rounding): (s: seq<Point>)
    ensures |s| == Total == 168
  {
    var p := Derive(maxX, maxY);
    Loop(maxX, maxY, o, p.leftX) + Run(maxX, maxY, o, p.leftX, p.rightX)
      + Loop(maxX, maxY, o, p.rightX) + Run(maxX, maxY, o, p.rightX, p.leftX)
  }

  predicate InGrid(pt: Point, maxX: int, maxY: int)
  {
    0 <= pt.x <= maxX && 0 <= pt.y <= maxY
  }

  /** build_figure8_points: four loops append to `pts` in place. */
  method BuildFigure8(maxX: int, maxY: int, o: Rounding) returns (pts: seq<Point>)
    ensures pts == Figure8(maxX, maxY, o)
    ensures |pts| == Total
    ensures 0 <= maxX && 0 <= maxY ==> forall k :: 0 <= k < |pts| ==> InGrid(pts[k], maxX, maxY)
  {
    var centerY := maxY / 2;
    var leftX := maxX / 3;
    var rightX := (2 * maxX) / 3;
    var radiusX := Clamp(maxX / 5, 6, 24);
    var radiusY := Clamp(maxY / 3, 6, 20);
    ghost var left := Loop(maxX, maxY, o, leftX);
    ghost var out := Run(maxX, maxY, o, leftX, rightX);
    ghost var right := Loop(maxX, maxY, o, rightX);
    ghost var back := Run(maxX, maxY, o, rightX, leftX);
    pts := [];

    for i := 0 to Steps
      invariant pts == left[..i]
    {
      var x := o.circleX(leftX, radiusX, i);
      var y := o.circleY(centerY, radiusY, i);
      pts := pts + [Point(Clamp(x, 0, maxX), Clamp(y, 0, maxY))];
    }

    for i := 1 to RunSteps + 1
      invariant pts == left + out[..i - 1]
    {
      var x := o.lerp(leftX, rightX, i);
      pts := pts + [Point(Clamp(x, 0, maxX), centerY)];
    }

    for i := 0 to Steps
      invariant pts == left + out + right[..i]
    {
      var x := o.circleX(rightX, radiusX, i);
      var y := o.circleY(centerY, radiusY, i);
      pts := pts + [Point(Clamp(x, 0, maxX), Clamp(y, 0, maxY))];
    }

    for i := 1 to RunSteps + 1
      invariant pts == left + out + right + back[..i - 1]
    {
      var x := o.lerp(rightX, leftX, i);
      pts := pts + [Point(Clamp(x, 0, maxX), centerY)];
    }

    assert back[..RunSteps] == back;
    if 0 <= maxX && 0 <= maxY {
      Figure8InGrid(maxX, maxY, o);
    }
  }

  /** Segment order: which loop of the builder produced each index. */
  lemma Figure8Layout(maxX: int, maxY: int, o: Rounding)
    ensures var s, p := Figure8(maxX, maxY, o), Derive(maxX, maxY);
      && (forall i :: 0 <= i < 72 ==> s[i] == CirclePoint(maxX, maxY, o, p.leftX, i))
      && (forall i :: 72 <= i < 84 ==> s[i] == RunPoint(maxX, maxY, o, p.leftX, p.rightX, i - 71))
      && (forall i :: 84 <= i < 156 ==> s[i] == CirclePoint(maxX, maxY, o, p.rightX, i - 84))
      && (forall i :: 156 <= i < 168 ==> s[i] == RunPoint(maxX, maxY, o, p.rightX, p.leftX, i - 155))
  {
  }

  /** Every point lies on the grid; on the runs this rests on 0 <= MAX_Y/2 <= MAX_Y. */
  lemma Figure8InGrid(maxX: int, maxY: int, o: Rounding)
    requires 0 <= maxX && 0 <= maxY
    ensures var s := Figure8(maxX, maxY, o);
      forall k :: 0 <= k < |s| ==> InGrid(s[k], maxX, maxY)
  {
    Figure8Layout(maxX, maxY, o);
  }

  /** Both straight runs stay on the centre line. */
  lemma RunsOnCenterLine(maxX: int, maxY: int, o: Rounding)
    ensures var s := Figure8(maxX, maxY, o);
      forall k :: (72 <= k < 84 || 156 <= k < 168) ==> s[k].y == Derive(maxX, maxY).centerY
  {
    Figure8Layout(maxX, maxY, o);
  }

  /**
   The last point of each run lands on the destination centre. At t = 12/12
   = 1.0 the float interpolation is 0.0 * from + 1.0 * to, which rounds back
   to `to` whenever `to` converts to a float exactly (the grid's centres do
   for |MAX_X| <= 2^53); the requires states that of this grid's two centres.
   */
  lemma RunEndpoints(maxX: int, maxY: int, o: Rounding)
    requires 0 <= maxX
    requires var p := Derive(maxX, maxY);
      o.lerp(p.leftX, p.rightX, RunSteps) == p.rightX && o.lerp(p.rightX, p.leftX, RunSteps) == p.leftX
    ensures var s, p := Figure8(maxX, maxY, o), Derive(maxX, maxY);
      s[83] == Point(p.rightX, p.centerY) && s[167] == Point(p.leftX, p.centerY)
  {
    Figure8Layout(maxX, maxY, o);
  }

  /** The broadcaster's own grid, 102 by 65. */
  lemma DefaultGrid(o: Rounding)
    ensures Derive(MaxX, MaxY) == Params(32, 34, 68, 20, 20)
    ensures |Figure8(MaxX, MaxY, o)| == 168
  {
  }
}
