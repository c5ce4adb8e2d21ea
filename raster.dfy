/** What the drawing primitives of example/factory/tft.cpp put on the bus:
    the points a line or a circle visits, computed the way the source's
    loops compute them, the events each plotted point costs, and the
    counting facts the loops promise. */
module Raster {
  import opened Bus
  import opened Panel

  /** A pixel position as the drawing code computes it, before the
      conversion to the `uint16_t` parameters of `LCD_DrawPoint`. */
  datatype Point = Point(x: int, y: int)

  /** `LCD_DrawPoint(x, y, color)` on the bus: the 1x1 window, then one
      data byte, the low eight bits of the 16-bit colour. */
  function PointEvents(h: uint8, p: Point, color: uint16): (es: seq<Event>)
    ensures h < 4 ==> |es| == 8 && es[7] == Data8(color % 0x100)
  {
    AddressWindow(h, Wrap16(p.x), Wrap16(p.y), Wrap16(p.x), Wrap16(p.y)) + [Data8(Wrap8(color))]
  }

  /** Plotting depends only on the coordinates converted to `uint16_t`. */
  lemma PointEventsWrap(h: uint8, x: int, y: int, color: uint16)
    ensures PointEvents(h, Point(Wrap16(x), Wrap16(y)), color) == PointEvents(h, Point(x, y), color)
  {
    assert Wrap16(Wrap16(x)) == Wrap16(x) && Wrap16(Wrap16(y)) == Wrap16(y);
  }

  /** The window a plotted point opens is the single pixel at the point's
      coordinates converted to `uint16_t`. */
  lemma PointWindow(h: uint8, p: Point, color: uint16)
    requires h < 4
    ensures var es := PointEvents(h, p, color);
      DecodeWindow(h, es[..7]) == Some(Window(Wrap16(p.x), Wrap16(p.y), Wrap16(p.x), Wrap16(p.y)))
  {
    var es := PointEvents(h, p, color);
    WindowRoundTrip(h, Wrap16(p.x), Wrap16(p.y), Wrap16(p.x), Wrap16(p.y));
    assert es[..7] == AddressWindow(h, Wrap16(p.x), Wrap16(p.y), Wrap16(p.x), Wrap16(p.y));
  }

  /** As written, a plotted point carries one pixel byte, although the
      power-on sequence selects 16 bits per pixel (register 0x3A, value
      0x05): colours that share their low byte plot identically, so red
      `0xF800` plots as black `0x0000`. */
  lemma PointDropsHighByte(h: uint8, p: Point, c1: uint16, c2: uint16)
    requires c1 % 0x100 == c2 % 0x100
    ensures PointEvents(h, p, c1) == PointEvents(h, p, c2)
    ensures h < 4 ==> Wire(PointEvents(h, p, c1)) == Wire(PointEvents(h, p, c1)[..7]) + [c1 % 0x100]
    ensures PointEvents(h, p, 0xF800) == PointEvents(h, p, 0x0000)
  {
    var es := PointEvents(h, p, c1);
    if h < 4 {
      assert es == es[..7] + [Data8(c1 % 0x100)];
      WireSnoc(es[..7], Data8(c1 % 0x100));
    }
  }

  /** `LCD_DrawPoint` as evidently intended: the 1x1 window, then the whole
      colour as one 16-bit transfer. */
  function IntendedPointEvents(h: uint8, p: Point, color: uint16): (es: seq<Event>)
    ensures h < 4 ==> |es| == 8 && es[7] == Data16(color)
  {
    AddressWindow(h, Wrap16(p.x), Wrap16(p.y), Wrap16(p.x), Wrap16(p.y)) + [Data16(color)]
  }

  /** The intended point puts both colour bytes on the wire, high byte
      first, so different colours plot differently. */
  lemma IntendedPointColour(h: uint8, p: Point, c1: uint16, c2: uint16)
    requires h < 4
    ensures var es := IntendedPointEvents(h, p, c1);
      Wire(es) == Wire(es[..7]) + [c1 / 0x100, c1 % 0x100]
    ensures IntendedPointEvents(h, p, c1) == IntendedPointEvents(h, p, c2) <==> c1 == c2
  {
    var es := IntendedPointEvents(h, p, c1);
    assert es == es[..7] + [Data16(c1)];
    WireSnoc(es[..7], Data16(c1));
    if IntendedPointEvents(h, p, c1) == IntendedPointEvents(h, p, c2) {
      assert IntendedPointEvents(h, p, c2)[7] == Data16(c2);
    }
  }

  /** The events of plotting `pts` one after the other. */
  function PlotTrace(h: uint8, pts: seq<Point>, color: uint16): (es: seq<Event>)
    ensures h < 4 ==> |es| == 8 * |pts|
    decreases |pts|
  {
    if pts == [] then []
    else PlotTrace(h, pts[..|pts| - 1], color) + PointEvents(h, pts[|pts| - 1], color)
  }

  lemma PlotSnoc(h: uint8, pts: seq<Point>, p: Point, color: uint16)
    ensures PlotTrace(h, pts + [p], color) == PlotTrace(h, pts, color) + PointEvents(h, p, color)
  {
    assert (pts + [p])[..|pts|] == pts;
  }

  /** One more point plotted after a trace that already holds `pts`. */
  lemma PlotStep(t: seq<Event>, h: uint8, pts: seq<Point>, p: Point, color: uint16)
    ensures t + PlotTrace(h, pts, color) + PointEvents(h, p, color) == t + PlotTrace(h, pts + [p], color)
  {
    PlotSnoc(h, pts, p, color);
    AppendAssoc(t, PlotTrace(h, pts, color), PointEvents(h, p, color));
  }

  lemma {:induction false} PlotAppend(h: uint8, a: seq<Point>, b: seq<Point>, color: uint16)
    ensures PlotTrace(h, a + b, color) == PlotTrace(h, a, color) + PlotTrace(h, b, color)
    decreases |b|
  {
    if b == [] {
      assert a + b == a;
    } else {
      var n := |b| - 1;
      var front, last := b[..n], b[n];
      assert b == front + [last];
      assert a + b == (a + front) + [last];
      PlotAppend(h, a, front, color);
      PlotSnoc(h, a + front, last, color);
      PlotSnoc(h, front, last, color);
      AppendAssoc(PlotTrace(h, a, color), PlotTrace(h, front, color), PointEvents(h, last, color));
    }
  }

  // ---------------------------------------------------------------------
  // LCD_Fill

  /** The number of `Data16(color)` transfers `LCD_Fill` makes: one per
      column of every row, none when either range is empty. */
  function FillPixels(xsta: uint16, ysta: uint16, xend: uint16, yend: uint16): (n: nat)
    ensures xsta <= xend && ysta <= yend ==> n == (yend - ysta) * (xend - xsta)
    ensures xend <= xsta || yend <= ysta ==> n == 0
  {
    (if yend > ysta then yend - ysta else 0) * (if xend > xsta then xend - xsta else 0)
  }

  /** For a non-empty fill, the window addressed (its last column and row
      `xend - 1` and `yend - 1`) holds exactly as many pixels as are sent. */
  lemma FillCoversWindow(xsta: uint16, ysta: uint16, xend: uint16, yend: uint16)
    requires xsta < xend && ysta < yend
    ensures FillPixels(xsta, ysta, xend, yend)
         == (Wrap16(xend - 1) - xsta + 1) * (Wrap16(yend - 1) - ysta + 1)
  {
  }

  // ---------------------------------------------------------------------
  // LCD_DrawLine

  /** The set-up of `LCD_DrawLine` (lines 30-55): the start, the step
      directions, the per-step increments and the number of steps. */
  datatype LinePlan = LinePlan(x1: int, y1: int, incx: int, incy: int, dx: int, dy: int, distance: int)

  /** The set-up as written. When `y2 < y1`, the vertical increment is
      taken from the horizontal one (`delta_y = -delta_x`), after that has
      already been made non-negative. */
  function PlanAsWritten(x1: uint16, y1: uint16, x2: uint16, y2: uint16): (p: LinePlan)
    ensures p.x1 == x1 && p.y1 == y1
    ensures 0 <= p.dx <= p.distance && p.dy <= p.distance && p.distance <= 0xFFFF
    ensures p.distance == if p.dx > p.dy then p.dx else p.dy
    ensures p.dx == if x2 >= x1 then x2 - x1 else x1 - x2
    ensures p.incx == (if x2 > x1 then 1 else if x2 == x1 then 0 else -1)
    ensures p.incy == (if y2 > y1 then 1 else if y2 == y1 then 0 else -1)
    ensures y2 >= y1 ==> p.dy == y2 - y1
    ensures y2 < y1 ==> p.dy == -p.dx
  {
    var deltaX := x2 - x1;
    var deltaY := y2 - y1;
    var incx := if deltaX > 0 then 1 else if deltaX == 0 then 0 else -1;
    var dx := if deltaX < 0 then -deltaX else deltaX;
    var incy := if deltaY > 0 then 1 else if deltaY == 0 then 0 else -1;
    var dy := if deltaY < 0 then -dx else deltaY;
    LinePlan(x1, y1, incx, incy, dx, dy, if dx > dy then dx else dy)
  }

  /** The loop variables of `LCD_DrawLine`: the two errors and the current
      position, which the source keeps in `uRow` (the x coordinate) and
      `uCol` (the y coordinate). */
  datatype LineState = LineState(xerr: int, yerr: int, x: int, y: int)

  /** One pass through the loop body after the point is drawn
      (lines 59-70): accumulate, and step when an error exceeds `distance`. */
  function Advance(p: LinePlan, s: LineState): LineState
  {
    var xe := s.xerr + p.dx;
    var ye := s.yerr + p.dy;
    LineState(if xe > p.distance then xe - p.distance else xe,
              if ye > p.distance then ye - p.distance else ye,
              if xe > p.distance then s.x + p.incx else s.x,
              if ye > p.distance then s.y + p.incy else s.y)
  }

  /** The loop variables after `k` passes. */
  function StateAt(p: LinePlan, k: nat): LineState
  {
    if k == 0 then LineState(0, 0, p.x1, p.y1) else Advance(p, StateAt(p, k - 1))
  }

  function PointOf(s: LineState): Point
  {
    Point(s.x, s.y)
  }

  /** The points drawn by the first `n` passes of the loop under plan `p`:
      the position at the head of each pass. */
  function Trail(p: LinePlan, n: nat): (pts: seq<Point>)
    ensures |pts| == n
  {
    if n == 0 then [] else Trail(p, n - 1) + [PointOf(StateAt(p, n - 1))]
  }

  /** The `k`-th point of a trail is the position after `k` passes. */
  lemma {:induction false} TrailAt(p: LinePlan, n: nat, k: nat)
    requires k < n
    ensures Trail(p, n)[k] == PointOf(StateAt(p, k))
  {
    if k < n - 1 {
      TrailAt(p, n - 1, k);
    }
  }

  /** One more pass: the trail grows by the position at its head, and the
      state advances. */
  lemma TrailStep(p: LinePlan, n: nat)
    ensures Trail(p, n + 1) == Trail(p, n) + [PointOf(StateAt(p, n))]
    ensures StateAt(p, n + 1) == Advance(p, StateAt(p, n))
  {
  }

  /** The points `LCD_DrawLine(x1, y1, x2, y2)` draws, in order: one per
      pass, `distance + 1` passes. */
  function LinePoints(x1: uint16, y1: uint16, x2: uint16, y2: uint16): (pts: seq<Point>)
    ensures |pts| == PlanAsWritten(x1, y1, x2, y2).distance + 1
  {
    var p := PlanAsWritten(x1, y1, x2, y2);
    Trail(p, p.distance + 1)
  }

  /** How far the current position has moved from the start along x, in
      the direction `incx`. */
  function TravelX(p: LinePlan, s: LineState): int
  {
    if p.incx == 1 then s.x - p.x1 else if p.incx == -1 then p.x1 - s.x else 0
  }

  function TravelY(p: LinePlan, s: LineState): int
  {
    if p.incy == 1 then s.y - p.y1 else if p.incy == -1 then p.y1 - s.y else 0
  }

  /** The x half of the loop invariant at the head of pass `k`:
      `0 <= xerr <= distance` (and `xerr > 0` once a non-zero increment has
      been added), the error accounts for the distance travelled, and x
      only moves in the direction `incx`. */
  ghost predicate InvariantX(p: LinePlan, s: LineState, k: nat)
  {
    && 0 <= s.xerr <= p.distance
    && (k >= 1 && p.dx >= 1 ==> s.xerr >= 1)
    && s.xerr + p.distance * TravelX(p, s) == k * p.dx
    && TravelX(p, s) >= 0
    && (k == 0 ==> TravelX(p, s) == 0)
    && (p.incx == 0 ==> s.x == p.x1)
  }

  /** The x half holds at every loop head, for any plan whose horizontal
      increment lies in `0..distance`. */
  lemma {:induction false} LineInvariantX(p: LinePlan, k: nat)
    requires 0 <= p.dx <= p.distance && -1 <= p.incx <= 1 && (p.incx == 0 ==> p.dx == 0)
    ensures InvariantX(p, StateAt(p, k), k)
  {
    if k > 0 {
      LineInvariantX(p, k - 1);
      AdvanceKeepsX(p, StateAt(p, k - 1), k - 1);
    }
  }

  /** One pass keeps the x half. */
  lemma AdvanceKeepsX(p: LinePlan, s: LineState, k: nat)
    requires 0 <= p.dx <= p.distance && -1 <= p.incx <= 1 && (p.incx == 0 ==> p.dx == 0)
    requires InvariantX(p, s, k)
    ensures InvariantX(p, Advance(p, s), k + 1)
  {
    var t := TravelX(p, s);
    assert (k + 1) * p.dx == k * p.dx + p.dx;
    if s.xerr + p.dx > p.distance {
      assert TravelX(p, Advance(p, s)) == t + 1;
      assert p.distance * (t + 1) == p.distance * t + p.distance;
    }
  }

  /** The y half at the head of pass `k`: the same as for x when
      `dy >= 0`; with a negative increment (the upward-line slip) the
      vertical error only decreases and y never moves. */
  ghost predicate InvariantY(p: LinePlan, s: LineState, k: nat)
  {
    && (p.dy >= 0 ==> 0 <= s.yerr <= p.distance && s.yerr + p.distance * TravelY(p, s) == k * p.dy)
    && (p.dy >= 0 ==> TravelY(p, s) >= 0 && (k >= 1 && p.dy >= 1 ==> s.yerr >= 1))
    && (k == 0 ==> TravelY(p, s) == 0)
    && (p.incy == 0 ==> s.y == p.y1)
    && (p.dy < 0 ==> s.yerr <= 0 && s.y == p.y1)
  }

  /** The y half holds at every loop head, for any plan with
      `dy <= distance`. */
  lemma {:induction false} LineInvariantY(p: LinePlan, k: nat)
    requires p.dy <= p.distance && -1 <= p.incy <= 1 && (p.incy == 0 ==> p.dy == 0)
    ensures InvariantY(p, StateAt(p, k), k)
  {
    if k > 0 {
      LineInvariantY(p, k - 1);
      AdvanceKeepsY(p, StateAt(p, k - 1), k - 1);
    }
  }

  /** One pass keeps the y half. */
  lemma AdvanceKeepsY(p: LinePlan, s: LineState, k: nat)
    requires p.dy <= p.distance && -1 <= p.incy <= 1 && (p.incy == 0 ==> p.dy == 0)
    requires InvariantY(p, s, k)
    ensures InvariantY(p, Advance(p, s), k + 1)
  {
    var t := TravelY(p, s);
    assert (k + 1) * p.dy == k * p.dy + p.dy;
    if s.yerr + p.dy > p.distance {
      assert TravelY(p, Advance(p, s)) == t + 1;
      assert p.distance * (t + 1) == p.distance * t + p.distance;
    }
  }

  /** Each pass moves x and y by at most one, and only in
      the plan's directions `incx` and `incy`. */
  lemma LineUnitSteps(x1: uint16, y1: uint16, x2: uint16, y2: uint16, k: nat)
    ensures var p := PlanAsWritten(x1, y1, x2, y2);
      var s, s' := StateAt(p, k), StateAt(p, k + 1);
      && (s'.x == s.x || s'.x == s.x + p.incx)
      && (s'.y == s.y || s'.y == s.y + p.incy)
      && -1 <= p.incx <= 1 && -1 <= p.incy <= 1
  {
  }

  /** The first point drawn is the start, `(x1, y1)`. */
  lemma LineStartsAtStart(x1: uint16, y1: uint16, x2: uint16, y2: uint16)
    ensures LinePoints(x1, y1, x2, y2)[0] == Point(x1, y1)
  {
    var p := PlanAsWritten(x1, y1, x2, y2);
    TrailAt(p, p.distance + 1, 0);
  }

  /** A line from a point to itself draws exactly that point. */
  lemma LineSinglePoint(x: uint16, y: uint16)
    ensures LinePoints(x, y, x, y) == [Point(x, y)]
  {
  }

  /** When `y2 < y1` the y coordinate never changes: every point is drawn
      with `y == y1`, whatever `x1`, `x2` and `y2` are. */
  lemma UpwardLineKeepsY(x1: uint16, y1: uint16, x2: uint16, y2: uint16)
    requires y2 < y1
    ensures forall q :: q in LinePoints(x1, y1, x2, y2) ==> q.y == y1
  {
    var p := PlanAsWritten(x1, y1, x2, y2);
    var pts := LinePoints(x1, y1, x2, y2);
    forall k | 0 <= k < |pts|
      ensures pts[k].y == y1
    {
      TrailAt(p, p.distance + 1, k);
      LineInvariantX(p, k);
      LineInvariantY(p, k);
    }
  }

  /** A vertical line drawn upwards collapses to its start point. */
  lemma UpwardVerticalLineIsOnePoint(x: uint16, y1: uint16, y2: uint16)
    requires y2 < y1
    ensures LinePoints(x, y1, x, y2) == [Point(x, y1)]
  {
  }

  /** Every point drawn lies in the box spanned by the start and end
      points (for `y2 < y1`: at the start's y, which the box holds). */
  lemma LineWithinBox(x1: uint16, y1: uint16, x2: uint16, y2: uint16)
    ensures forall q :: q in LinePoints(x1, y1, x2, y2) ==>
      (x1 <= q.x <= x2 || x2 <= q.x <= x1) && (y1 <= q.y <= y2 || y2 <= q.y <= y1)
  {
    var p := PlanAsWritten(x1, y1, x2, y2);
    var pts := LinePoints(x1, y1, x2, y2);
    forall k | 0 <= k < |pts|
      ensures (x1 <= pts[k].x <= x2 || x2 <= pts[k].x <= x1) && (y1 <= pts[k].y <= y2 || y2 <= pts[k].y <= y1)
    {
      TrailAt(p, p.distance + 1, k);
      LineInvariantX(p, k);
      LineInvariantY(p, k);
      TravelBound(p.distance, TravelX(p, StateAt(p, k)), k, p.dx, StateAt(p, k).xerr);
      if p.dy >= 0 {
        TravelBound(p.distance, TravelY(p, StateAt(p, k)), k, p.dy, StateAt(p, k).yerr);
      }
    }
  }

  /** From `e + d * t == k * delta` with `k <= d` and the error term
      non-negative, the distance travelled is at most `delta`, and strictly
      less once the error is positive. */
  lemma TravelBound(d: int, t: int, k: int, delta: int, e: int)
    requires 0 <= k <= d && 0 <= delta && 0 <= e && t >= 0
    requires d > 0 || t == 0
    requires e + d * t == k * delta
    ensures t <= delta
    ensures e >= 1 ==> t < delta
  {
    if d > 0 {
      MulLe(delta, k, d);
      assert d * t <= d * delta - e;
      assert d * (delta + 1) == d * delta + d;
      if t > delta {
        MulLe(d, delta + 1, t);
      }
      if e >= 1 && t >= delta {
        MulLe(d, delta, t);
      }
    }
  }

  lemma MulLe(a: int, x: int, y: int)
    requires a >= 0 && x <= y
    ensures a * x <= a * y
  {
    assert a * y - a * x == a * (y - x);
  }

  /** Whenever the line has more than one point the start is drawn twice:
      the first pass never reaches the threshold. */
  lemma LineStartDrawnTwice(x1: uint16, y1: uint16, x2: uint16, y2: uint16)
    requires PlanAsWritten(x1, y1, x2, y2).distance >= 1
    ensures var pts := LinePoints(x1, y1, x2, y2);
      |pts| >= 2 && pts[1] == pts[0] == Point(x1, y1)
  {
    var p := PlanAsWritten(x1, y1, x2, y2);
    TrailAt(p, p.distance + 1, 0);
    TrailAt(p, p.distance + 1, 1);
  }

  /** The end point `(x2, y2)` is never drawn unless it is the start. */
  lemma LineEndNeverDrawn(x1: uint16, y1: uint16, x2: uint16, y2: uint16)
    requires x1 != x2 || y1 != y2
    ensures Point(x2, y2) !in LinePoints(x1, y1, x2, y2)
  {
    var p := PlanAsWritten(x1, y1, x2, y2);
    var pts := LinePoints(x1, y1, x2, y2);
    forall k | 0 <= k < |pts|
      ensures pts[k] != Point(x2, y2)
    {
      TrailAt(p, p.distance + 1, k);
      var s := StateAt(p, k);
      LineInvariantX(p, k);
      LineInvariantY(p, k);
      if y2 >= y1 {
        if k == 0 {
          assert pts[k] == Point(x1, y1);
        } else if p.distance == p.dx {
          TravelBound(p.distance, TravelX(p, s), k, p.dx, s.xerr);
          assert s.x != x2;
        } else {
          TravelBound(p.distance, TravelY(p, s), k, p.dy, s.yerr);
          assert s.y != y2;
        }
      }
    }
  }

  // ---------------------------------------------------------------------
  // LCD_DrawRectangle

  /** The points `LCD_DrawRectangle` draws: top, left, bottom and right
      sides, each a line as above, in that order. */
  function RectanglePoints(x1: uint16, y1: uint16, x2: uint16, y2: uint16): seq<Point>
  {
    LinePoints(x1, y1, x2, y1) + LinePoints(x1, y1, x1, y2) + LinePoints(x1, y2, x2, y2) + LinePoints(x2, y1, x2, y2)
  }

  /** The four sides all have fewer than 65535 steps exactly when the
      corners are less than 65535 apart horizontally and `y2` is less than
      65535 below `y1`; upward vertical sides have no steps at all. */
  lemma RectangleSidesBounded(x1: uint16, y1: uint16, x2: uint16, y2: uint16)
    ensures (-0xFFFF < x2 - x1 < 0xFFFF && y2 - y1 < 0xFFFF)
        <==> (&& PlanAsWritten(x1, y1, x2, y1).distance < 0xFFFF
              && PlanAsWritten(x1, y1, x1, y2).distance < 0xFFFF
              && PlanAsWritten(x1, y2, x2, y2).distance < 0xFFFF
              && PlanAsWritten(x2, y1, x2, y2).distance < 0xFFFF)
    ensures y2 < y1 ==> PlanAsWritten(x1, y1, x1, y2).distance == 0 && PlanAsWritten(x2, y1, x2, y2).distance == 0
  {
  }

  /** Every point of the rectangle lies on one of its four sides and inside
      the box spanned by the corners. */
  lemma RectangleOnBorder(x1: uint16, y1: uint16, x2: uint16, y2: uint16)
    ensures forall q :: q in RectanglePoints(x1, y1, x2, y2) ==>
      && (x1 <= q.x <= x2 || x2 <= q.x <= x1) && (y1 <= q.y <= y2 || y2 <= q.y <= y1)
      && (q.x == x1 || q.x == x2 || q.y == y1 || q.y == y2)
  {
    LineWithinBox(x1, y1, x2, y1);
    LineWithinBox(x1, y1, x1, y2);
    LineWithinBox(x1, y2, x2, y2);
    LineWithinBox(x2, y1, x2, y2);
  }

  /** With `y2 < y1` the two vertical sides shrink to their top points, so
      the rectangle has no vertical edges. */
  lemma UpsideDownRectangle(x1: uint16, y1: uint16, x2: uint16, y2: uint16)
    requires y2 < y1
    ensures RectanglePoints(x1, y1, x2, y2)
         == LinePoints(x1, y1, x2, y1) + [Point(x1, y1)] + LinePoints(x1, y2, x2, y2) + [Point(x2, y1)]
  {
    UpwardVerticalLineIsOnePoint(x1, y1, y2);
    UpwardVerticalLineIsOnePoint(x2, y1, y2);
  }

  /** The set-up with only the slip of line 50 corrected, to
      `delta_y = -delta_y`: the same as written for lines that do not go
      upwards, and the vertical increment `y1 - y2` for those that do. */
  function PlanSlipFixed(x1: uint16, y1: uint16, x2: uint16, y2: uint16): (p: LinePlan)
    ensures y2 >= y1 ==> p == PlanAsWritten(x1, y1, x2, y2)
    ensures y2 < y1 ==> p.dy == y1 - y2 && p.incy == -1
    ensures p.x1 == x1 && p.y1 == y1 && 0 <= p.dx <= p.distance && 0 <= p.dy <= p.distance
  {
    var deltaX := x2 - x1;
    var deltaY := y2 - y1;
    var incx := if deltaX > 0 then 1 else if deltaX == 0 then 0 else -1;
    var dx := if deltaX < 0 then -deltaX else deltaX;
    var incy := if deltaY > 0 then 1 else if deltaY == 0 then 0 else -1;
    var dy := if deltaY < 0 then -deltaY else deltaY;
    LinePlan(x1, y1, incx, incy, dx, dy, if dx > dy then dx else dy)
  }

  /** The points the loop of lines 56-71 draws under that set-up. */
  function LinePointsSlipFixed(x1: uint16, y1: uint16, x2: uint16, y2: uint16): (pts: seq<Point>)
    ensures |pts| == PlanSlipFixed(x1, y1, x2, y2).distance + 1
  {
    var p := PlanSlipFixed(x1, y1, x2, y2);
    Trail(p, p.distance + 1)
  }

  /** A loop state reflected in the horizontal line through `y0`. */
  function MirrorState(s: LineState, y0: int): LineState
  {
    s.(y := 2 * y0 - s.y)
  }

  /** Turning a plan's vertical direction round reflects every loop state
      in the horizontal line through the start. */
  lemma {:induction false} MirrorStateAt(p: LinePlan, k: nat)
    ensures StateAt(p.(incy := -p.incy), k) == MirrorState(StateAt(p, k), p.y1)
  {
    if k > 0 {
      MirrorStateAt(p, k - 1);
    }
  }

  /** With only the slip fixed, an upward line from `(x1, y1)` to
      `(x2, y2)` is the downward line from `(x1, y1)` to `(x2, y3)`, as far
      below `y1` as `y2` is above it, reflected in `y == y1`: the same
      number of points, the same x at each, and the mirrored y. */
  lemma SlipFixedMirrorsDownward(x1: uint16, y1: uint16, x2: uint16, y2: uint16, y3: uint16)
    requires y2 < y1 && y3 - y1 == y1 - y2
    ensures var up, down := LinePointsSlipFixed(x1, y1, x2, y2), LinePoints(x1, y1, x2, y3);
      && |up| == |down|
      && forall i :: 0 <= i < |up| ==> up[i] == Point(down[i].x, 2 * y1 - down[i].y)
  {
    var pu := PlanSlipFixed(x1, y1, x2, y2);
    var pd := PlanAsWritten(x1, y1, x2, y3);
    assert pu == pd.(incy := -pd.incy);
    var up, down := LinePointsSlipFixed(x1, y1, x2, y2), LinePoints(x1, y1, x2, y3);
    forall i | 0 <= i < |up|
      ensures up[i] == Point(down[i].x, 2 * y1 - down[i].y)
    {
      TrailAt(pu, pu.distance + 1, i);
      TrailAt(pd, pd.distance + 1, i);
      MirrorStateAt(pd, i);
    }
  }

  /** Fixing the slip alone does not make the line reach its end: the loop
      of lines 56-71 still never draws `(x2, y2)` unless it is the start,
      in every direction. */
  lemma SlipFixedEndNeverDrawn(x1: uint16, y1: uint16, x2: uint16, y2: uint16)
    requires x1 != x2 || y1 != y2
    ensures Point(x2, y2) !in LinePointsSlipFixed(x1, y1, x2, y2)
  {
    var p := PlanSlipFixed(x1, y1, x2, y2);
    var pts := LinePointsSlipFixed(x1, y1, x2, y2);
    forall k | 0 <= k < |pts|
      ensures pts[k] != Point(x2, y2)
    {
      TrailAt(p, p.distance + 1, k);
      var s := StateAt(p, k);
      LineInvariantX(p, k);
      LineInvariantY(p, k);
      if k == 0 {
        assert pts[k] == Point(x1, y1);
      } else if p.distance == p.dx {
        TravelBound(p.distance, TravelX(p, s), k, p.dx, s.xerr);
        assert s.x != x2;
      } else {
        TravelBound(p.distance, TravelY(p, s), k, p.dy, s.yerr);
        assert s.y != y2;
      }
    }
  }

  /** The line as evidently intended: `distance + 1` points from the
      start to the end, the `k`-th one `k * delta / distance` of the way
      along each axis, with the vertical increment `|y2 - y1|`. */
  function IntendedLinePoints(x1: uint16, y1: uint16, x2: uint16, y2: uint16): (pts: seq<Point>)
    ensures |pts| >= 1
  {
    var incx := if x2 > x1 then 1 else if x2 == x1 then 0 else -1;
    var incy := if y2 > y1 then 1 else if y2 == y1 then 0 else -1;
    var dx := if x2 >= x1 then x2 - x1 else x1 - x2;
    var dy := if y2 >= y1 then y2 - y1 else y1 - y2;
    var d := if dx > dy then dx else dy;
    seq(d + 1, k requires 0 <= k <= d =>
      if d == 0 then Point(x1, y1) else Point(Along(x1, incx, dx, d, k), Along(y1, incy, dy, d, k)))
  }

  /** The coordinate `k / d` of the way from `start` over `delta` units in
      the direction `inc`, rounded towards the start. */
  function Along(start: int, inc: int, delta: int, d: int, k: int): int
    requires d > 0
  {
    start + inc * (k * delta / d)
  }

  /** After `d` of `d` steps the coordinate has covered all of `delta`. */
  lemma AlongEnd(start: int, inc: int, delta: int, d: int)
    requires d > 0
    ensures Along(start, inc, delta, d, d) == start + inc * delta
    ensures Along(start, inc, delta, d, 0) == start
  {
    MulDivCancel(d, delta);
  }

  /** The intended line starts at `(x1, y1)`, ends at `(x2, y2)` and has
      `max(|x2 - x1|, |y2 - y1|) + 1` points. */
  lemma IntendedLineEndpoints(x1: uint16, y1: uint16, x2: uint16, y2: uint16)
    ensures var pts := IntendedLinePoints(x1, y1, x2, y2);
      var dx := if x2 >= x1 then x2 - x1 else x1 - x2;
      var dy := if y2 >= y1 then y2 - y1 else y1 - y2;
      && |pts| == (if dx > dy then dx else dy) + 1
      && pts[0] == Point(x1, y1)
      && pts[|pts| - 1] == Point(x2, y2)
      && (forall i, j :: 0 <= i < j < |pts| ==> pts[i] != pts[j])
  {
    IntendedLinePointsDistinct(x1, y1, x2, y2);
    var incx := if x2 > x1 then 1 else if x2 == x1 then 0 else -1;
    var incy := if y2 > y1 then 1 else if y2 == y1 then 0 else -1;
    var dx := if x2 >= x1 then x2 - x1 else x1 - x2;
    var dy := if y2 >= y1 then y2 - y1 else y1 - y2;
    var d := if dx > dy then dx else dy;
    var pts := IntendedLinePoints(x1, y1, x2, y2);
    if d > 0 {
      AlongEnd(x1, incx, dx, d);
      AlongEnd(y1, incy, dy, d);
      assert pts[d] == Point(Along(x1, incx, dx, d, d), Along(y1, incy, dy, d, d));
      assert pts[0] == Point(Along(x1, incx, dx, d, 0), Along(y1, incy, dy, d, 0));
    }
  }

  /** No point of the intended line is drawn twice: along the axis with
      the larger distance, point `k` is exactly `k` steps from the start. */
  lemma IntendedLinePointsDistinct(x1: uint16, y1: uint16, x2: uint16, y2: uint16)
    ensures var pts := IntendedLinePoints(x1, y1, x2, y2);
      forall i, j :: 0 <= i < j < |pts| ==> pts[i] != pts[j]
  {
    var incx := if x2 > x1 then 1 else if x2 == x1 then 0 else -1;
    var incy := if y2 > y1 then 1 else if y2 == y1 then 0 else -1;
    var dx := if x2 >= x1 then x2 - x1 else x1 - x2;
    var dy := if y2 >= y1 then y2 - y1 else y1 - y2;
    var d := if dx > dy then dx else dy;
    var pts := IntendedLinePoints(x1, y1, x2, y2);
    forall i, j | 0 <= i < j < |pts|
      ensures pts[i] != pts[j]
    {
      assert pts[i] == Point(Along(x1, incx, dx, d, i), Along(y1, incy, dy, d, i));
      assert pts[j] == Point(Along(x1, incx, dx, d, j), Along(y1, incy, dy, d, j));
      if d == dx {
        AlongMajor(x1, incx, d, i);
        AlongMajor(x1, incx, d, j);
      } else {
        AlongMajor(y1, incy, d, i);
        AlongMajor(y1, incy, d, j);
      }
    }
  }

  /** On the axis whose distance is `d` itself, step `k` of `d` is `k` units. */
  lemma AlongMajor(start: int, inc: int, d: int, k: int)
    requires d > 0
    ensures Along(start, inc, d, d, k) == start + inc * k
  {
    MulDivCancel(d, k);
    assert k * d == d * k;
  }

  lemma MulDivCancel(d: int, a: int)
    requires d > 0
    ensures d * a / d == a
  {
    var q := d * a / d;
    assert d * a == d * q + d * a % d;
    if q < a {
      MulLe(d, q + 1, a);
    } else if q > a {
      MulLe(d, a + 1, q);
    }
  }

  // ---------------------------------------------------------------------
  // LCD_Draw_Circle

  /** The `(a, b)` pairs the loop of `LCD_Draw_Circle` visits from `(a, b)`
      on (lines 87-102): `a` counts up, `b` drops by one whenever the next
      `(a, b)` would fall outside the radius. */
  function OctantFrom(r: int, a: int, b: int): seq<(int, int)>
    decreases b - a + 1
  {
    if a > b then []
    else
      var a' := a + 1;
      [(a, b)] + OctantFrom(r, a', if a' * a' + b * b > r * r then b - 1 else b)
  }

  function Octant(r: uint8): seq<(int, int)>
  {
    OctantFrom(r, 0, r)
  }

  /** The loop head invariant of `LCD_Draw_Circle`: `b` is the largest
      value whose point is still inside the radius, or the loop is over. */
  ghost predicate OctantHead(r: int, a: int, b: int)
  {
    a >= 0 && a * a + (b + 1) * (b + 1) > r * r && (a <= b ==> a * a + b * b <= r * r)
  }

  /** Every visited pair is `(a, floor(sqrt(r*r - a*a)))` with `a <= b`;
      the `a` values are consecutive from the start; each step lowers `b`
      by at most one; and there are at most `b - a + 1` passes. */
  lemma {:induction false} OctantShape(r: int, a: int, b: int)
    requires OctantHead(r, a, b)
    ensures var o := OctantFrom(r, a, b);
      && |o| <= (if b - a + 1 > 0 then b - a + 1 else 0)
      && (forall i :: 0 <= i < |o| ==> o[i].0 == a + i && o[i].0 <= o[i].1)
      && (forall i :: 0 <= i < |o| ==>
            o[i].0 * o[i].0 + o[i].1 * o[i].1 <= r * r < o[i].0 * o[i].0 + (o[i].1 + 1) * (o[i].1 + 1))
      && (forall i :: 0 < i < |o| ==> o[i].1 == o[i - 1].1 || o[i].1 == o[i - 1].1 - 1)
      && (o != [] ==> o[0] == (a, b))
    decreases b - a + 1
  {
    if a <= b {
      var b' := OctantStep(r, a, b);
      OctantShape(r, a + 1, b');
    }
  }

  /** One pass of the loop keeps its head invariant: after `a++` and the
      test, `b` is again the largest value inside the radius (or the loop
      is over), and the visited pairs continue from there. */
  lemma OctantStep(r: int, a: int, b: int) returns (b': int)
    requires OctantHead(r, a, b) && a <= b
    ensures b' == (if (a + 1) * (a + 1) + b * b > r * r then b - 1 else b)
    ensures OctantHead(r, a + 1, b')
    ensures OctantFrom(r, a, b) == [(a, b)] + OctantFrom(r, a + 1, b')
  {
    var a' := a + 1;
    b' := if a' * a' + b * b > r * r then b - 1 else b;
    assert a' * a' + (b' + 1) * (b' + 1) > r * r by {
      if b' == b {
        assert a' * a' >= a * a;
      }
    }
    assert a' <= b' ==> a' * a' + b' * b' <= r * r by {
      if b' == b - 1 && a' <= b' {
        assert a' * a' + b' * b' == a * a + b * b + 2 * (a - b) + 2;
      }
    }
  }

  /** One pass of the loop, seen from the pairs still to visit: the pair
      `(a, b)` moves from the pending ones to the visited ones. */
  lemma OctantAdvance(r: uint8, done: seq<(int, int)>, a: int, b: int) returns (b': int)
    requires OctantHead(r, a, b) && a <= b && Octant(r) == done + OctantFrom(r, a, b)
    ensures b' == (if (a + 1) * (a + 1) + b * b > r * r then b - 1 else b)
    ensures OctantHead(r, a + 1, b')
    ensures Octant(r) == (done + [(a, b)]) + OctantFrom(r, a + 1, b')
  {
    b' := OctantStep(r, a, b);
    AppendAssoc(done, [(a, b)], OctantFrom(r, a + 1, b'));
  }

  /** The loop of `LCD_Draw_Circle` runs at most `r + 1` times, and for
      radius 0 exactly once, at `(0, 0)`. */
  lemma OctantSize(r: uint8)
    ensures 1 <= |Octant(r)| <= r + 1
    ensures r == 0 ==> Octant(r) == [(0, 0)]
  {
    OctantShape(r, 0, r);
  }

  /** The eight points of one pass, in the order the source draws them. */
  function Ring(x0: int, y0: int, a: int, b: int): (pts: seq<Point>)
    ensures |pts| == 8
  {
    [Point(x0 - b, y0 - a), Point(x0 + b, y0 - a), Point(x0 - a, y0 + b), Point(x0 - a, y0 - b),
     Point(x0 + b, y0 + a), Point(x0 + a, y0 - b), Point(x0 + a, y0 + b), Point(x0 - b, y0 + a)]
  }

  /** The eight points of a pass are the reflections of `(a, b)` in the
      axes and diagonals through the centre: all at squared distance
      `a * a + b * b` from it. */
  lemma RingOnCircle(x0: int, y0: int, a: int, b: int)
    ensures forall q :: q in Ring(x0, y0, a, b) ==>
      (q.x - x0) * (q.x - x0) + (q.y - y0) * (q.y - y0) == a * a + b * b
  {
    var pts := Ring(x0, y0, a, b);
    forall q | q in pts
      ensures (q.x - x0) * (q.x - x0) + (q.y - y0) * (q.y - y0) == a * a + b * b
    {
      var u, v := q.x - x0, q.y - y0;
      assert ((u == b || u == -b) && (v == a || v == -a)) || ((u == a || u == -a) && (v == b || v == -b));
      assert u * u + v * v == a * a + b * b by {
        assert (-a) * (-a) == a * a && (-b) * (-b) == b * b;
      }
    }
  }

  /** The points of all the passes over `pairs`, in order. */
  function Rings(x0: int, y0: int, pairs: seq<(int, int)>): (pts: seq<Point>)
    ensures |pts| == 8 * |pairs|
    decreases |pairs|
  {
    if pairs == [] then []
    else
      var n := |pairs| - 1;
      Rings(x0, y0, pairs[..n]) + Ring(x0, y0, pairs[n].0, pairs[n].1)
  }

  lemma RingsSnoc(x0: int, y0: int, pairs: seq<(int, int)>, a: int, b: int)
    ensures Rings(x0, y0, pairs + [(a, b)]) == Rings(x0, y0, pairs) + Ring(x0, y0, a, b)
  {
    assert (pairs + [(a, b)])[..|pairs|] == pairs;
  }

  /** After one more pass, the trace holds the plot of one more pair's ring. */
  lemma CirclePassTrace(t: seq<Event>, h: uint8, x0: int, y0: int, pairs: seq<(int, int)>, a: int, b: int, color: uint16)
    ensures t + PlotTrace(h, Rings(x0, y0, pairs), color) + PlotTrace(h, Ring(x0, y0, a, b), color)
         == t + PlotTrace(h, Rings(x0, y0, pairs + [(a, b)]), color)
  {
    RingsSnoc(x0, y0, pairs, a, b);
    PlotAppend(h, Rings(x0, y0, pairs), Ring(x0, y0, a, b), color);
    AppendAssoc(t, PlotTrace(h, Rings(x0, y0, pairs), color), PlotTrace(h, Ring(x0, y0, a, b), color));
  }

  /** The points `LCD_Draw_Circle(x0, y0, r)` draws. */
  function CirclePoints(x0: uint16, y0: uint16, r: uint8): seq<Point>
  {
    Rings(x0, y0, Octant(r))
  }

  lemma {:induction false} RingsOnDisc(x0: int, y0: int, pairs: seq<(int, int)>, r: int)
    requires forall i :: 0 <= i < |pairs| ==> pairs[i].0 * pairs[i].0 + pairs[i].1 * pairs[i].1 <= r * r
    ensures forall q :: q in Rings(x0, y0, pairs) ==> (q.x - x0) * (q.x - x0) + (q.y - y0) * (q.y - y0) <= r * r
    decreases |pairs|
  {
    if pairs != [] {
      var n := |pairs| - 1;
      RingsOnDisc(x0, y0, pairs[..n], r);
      RingOnCircle(x0, y0, pairs[n].0, pairs[n].1);
    }
  }

  /** Every point of the circle lies within distance `r` of the centre, a
      circle of radius 0 is eight points all at the centre, and the circle
      has at most `8 * (r + 1)` points. */
  lemma CircleOnDisc(x0: uint16, y0: uint16, r: uint8)
    ensures forall q :: q in CirclePoints(x0, y0, r) ==>
      (q.x - x0) * (q.x - x0) + (q.y - y0) * (q.y - y0) <= r * r
    ensures |CirclePoints(x0, y0, r)| <= 8 * (r + 1)
    ensures r == 0 ==> CirclePoints(x0, y0, r) == Ring(x0, y0, 0, 0)
    ensures r == 0 ==> forall q :: q in CirclePoints(x0, y0, r) ==> q == Point(x0, y0)
  {
    OctantShape(r, 0, r);
    OctantSize(r);
    RingsOnDisc(x0, y0, Octant(r), r);
    if r == 0 {
      assert Rings(x0, y0, [(0, 0)]) == Rings(x0, y0, []) + Ring(x0, y0, 0, 0);
    }
  }

  // ---------------------------------------------------------------------
  // LCD_ShowPicture, LCD_PushColors, lcd_PushColors

  /** The pixel count of the unswapped path of `LCD_ShowPicture` as
      written: `(w - x) * (h - y)` computed in `int` and stored in a
      `uint32_t`. */
  function PictureLength(x: uint16, y: uint16, w: uint16, h: uint16): (n: uint32)
    ensures x <= w && y <= h ==> n == (w - x) * (h - y)
  {
    ProductFits(w - x, h - y);
    Wrap32((w - x) * (h - y))
  }

  /** The product of two 16-bit counts fits in 32 bits. */
  lemma ProductFits(a: int, b: int)
    ensures 0 <= a < 0x1_0000 && 0 <= b < 0x1_0000 ==> 0 <= a * b < 0x1_0000_0000
  {
    if 0 <= a < 0x1_0000 && 0 <= b < 0x1_0000 {
      MulLe(a, b, 0xFFFF);
      MulLe(0xFFFF, a, 0xFFFF);
    }
  }

  /** The pixel count evidently intended: the `w * h` pixels of the window
      the picture is drawn into. */
  function IntendedPictureLength(w: uint16, h: uint16): (n: nat)
    ensures forall x: uint16, y: uint16 :: 1 <= w && 1 <= h && x + w <= 0x1_0000 && y + h <= 0x1_0000
              ==> n == WindowPixels(x, y, w, h)
    ensures w == 0 || h == 0 ==> n == 0
  {
    w * h
  }

  /** The number of pixels `lcd_address_set(x, y, x + w - 1, y + h - 1)`
      opens, counted from the corners it sends (in 16 bits), for a window
      that does not wrap past the last column or row. */
  function WindowPixels(x: uint16, y: uint16, w: uint16, h: uint16): nat
    requires 1 <= w && 1 <= h && x + w <= 0x1_0000 && y + h <= 0x1_0000
  {
    (Wrap16(x + w - 1) - x + 1) * (Wrap16(y + h - 1) - y + 1)
  }

  /** The window addressed by `LCD_ShowPicture` holds the intended number of
      pixels whenever it does not wrap past the last column or row. */
  lemma PictureIntendedFillsWindow(x: uint16, y: uint16, w: uint16, h: uint16)
    requires 1 <= w && 1 <= h && x + w <= 0x1_0000 && y + h <= 0x1_0000
    ensures (Wrap16(x + w - 1) - x + 1) * (Wrap16(y + h - 1) - y + 1) == IntendedPictureLength(w, h)
  {
  }

  /** As written, the unswapped path sends fewer pixels than the window
      holds as soon as the picture does not start at the origin: at
      `(10, 0)` a 20x20 picture opens a 400-pixel window and sends 200. */
  lemma PictureLengthShortfall()
    ensures PictureLength(10, 0, 20, 20) == 200
    ensures IntendedPictureLength(20, 20) == 400
    ensures (Wrap16(10 + 20 - 1) - 10 + 1) * (Wrap16(0 + 20 - 1) - 0 + 1) == 400
  {
  }

  /** The memory bytes of the first `w * h` pixels of a picture: the
      first `2 * w * h` bytes of its little-endian image. */
  function PictureBytes(pic: seq<uint16>, w: uint16, h: uint16): (bs: seq<uint8>)
    requires w * h <= |pic|
    ensures |bs| == 2 * (w * h) && bs == LeBytes(pic)[..|bs|]
  {
    LeBytesPrefix(pic, w * h);
    LeBytes(pic[..w * h])
  }

  /** What `LCD_ShowPicture` sends after the window: with `swapBytes` each
      pixel's two bytes as they lie in memory, low byte first, as 8-bit
      transfers; otherwise `PictureLength` pixels as 16-bit transfers. */
  function PictureBody(pic: seq<uint16>, x: uint16, y: uint16, w: uint16, h: uint16, swapBytes: bool): (es: seq<Event>)
    requires swapBytes ==> w * h <= |pic|
    requires !swapBytes ==> PictureLength(x, y, w, h) <= |pic|
    ensures swapBytes ==> |es| == 2 * w * h
    ensures !swapBytes ==> |es| == PictureLength(x, y, w, h)
  {
    if swapBytes then Data8s(PictureBytes(pic, w, h)) else Data16s(pic[..PictureLength(x, y, w, h)])
  }

  /** The swapped path puts the picture's memory bytes on the wire, and
      when the two paths send the same number of pixels, sending a picture
      swapped is the same on the wire as sending its byte-exchanged copy
      unswapped. */
  lemma PictureSwapWire(pic: seq<uint16>, x: uint16, y: uint16, w: uint16, h: uint16)
    requires w * h <= |pic|
    ensures Wire(PictureBody(pic, x, y, w, h, true)) == LeBytes(pic[..w * h])
    ensures PictureLength(x, y, w, h) == w * h ==>
      Wire(PictureBody(pic, x, y, w, h, true)) == Wire(PictureBody(SwapAll(pic), x, y, w, h, false))
  {
    var n := w * h;
    var bs := PictureBytes(pic, w, h);
    LeBytesPrefix(pic, n);
    assert |bs| == 2 * n;
    assert bs == LeBytes(pic[..n]);
    assert PictureBody(pic, x, y, w, h, true) == Data8s(bs);
    Data8sWire(bs);
    if PictureLength(x, y, w, h) == n {
      assert PictureBody(SwapAll(pic), x, y, w, h, false) == Data16s(SwapAll(pic)[..n]);
      LeBytesWire(pic[..n]);
      assert SwapAll(pic)[..n] == SwapAll(pic[..n]);
    }
  }

  /** The single burst of `LCD_PushColors`: the first `len * 2` bytes of
      the buffer's memory, the count computed in `uint32_t`. */
  function Burst(data: seq<uint16>, len: uint32): (e: Event)
    requires Wrap32(len * 2) <= 2 * |data|
    ensures e.Bytes? && |e.burst| == Wrap32(len * 2)
  {
    Bytes(LeBytes(data)[..Wrap32(len * 2)])
  }

  /** When the count does not wrap, the burst is the same on the wire as
      the per-pixel loop it replaced, provided each pixel is byte-exchanged
      first: memory order is low byte first, a 16-bit transfer high byte
      first. */
  lemma BurstWire(data: seq<uint16>, len: uint32)
    requires len <= |data| && len * 2 < 0x1_0000_0000
    ensures Wire([Burst(data, len)]) == LeBytes(data[..len])
    ensures Wire([Burst(data, len)]) == Wire(Data16s(SwapAll(data[..len])))
  {
    LeBytesPrefix(data, len);
    LeBytesWire(data[..len]);
    assert [Burst(data, len)][..0] == [];
  }
}
