/** The drawing functions of the factory example (example/factory/tft.cpp),
    each proved to put on the bus exactly the events the specifications in
    `Raster` describe. */
module FactoryTft {
  import opened Bus
  import opened Panel
  import opened Raster
  import opened FactoryDriver

  /** `LCD_Fill`: the window up to `xend - 1`, `yend - 1`, then one 16-bit
      transfer of `color` per pixel, row by row. */
  method Fill(d: Driver, xsta: uint16, ysta: uint16, xend: uint16, yend: uint16, color: uint16)
    modifies d
    ensures d.trace == old(d.trace) + AddressWindow(old(d.horizontal), xsta, ysta, Wrap16(xend - 1), Wrap16(yend - 1))
                     + Repeat(Data16(color), FillPixels(xsta, ysta, xend, yend))
    ensures FillPixels(xsta, ysta, xend, yend) > 0 ==> d.cs && !d.dc
    ensures FillPixels(xsta, ysta, xend, yend) == 0 && old(d.Valid()) ==> d.cs && d.dc
    ensures FillPixels(xsta, ysta, xend, yend) == 0 && !old(d.Valid()) ==> d.cs == old(d.cs) && d.dc == old(d.dc)
    ensures d.horizontal == old(d.horizontal) && d.res == old(d.res) && d.backlight == old(d.backlight)
  {
    d.AddressSet(xsta, ysta, Wrap16(xend - 1), Wrap16(yend - 1));
    ghost var t1 := d.trace;
    ghost var cs1, dc1 := d.cs, d.dc;
    ghost var cols: nat := if xend > xsta then xend - xsta else 0;
    ghost var sent: nat := 0;
    var i: uint16 := ysta;
    while i < yend
      invariant ysta <= i && (ysta < yend ==> i <= yend) && (yend <= ysta ==> i == ysta)
      invariant sent == (i - ysta) * cols
      invariant d.trace == t1 + Repeat(Data16(color), sent)
      invariant sent > 0 ==> d.cs && !d.dc
      invariant sent == 0 ==> d.cs == cs1 && d.dc == dc1
      invariant d.horizontal == old(d.horizontal) && d.res == old(d.res) && d.backlight == old(d.backlight)
    {
      ghost var base := sent;
      var j: uint16 := xsta;
      while j < xend
        invariant xsta <= j && (xsta < xend ==> j <= xend) && (xend <= xsta ==> j == xsta)
        invariant sent == base + (j - xsta)
        invariant d.trace == t1 + Repeat(Data16(color), sent)
        invariant sent > 0 ==> d.cs && !d.dc
        invariant sent == 0 ==> d.cs == cs1 && d.dc == dc1
        invariant d.horizontal == old(d.horizontal) && d.res == old(d.res) && d.backlight == old(d.backlight)
      {
        d.SendData16(color);
        RepeatSnoc(Data16(color), sent);
        AppendAssoc(t1, Repeat(Data16(color), sent), [Data16(color)]);
        sent := sent + 1;
        j := j + 1;
      }
      assert sent == (i + 1 - ysta) * cols by {
        assert (i - ysta) * cols + cols == (i + 1 - ysta) * cols;
      }
      i := i + 1;
    }
    assert sent == FillPixels(xsta, ysta, xend, yend);
  }

  /** `LCD_DrawPoint`: a one-pixel window and the colour's low byte. */
  method DrawPoint(d: Driver, x: uint16, y: uint16, color: uint16)
    modifies d
    ensures d.trace == old(d.trace) + PointEvents(old(d.horizontal), Point(x, y), color)
    ensures old(d.Valid()) ==> |d.trace| == |old(d.trace)| + 8 && d.trace[|d.trace| - 1] == Data8(color % 0x100)
    ensures d.cs && !d.dc
    ensures d.horizontal == old(d.horizontal) && d.res == old(d.res) && d.backlight == old(d.backlight)
  {
    d.AddressSet(x, y, x, y);
    d.SendData8(Wrap8(color));
  }

  /** The set-up of `LCD_DrawLine` (lines 30-55): step directions,
      increments and the number of steps, computed statement by statement
      as the source does, `delta_y = -delta_x` included. This is the code;
      `Raster.PlanAsWritten` is the same set-up as a function, which the
      lemmas about the line are stated over, and the ensures ties the two. */
  method LineSetup(x1: uint16, y1: uint16, x2: uint16, y2: uint16)
    returns (incx: int, incy: int, deltaX: int, deltaY: int, distance: int)
    ensures LinePlan(x1, y1, incx, incy, deltaX, deltaY, distance) == PlanAsWritten(x1, y1, x2, y2)
  {
    deltaX := x2 - x1;
    deltaY := y2 - y1;
    if deltaX > 0 {
      incx := 1;
    } else if deltaX == 0 {
      incx := 0;
    } else {
      incx := -1;
      deltaX := -deltaX;
    }
    if deltaY > 0 {
      incy := 1;
    } else if deltaY == 0 {
      incy := 0;
    } else {
      incy := -1;
      deltaY := -deltaX;
    }
    if deltaX > deltaY {
      distance := deltaX;
    } else {
      distance := deltaY;
    }
  }

  /** `LCD_DrawLine`: the set-up, then `distance + 1` passes, each drawing
      the current position and advancing. The loop counter is a
      `uint16_t`, so the loop ends only when `distance + 1` is a value it
      can reach. */
  method DrawLine(d: Driver, x1: uint16, y1: uint16, x2: uint16, y2: uint16, color: uint16)
    requires PlanAsWritten(x1, y1, x2, y2).distance < 0xFFFF
    modifies d
    ensures d.trace == old(d.trace) + PlotTrace(old(d.horizontal), LinePoints(x1, y1, x2, y2), color)
    ensures d.cs && !d.dc
    ensures d.horizontal == old(d.horizontal) && d.res == old(d.res) && d.backlight == old(d.backlight)
  {
    var xerr: int, yerr: int := 0, 0;
    var uRow: int, uCol: int := x1, y1;
    var incx, incy, deltaX, deltaY, distance := LineSetup(x1, y1, x2, y2);
    ghost var p := LinePlan(x1, y1, incx, incy, deltaX, deltaY, distance);
    ghost var h := d.horizontal;
    ghost var t0 := d.trace;
    ghost var drawn: seq<Point> := [];
    var t: uint16 := 0;
    while t < distance + 1
      invariant t <= distance + 1
      invariant LineState(xerr, yerr, uRow, uCol) == StateAt(p, t)
      invariant drawn == Trail(p, t)
      invariant d.trace == t0 + PlotTrace(h, drawn, color)
      invariant t > 0 ==> d.cs && !d.dc
      invariant d.horizontal == h && d.res == old(d.res) && d.backlight == old(d.backlight)
    {
      DrawNextPoint(d, t0, drawn, uRow, uCol, color);
      TrailStep(p, t);
      drawn := drawn + [Point(uRow, uCol)];
      xerr, yerr, uRow, uCol := LineAdvance(p, xerr, yerr, uRow, uCol, incx, incy, deltaX, deltaY, distance);
      t := t + 1;
    }
    assert LinePoints(x1, y1, x2, y2) == Trail(p, t);
  }

  /** The second half of a pass of `LCD_DrawLine` (lines 59-70): both
      errors accumulate, and each axis steps when its error exceeds
      `distance`. This is the code, with its assignments in the source's
      order; `Raster.Advance` is the same step as a function, which the
      loop invariants are stated over. */
  method LineAdvance(ghost p: LinePlan, xerr0: int, yerr0: int, uRow0: int, uCol0: int,
                     incx: int, incy: int, deltaX: int, deltaY: int, distance: int)
    returns (xerr: int, yerr: int, uRow: int, uCol: int)
    requires p == LinePlan(p.x1, p.y1, incx, incy, deltaX, deltaY, distance)
    ensures LineState(xerr, yerr, uRow, uCol) == Advance(p, LineState(xerr0, yerr0, uRow0, uCol0))
  {
    xerr, yerr, uRow, uCol := xerr0, yerr0, uRow0, uCol0;
    xerr := xerr + deltaX;
    yerr := yerr + deltaY;
    if xerr > distance {
      xerr := xerr - distance;
      uRow := uRow + incx;
    }
    if yerr > distance {
      yerr := yerr - distance;
      uCol := uCol + incy;
    }
  }

  /** `LCD_DrawPoint` at a computed position converted to `uint16_t`,
      after the points `pts` have been plotted. */
  method DrawNextPoint(d: Driver, ghost t0: seq<Event>, ghost pts: seq<Point>, x: int, y: int, color: uint16)
    requires d.trace == t0 + PlotTrace(d.horizontal, pts, color)
    modifies d
    ensures d.trace == t0 + PlotTrace(old(d.horizontal), pts + [Point(x, y)], color)
    ensures d.cs && !d.dc
    ensures d.horizontal == old(d.horizontal) && d.res == old(d.res) && d.backlight == old(d.backlight)
  {
    DrawPoint(d, Wrap16(x), Wrap16(y), color);
    PointEventsWrap(d.horizontal, x, y, color);
    PlotStep(t0, d.horizontal, pts, Point(x, y), color);
  }

  /** `LCD_DrawRectangle`: the top, left, bottom and right sides. */
  method DrawRectangle(d: Driver, x1: uint16, y1: uint16, x2: uint16, y2: uint16, color: uint16)
    requires -0xFFFF < x2 - x1 < 0xFFFF && y2 - y1 < 0xFFFF
    modifies d
    ensures d.trace == old(d.trace) + PlotTrace(old(d.horizontal), RectanglePoints(x1, y1, x2, y2), color)
    ensures d.cs && !d.dc
    ensures d.horizontal == old(d.horizontal) && d.res == old(d.res) && d.backlight == old(d.backlight)
  {
    ghost var h := d.horizontal;
    ghost var t0 := d.trace;
    var top, left, bottom, right :=
      LinePoints(x1, y1, x2, y1), LinePoints(x1, y1, x1, y2), LinePoints(x1, y2, x2, y2), LinePoints(x2, y1, x2, y2);
    DrawLine(d, x1, y1, x2, y1, color);
    DrawLine(d, x1, y1, x1, y2, color);
    DrawLine(d, x1, y2, x2, y2, color);
    DrawLine(d, x2, y1, x2, y2, color);
    PlotAppend(h, top, left, color);
    PlotAppend(h, top + left, bottom, color);
    PlotAppend(h, top + left + bottom, right, color);
    AppendAssoc(t0, PlotTrace(h, top, color), PlotTrace(h, left, color));
    AppendAssoc(t0, PlotTrace(h, top + left, color), PlotTrace(h, bottom, color));
    AppendAssoc(t0, PlotTrace(h, top + left + bottom, color), PlotTrace(h, right, color));
  }

  /** `LCD_Draw_Circle`: one pass per `(a, b)` pair of the octant, eight
      points a pass. */
  method DrawCircle(d: Driver, x0: uint16, y0: uint16, r: uint8, color: uint16)
    modifies d
    ensures d.trace == old(d.trace) + PlotTrace(old(d.horizontal), CirclePoints(x0, y0, r), color)
    ensures d.cs && !d.dc
    ensures d.horizontal == old(d.horizontal) && d.res == old(d.res) && d.backlight == old(d.backlight)
  {
    ghost var h := d.horizontal;
    ghost var t0 := d.trace;
    ghost var done: seq<(int, int)> := [];
    var a: int, b: int := 0, r;
    while a <= b
      invariant OctantHead(r, a, b)
      invariant Octant(r) == done + OctantFrom(r, a, b)
      invariant d.trace == t0 + PlotTrace(h, Rings(x0, y0, done), color)
      invariant done != [] ==> d.cs && !d.dc
      invariant d.horizontal == h && d.res == old(d.res) && d.backlight == old(d.backlight)
      decreases b - a + 1
    {
      DrawRing(d, x0, y0, a, b, color);
      assert d.trace == t0 + PlotTrace(h, Rings(x0, y0, done + [(a, b)]), color) by {
        CirclePassTrace(t0, h, x0, y0, done, a, b, color);
      }
      ghost var b' := OctantAdvance(r, done, a, b);
      done := done + [(a, b)];
      a := a + 1;
      if a * a + b * b > r * r {
        b := b - 1;
      }
      assert b == b';
    }
    assert done == Octant(r);
    OctantSize(r);
  }

  /** The eight `LCD_DrawPoint` calls of one pass of `LCD_Draw_Circle`,
      in the source's order, each coordinate converted to `uint16_t`. */
  method DrawRing(d: Driver, x0: uint16, y0: uint16, a: int, b: int, color: uint16)
    modifies d
    ensures d.trace == old(d.trace) + PlotTrace(old(d.horizontal), Ring(x0, y0, a, b), color)
    ensures d.cs && !d.dc
    ensures d.horizontal == old(d.horizontal) && d.res == old(d.res) && d.backlight == old(d.backlight)
  {
    ghost var t0 := d.trace;
    ghost var q := Ring(x0, y0, a, b);
    assert q[..0] == [];
    DrawRingHalf(d, t0, q, 0, x0 - b, y0 - a, x0 + b, y0 - a, x0 - a, y0 + b, x0 - a, y0 - b, color);
    DrawRingHalf(d, t0, q, 4, x0 + b, y0 + a, x0 + a, y0 - b, x0 + a, y0 + b, x0 - b, y0 + a, color);
    assert q[..8] == q;
  }

  /** Four consecutive points `k .. k + 3` of the pass `q`. */
  method DrawRingHalf(d: Driver, ghost t0: seq<Event>, ghost q: seq<Point>, ghost k: nat,
                      xa: int, ya: int, xb: int, yb: int, xc: int, yc: int, xd: int, yd: int, color: uint16)
    requires k + 4 <= |q| && q[k] == Point(xa, ya) && q[k + 1] == Point(xb, yb)
    requires q[k + 2] == Point(xc, yc) && q[k + 3] == Point(xd, yd)
    requires d.trace == t0 + PlotTrace(d.horizontal, q[..k], color)
    modifies d
    ensures d.trace == t0 + PlotTrace(old(d.horizontal), q[..k + 4], color)
    ensures d.cs && !d.dc
    ensures d.horizontal == old(d.horizontal) && d.res == old(d.res) && d.backlight == old(d.backlight)
  {
    DrawRingPoint(d, t0, q, k, xa, ya, color);
    DrawRingPoint(d, t0, q, k + 1, xb, yb, color);
    DrawRingPoint(d, t0, q, k + 2, xc, yc, color);
    DrawRingPoint(d, t0, q, k + 3, xd, yd, color);
  }

  /** Point `k` of the pass `q`: `LCD_DrawPoint` at its coordinates
      converted to `uint16_t`. */
  method DrawRingPoint(d: Driver, ghost t0: seq<Event>, ghost q: seq<Point>, ghost k: nat, x: int, y: int, color: uint16)
    requires k < |q| && q[k] == Point(x, y)
    requires d.trace == t0 + PlotTrace(d.horizontal, q[..k], color)
    modifies d
    ensures d.trace == t0 + PlotTrace(old(d.horizontal), q[..k + 1], color)
    ensures d.cs && !d.dc
    ensures d.horizontal == old(d.horizontal) && d.res == old(d.res) && d.backlight == old(d.backlight)
  {
    DrawNextPoint(d, t0, q[..k], x, y, color);
    assert q[..k] + [Point(x, y)] == q[..k + 1];
  }

  /** `LCD_ShowPicture`: the window from `(x, y)` of `w` columns and `h`
      rows, then the pixels. With `swapBytes`, `w * h` pixels as two byte
      transfers each, in memory order; otherwise `(w - x) * (h - y)` pixels
      as 16-bit transfers. The buffer must hold what is read from it, and
      its bytes lie in the 32-bit address space. */
  method ShowPicture(d: Driver, x: uint16, y: uint16, w: uint16, h: uint16, pic: seq<uint16>, swapBytes: bool)
    requires swapBytes ==> w * h <= |pic|
    requires !swapBytes ==> PictureLength(x, y, w, h) <= |pic|
    requires 2 * |pic| <= 0x1_0000_0000
    modifies d
    ensures d.trace == old(d.trace) + AddressWindow(old(d.horizontal), x, y, Wrap16(x + w - 1), Wrap16(y + h - 1))
                     + PictureBody(pic, x, y, w, h, swapBytes)
    ensures PictureBody(pic, x, y, w, h, swapBytes) != [] ==> d.cs && !d.dc
    ensures PictureBody(pic, x, y, w, h, swapBytes) == [] && old(d.Valid()) ==> d.cs && d.dc
    ensures PictureBody(pic, x, y, w, h, swapBytes) == [] && !old(d.Valid()) ==> d.cs == old(d.cs) && d.dc == old(d.dc)
    ensures d.horizontal == old(d.horizontal) && d.res == old(d.res) && d.backlight == old(d.backlight)
  {
    d.AddressSet(x, y, Wrap16(x + w - 1), Wrap16(y + h - 1));
    if swapBytes {
      SendPictureBytes(d, pic, w, h);
    } else {
      var len: uint32 := PictureLength(x, y, w, h);
      SendPictureWords(d, pic, len);
    }
  }

  /** The swapped path of `LCD_ShowPicture`: for each of the `w * h` pixels
      its two memory bytes, as `lcd_send_data8` calls. */
  method SendPictureBytes(d: Driver, pic: seq<uint16>, w: uint16, h: uint16)
    requires w * h <= |pic|
    requires 2 * |pic| <= 0x1_0000_0000
    modifies d
    ensures d.trace == old(d.trace) + Data8s(PictureBytes(pic, w, h))
    ensures w * h > 0 ==> d.cs && !d.dc
    ensures w * h == 0 ==> d.cs == old(d.cs) && d.dc == old(d.dc)
    ensures d.horizontal == old(d.horizontal) && d.res == old(d.res) && d.backlight == old(d.backlight)
  {
    ghost var t1 := d.trace;
    var k: uint32 := 0;
    var p := LeBytes(pic);
    var i: uint32 := 0;
    while i < w
      invariant i <= w && k == i * h
      invariant d.trace == t1 + Data8s(p[..2 * k])
      invariant k > 0 ==> d.cs && !d.dc
      invariant k == 0 ==> d.cs == old(d.cs) && d.dc == old(d.dc)
      invariant d.horizontal == old(d.horizontal) && d.res == old(d.res) && d.backlight == old(d.backlight)
    {
      assert k + h <= |pic| by {
        MulLe(h, i + 1, w);
      }
      k := SendPictureRun(d, t1, p, k, h);
      assert k == (i + 1) * h;
      i := i + 1;
    }
  }

  /** The inner loop of the swapped path: `h` more pixels from pixel `k`
      on, each as its two memory bytes. Returns the next pixel index. */
  method SendPictureRun(d: Driver, ghost t1: seq<Event>, p: seq<uint8>, k0: uint32, h: uint16) returns (k: uint32)
    requires 2 * (k0 + h) <= |p| <= 0x1_0000_0000
    requires d.trace == t1 + Data8s(p[..2 * k0])
    modifies d
    ensures k == k0 + h
    ensures d.trace == t1 + Data8s(p[..2 * k])
    ensures h > 0 ==> d.cs && !d.dc
    ensures h == 0 ==> d.cs == old(d.cs) && d.dc == old(d.dc)
    ensures d.horizontal == old(d.horizontal) && d.res == old(d.res) && d.backlight == old(d.backlight)
  {
    k := k0;
    var j: uint32 := 0;
    while j < h
      invariant j <= h && k == k0 + j
      invariant d.trace == t1 + Data8s(p[..2 * k])
      invariant j > 0 ==> d.cs && !d.dc
      invariant j == 0 ==> d.cs == old(d.cs) && d.dc == old(d.dc)
      invariant d.horizontal == old(d.horizontal) && d.res == old(d.res) && d.backlight == old(d.backlight)
    {
      assert Wrap32(k * 2) == 2 * k && Wrap32(k * 2 + 1) == 2 * k + 1;
      d.SendData8(p[Wrap32(k * 2)]);
      d.SendData8(p[Wrap32(k * 2 + 1)]);
      assert d.trace == t1 + Data8s(p[..2 * k + 2]) by {
        Data8sSnocTwo(t1, p, 2 * k);
      }
      k := k + 1;
      j := j + 1;
    }
  }

  /** The unswapped path of `LCD_ShowPicture`: the first `len` pixels as
      `lcd_send_data16` calls. */
  method SendPictureWords(d: Driver, pic: seq<uint16>, len: uint32)
    requires len <= |pic|
    modifies d
    ensures d.trace == old(d.trace) + Data16s(pic[..len])
    ensures len > 0 ==> d.cs && !d.dc
    ensures len == 0 ==> d.cs == old(d.cs) && d.dc == old(d.dc)
    ensures d.horizontal == old(d.horizontal) && d.res == old(d.res) && d.backlight == old(d.backlight)
  {
    ghost var t1 := d.trace;
    var i: uint32 := 0;
    while i < len
      invariant i <= len
      invariant d.trace == t1 + Data16s(pic[..i])
      invariant i > 0 ==> d.cs && !d.dc
      invariant i == 0 ==> d.cs == old(d.cs) && d.dc == old(d.dc)
      invariant d.horizontal == old(d.horizontal) && d.res == old(d.res) && d.backlight == old(d.backlight)
    {
      d.SendData16(pic[i]);
      Data16sSnoc(pic, i);
      i := i + 1;
    }
  }

  /** `LCD_PushColors`: one burst of the buffer's first `len * 2` memory
      bytes, the count computed in `uint32_t`, with the panel selected and
      D/C high. */
  method PushColors(d: Driver, data: seq<uint16>, len: uint32)
    requires Wrap32(len * 2) <= 2 * |data|
    modifies d
    ensures d.trace == old(d.trace) + [Burst(data, len)]
    ensures d.cs && d.dc
    ensures d.horizontal == old(d.horizontal) && d.res == old(d.res) && d.backlight == old(d.backlight)
  {
    d.cs := false;
    d.dc := true;
    d.Transfer(Burst(data, len));
    d.cs := true;
  }

  /** `lcd_PushColors`: the window from `(x, y)` of `width` columns and
      `high` rows, then the burst of `LCD_PushColors`. */
  method PushColorsWindow(d: Driver, x: uint16, y: uint16, width: uint16, high: uint16, data: seq<uint16>, len: uint32)
    requires Wrap32(len * 2) <= 2 * |data|
    modifies d
    ensures d.trace == old(d.trace) + AddressWindow(old(d.horizontal), x, y, Wrap16(x + width - 1), Wrap16(y + high - 1))
                     + [Burst(data, len)]
    ensures d.cs && d.dc
    ensures d.horizontal == old(d.horizontal) && d.res == old(d.res) && d.backlight == old(d.backlight)
  {
    d.AddressSet(x, y, Wrap16(x + width - 1), Wrap16(y + high - 1));
    d.dc := true;
    d.cs := false;
    d.Transfer(Burst(data, len));
    d.cs := true;
  }
}
