/** The GC9A01 rotation step of the TFT_eSPI library
    (lib/TFT_eSPI/TFT_Drivers/GC9A01_Rotation.h): the library's state as
    far as that step touches it, the MADCTL write, and the geometry it
    leaves behind. */
module Gc9a01Rotation {
  import opened Bus
  import opened Panel

  /** What the rotation step sets: the stored rotation, the RAM offsets of
      the glass, and the visible width and height. */
  datatype Geometry = Geometry(rotation: uint8, colstart: int, rowstart: int, width: int, height: int)

  /** The geometry after `setRotation(m)`, starting from `g`. The offsets
      are only set when the build defines `CGRAM_OFFSET` and the panel is
      128 pixels wide; otherwise they stay as they were. */
  function Rotate(g: Geometry, m: uint8, initWidth: int, initHeight: int, cgramOffset: bool): (r: Geometry)
    ensures r.rotation == m % 4 && r.rotation < 4
  {
    var rotation := m % 4;
    var portrait := rotation == 0 || rotation == 2;
    var setOffsets := cgramOffset && initWidth == 128;
    Geometry(rotation,
             if setOffsets then (if portrait then 2 else 1) else g.colstart,
             if setOffsets then (if portrait then 1 else 2) else g.rowstart,
             if portrait then initWidth else initHeight,
             if portrait then initHeight else initWidth)
  }

  /** Only `m % 4` matters. */
  lemma RotateQuarter(g: Geometry, m: uint8, initWidth: int, initHeight: int, cgramOffset: bool)
    ensures Rotate(g, m, initWidth, initHeight, cgramOffset) == Rotate(g, m % 4, initWidth, initHeight, cgramOffset)
  {
  }

  /** Rotating twice to the same orientation is rotating once. */
  lemma RotateIdempotent(g: Geometry, m: uint8, initWidth: int, initHeight: int, cgramOffset: bool)
    ensures var once := Rotate(g, m, initWidth, initHeight, cgramOffset);
      Rotate(once, m, initWidth, initHeight, cgramOffset) == once
  {
  }

  /** The landscape orientations exchange width and height, the portrait
      ones restore them; the pixel count never changes. */
  lemma RotateExtent(g: Geometry, m: uint8, initWidth: int, initHeight: int, cgramOffset: bool)
    ensures var r := Rotate(g, m, initWidth, initHeight, cgramOffset);
      && (r.rotation % 2 == 0 ==> r.width == initWidth && r.height == initHeight)
      && (r.rotation % 2 == 1 ==> r.width == initHeight && r.height == initWidth)
      && r.width * r.height == initWidth * initHeight
  {
    var r := Rotate(g, m, initWidth, initHeight, cgramOffset);
    if r.rotation % 2 == 1 {
      assert r.width * r.height == initHeight * initWidth;
    }
  }

  /** With `CGRAM_OFFSET` on a 128-pixel panel, the library's offsets are
      the ones the hand-written drivers add in `lcd_address_set`: X_OFFSET
      on columns and Y_OFFSET on rows in portrait, exchanged in landscape.
      Without it, the offsets are left as they were. */
  lemma RotateOffsetsMatchDrivers(g: Geometry, m: uint8, initWidth: int, initHeight: int, cgramOffset: bool)
    ensures var r := Rotate(g, m, initWidth, initHeight, cgramOffset);
      if cgramOffset && initWidth == 128 then
        r.colstart == ColumnOffset(r.rotation) && r.rowstart == RowOffset(r.rotation)
      else
        r.colstart == g.colstart && r.rowstart == g.rowstart
  {
  }

  /** The part of the TFT_eSPI object that the rotation step reads and
      writes, and what it has sent to the panel. */
  class Display {
    var trace: seq<Event>
    var rotation: uint8
    var colstart: int
    var rowstart: int
    var width: int
    var height: int
    const initWidth: int
    const initHeight: int
    const cgramOffset: bool   // whether the build defines CGRAM_OFFSET

    function Current(): Geometry
      reads this
    {
      Geometry(rotation, colstart, rowstart, width, height)
    }

    /** A display of `w` by `h` pixels in rotation 0 with no offsets. */
    constructor (w: int, h: int, cgram: bool)
      ensures initWidth == w && initHeight == h && cgramOffset == cgram
      ensures Current() == Geometry(0, 0, 0, w, h) && trace == []
    {
      initWidth, initHeight, cgramOffset := w, h, cgram;
      trace := [];
      rotation, colstart, rowstart := 0, 0, 0;
      width, height := w, h;
    }

    /** The GC9A01 case of `setRotation(m)`: MADCTL with the same byte the
        hand-written drivers send for the same orientation, and the new
        geometry. */
    method SetRotation(m: uint8)
      modifies this
      ensures Current() == Rotate(old(Current()), m, initWidth, initHeight, cgramOffset)
      ensures trace == old(trace) + [Cmd(MADCTL), Data8(Madctl(rotation))]
    {
      rotation := m % 4;
      trace := trace + [Cmd(MADCTL)];
      if rotation == 0 {         // portrait
        if cgramOffset && initWidth == 128 {
          colstart, rowstart := 2, 1;
        }
        trace := trace + [Data8(MAD_BGR as int)];
        width, height := initWidth, initHeight;
      } else if rotation == 1 {  // landscape
        if cgramOffset && initWidth == 128 {
          colstart, rowstart := 1, 2;
        }
        trace := trace + [Data8((MAD_MX | MAD_MV | MAD_BGR) as int)];
        width, height := initHeight, initWidth;
      } else if rotation == 2 {  // inverted portrait
        if cgramOffset && initWidth == 128 {
          colstart, rowstart := 2, 1;
        }
        trace := trace + [Data8((MAD_MX | MAD_MY | MAD_BGR) as int)];
        width, height := initWidth, initHeight;
      } else {                   // inverted landscape
        if cgramOffset && initWidth == 128 {
          colstart, rowstart := 1, 2;
        }
        trace := trace + [Data8((MAD_MV | MAD_MY | MAD_BGR) as int)];
        width, height := initHeight, initWidth;
      }
    }
  }
}
