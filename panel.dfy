/** The GC9A01 controller's command protocol as the two driver copies
    (example/factory/tft_driver.cpp and example/lcd/lcd_driver.cpp) speak
    it: register constants, the MADCTL orientation table, the
    column/row/memory-write addressing triplet and the fixed power-on
    sequence. Both copies are proved against the definitions here. */
module Panel {
  import opened Bus

  // Panel offsets of the 128x128 glass inside the controller's RAM.
  const X_OFFSET: int := 2
  const Y_OFFSET: int := 1

  const LCD_WIDTH: int := 128
  const LCD_HEIGHT: int := 128

  // Orientation register and its bits.
  const MADCTL: uint8 := 0x36
  const MAD_MY: bv8 := 0x80
  const MAD_MX: bv8 := 0x40
  const MAD_MV: bv8 := 0x20
  const MAD_BGR: bv8 := 0x08

  // Commands used by the drivers.
  const CASET: uint8 := 0x2A   // column address set
  const RASET: uint8 := 0x2B   // row address set
  const RAMWR: uint8 := 0x2C   // memory write
  const SLPIN: uint8 := 0x10
  const SLPOUT: uint8 := 0x11
  const INVON: uint8 := 0x21
  const DISPON: uint8 := 0x29

  const USE_HORIZONTAL: uint8 := 0

  /** The MADCTL byte for each orientation: BGR always set, MV (axis swap)
      exactly for the landscape orientations 1 and 3. */
  function Madctl(rotation: uint8): (v: uint8)
    requires rotation < 4
    ensures (v as bv8) & MAD_BGR == MAD_BGR
    ensures ((v as bv8) & MAD_MV == MAD_MV) <==> rotation % 2 == 1
    ensures ((v as bv8) & MAD_MX == MAD_MX) <==> (rotation == 1 || rotation == 2)
    ensures ((v as bv8) & MAD_MY == MAD_MY) <==> (rotation == 2 || rotation == 3)
  {
    [0x08, 0x68, 0xC8, 0xA8][rotation]
  }

  /** The offset added to column coordinates: X_OFFSET in the portrait
      orientations, Y_OFFSET in the landscape ones. */
  function ColumnOffset(h: uint8): int
  {
    if h % 2 == 0 then X_OFFSET else Y_OFFSET
  }

  /** The offset added to row coordinates: the other one of the pair. */
  function RowOffset(h: uint8): int
  {
    if h % 2 == 0 then Y_OFFSET else X_OFFSET
  }

  /** What `lcd_address_set(x1, y1, x2, y2)` puts on the bus when the
      stored orientation is `h`. Outside 0..3 neither branch is taken. */
  function AddressWindow(h: uint8, x1: uint16, y1: uint16, x2: uint16, y2: uint16): (es: seq<Event>)
    ensures h < 4 ==> es == [Cmd(CASET), Data16(Wrap16(x1 + ColumnOffset(h))), Data16(Wrap16(x2 + ColumnOffset(h))),
                             Cmd(RASET), Data16(Wrap16(y1 + RowOffset(h))), Data16(Wrap16(y2 + RowOffset(h))),
                             Cmd(RAMWR)]
    ensures h >= 4 ==> es == []
  {
    if h == 0 || h == 2 then
      [Cmd(CASET), Data16(Wrap16(x1 + X_OFFSET)), Data16(Wrap16(x2 + X_OFFSET)),
       Cmd(RASET), Data16(Wrap16(y1 + Y_OFFSET)), Data16(Wrap16(y2 + Y_OFFSET)),
       Cmd(RAMWR)]
    else if h == 1 || h == 3 then
      [Cmd(CASET), Data16(Wrap16(x1 + Y_OFFSET)), Data16(Wrap16(x2 + Y_OFFSET)),
       Cmd(RASET), Data16(Wrap16(y1 + X_OFFSET)), Data16(Wrap16(y2 + X_OFFSET)),
       Cmd(RAMWR)]
    else
      []
  }

  /** Given a valid orientation, the addressing triplet is always three
      commands (CASET, RASET, RAMWR at positions 0, 3, 6) and four words,
      ending with the memory-write command; it never leaves the trace as it was. */
  lemma AddressWindowShape(h: uint8, x1: uint16, y1: uint16, x2: uint16, y2: uint16)
    requires h < 4
    ensures var es := AddressWindow(h, x1, y1, x2, y2);
      && |es| == 7 && es != []
      && (forall i :: 0 <= i < 7 ==> (es[i].Cmd? <==> (i == 0 || i == 3 || i == 6)))
      && (forall i :: 0 <= i < 7 ==> (es[i].Data16? <==> !(i == 0 || i == 3 || i == 6)))
      && es[0] == Cmd(CASET) && es[3] == Cmd(RASET) && es[6] == Cmd(RAMWR)
  {
  }

  /** The rectangle addressed, in the drawing code's coordinates. */
  datatype Window = Window(x1: uint16, y1: uint16, x2: uint16, y2: uint16)

  /** The controller's reading of an addressing triplet: the column and
      row ranges with the orientation's offsets taken off again. */
  function DecodeWindow(h: uint8, es: seq<Event>): Option<Window>
  {
    if h < 4 && |es| == 7 && es[0] == Cmd(CASET) && es[3] == Cmd(RASET) && es[6] == Cmd(RAMWR)
       && es[1].Data16? && es[2].Data16? && es[4].Data16? && es[5].Data16?
    then Some(Window(Wrap16(es[1].word - ColumnOffset(h)), Wrap16(es[4].word - RowOffset(h)),
                     Wrap16(es[2].word - ColumnOffset(h)), Wrap16(es[5].word - RowOffset(h))))
    else None
  }

  lemma UnwrapOffset(x: uint16, off: int)
    requires 0 <= off < 0x1_0000
    ensures Wrap16(Wrap16(x + off) - off) == x
  {
    if x + off < 0x1_0000 {
      assert Wrap16(x + off) == x + off;
    } else {
      assert Wrap16(x + off) == x + off - 0x1_0000;
      assert Wrap16(x - 0x1_0000) == x;
    }
  }

  lemma DecodeTriplet(h: uint8, a: uint16, b: uint16, c: uint16, d: uint16)
    requires h < 4
    ensures DecodeWindow(h, [Cmd(CASET), Data16(a), Data16(b), Cmd(RASET), Data16(c), Data16(d), Cmd(RAMWR)])
         == Some(Window(Wrap16(a - ColumnOffset(h)), Wrap16(c - RowOffset(h)),
                        Wrap16(b - ColumnOffset(h)), Wrap16(d - RowOffset(h))))
  {
  }

  /** The addressing triplet loses nothing: for every orientation and every
      16-bit window, decoding the emitted events gives the window back.
      This holds across the 16-bit wrap-around of the offset addition. */
  lemma WindowRoundTrip(h: uint8, x1: uint16, y1: uint16, x2: uint16, y2: uint16)
    requires h < 4
    ensures DecodeWindow(h, AddressWindow(h, x1, y1, x2, y2)) == Some(Window(x1, y1, x2, y2))
  {
    var cx, ry := ColumnOffset(h), RowOffset(h);
    var a, b, c, d := Wrap16(x1 + cx), Wrap16(x2 + cx), Wrap16(y1 + ry), Wrap16(y2 + ry);
    calc {
      DecodeWindow(h, AddressWindow(h, x1, y1, x2, y2));
      DecodeWindow(h, [Cmd(CASET), Data16(a), Data16(b), Cmd(RASET), Data16(c), Data16(d), Cmd(RAMWR)]);
      { DecodeTriplet(h, a, b, c, d); }
      Some(Window(Wrap16(a - cx), Wrap16(c - ry), Wrap16(b - cx), Wrap16(d - ry)));
      { UnwrapOffset(x1, cx); UnwrapOffset(x2, cx); UnwrapOffset(y1, ry); UnwrapOffset(y2, ry); }
      Some(Window(x1, y1, x2, y2));
    }
  }

  /* The power-on sequence of `lcd_init`, block by block, one event per
     transfer or delay in the order the source issues them. */

  /** Reset low, 100 ms, reset high, 100 ms. */
  function ResetPulse(): seq<Event>
  {
    [Reset(false), Delay(100), Reset(true), Delay(100)]
  }

  /** The inter-register enable commands. */
  function Unlock(): seq<Event>
  {
    [Cmd(0xFE), Cmd(0xEF)]
  }

  // The sixteen single-parameter register writes, four to a block.
  function RegisterBlock1(): seq<Event>
  {
    [Cmd(0xB0), Data8(0xC0), Cmd(0xB2), Data8(0x27), Cmd(0xB3), Data8(0x03), Cmd(0xB7), Data8(0x01)]
  }

  function RegisterBlock2(): seq<Event>
  {
    [Cmd(0xB6), Data8(0x19), Cmd(0xAC), Data8(0xDB), Cmd(0xAB), Data8(0x0F), Cmd(0x3A), Data8(0x05)]
  }

  function RegisterBlock3(): seq<Event>
  {
    [Cmd(0xB4), Data8(0x04), Cmd(0xA8), Data8(0x0C), Cmd(0xB8), Data8(0x08), Cmd(0xEA), Data8(0x0E)]
  }

  function RegisterBlock4(): seq<Event>
  {
    [Cmd(0xE8), Data8(0x2A), Cmd(0xE9), Data8(0x46), Cmd(0xC6), Data8(0x25), Cmd(0xC7), Data8(0x10)]
  }

  /** Gamma table 0xF0 and its fourteen parameters. */
  function GammaF0(): seq<Event>
  {
    [Cmd(0xF0), Data8(0x09), Data8(0x32), Data8(0x29), Data8(0x46), Data8(0xC9), Data8(0x37), Data8(0x33),
     Data8(0x60), Data8(0x00), Data8(0x14), Data8(0x0A), Data8(0x16), Data8(0x10), Data8(0x1F)]
  }

  /** Gamma table 0xF1 and its fourteen parameters. */
  function GammaF1(): seq<Event>
  {
    [Cmd(0xF1), Data8(0x15), Data8(0x28), Data8(0x5D), Data8(0x3F), Data8(0xC8), Data8(0x16), Data8(0x3F),
     Data8(0x60), Data8(0x0A), Data8(0x06), Data8(0x0D), Data8(0x1F), Data8(0x1C), Data8(0x10)]
  }

  /** Inversion on, sleep out, display on, each followed by 120 ms. */
  function WakeUp(): seq<Event>
  {
    [Cmd(INVON), Delay(120), Cmd(SLPOUT), Delay(120), Cmd(DISPON), Delay(120)]
  }

  /** The panel-specific power-on sequence of `lcd_init`. */
  function InitSequence(): seq<Event>
  {
    ResetPulse() + Unlock() + RegisterBlock1() + RegisterBlock2() + RegisterBlock3() + RegisterBlock4()
    + GammaF0() + GammaF1() + WakeUp()
  }

  /** Appending the power-on sequence is appending its blocks one by one. */
  lemma InitSequenceAppend(t: seq<Event>)
    ensures t + InitSequence()
         == t + ResetPulse() + Unlock() + RegisterBlock1() + RegisterBlock2() + RegisterBlock3()
            + RegisterBlock4() + GammaF0() + GammaF1() + WakeUp()
  {
    var p1 := ResetPulse() + Unlock();
    var p2 := p1 + RegisterBlock1();
    var p3 := p2 + RegisterBlock2();
    var p4 := p3 + RegisterBlock3();
    var p5 := p4 + RegisterBlock4();
    var p6 := p5 + GammaF0();
    var p7 := p6 + GammaF1();
    AppendAssoc(t, ResetPulse(), Unlock());
    AppendAssoc(t, p1, RegisterBlock1());
    AppendAssoc(t, p2, RegisterBlock2());
    AppendAssoc(t, p3, RegisterBlock3());
    AppendAssoc(t, p4, RegisterBlock4());
    AppendAssoc(t, p5, GammaF0());
    AppendAssoc(t, p6, GammaF1());
    AppendAssoc(t, p7, WakeUp());
  }

  /** The golden shape of the power-on sequence: 74 events; reset low and
      high with 100 ms after each edge; then 0xFE, 0xEF and 0xB0 with its
      parameter 0xC0; the gamma commands 0xF0 and 0xF1 at positions 38 and
      53, each followed by exactly fourteen data bytes; and finally INVON,
      SLPOUT and DISPON, each followed by 120 ms. */
  lemma InitSequenceGolden()
    ensures var s := InitSequence();
      && |s| == 74
      && s[..4] == [Reset(false), Delay(100), Reset(true), Delay(100)]
      && s[4..8] == [Cmd(0xFE), Cmd(0xEF), Cmd(0xB0), Data8(0xC0)]
      && s[38] == Cmd(0xF0) && (forall i :: 39 <= i < 53 ==> s[i].Data8?)
      && s[53] == Cmd(0xF1) && (forall i :: 54 <= i < 68 ==> s[i].Data8?)
      && s[68..] == [Cmd(INVON), Delay(120), Cmd(SLPOUT), Delay(120), Cmd(DISPON), Delay(120)]
  {
  }

  /** `lcd_sleep`: sleep-in, then 100 ms. */
  function SleepSequence(): seq<Event>
  {
    [Cmd(SLPIN), Delay(100)]
  }
}
