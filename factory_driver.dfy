/** The panel driver of the factory example (example/factory/tft_driver.cpp):
    the send primitives, the addressing window, the orientation register
    and the power-on sequence, over one global SPI bus. */
module FactoryDriver {
  import opened Bus
  import opened Panel

  /** The driver's state: the static `horizontal`, the levels of the control
      lines it drives, and everything it has put on the bus so far. */
  class Driver {
    var trace: seq<Event>
    var cs: bool          // chip select; true = high = panel not selected
    var dc: bool          // data/command; true = high = data
    var res: bool         // panel reset
    var backlight: bool
    var horizontal: uint8

    /** The stored orientation is always one of the four table entries. */
    ghost predicate Valid()
      reads this
    {
      horizontal < 4
    }

    /** Power-on state: the static `horizontal` is zero-initialised and the
        bus is silent; the control lines are not driven yet. */
    constructor ()
      ensures Valid() && horizontal == 0 && trace == []
    {
      trace := [];
      cs, dc, res, backlight := true, true, true, false;
      horizontal := 0;
    }

    /** One SPI transfer. The panel reads the byte as a command exactly
        when D/C is low, and only while it is selected. */
    method Transfer(e: Event)
      requires !cs && (e.Cmd? <==> !dc)
      modifies this`trace
      ensures trace == old(trace) + [e]
    {
      trace := trace + [e];
    }

    /** `lcd_send_data8`. */
    method SendData8(dat: uint8)
      modifies this
      ensures trace == old(trace) + [Data8(dat)]
      ensures cs && !dc
      ensures res == old(res) && backlight == old(backlight) && horizontal == old(horizontal)
    {
      cs := false;
      dc := true;
      Transfer(Data8(dat));
      cs := true;
      dc := false;
    }

    /** `lcd_send_data16`. */
    method SendData16(dat: uint16)
      modifies this
      ensures trace == old(trace) + [Data16(dat)]
      ensures cs && !dc
      ensures res == old(res) && backlight == old(backlight) && horizontal == old(horizontal)
    {
      dc := true;
      cs := false;
      Transfer(Data16(dat));
      cs := true;
      dc := false;
    }

    /** `lcd_send_cmd`. */
    method SendCmd(dat: uint8)
      modifies this
      ensures trace == old(trace) + [Cmd(dat)]
      ensures cs && dc
      ensures res == old(res) && backlight == old(backlight) && horizontal == old(horizontal)
    {
      dc := false;
      cs := false;
      Transfer(Cmd(dat));
      cs := true;
      dc := true;
    }

    /** `lcd_address_set`: column range, row range, then memory write, with
        the panel offsets exchanged in the landscape orientations. */
    method AddressSet(x1: uint16, y1: uint16, x2: uint16, y2: uint16)
      modifies this
      ensures trace == old(trace) + AddressWindow(horizontal, x1, y1, x2, y2)
      ensures Valid() ==> |trace| == |old(trace)| + 7 && cs && dc
      ensures !Valid() ==> trace == old(trace) && cs == old(cs) && dc == old(dc)
      ensures res == old(res) && backlight == old(backlight) && horizontal == old(horizontal)
    {
      ghost var t0 := trace;
      if horizontal == 0 || horizontal == 2 {
        SendCmd(CASET);
        SendData16(Wrap16(x1 + X_OFFSET));
        SendData16(Wrap16(x2 + X_OFFSET));
        SendCmd(RASET);
        SendData16(Wrap16(y1 + Y_OFFSET));
        SendData16(Wrap16(y2 + Y_OFFSET));
        SendCmd(RAMWR);
        AppendSeven(t0, Cmd(CASET), Data16(Wrap16(x1 + X_OFFSET)), Data16(Wrap16(x2 + X_OFFSET)),
                    Cmd(RASET), Data16(Wrap16(y1 + Y_OFFSET)), Data16(Wrap16(y2 + Y_OFFSET)), Cmd(RAMWR));
      } else if horizontal == 1 || horizontal == 3 {
        SendCmd(CASET);
        SendData16(Wrap16(x1 + Y_OFFSET));
        SendData16(Wrap16(x2 + Y_OFFSET));
        SendCmd(RASET);
        SendData16(Wrap16(y1 + X_OFFSET));
        SendData16(Wrap16(y2 + X_OFFSET));
        SendCmd(RAMWR);
        AppendSeven(t0, Cmd(CASET), Data16(Wrap16(x1 + Y_OFFSET)), Data16(Wrap16(x2 + Y_OFFSET)),
                    Cmd(RASET), Data16(Wrap16(y1 + X_OFFSET)), Data16(Wrap16(y2 + X_OFFSET)), Cmd(RAMWR));
      }
    }

    /** `lcd_setRotation`: stores `r % 4` and writes the matching MADCTL byte. */
    method SetRotation(r: uint8)
      modifies this
      ensures Valid() && horizontal == r % 4
      ensures trace == old(trace) + [Cmd(MADCTL), Data8(Madctl(horizontal))]
      ensures cs && !dc && res == old(res) && backlight == old(backlight)
    {
      horizontal := r % 4;
      SendCmd(MADCTL);
      if horizontal == 0 {         // portrait
        SendData8(MAD_BGR as int);
      } else if horizontal == 1 {  // landscape
        SendData8((MAD_MX | MAD_MV | MAD_BGR) as int);
      } else if horizontal == 2 {  // inverted portrait
        SendData8((MAD_MX | MAD_MY | MAD_BGR) as int);
      } else {                     // inverted landscape
        SendData8((MAD_MV | MAD_MY | MAD_BGR) as int);
      }
    }

    /** `lcd_init`: orientation to USE_HORIZONTAL, GPIO set-up, then the
        reset pulse and the vendor register sequence. The straight-line
        body is verified in the blocks below, called in the source's order. */
    method Init()
      modifies this
      ensures Valid() && horizontal == USE_HORIZONTAL
      ensures trace == old(trace) + InitSequence()
      ensures cs && dc && res && backlight
    {
      horizontal := USE_HORIZONTAL;
      // lcd_gpio_init: all four lines driven high.
      backlight, dc, cs, res := true, true, true, true;
      // lcd_spi_init configures the bus; nothing reaches the panel.
      ghost var t0 := trace;
      PulseReset();
      ghost var t1 := trace;
      SendCmd(0xFE);
      SendCmd(0xEF);
      assert trace == t1 + Unlock();
      WriteRegisters1();
      WriteRegisters2();
      WriteRegisters3();
      WriteRegisters4();
      WriteGammaF0();
      WriteGammaF1();
      WakeUpPanel();
      InitSequenceAppend(t0);
    }

    /** Reset low and high, 100 ms after each edge. */
    method PulseReset()
      modifies this
      ensures trace == old(trace) + ResetPulse()
      ensures res && cs == old(cs) && dc == old(dc) && backlight == old(backlight) && horizontal == old(horizontal)
    {
      res := false;
      trace := trace + [Reset(false)];
      trace := trace + [Delay(100)];
      res := true;
      trace := trace + [Reset(true)];
      trace := trace + [Delay(100)];
    }

    method WriteRegisters1()
      modifies this
      ensures trace == old(trace) + RegisterBlock1()
      ensures cs && !dc && res == old(res) && backlight == old(backlight) && horizontal == old(horizontal)
    {
      SendCmd(0xB0); SendData8(0xC0);
      SendCmd(0xB2); SendData8(0x27);
      SendCmd(0xB3); SendData8(0x03);
      SendCmd(0xB7); SendData8(0x01);
    }

    method WriteRegisters2()
      modifies this
      ensures trace == old(trace) + RegisterBlock2()
      ensures cs && !dc && res == old(res) && backlight == old(backlight) && horizontal == old(horizontal)
    {
      SendCmd(0xB6); SendData8(0x19);
      SendCmd(0xAC); SendData8(0xDB);
      SendCmd(0xAB); SendData8(0x0F);
      SendCmd(0x3A); SendData8(0x05);
    }

    method WriteRegisters3()
      modifies this
      ensures trace == old(trace) + RegisterBlock3()
      ensures cs && !dc && res == old(res) && backlight == old(backlight) && horizontal == old(horizontal)
    {
      SendCmd(0xB4); SendData8(0x04);
      SendCmd(0xA8); SendData8(0x0C);
      SendCmd(0xB8); SendData8(0x08);
      SendCmd(0xEA); SendData8(0x0E);
    }

    method WriteRegisters4()
      modifies this
      ensures trace == old(trace) + RegisterBlock4()
      ensures cs && !dc && res == old(res) && backlight == old(backlight) && horizontal == old(horizontal)
    {
      SendCmd(0xE8); SendData8(0x2A);
      SendCmd(0xE9); SendData8(0x46);
      SendCmd(0xC6); SendData8(0x25);
      SendCmd(0xC7); SendData8(0x10);
    }

    method WriteGammaF0()
      modifies this
      ensures trace == old(trace) + GammaF0()
      ensures cs && !dc && res == old(res) && backlight == old(backlight) && horizontal == old(horizontal)
    {
      SendCmd(0xF0);
      SendData8Run(0x09, 0x32, 0x29, 0x46, 0xC9, 0x37, 0x33);
      SendData8Run(0x60, 0x00, 0x14, 0x0A, 0x16, 0x10, 0x1F);
    }

    method WriteGammaF1()
      modifies this
      ensures trace == old(trace) + GammaF1()
      ensures cs && !dc && res == old(res) && backlight == old(backlight) && horizontal == old(horizontal)
    {
      SendCmd(0xF1);
      SendData8Run(0x15, 0x28, 0x5D, 0x3F, 0xC8, 0x16, 0x3F);
      SendData8Run(0x60, 0x0A, 0x06, 0x0D, 0x1F, 0x1C, 0x10);
    }

    /** Seven `lcd_send_data8` calls in a row. */
    method SendData8Run(b0: uint8, b1: uint8, b2: uint8, b3: uint8, b4: uint8, b5: uint8, b6: uint8)
      modifies this
      ensures trace == old(trace) + [Data8(b0), Data8(b1), Data8(b2), Data8(b3), Data8(b4), Data8(b5), Data8(b6)]
      ensures cs && !dc && res == old(res) && backlight == old(backlight) && horizontal == old(horizontal)
    {
      ghost var t0 := trace;
      SendData8(b0); SendData8(b1); SendData8(b2); SendData8(b3);
      SendData8(b4); SendData8(b5); SendData8(b6);
      AppendSeven(t0, Data8(b0), Data8(b1), Data8(b2), Data8(b3), Data8(b4), Data8(b5), Data8(b6));
    }

    /** Inversion on, sleep out, display on, 120 ms after each. */
    method WakeUpPanel()
      modifies this
      ensures trace == old(trace) + WakeUp()
      ensures cs && dc && res == old(res) && backlight == old(backlight) && horizontal == old(horizontal)
    {
      SendCmd(INVON);
      trace := trace + [Delay(120)];
      SendCmd(SLPOUT);
      trace := trace + [Delay(120)];
      SendCmd(DISPON);
      trace := trace + [Delay(120)];
    }
  }
}
