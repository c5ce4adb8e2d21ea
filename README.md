# GC9A01 display driver of the T-QT board, modelled in Dafny

The T-QT examples drive a 128x128 GC9A01 round-corner panel over SPI. They
contain two hand-written copies of the driver and a fragment of TFT_eSPI:

- `example/factory/tft_driver.cpp` with the drawing primitives in
  `example/factory/tft.cpp` (fill, point, line, rectangle, circle, picture,
  colour bursts);
- `example/lcd/lcd_driver.cpp`, the same protocol taking its pins and SPI
  frequency from a settings record, plus `lcd_push_colors` and
  `lcd_sleep`;
- the GC9A01 rotation step of TFT_eSPI
  (`lib/TFT_eSPI/TFT_Drivers/GC9A01_Rotation.h`).

The model treats the bus as an append-only **trace of events** (`Bus.Event`),
stored in each driver object. An event is one of:

- a command byte, sent with D/C low;
- a data byte or a 16-bit data word, sent with D/C high;
- a burst of bytes;
- a level on the reset line;
- a delay.

Each driver is a class holding that trace and its pin levels: chip select,
data/command, reset and, in the factory copy, the backlight. It also holds
the stored orientation `horizontal` and, in the `lcd` copy, the settings
record. Every method is proved against a pure specification of the events
it appends and of the new pin state:

- Module `Panel` holds what both copies share:
  - the MADCTL byte per orientation;
  - the column/row addressing triplet with its X/Y offsets;
  - the 74-event power-on sequence.
- Module `Raster` defines, as functions, the points that the line and
  circle loops of `tft.cpp` visit, and what each plotted point costs on the
  bus. The lemmas about these functions state what a caller gets.

The C arithmetic is modelled explicitly:

- `uint16_t` parameters wrap (`Wrap16`), for example in `x + w - 1` and in
  the conversion of circle points to `LCD_DrawPoint` arguments;
- the `uint32_t` counters of `LCD_ShowPicture` are converted to 32 bits in `k * 2`, and the precondition on the buffer keeps `k * 2` below `2^32`;
- `int` products are converted to `uint32_t` (`Wrap32`).

The model copies four quirks of the source exactly, and proves them:

- `LCD_DrawPoint` sends only the low byte of the colour, although the
  panel is set to 16 bits per pixel.
- `LCD_DrawLine` sets `delta_y = -delta_x` for upward lines.
- `LCD_DrawLine` draws its start point twice and never reaches its end
  point.
- The unswapped picture path and `lcd_push_colors` count `(w - x) * (h - y)`
  pixels.

The first three change the pixels drawn; the fourth changes the pixel
count. Each is a row under "## Findings", beside a corrected definition
whose intended property is proved.

The power-on sequence ends with INVON, SLPOUT and DISPON, each followed by
a 120 ms delay (`example/factory/tft_driver.cpp:199-204`,
`example/lcd/lcd_driver.cpp:203-208`).

## Model

| member | source | states |
|---|---|---|
| Bus.Wrap8 | example/factory/tft.cpp:22 | C's conversion to `uint8_t`, applied to the colour `LCD_DrawPoint` passes to `lcd_send_data8`: the identity on values that already fit |
| Bus.Wrap16 | example/factory/tft.cpp:107 | C's conversion to `uint16_t`: the identity on values that already fit |
| Bus.Wrap32 | example/factory/tft.cpp:124 | C's conversion to `uint32_t`: the identity on values that already fit |
| Bus.WrapDouble | example/lcd/lcd_driver.cpp:74-80 | Converting `int len` to 32 bits before or after doubling it gives the same `uint32_t` byte count |
| Bus.WireBytes | example/factory/tft_driver.cpp:28-59 | The bytes one event clocks out: one for `SPI.write` of a command or data byte, two for `SPI.write16`, high byte first, the buffer for a burst, none for reset and delay |
| Bus.Wire | example/factory/tft_driver.cpp:28-59 | The bytes a whole trace clocks out, event after event in order |
| Bus.WireBytesOrder | example/factory/tft_driver.cpp:39-48 | A 16-bit transfer puts the high byte on the wire first; reset and delay events put nothing on the wire |
| Bus.WireSnoc | example/factory/tft_driver.cpp:28-59 | One more transfer appends its bytes at the end of the wire image |
| Bus.WireAppend | example/factory/tft_driver.cpp:28-59 | The wire image of two traces one after the other is the concatenation of their images |
| Bus.Swap16 | example/factory/tft.cpp:108-121 | Exchanging a word's bytes: the high byte of the result is the low byte of the input, and the other way round |
| Bus.LeBytes | example/factory/tft.cpp:111 | The `uint8_t *` view of a `uint16_t` buffer on the little-endian ESP32: byte `2k` is the low byte of word `k`, byte `2k+1` the high byte |
| Bus.Data8s | example/factory/tft.cpp:116-117 | One 8-bit transfer per byte, in order and of the same length |
| Bus.Data16s | example/factory/tft.cpp:125-128 | One 16-bit transfer per word, in order and of the same length |
| Bus.Repeat | example/factory/tft.cpp:11-17 | `n` copies of the same event |
| Bus.SwapAll | example/factory/tft.cpp:108-121 | Every word of the buffer with its bytes exchanged, position by position |
| Bus.Data8sSnocTwo | example/factory/tft.cpp:116-118 | Two more byte transfers extend the prefix of bytes sent by two |
| Bus.Data16sSnoc | example/factory/tft.cpp:125-128 | One more word transfer extends the prefix of words sent by one |
| Bus.Data8sWire | example/factory/tft.cpp:116-117 | Byte transfers put exactly those bytes on the wire |
| Bus.LeBytesPrefix | example/factory/tft.cpp:111-119 | The memory bytes of the first `n` words are the first `2n` memory bytes of the buffer |
| Bus.LeBytesWire | example/factory/tft.cpp:132-147 | Sending a buffer's memory bytes in order equals, on the wire, sending each word byte-exchanged as a 16-bit transfer |
| Panel.Madctl | example/factory/tft_driver.cpp:85-105 | The MADCTL byte for each orientation: BGR always set; MV exactly in the landscape orientations 1 and 3; MX exactly in 1 and 2; MY exactly in 2 and 3 |
| Panel.ColumnOffset | example/factory/tft_driver.cpp:63-82 | The offset added to column coordinates: `TFT_X_OFFSET` in orientations 0 and 2, `TFT_Y_OFFSET` in 1 and 3 |
| Panel.RowOffset | example/factory/tft_driver.cpp:63-82 | The offset added to row coordinates: `TFT_Y_OFFSET` in orientations 0 and 2, `TFT_X_OFFSET` in 1 and 3 |
| Panel.AddressWindow | example/factory/tft_driver.cpp:61-83 | For orientations 0 and 2: CASET, `x1+2`, `x2+2`, RASET, `y1+1`, `y2+1`, RAMWR, each sum in 16 bits. For 1 and 3 the two offsets are exchanged. For any other stored value, nothing |
| Panel.AddressWindowShape | example/lcd/lcd_driver.cpp:52-70 | In a valid orientation the triplet is seven events: commands exactly at positions 0, 3 and 6 (CASET, RASET, RAMWR), data words everywhere else |
| Panel.UnwrapOffset | example/factory/tft_driver.cpp:63-70 | Taking the offset off again in 16 bits recovers the coordinate, across the wrap-around |
| Panel.DecodeTriplet | example/factory/tft_driver.cpp:63-82 | The controller's reading of a well-formed triplet: each word minus its orientation's offset |
| Panel.WindowRoundTrip | example/factory/tft_driver.cpp:61-83 | The triplet loses nothing: for every orientation and every 16-bit window, decoding the events gives the window back |
| Panel.ResetPulse | example/factory/tft_driver.cpp:113-116 | Reset low, 100 ms, reset high, 100 ms |
| Panel.Unlock | example/factory/tft_driver.cpp:118-119 | The inter-register enable commands 0xFE and 0xEF |
| Panel.RegisterBlock1 | example/factory/tft_driver.cpp:121-132 | Registers 0xB0, 0xB2, 0xB3 and 0xB7, each command followed by its one data byte |
| Panel.RegisterBlock2 | example/factory/tft_driver.cpp:133-142 | Registers 0xB6, 0xAC, 0xAB and 0x3A (pixel format 0x05, 16 bits per pixel), each with its one data byte |
| Panel.RegisterBlock3 | example/factory/tft_driver.cpp:143-154 | Registers 0xB4, 0xA8, 0xB8 and 0xEA, each with its one data byte |
| Panel.RegisterBlock4 | example/factory/tft_driver.cpp:155-165 | Registers 0xE8, 0xE9, 0xC6 and 0xC7, each with its one data byte |
| Panel.GammaF0 | example/factory/tft_driver.cpp:167-181 | Command 0xF0 followed by its fourteen gamma bytes in the source's order |
| Panel.GammaF1 | example/factory/tft_driver.cpp:183-197 | Command 0xF1 followed by its fourteen gamma bytes in the source's order |
| Panel.WakeUp | example/factory/tft_driver.cpp:199-204 | INVON, SLPOUT and DISPON, each followed by 120 ms |
| Panel.InitSequence | example/factory/tft_driver.cpp:113-204 | The panel part of `lcd_init`: the blocks above, in the order the source issues them |
| Panel.SleepSequence | example/lcd/lcd_driver.cpp:105-106 | `lcd_sleep`: SLPIN, then 100 ms |
| Panel.InitSequenceAppend | example/factory/tft_driver.cpp:113-204 | Appending the power-on sequence appends its blocks in order: reset pulse, unlock, four register blocks, gamma F0, gamma F1, wake-up |
| Panel.InitSequenceGolden | example/lcd/lcd_driver.cpp:117-208 | The power-on sequence is 74 events. It starts with reset low, 100 ms, reset high, 100 ms, then 0xFE, 0xEF, 0xB0 and 0xC0. 0xF0 (position 38) and 0xF1 (position 53) are each followed by fourteen data bytes. It ends with INVON, SLPOUT and DISPON, each followed by 120 ms |
| Raster.PointEvents | example/factory/tft.cpp:19-23 | Plotting a point is eight events: the 1x1 window and then one byte, the colour's low eight bits only |
| Raster.PointEventsWrap | example/factory/tft.cpp:89-96 | Plotting depends only on the coordinates converted to `uint16_t` |
| Raster.PointWindow | example/factory/tft.cpp:21 | The window a plotted point opens decodes to the single pixel at the point's 16-bit coordinates |
| Raster.PointDropsHighByte | example/factory/tft.cpp:19-23 | Two colours with the same low byte plot identically; on the wire a point is its window and then the colour's low byte alone, so red 0xF800 plots exactly like black 0x0000 |
| Raster.IntendedPointEvents | example/factory/tft.cpp:19-23 | The point as intended for the 16-bit pixel format: the 1x1 window, then the colour as one 16-bit word |
| Raster.IntendedPointColour | example/factory/tft.cpp:19-23 | As intended, the wire carries both colour bytes, high byte first, and two colours plot the same exactly when they are equal |
| Raster.PlotTrace | example/factory/tft.cpp:56-71 | Plotting `n` points costs `8n` events |
| Raster.PlotStep | example/factory/tft.cpp:58 | Plotting one more point extends the trace by that point's events |
| Raster.PlotAppend | example/factory/tft.cpp:74-80 | Plotting two point lists one after the other equals plotting their concatenation |
| Raster.FillPixels | example/factory/tft.cpp:11-17 | The fill loop sends `(yend-ysta)*(xend-xsta)` words when both ranges are non-empty, and none otherwise |
| Raster.FillCoversWindow | example/factory/tft.cpp:10-17 | A non-empty fill sends exactly as many words as the window `xsta..xend-1` by `ysta..yend-1` holds |
| Raster.PlanAsWritten | example/factory/tft.cpp:30-55 | The line set-up: `delta_x` is the distance from `x1` to `x2`, the step directions are the signs, `distance = max(delta_x, delta_y)`. For `y2 >= y1`, `delta_y = y2-y1`; for `y2 < y1`, `delta_y = -delta_x` |
| Raster.Advance | example/factory/tft.cpp:59-70 | One pass of the loop: each error grows by its delta; an error above `distance` loses `distance` and moves its coordinate one step in its direction |
| Raster.StateAt | example/factory/tft.cpp:53-71 | The loop variables after `k` passes, from both errors 0 at `(x1, y1)` |
| Raster.Trail | example/factory/tft.cpp:56-71 | The points drawn by the first `n` passes, one per pass, each the position at the head of its pass |
| Raster.TrailAt | example/factory/tft.cpp:56-71 | Point `k` of the trail is the position after `k` passes of the loop |
| Raster.TrailStep | example/factory/tft.cpp:56-71 | One more pass appends the current position to the trail and advances the loop state |
| Raster.LinePoints | example/factory/tft.cpp:56 | The line draws `distance + 1` points, one per pass of the loop |
| Raster.LineInvariantX | example/factory/tft.cpp:59-70 | At every loop head, `0 <= xerr <= distance`, and `xerr + distance * travel == k * delta_x`, where travel counts the x steps taken so far. A zero x direction never moves x |
| Raster.AdvanceKeepsX | example/factory/tft.cpp:59-64 | One pass of the loop keeps the x half of that invariant |
| Raster.LineInvariantY | example/factory/tft.cpp:59-70 | The same invariant for y when `delta_y >= 0`. When `delta_y < 0`, `yerr` never becomes positive and y never moves |
| Raster.AdvanceKeepsY | example/factory/tft.cpp:65-70 | One pass of the loop keeps the y half of that invariant |
| Raster.LineUnitSteps | example/factory/tft.cpp:59-70 | Each pass moves x and y by at most one, and only in their step directions |
| Raster.LineStartsAtStart | example/factory/tft.cpp:53-58 | The first point drawn is `(x1, y1)` |
| Raster.LineSinglePoint | example/factory/tft.cpp:25-72 | A line from a point to itself draws exactly that point |
| Raster.UpwardLineKeepsY | example/factory/tft.cpp:50 | When `y2 < y1`, every point drawn has `y == y1`, whatever `x1`, `x2` and `y2` are |
| Raster.UpwardVerticalLineIsOnePoint | example/factory/tft.cpp:50 | A vertical line drawn upwards is its start point alone |
| Raster.LineWithinBox | example/factory/tft.cpp:56-71 | Every point drawn lies in the box spanned by the two end points |
| Raster.TravelBound | example/factory/tft.cpp:59-70 | From the error invariant: at most `delta` steps are taken, and strictly fewer while the error is positive |
| Raster.LineStartDrawnTwice | example/factory/tft.cpp:56-71 | Whenever `distance >= 1`, the first two points drawn are both `(x1, y1)` |
| Raster.LineEndNeverDrawn | example/factory/tft.cpp:56-71 | `(x2, y2)` is never drawn unless it is the start |
| Raster.RectanglePoints | example/factory/tft.cpp:76-79 | The top, left, bottom and right sides, each the line `LCD_DrawLine` draws, in that order |
| Raster.RectangleSidesBounded | example/factory/tft.cpp:74-80 | All four sides have `distance < 65535` exactly when the corners are less than 65535 apart horizontally and `y2 - y1 < 65535`. When `y2 < y1` both vertical sides have distance 0 |
| Raster.RectangleOnBorder | example/factory/tft.cpp:74-80 | Every point of the rectangle lies in the box of the corners, on one of its four edges |
| Raster.UpsideDownRectangle | example/factory/tft.cpp:77-79 | With `y2 < y1` the two vertical sides shrink to single points: the top side, one point, the bottom side, one point |
| Raster.PlanSlipFixed | example/factory/tft.cpp:43-51 | The set-up with only line 50 corrected to `delta_y = -delta_y`: unchanged for lines that do not go upwards, vertical increment `y1 - y2` with direction -1 for those that do |
| Raster.LinePointsSlipFixed | example/factory/tft.cpp:56-71 | The source's loop run under that set-up: `distance + 1` points |
| Raster.MirrorStateAt | example/factory/tft.cpp:56-71 | Turning the vertical direction round reflects every loop state in the horizontal line through the start |
| Raster.SlipFixedMirrorsDownward | example/factory/tft.cpp:43-71 | With only the slip fixed, an upward line is the downward line of the same height reflected in `y == y1`: as many points, the same x at each, the mirrored y |
| Raster.SlipFixedEndNeverDrawn | example/factory/tft.cpp:56-71 | With only the slip fixed, the loop still never draws `(x2, y2)` unless it is the start, in every direction |
| Raster.IntendedLinePoints | example/factory/tft.cpp:25-72 | The line as intended: `distance + 1` points |
| Raster.AlongEnd | example/factory/tft.cpp:56-71 | The intended interpolation starts at the start coordinate and finishes at the end coordinate |
| Raster.IntendedLineEndpoints | example/factory/tft.cpp:25-72 | The intended line has one more point than the larger of the horizontal and vertical distances, from `(x1, y1)` to `(x2, y2)` inclusive, and no point is drawn twice |
| Raster.IntendedLinePointsDistinct | example/factory/tft.cpp:25-72 | The points of the intended line are pairwise distinct |
| Raster.AlongMajor | example/factory/tft.cpp:56-71 | Along the axis with the larger distance, the intended line moves exactly one step per point |
| Raster.OctantFrom | example/factory/tft.cpp:87-102 | The pairs the loop visits from `(a, b)` on: stop once `a > b`; otherwise visit `(a, b)`, then `a++`, and `b--` when `a*a + b*b > r*r` |
| Raster.Octant | example/factory/tft.cpp:84-102 | The loop starts at `a = 0`, `b = r` |
| Raster.OctantShape | example/factory/tft.cpp:87-102 | The circle loop visits `(a, b)` for `a = 0, 1, ...` in turn. Each `b` is the largest value with `a*a + b*b <= r*r` and `a <= b`. Each pass lowers `b` by at most one, and there are at most `b - a + 1` passes |
| Raster.OctantStep | example/factory/tft.cpp:97-101 | One pass (`a++`, then `b--` when the point falls outside `r`) keeps that invariant |
| Raster.OctantAdvance | example/factory/tft.cpp:87-102 | One pass moves the pair `(a, b)` from the pairs still to visit to the visited ones |
| Raster.OctantSize | example/factory/tft.cpp:87-102 | The loop runs between 1 and `r + 1` times; for `r == 0` it runs once, at `(0, 0)` |
| Raster.Ring | example/factory/tft.cpp:89-96 | One pass plots eight points |
| Raster.RingOnCircle | example/factory/tft.cpp:89-96 | The eight points of a pass are the reflections of `(a, b)` in the axes and diagonals: all at squared distance `a*a + b*b` from the centre |
| Raster.Rings | example/factory/tft.cpp:87-102 | `n` passes plot `8n` points |
| Raster.CirclePassTrace | example/factory/tft.cpp:87-102 | After one more pass the trace holds the plot of one more pair's eight points |
| Raster.RingsOnDisc | example/factory/tft.cpp:87-102 | Points of pairs inside radius `r` lie within distance `r` of the centre |
| Raster.CirclePoints | example/factory/tft.cpp:82-103 | The points the circle draws: the eight points of each visited pair, pair after pair |
| Raster.CircleOnDisc | example/factory/tft.cpp:82-103 | Every circle point lies within distance `r` of the centre. There are at most `8(r+1)` points. Radius 0 plots the centre eight times |
| Raster.PictureLength | example/factory/tft.cpp:124 | The unswapped pixel count as written: `(w-x)*(h-y)` converted to `uint32_t`, which is the plain product when `x <= w` and `y <= h` |
| Raster.ProductFits | example/factory/tft.cpp:124 | A product of two 16-bit counts fits in 32 bits |
| Raster.IntendedPictureLength | example/factory/tft.cpp:107 | The intended count is, for every start `(x, y)` at which the window does not wrap, the number of pixels of the window `lcd_address_set(x, y, x + w - 1, y + h - 1)` opens; an empty picture counts 0 |
| Raster.WindowPixels | example/factory/tft.cpp:107 | The pixels of the window opened for a `w` by `h` picture at `(x, y)`, counted from the 16-bit corners sent |
| Raster.PictureIntendedFillsWindow | example/factory/tft.cpp:107 | When the window does not wrap, the window addressed holds exactly `w*h` pixels |
| Raster.PictureLengthShortfall | example/factory/tft.cpp:124 | As written, a 20x20 picture at `(10, 0)` opens a 400-pixel window and sends 200 pixels |
| Raster.PictureBytes | example/factory/tft.cpp:110-119 | The bytes the swapped path reads are the first `2*w*h` bytes of the buffer's memory image |
| Raster.PictureBody | example/factory/tft.cpp:108-129 | The swapped path sends `2*w*h` single bytes; the unswapped path sends `PictureLength` words |
| Raster.PictureSwapWire | example/factory/tft.cpp:108-129 | The swapped path puts the picture's memory bytes on the wire. When both paths count the same pixels, swapped equals, on the wire, the unswapped path applied to the byte-exchanged picture |
| Raster.Burst | example/factory/tft.cpp:143 | One burst of exactly `len*2` bytes, the count in 32 bits |
| Raster.BurstWire | example/factory/tft.cpp:132-147 | When the count does not wrap, the burst equals, on the wire, the commented-out per-pixel 16-bit loop applied to byte-exchanged pixels |
| FactoryDriver.Driver.constructor | example/factory/tft_driver.cpp:6 | A new driver has an empty trace and orientation 0 |
| FactoryDriver.Driver.Transfer | example/factory/tft_driver.cpp:33 | A transfer needs chip select low, and D/C low exactly for a command. It appends its event and changes nothing else |
| FactoryDriver.Driver.SendData8 | example/factory/tft_driver.cpp:28-37 | Appends one data byte, then leaves CS high and D/C low |
| FactoryDriver.Driver.SendData16 | example/factory/tft_driver.cpp:39-48 | Appends one data word, then leaves CS high and D/C low |
| FactoryDriver.Driver.SendCmd | example/factory/tft_driver.cpp:50-59 | Appends one command byte, then leaves CS and D/C high |
| FactoryDriver.Driver.AddressSet | example/factory/tft_driver.cpp:61-83 | Appends `AddressWindow` for the stored orientation. With the stored orientation valid it appends seven events and leaves CS and D/C high; outside 0..3 it sends nothing and leaves the pins alone |
| FactoryDriver.Driver.SetRotation | example/factory/tft_driver.cpp:85-105 | Stores `r % 4` and appends MADCTL with that orientation's byte |
| FactoryDriver.Driver.Init | example/factory/tft_driver.cpp:107-205 | Sets orientation 0 and drives every pin high. Appends exactly the power-on sequence |
| FactoryDriver.Driver.PulseReset | example/factory/tft_driver.cpp:113-116 | Reset low, 100 ms, reset high, 100 ms |
| FactoryDriver.Driver.WriteRegisters1 | example/factory/tft_driver.cpp:121-132 | Appends the first block of register writes |
| FactoryDriver.Driver.WriteRegisters2 | example/factory/tft_driver.cpp:133-142 | Appends the second block of register writes |
| FactoryDriver.Driver.WriteRegisters3 | example/factory/tft_driver.cpp:143-154 | Appends the third block of register writes |
| FactoryDriver.Driver.WriteRegisters4 | example/factory/tft_driver.cpp:155-165 | Appends the fourth block of register writes |
| FactoryDriver.Driver.WriteGammaF0 | example/factory/tft_driver.cpp:167-181 | Appends gamma table 0xF0 and its fourteen bytes |
| FactoryDriver.Driver.WriteGammaF1 | example/factory/tft_driver.cpp:183-197 | Appends gamma table 0xF1 and its fourteen bytes |
| FactoryDriver.Driver.SendData8Run | example/factory/tft_driver.cpp:167-197 | Seven data-byte transfers append those seven bytes in order |
| FactoryDriver.Driver.WakeUpPanel | example/factory/tft_driver.cpp:199-204 | INVON, SLPOUT and DISPON, each followed by 120 ms |
| FactoryTft.Fill | example/factory/tft.cpp:7-18 | Appends the window `xsta..xend-1` by `ysta..yend-1`, then `FillPixels` 16-bit copies of the colour. After any pixel CS is high and D/C low; with no pixel, the pins are as the window left them |
| FactoryTft.DrawPoint | example/factory/tft.cpp:19-23 | Appends exactly `PointEvents`: with a valid orientation, the seven-event 1x1 window and then the colour's low byte as the eighth |
| FactoryTft.LineSetup | example/factory/tft.cpp:30-55 | Computes the set-up of `PlanAsWritten`, including the `delta_y` slip |
| FactoryTft.DrawLine | example/factory/tft.cpp:25-72 | Appends the plot of `LinePoints`, in order, and leaves CS high and D/C low |
| FactoryTft.LineAdvance | example/factory/tft.cpp:59-70 | One pass of the error update is `Advance` |
| FactoryTft.DrawNextPoint | example/factory/tft.cpp:58 | Plotting a point, with its coordinates converted to 16 bits, extends the plotted prefix by that point and leaves CS high and D/C low |
| FactoryTft.DrawRectangle | example/factory/tft.cpp:74-80 | Requires the four sides' distances below 65535 (see `Raster.RectangleSidesBounded`). Appends the plots of the four sides in the source's order and leaves CS high and D/C low |
| FactoryTft.DrawCircle | example/factory/tft.cpp:82-103 | Appends the plot of `CirclePoints`: eight points for each pair of the octant, in order, and leaves CS high and D/C low |
| FactoryTft.DrawRing | example/factory/tft.cpp:89-96 | Appends the eight points of one pass in the source's order and leaves CS high and D/C low |
| FactoryTft.DrawRingHalf | example/factory/tft.cpp:89-96 | Four consecutive points of a pass extend the plotted prefix by four and leave CS high and D/C low |
| FactoryTft.DrawRingPoint | example/factory/tft.cpp:89-96 | One point of a pass extends the plotted prefix by one and leaves CS high and D/C low |
| FactoryTft.ShowPicture | example/factory/tft.cpp:105-130 | Appends the window `x..x+w-1` by `y..y+h-1` (in 16 bits), then `PictureBody`. After any pixel CS is high and D/C low; with none, the pins are as the window left them |
| FactoryTft.SendPictureBytes | example/factory/tft.cpp:108-121 | The `w` by `h` double loop sends the first `2*w*h` memory bytes of the picture, one by one; when it sends any, CS ends high and D/C low, otherwise the pins are unchanged |
| FactoryTft.SendPictureRun | example/factory/tft.cpp:114-119 | The inner loop sends `h` more pixels, two bytes each, and advances `k` by `h`; when it sends any, CS ends high and D/C low, otherwise the pins are unchanged |
| FactoryTft.SendPictureWords | example/factory/tft.cpp:124-128 | The unswapped loop sends the first `len` words as 16-bit transfers; when it sends any, CS ends high and D/C low, otherwise the pins are unchanged |
| FactoryTft.PushColors | example/factory/tft.cpp:132-147 | Appends one burst of `len*2` memory bytes, then leaves CS and D/C high |
| FactoryTft.PushColorsWindow | example/factory/tft.cpp:149-158 | Appends the window, then one burst of `len*2` memory bytes |
| LcdDriver.Lcd.constructor | example/lcd/lcd_driver.cpp:5-7 | A new driver has no settings, orientation 0 and an empty trace |
| LcdDriver.Lcd.Transfer | example/lcd/lcd_driver.cpp:24 | A transfer needs chip select low, and D/C low exactly for a command. It appends its event |
| LcdDriver.Lcd.SendData8 | example/lcd/lcd_driver.cpp:19-28 | Needs stored settings. Appends one data byte, then leaves CS high and D/C low |
| LcdDriver.Lcd.SendData16 | example/lcd/lcd_driver.cpp:30-39 | Needs stored settings. Appends one data word, then leaves CS high and D/C low |
| LcdDriver.Lcd.SendCmd | example/lcd/lcd_driver.cpp:41-50 | Needs stored settings. Appends one command byte, then leaves CS and D/C high |
| LcdDriver.Lcd.AddressSet | example/lcd/lcd_driver.cpp:52-70 | Appends the same `AddressWindow` as the factory copy, for the stored orientation: seven events ending with CS and D/C high when it is valid, nothing and unchanged pins otherwise |
| LcdDriver.Lcd.PushColors | example/lcd/lcd_driver.cpp:72-83 | Appends the window, then one burst whose byte count is `(width-x)*(hight-y)*2` in 32 bits |
| LcdDriver.Lcd.SetRotation | example/lcd/lcd_driver.cpp:85-102 | Stores `r % 4` and appends MADCTL with the same byte as the factory copy |
| LcdDriver.Lcd.Sleep | example/lcd/lcd_driver.cpp:104-107 | Sleep-in, then 100 ms |
| LcdDriver.Lcd.Init | example/lcd/lcd_driver.cpp:109-209 | Stores the settings, sets orientation 0 and drives the pins high. Appends the same power-on sequence as the factory copy |
| LcdDriver.Lcd.GpioInit | example/lcd/lcd_driver.cpp:9-17 | D/C, CS and reset driven high; nothing on the bus |
| LcdDriver.Lcd.PulseReset | example/lcd/lcd_driver.cpp:117-120 | Needs stored settings. Reset low, 100 ms, reset high, 100 ms |
| LcdDriver.Lcd.WriteRegisters1 | example/lcd/lcd_driver.cpp:125-136 | Appends the first block of register writes |
| LcdDriver.Lcd.WriteRegisters2 | example/lcd/lcd_driver.cpp:137-146 | Appends the second block of register writes |
| LcdDriver.Lcd.WriteRegisters3 | example/lcd/lcd_driver.cpp:147-158 | Appends the third block of register writes |
| LcdDriver.Lcd.WriteRegisters4 | example/lcd/lcd_driver.cpp:159-169 | Appends the fourth block of register writes |
| LcdDriver.Lcd.WriteGammaF0 | example/lcd/lcd_driver.cpp:171-185 | Appends gamma table 0xF0 and its fourteen bytes |
| LcdDriver.Lcd.WriteGammaF1 | example/lcd/lcd_driver.cpp:187-201 | Appends gamma table 0xF1 and its fourteen bytes |
| LcdDriver.Lcd.SendData8Run | example/lcd/lcd_driver.cpp:171-201 | Seven data-byte transfers append those seven bytes in order |
| LcdDriver.Lcd.WakeUpPanel | example/lcd/lcd_driver.cpp:203-208 | INVON, SLPOUT and DISPON, each followed by 120 ms |
| Gc9a01Rotation.Rotate | lib/TFT_eSPI/TFT_Drivers/GC9A01_Rotation.h:4-57 | The stored rotation is `m % 4`, so always below 4 |
| Gc9a01Rotation.RotateQuarter | lib/TFT_eSPI/TFT_Drivers/GC9A01_Rotation.h:4 | Only `m % 4` matters |
| Gc9a01Rotation.RotateIdempotent | lib/TFT_eSPI/TFT_Drivers/GC9A01_Rotation.h:4-57 | Rotating twice to the same orientation is the same as rotating once |
| Gc9a01Rotation.RotateExtent | lib/TFT_eSPI/TFT_Drivers/GC9A01_Rotation.h:18-55 | Portrait restores the initial width and height and landscape exchanges them; the pixel count never changes |
| Gc9a01Rotation.RotateOffsetsMatchDrivers | lib/TFT_eSPI/TFT_Drivers/GC9A01_Rotation.h:10-52 | With `CGRAM_OFFSET` on a 128-wide panel, `colstart` and `rowstart` equal the column and row offsets the hand-written drivers add. Otherwise they are left as they were |
| Gc9a01Rotation.Display.constructor | lib/TFT_eSPI/TFT_Drivers/GC9A01_Rotation.h:18-19 | A new display is in rotation 0 with its initial size and no offsets |
| Gc9a01Rotation.Display.SetRotation | lib/TFT_eSPI/TFT_Drivers/GC9A01_Rotation.h:4-57 | The new geometry is `Rotate` of the old one. It writes MADCTL with the byte the hand-written drivers send for the same orientation |

## Left out

- SPI configuration is not modelled: `SPI.begin` (which names MOSI also as MISO), `setFrequency`, `beginTransaction` settings and the SPI mode. The settings record is stored by `Init` but no pin number or frequency in it affects the trace.
- GPIO `pinMode` calls are not modelled; pin levels are fields of the driver objects. `lcd_gpio_init` of the factory copy also drives the backlight pin, modelled as the `backlight` field.
- `lcd_init` in `example/lcd/lcd_driver.cpp` stores the address of its by-value `SPIClass` parameter, which dangles once it returns (line 113). The model has one bus per driver object and does not capture this.
- LcdDriver.Lcd: every transfer and every pin change requires stored settings (`Ready`). Each pin macro and transfer dereferences `_lcd_setting` (`example/lcd/lcd_driver.h:23-29`), which is null until `lcd_init` stores it at `example/lcd/lcd_driver.cpp:111`; calling them earlier is undefined behaviour, with no defined result to model.
- LcdDriver.Lcd.PushColors, Raster.PictureLength and FactoryTft.ShowPicture: the `int` product `(w-x)*(h-y)` is modelled as the mathematical product converted to `uint32_t`. It can overflow a 32-bit `int` (for example `w = h = 65535` at `x = y = 0`), which is undefined in C; the model wraps it in two's complement instead.
- FactoryTft.ShowPicture: requires the picture to hold as many pixels as the path reads, and its memory image to fit in 32-bit addresses (`2 * |pic| <= 2^32`). Reading past the buffer is undefined in C.
- FactoryTft.PushColors, FactoryTft.PushColorsWindow and LcdDriver.Lcd.PushColors: like `Raster.Burst`, they require the buffer to hold the bytes sent. Reading past the buffer is undefined in C.
- FactoryTft.DrawLine: requires `distance < 65535`. The source's `uint16_t` loop counter makes the loop run forever at `distance == 65535`, and the model does not include that non-terminating case.
- FactoryTft.DrawRectangle: requires the same of each side, which holds exactly when the corners are less than 65535 apart horizontally and `y2 - y1 < 65535` (`Raster.RectangleSidesBounded`). An upward vertical side takes no step, so `y2` may lie any distance above `y1`.
- Buffers are read as the little-endian ESP32 lays them out (`Bus.LeBytes`); other byte orders are not modelled.
- The bodies of `lcd_init`, of one pass of `LCD_Draw_Circle` and of `LCD_ShowPicture` are split into helper methods. Each helper covers a run of consecutive source lines, and the helpers are composed in the source's order.
- `lcd_fill_color` is declared in `example/lcd/lcd_driver.h:52-53` but defined nowhere, so there is nothing to model.
- In the TFT_eSPI fragment, the pin handling of `writecommand`/`writedata` is not modelled, and `CGRAM_OFFSET` is a boolean flag of the display rather than a build-time switch.
- Timing is not modelled: delays are events with their durations, and there is no concurrency.
- The LVGL demo `lvgl_gui.cpp` and the pin tables `pin_config.h` are not part of this model.

## Findings

| source | as written | input that shows it | evidently intended | confidence | as-written member | corrected member |
|---|---|---|---|---|---|---|
| example/factory/tft.cpp:22 | `lcd_send_data8(color)` sends one byte, the colour's low eight bits, although register 0x3A is set to 0x05, 16 bits per pixel (`example/factory/tft_driver.cpp:140-141`) | `LCD_DrawPoint(0, 0, 0xF800)` (red) puts the same bytes on the bus as `LCD_DrawPoint(0, 0, 0x0000)` (black) | `lcd_send_data16(color)` | not executed | Raster.PointDropsHighByte | Raster.IntendedPointColour |
| example/factory/tft.cpp:50 | `delta_y = -delta_x` when `y2 < y1`: the vertical increment is taken from the horizontal one after that has been made non-negative | `LCD_DrawLine(5, 10, 5, 0)` draws only `(5, 10)`. Every upward line keeps `y == y1`, and an upward rectangle has no vertical sides | `delta_y = -delta_y`: an upward line is then the downward line of the same height reflected in `y == y1`. Reaching `(x2, y2)` also needs the fix of the next row, because the loop alone still misses the end (`Raster.SlipFixedEndNeverDrawn`); `Raster.IntendedLineEndpoints` corrects both | not executed | Raster.UpwardLineKeepsY | Raster.SlipFixedMirrorsDownward |
| example/factory/tft.cpp:56-71 | `distance + 1` passes, but the first pass cannot step, because the errors start at 0 and the threshold test is strict, so the start is drawn twice | `LCD_DrawLine(0, 0, 3, 0)` draws `(0,0), (0,0), (1,0), (2,0)` and never `(3, 0)` | Every point from `(x1, y1)` to `(x2, y2)` drawn once, end included | not executed | Raster.LineEndNeverDrawn | Raster.IntendedLineEndpoints |
| example/factory/tft.cpp:124 | The unswapped path sends `(w - x) * (h - y)` pixels into a window of `w * h` pixels; `example/lcd/lcd_driver.cpp:74` has the same count | `LCD_ShowPicture(10, 0, 20, 20, pic, false)` opens a 400-pixel window and sends 200 pixels | `w * h` pixels | not executed | Raster.PictureLengthShortfall | Raster.PictureIntendedFillsWindow |
