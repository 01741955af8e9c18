# LiquidCrystal over a 74HC595 backpack: a Dafny model

This project models the `LiquidCrystal` driver of SparkCore-LiquidCrystalSPI.
The driver runs an HD44780 character LCD in one of two ways:

- directly, over parallel pins (RS, optional RW, Enable, D0..D7);
- through a 74HC595 shift register, as on the Adafruit SPI/I2C backpack.

On the shift-register path, the driver keeps one byte, `_bitString`, that mirrors the register's outputs. It edits single bits of that byte with `bitWrite`. It then sends the byte out, by hardware SPI or by bit-banging (`writeFast`). The backpack map is fixed by `initSPI`:

| signal | register bit |
|---|---|
| RS | 1 |
| Enable | 2 |
| D4, D5, D6, D7 | 6, 5, 4, 3 |
| backlight | 7 |
| RW | not wired |

The repository has two copies of the class:

- `sparkLiquidCrystalSPI.cpp`: `init` honours `fourbitmode`, and `begin` follows the HD44780U datasheet (figures 23 and 24).
- `firmware/liquid-crystal-spi.cpp`: `init` always chooses 4-bit mode, and `begin` sends its own sequence of nibbles 3, 8, 2, 2, 8 and then six instructions.

Everything else is identical in the two files, apart from delays. The model has one class, `Driver.LiquidCrystal`. It has `Init` and `Begin` for the first file, and `InitFourBitOnly` and `BeginTechnobly` for the second.

Modules:

- `Bits`: the `bitWrite` macro on a byte.
- `Wire`: the pin map (`Wiring`) and the hardware writes as a trace of events.
  - `Level(pin, high)` is one `digitalWrite`.
  - `Latch(frame)` is one `spiSendOut`: the byte the 74HC595 now drives.
  - `NibbleOut`, `ByteOut` and `Emit` specify the events that `write4bits`, `send`, and a whole sequence of transfers produce, on either path.
- `Commands`: the instruction bytes, a decoder of HD44780 instructions (`Decode`), the row clamp of `setCursor`, and the transfer sequences of both `begin`s.
- `Frames`: what each latched frame of `send` and `write4bits` shows on RS, Enable, D4..D7 and the backlight. It also gives the pin-level shape of the parallel path.
- `ShiftRegister`: a 74HC595 driven by the `writeFast` wire. The latched output is the byte written, most significant bit first.
- `Controller`: the HD44780 side. It samples RS and D4..D7 on each falling edge of Enable and pairs the samples into bytes. Its results: every byte sequence sent over the backpack is received as exactly those bytes (`SpiDelivers`), and `createChar` is received as its CGRAM address followed by its eight pixel rows.
- `Startup`: what the controller receives from each `begin`.
- `Driver`: the class. Its fields are the source's, plus a `trace` of hardware writes. Each method's contract ties the new `trace`, `_bitString` and flag fields to the specification functions above.

## Model

| member | source | states |
|---|---|---|
| Bits.BitWrite | sparkLiquidCrystalSPI.cpp:22-24 | bitWrite sets bit b to the value and leaves the other seven bits; a bit number from 8 to 31 leaves the byte unchanged (32 or more is undefined in C++, see Left out) |
| Bits.SetOrClearBits | sparkLiquidCrystalSPI.cpp:22-23 | bitSet/bitClear with a bit below 8 give that bit the value and keep every other bit |
| Bits.BitWriteTwice | sparkLiquidCrystalSPI.cpp:22-24 | a second bitWrite of the same bit overrides the first |
| Bits.ShiftedLowBit | sparkLiquidCrystalSPI.cpp:560 | `(value >> k) & 0x01` is bit k of value |
| Bits.ShiftedOne | sparkLiquidCrystalSPI.cpp:600 | `1 << k` is the mask of bit k |
| Wire.BackpackIsFrameWiring | sparkLiquidCrystalSPI.cpp:246 | the backpack map of initSPI uses distinct bits below 8 for RS, Enable, D4..D7 and backlight |
| Wire.LoadDataBits | sparkLiquidCrystalSPI.cpp:557-561 | after i steps of the write4bits loop, D4..D(3+i) carry the low bits of value in order, and every other bit of the frame is kept |
| Wire.NibbleFrameBits | sparkLiquidCrystalSPI.cpp:556-563 | the frame write4bits latches carries the low nibble on D4..D7 and `_backlight & 1` on the backlight bit, and keeps every other bit |
| Wire.EnablePulse | sparkLiquidCrystalSPI.cpp:533-545 | pulseEnable latches three frames with Enable low, high, low; the other bits are kept; the last frame equals the first |
| Wire.SpiNibbleOut | sparkLiquidCrystalSPI.cpp:548-569 | on the shift-register path write4bits is one latched frame followed by pulseEnable from that frame |
| Wire.SpiByteOut | sparkLiquidCrystalSPI.cpp:511-521 | on the shift-register path send is the RS frame, then write4bits of the high nibble, then of the low nibble |
| Wire.ParallelByteOut | sparkLiquidCrystalSPI.cpp:496-510 | on the parallel path send writes RS (and RW low when wired), then write8bits in 8-bit mode or two write4bits in 4-bit mode |
| Commands.FixedCommands | sparkLiquidCrystalSPI.cpp:29-56 | clear, home and the two scroll bytes decode as clear display, return home and display shift left and right |
| Commands.InitialFunction | sparkLiquidCrystalSPI.cpp:275-278 | init's function flags select the 8-bit interface exactly when fourbitmode is 0 |
| Commands.BeginFunctionFlags | sparkLiquidCrystalSPI.cpp:295-304 | after init and begin, function set decodes as: 8-bit iff fourbitmode is 0, two lines iff lines > 1, 5x10 font iff dotsize != 0 and lines == 1 |
| Commands.BeginKeepsWidth | sparkLiquidCrystalSPI.cpp:295-304 | begin's line and font flags leave the interface width chosen by init |
| Commands.FlagChange | sparkLiquidCrystalSPI.cpp:393-420 | each display or entry toggle sets or clears exactly its flag, keeps the other bits, and repeating it changes nothing |
| Commands.FlagMasks | sparkLiquidCrystalSPI.cpp:39-50 | the flag constants are the single-bit masks the toggles set and clear |
| Commands.FlagsStayLow | sparkLiquidCrystalSPI.cpp:393-452 | a toggle never sets a bit outside the flag field, so the command byte keeps its instruction code |
| Commands.ControlCommandMeans | sparkLiquidCrystalSPI.cpp:395 | `LCD_DISPLAYCONTROL \| flags` decodes as display control with display, cursor and blink equal to flag bits 2, 1, 0 |
| Commands.EntryModeCommandMeans | sparkLiquidCrystalSPI.cpp:433 | `LCD_ENTRYMODESET \| mode` decodes as entry mode with increment and shift equal to mode bits 1, 0 |
| Commands.FunctionCommandMeans | sparkLiquidCrystalSPI.cpp:353 | `LCD_FUNCTIONSET \| flags` decodes as function set with 8-bit, two-line and 5x10 equal to flag bits 4, 3, 2 |
| Commands.CgramCommandMeans | sparkLiquidCrystalSPI.cpp:457-458 | createChar's first command sets the CGRAM address to `(location & 7) << 3`, the start of slot `location mod 8` |
| Commands.ClampRowInTable | sparkLiquidCrystalSPI.cpp:385-389 | the clamped row indexes the four-entry offset table exactly when row <= numlines and row < 4, or row > numlines and 1 <= numlines <= 4 |
| Commands.ClampRowReadsPastTable | sparkLiquidCrystalSPI.cpp:385-389 | on a four-line display, row 4 passes the clamp unchanged and indexes past the table; the intended clamp gives 3 |
| Commands.ClampRowIntendedInTable | sparkLiquidCrystalSPI.cpp:385-387 | with rows counted from 0, the intended clamp keeps rows below numlines and sends the rest to the last row, always inside the table for 1 to 4 lines |
| Commands.DdramCommandMeans | sparkLiquidCrystalSPI.cpp:389 | setCursor's byte sets the DDRAM address to (col + offset) mod 128 |
| Commands.DatasheetInitMeans | sparkLiquidCrystalSPI.cpp:317-365 | begin sends nibbles 3, 3, 3, 2 (4-bit) or three function sets (8-bit), then, as instructions, function set, display on with cursor and blink off, clear, entry left without shift |
| Commands.TechnoblyInitParts | firmware/liquid-crystal-spi.cpp:189-212 | the firmware begin is its five nibbles followed by its six instructions in pairs |
| Commands.TechnoblyInitMeans | firmware/liquid-crystal-spi.cpp:189-212 | the firmware begin sends nibbles then, as instructions, display off, function set, clear, entry left, home, display on |
| Frames.NibbleFrameKeeps | sparkLiquidCrystalSPI.cpp:556-563 | write4bits' frame keeps RS and Enable, shows the nibble on D4..D7 and `_backlight & 1` on the backlight bit |
| Frames.PulseKeeps | sparkLiquidCrystalSPI.cpp:533-545 | each pulse frame has Enable high only in the middle and keeps RS, backlight and D4..D7 |
| Frames.NibbleEvents | sparkLiquidCrystalSPI.cpp:548-569 | write4bits latches the loaded frame and then the three pulse frames |
| Frames.NibbleFrameAt | sparkLiquidCrystalSPI.cpp:548-569 | each of write4bits' four frames shows RS, the nibble and the backlight; Enable is high only in the third |
| Frames.NibbleFrames | sparkLiquidCrystalSPI.cpp:548-569 | all four frames of write4bits at once, as in NibbleFrameAt |
| Frames.SendFrameAt | sparkLiquidCrystalSPI.cpp:511-521 | send latches nine frames, all with RS == mode; frames 1-4 show the high nibble and frames 5-8 the low one, with the backlight; Enable is high only in frames 3 and 7 |
| Frames.SendFrameFirst | sparkLiquidCrystalSPI.cpp:514-515 | send's first frame is the old frame with RS set to mode |
| Frames.SendFrameHigh | sparkLiquidCrystalSPI.cpp:519 | frames 1-4 of send show RS == mode, the high nibble and the backlight |
| Frames.SendHighPlace | sparkLiquidCrystalSPI.cpp:514-519 | frames 1-4 of send are the frames of write4bits(value >> 4) after the RS write |
| Frames.SendFrameLow | sparkLiquidCrystalSPI.cpp:520 | frames 5-8 of send show RS == mode, the low nibble and the backlight; send ends on its last frame |
| Frames.SpiSendFrames | sparkLiquidCrystalSPI.cpp:511-521 | the whole frame sequence of send, as in SendFrameAt for every frame |
| Frames.SpiIgnoresEightBit | sparkLiquidCrystalSPI.cpp:517-520 | on the shift-register path send does the same whatever the 8-bit flag says |
| Frames.StepKeepsBacklight | sparkLiquidCrystalSPI.cpp:562-563 | once the frame shows `_backlight & 1`, every frame of a nibble or byte transfer shows it too |
| Frames.BacklightKept | sparkLiquidCrystalSPI.cpp:562-563 | the backlight setting is shown in every frame of any sequence of transfers |
| Frames.DataLevelsAt | sparkLiquidCrystalSPI.cpp:550-553 | the parallel write loop writes bit i of the value to data pin i, in pin order |
| Frames.ParallelEvents | sparkLiquidCrystalSPI.cpp:496-510 | parallel send is RS (and RW) levels, then the data levels and an Enable pulse once (8-bit) or twice, high nibble first (4-bit) |
| Frames.ParallelOctetLevels | sparkLiquidCrystalSPI.cpp:571-577 | write8bits writes bit i to D(i) for i in 0..7, then pulses Enable |
| Frames.ParallelNibbleLevels | sparkLiquidCrystalSPI.cpp:548-569 | two parallel write4bits write bits 4..7 then bits 0..3 to D0..D3, each followed by an Enable pulse |
| Frames.ParallelSendLevels | sparkLiquidCrystalSPI.cpp:495-510 | parallel send writes RS = mode, RW low when wired, then the value's bits on the data pins around Enable pulses, as above |
| Frames.ParallelSendOctet | sparkLiquidCrystalSPI.cpp:505-506 | the 8-bit case of ParallelSendLevels |
| Frames.ParallelSendNibbles | sparkLiquidCrystalSPI.cpp:507-509 | the 4-bit case of ParallelSendLevels |
| ShiftRegister.Clocked | sparkLiquidCrystalSPI.cpp:599-610 | the first n rounds of writeFast's loop are 3n pin writes |
| ShiftRegister.ShiftInLow | sparkLiquidCrystalSPI.cpp:607 | a clock edge moves the data pin into stage 0 |
| ShiftRegister.ShiftInBit | sparkLiquidCrystalSPI.cpp:607 | a clock edge moves stage k-1 into stage k |
| ShiftRegister.ClockedStages | sparkLiquidCrystalSPI.cpp:599-610 | after n rounds the stages hold the first n bits sent, the most recent in stage 0; outputs and latch are untouched |
| ShiftRegister.SerialWireLatches | sparkLiquidCrystalSPI.cpp:597-613 | when latch, clock and data pins are distinct, the register's outputs equal the byte writeFast wrote |
| ShiftRegister.ClockedFromSampled | sparkLiquidCrystalSPI.cpp:599-612 | the data levels sampled on each rising clock edge from round n on are bits n.. of the byte, in the order sent |
| ShiftRegister.Spell | sparkLiquidCrystalSPI.cpp:600 | the bits writeFast sends, index 0 being bit 7 |
| ShiftRegister.MsbFirstSpell | sparkLiquidCrystalSPI.cpp:597-613 | reassembling the sent bits most significant first gives back the byte |
| ShiftRegister.SerialWireBits | sparkLiquidCrystalSPI.cpp:597-613 | the receiver samples exactly the byte's bits, most significant first, and they reassemble to the byte |
| Controller.LastFrameAppend | sparkLiquidCrystalSPI.cpp:579-589 | the frame after two event runs is the second run's frame started from the first's |
| Controller.StrobesAppend | sparkLiquidCrystalSPI.cpp:533-545 | sampling two runs of events is sampling the first, then the second from the frame the first left |
| Controller.StrobesLatch | sparkLiquidCrystalSPI.cpp:533-545 | one more latched frame is sampled only on a falling Enable edge, and becomes the current frame |
| Controller.PulseStrobes | sparkLiquidCrystalSPI.cpp:533-545 | a loaded frame and its Enable pulse, from Enable low, make exactly one sample of RS and D4..D7 |
| Controller.SpiNibbleStrobes | sparkLiquidCrystalSPI.cpp:548-569 | write4bits over the backpack is sampled once, as the current RS and the value's low nibble, and leaves Enable low |
| Controller.SpiByteStrobes | sparkLiquidCrystalSPI.cpp:511-521 | send over the backpack is sampled twice: (mode, high nibble), then (mode, low nibble); Enable ends low and RS ends at mode |
| Controller.SpiStepStrobes | sparkLiquidCrystalSPI.cpp:495-569 | each transfer is sampled as the nibbles it means to send |
| Controller.SpiEmitStrobes | sparkLiquidCrystalSPI.cpp:483-569 | a sequence of transfers is sampled as the concatenation of their intended nibbles |
| Controller.RsAfterAppend | sparkLiquidCrystalSPI.cpp:514 | the RS level after two transfer runs is the second's, started from the first's |
| Controller.ExpandAppend | sparkLiquidCrystalSPI.cpp:483-569 | the nibbles intended by two transfer runs are those of the first, then those of the second from the RS the first left |
| Controller.ExpandNibbles | sparkLiquidCrystalSPI.cpp:548-569 | bare write4bits calls are meant as one sample each, at unchanged RS |
| Controller.JoinAppend | sparkLiquidCrystalSPI.cpp:519-520 | pairing samples splits at any even boundary |
| Controller.JoinExpandSends | sparkLiquidCrystalSPI.cpp:519-520 | the nibbles of a run of sends pair up, high then low, into exactly the bytes sent |
| Controller.SpiDelivers | sparkLiquidCrystalSPI.cpp:483-522 | over the backpack, from Enable low, any sequence of command and write calls is received as exactly those bytes with their RS |
| Startup.DatasheetInitSplit | sparkLiquidCrystalSPI.cpp:318-365 | the 4-bit begin is four nibbles followed by sends of its four instructions |
| Startup.TechnoblyInitSplit | firmware/liquid-crystal-spi.cpp:189-212 | the firmware begin is five nibbles followed by sends of its six instructions |
| Startup.SpiNibblesThenBytes | sparkLiquidCrystalSPI.cpp:483-569 | nibbles then sends are sampled as the nibbles one by one, then samples that pair into exactly the bytes sent |
| Startup.DatasheetInitDelivers | sparkLiquidCrystalSPI.cpp:318-365 | over the backpack the 4-bit begin is sampled as 3, 3, 3, 2 and then received as function set, display on, clear, entry mode |
| Startup.TechnoblyInitDelivers | firmware/liquid-crystal-spi.cpp:189-212 | over the backpack the firmware begin is sampled as 3, 8, 2, 2, 8 and then received as its six instructions |
| Driver.CharBytes | sparkLiquidCrystalSPI.cpp:456-462 | createChar means one address instruction plus one data byte per row |
| Driver.CreateCharDelivers | sparkLiquidCrystalSPI.cpp:456-462 | over the backpack createChar is received as the CGRAM address of slot `location & 7` (RS low), then each pixel row as data (RS high) |
| Driver.LiquidCrystal.Spi | sparkLiquidCrystalSPI.cpp:193-209 | the shift-register constructor stores the three pins and picks software SPI iff both clock and data pins are given |
| Driver.LiquidCrystal.WriteFast | sparkLiquidCrystalSPI.cpp:597-613 | the loop writes latch low, then per bit from 7 down to 0 data, clock high, clock low, then latch high; with distinct latch, clock and data pins that wire leaves exactly the byte on the 74HC595 outputs |
| Driver.LiquidCrystal.SpiSendOut | sparkLiquidCrystalSPI.cpp:579-589 | spiSendOut latches `_bitString` once, on either path (on the software path by the wire of writeFast) |
| Driver.LiquidCrystal.PulseEnable | sparkLiquidCrystalSPI.cpp:524-546 | pulseEnable appends the Enable low/high/low writes of either path and updates the frame |
| Driver.LiquidCrystal.LoadNibble | sparkLiquidCrystalSPI.cpp:556-563 | the write4bits loop and backlight write leave the nibble on D4..D7 and the backlight bit in `_bitString` |
| Driver.LiquidCrystal.Write4Bits | sparkLiquidCrystalSPI.cpp:548-569 | write4bits appends the events of NibbleOut on either path and leaves its frame |
| Driver.LiquidCrystal.Write8Bits | sparkLiquidCrystalSPI.cpp:571-577 | write8bits appends the eight data levels and an Enable pulse |
| Driver.LiquidCrystal.Send | sparkLiquidCrystalSPI.cpp:495-522 | send appends the events of ByteOut for the current path and leaves its frame |
| Driver.LiquidCrystal.SendPins | sparkLiquidCrystalSPI.cpp:496-510 | the parallel branch of send, as Send |
| Driver.LiquidCrystal.SendFrames | sparkLiquidCrystalSPI.cpp:511-521 | the shift-register branch of send, as Send |
| Driver.LiquidCrystal.Command | sparkLiquidCrystalSPI.cpp:483-485 | command is send with RS low |
| Driver.LiquidCrystal.Write | sparkLiquidCrystalSPI.cpp:487-490 | write is send with RS high and returns 1 |
| Driver.LiquidCrystal.AssignPins | sparkLiquidCrystalSPI.cpp:253-266 | init stores RS, RW, Enable, the eight data pins and the backlight pin, and turns the backlight setting off |
| Driver.LiquidCrystal.Init | sparkLiquidCrystalSPI.cpp:249-292 | init stores the pin map and chooses 4-bit or 8-bit function flags from fourbitmode |
| Driver.LiquidCrystal.InitFourBitOnly | firmware/liquid-crystal-spi.cpp:119-164 | the firmware init stores the pin map and always chooses 4-bit mode |
| Driver.LiquidCrystal.InitSpi | sparkLiquidCrystalSPI.cpp:211-247 | initSPI selects the shift-register path, drives latch high (and clock and data low in software SPI), and installs the backpack map, with the function flags exactly those of init(1): 4-bit, one line, 5x8 dots (0x00) |
| Driver.LiquidCrystal.Clear | sparkLiquidCrystalSPI.cpp:370-374 | clear sends the clear-display instruction |
| Driver.LiquidCrystal.Home | sparkLiquidCrystalSPI.cpp:376-380 | home sends the return-home instruction |
| Driver.LiquidCrystal.SetCursor | sparkLiquidCrystalSPI.cpp:382-390 | setCursor as written sends the DDRAM address col + offset of the clamped row, when that row is inside the table |
| Driver.LiquidCrystal.SetCursorClamped | sparkLiquidCrystalSPI.cpp:382-390 | setCursor with the intended clamp, which on 1 to 4 lines accepts every row |
| Driver.LiquidCrystal.NoDisplay | sparkLiquidCrystalSPI.cpp:393-396 | clears the display-on flag only and sends ControlCommand of the new flags |
| Driver.LiquidCrystal.Display | sparkLiquidCrystalSPI.cpp:397-400 | sets the display-on flag only and sends the control byte |
| Driver.LiquidCrystal.NoCursor | sparkLiquidCrystalSPI.cpp:403-406 | clears the cursor flag only and sends the control byte |
| Driver.LiquidCrystal.Cursor | sparkLiquidCrystalSPI.cpp:407-410 | sets the cursor flag only and sends the control byte |
| Driver.LiquidCrystal.NoBlink | sparkLiquidCrystalSPI.cpp:413-416 | clears the blink flag only and sends the control byte |
| Driver.LiquidCrystal.Blink | sparkLiquidCrystalSPI.cpp:417-420 | sets the blink flag only and sends the control byte |
| Driver.LiquidCrystal.ScrollDisplayLeft | sparkLiquidCrystalSPI.cpp:423-425 | sends the display-shift-left instruction |
| Driver.LiquidCrystal.ScrollDisplayRight | sparkLiquidCrystalSPI.cpp:426-428 | sends the display-shift-right instruction |
| Driver.LiquidCrystal.LeftToRight | sparkLiquidCrystalSPI.cpp:431-434 | sets the increment flag only and sends the entry-mode byte |
| Driver.LiquidCrystal.RightToLeft | sparkLiquidCrystalSPI.cpp:437-440 | clears the increment flag only and sends the entry-mode byte |
| Driver.LiquidCrystal.Autoscroll | sparkLiquidCrystalSPI.cpp:443-446 | sets the shift flag only and sends the entry-mode byte |
| Driver.LiquidCrystal.NoAutoscroll | sparkLiquidCrystalSPI.cpp:449-452 | clears the shift flag only and sends the entry-mode byte |
| Driver.LiquidCrystal.Backlight | sparkLiquidCrystalSPI.cpp:466-472 | backlight on: `_backlight` becomes 1, the backlight bit is set, the frame is latched once and shows the backlight |
| Driver.LiquidCrystal.NoBacklight | sparkLiquidCrystalSPI.cpp:473-479 | backlight off: `_backlight` becomes 0, the backlight bit is cleared, the frame is latched once |
| Driver.LiquidCrystal.CreateChar | sparkLiquidCrystalSPI.cpp:456-462 | createChar emits the CGRAM address command and then the first eight charmap bytes as data, in order |
| Driver.LiquidCrystal.Begin | sparkLiquidCrystalSPI.cpp:294-367 | begin sets the line and font flags, line count and current line, pulls the control lines low, emits the datasheet sequence, and leaves display on and entry left |
| Driver.LiquidCrystal.SetGeometry | sparkLiquidCrystalSPI.cpp:295-304 | two-line flag iff lines > 1, 5x10 flag only on one line, line count stored, current line 0 |
| Driver.LiquidCrystal.RunDatasheetInit | sparkLiquidCrystalSPI.cpp:311-365 | the control lines low, then exactly the events of the datasheet sequence |
| Driver.LiquidCrystal.PullControlLow | sparkLiquidCrystalSPI.cpp:311-315 | RS and Enable low, and RW low only when wired |
| Driver.LiquidCrystal.ResetInterface | sparkLiquidCrystalSPI.cpp:318-350 | the reset part of begin for the width init chose |
| Driver.LiquidCrystal.ResetFourBit | sparkLiquidCrystalSPI.cpp:323-335 | nibbles 3, 3, 3, 2 |
| Driver.LiquidCrystal.ResetEightBit | sparkLiquidCrystalSPI.cpp:341-349 | three function-set commands |
| Driver.LiquidCrystal.FinishBegin | sparkLiquidCrystalSPI.cpp:353-365 | function set, display on, clear, entry mode; leaves display control on and entry mode left |
| Driver.LiquidCrystal.ShowStep | sparkLiquidCrystalSPI.cpp:356-357 | display control reset to display on, cursor and blink off, then sent |
| Driver.LiquidCrystal.ClearStep | sparkLiquidCrystalSPI.cpp:360 | clear within begin |
| Driver.LiquidCrystal.EntryStep | sparkLiquidCrystalSPI.cpp:363-365 | entry mode reset to left without shift, then sent |
| Driver.LiquidCrystal.BeginTechnobly | firmware/liquid-crystal-spi.cpp:166-214 | the firmware begin: the same flags as begin, the control lines low, then the firmware sequence |
| Driver.LiquidCrystal.RunTechnoblyInit | firmware/liquid-crystal-spi.cpp:183-212 | the control lines low, then exactly the events of the firmware sequence |
| Driver.LiquidCrystal.WakeNibbles | firmware/liquid-crystal-spi.cpp:190-200 | nibbles 3, 8, 2, 2, 8 |
| Driver.LiquidCrystal.TechnoblyConfigure | firmware/liquid-crystal-spi.cpp:203-205 | display off, then function set |
| Driver.LiquidCrystal.TechnoblyClearEntry | firmware/liquid-crystal-spi.cpp:207-208 | clear, then entry left |
| Driver.LiquidCrystal.TechnoblyFinish | firmware/liquid-crystal-spi.cpp:210-212 | home, then display on |
| Driver.LiquidCrystal.HomeStep | firmware/liquid-crystal-spi.cpp:210 | home within the firmware begin |

## Left out

- Delays (`delayMicroseconds`) and `pinMode`: they change no state the model tracks.
- SPI configuration (`SPI.begin`, clock divider, data mode, bit order) and `SPI.transfer`. On the hardware-SPI path, `spiSendOut` is one `Latch` of `_bitString`. Its latch-pin writes around the transfer are not recorded.
- `writeSlow` (`shiftOut`): nothing in the driver calls it.
- The `Print` interface and the example sketches.
- The parallel-pin constructors. Only the shift-register constructor is modelled. `liquid-crystal-spi.h` is not part of this model, so the parallel field defaults are unknown. The model leaves every field the constructor does not assign arbitrary. That covers both C++ cases: an object with static storage duration, such as the global `lcd` of both sketches (sparkLiquidCrystalSPI.cpp:689, firmware/examples/lcd-hardware-spi.cpp:96), starts with those fields at 0, and an automatic or heap object starts with them indeterminate. No lemma specialises to the zero start.
- The `_usingSpi` branch at the end of `init`: neither of its arms changes anything.
- `cols` in `begin`: the source does not use it.
- Driver.LiquidCrystal.SetCursor: its precondition asks that the clamped row index the four-entry `row_offsets` table. The source reads outside the array otherwise.
- Bits.BitWrite: for a bit number of 32 or more, `1UL << (bit)` shifts past the width of the 32-bit `unsigned long` of this target, which C++ leaves undefined; the model returns the byte unchanged for every bit number of 8 or more. The backpack map only uses bits below 8; a parallel-pin object whose `_backlight_pin` is 255 reaches this case in `backlight` and `noBacklight` (sparkLiquidCrystalSPI.cpp:469 and 476), which are not guarded by `_usingSpi`.
- Driver.LiquidCrystal.WriteFast: the software-SPI wire is proved to latch `_bitString` only when the latch, clock and data pins are distinct. With shared pins the 74HC595's behaviour is not modelled.
- Controller.SpiDelivers: it requires Enable to be low in the current frame. Every `pulseEnable` leaves it low. Before the first transfer it holds for the sketches' global object, whose zero-initialised `_bitString` has Enable (bit 2) low; for an automatic or heap object nothing makes it so. `begin`'s `digitalWrite` calls for RS and Enable (pin numbers 1 and 2 on the backpack) go to microcontroller pins, not into `_bitString`.
- In the high-level methods, the bytes are named by functions (`ControlCommand`, `EntryModeCommand`, `FunctionCommand`, `DdramCommand`, `CgramCommand`) instead of inline `|` expressions. Each equals the source expression.
- The field comment at sparkLiquidCrystalSPI.cpp:127 gives a different bit layout (bit 3 for Enable, bits 4-7 for DB4-7). The model follows the map that `initSPI` actually installs (Enable on bit 2, D4..D7 on bits 6, 5, 4, 3).

## Findings

| source | as written | input that shows it | evidently intended | confidence | as-written member | corrected member |
|---|---|---|---|---|---|---|
| sparkLiquidCrystalSPI.cpp:385-387 | `if (row > _numlines) row = _numlines-1;` keeps a row equal to `_numlines` | `_numlines == 4`, `row == 4`: `row_offsets[4]` is read, one past the four-entry table | rows count from 0 (the comment says so), so `row >= _numlines` is off the display and should go to the last row | not executed | Commands.ClampRowReadsPastTable | Commands.ClampRowIntendedInTable |
