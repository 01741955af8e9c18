/*
 * The `LiquidCrystal` driver object. Its fields are the driver's pin map,
 * flag bytes, the shift-register frame `_bitString`, and `trace`, every
 * hardware write made so far (see module Wire). Each method is proved to
 * append exactly the writes that the functions of module Wire and Commands
 * specify; the modifies clauses name the only fields each may change. The
 * properties of those functions (modules Frames, Controller, Commands,
 * ShiftRegister, Startup) then carry over to the object.
 */
module Driver {
  import opened Bits
  import opened Wire
  import opened Commands
  import opened ShiftRegister
  import opened Frames
  import opened Controller

  /** One more transfer made from where the transfers done left off. */
  lemma Extend(p: Port, done: seq<Transfer>, t: Transfer, start: seq<Event>, before: seq<Event>, after: seq<Event>)
    requires Wired(p.w)
    requires before == start + Emit(p, done).events
    requires after == before + StepOut(p.(frame := Emit(p, done).frame), t).events
    ensures after == start + Emit(p, done + [t]).events
    ensures Emit(p, done + [t]).frame == StepOut(p.(frame := Emit(p, done).frame), t).frame
  {
    var o := Emit(p, done);
    var r := StepOut(p.(frame := o.frame), t);
    EmitSnoc(p, done, t);
    assert after == start + (o.events + r.events);
  }

  /** Proof step, not driver behaviour: two transfers appended one at a time are one pair appended. */
  lemma StepsPair(r: seq<Transfer>, a: Transfer, b: Transfer)
    ensures r + [a] + [b] == r + [a, b]
  {}

  /** Proof step, not driver behaviour: four transfers appended one at a time are one group appended. */
  lemma StepsAppend(r: seq<Transfer>, a: Transfer, b: Transfer, c: Transfer, d: Transfer)
    ensures r + [a] + [b] + [c] + [d] == r + [a, b, c, d]
  {}

  /**
   * What createChar means the controller to receive: the CGRAM address of
   * character slot `location` as an instruction, then the pixel rows as data.
   */
  function CharBytes(location: bv8, rows: seq<bv8>): (bs: seq<Received>)
    ensures |bs| == |rows| + 1
  {
    [Received(false, CgramCommand(location))] + seq(|rows|, i requires 0 <= i < |rows| => Received(true, rows[i]))
  }

  /** The transfers of createChar grow by one data byte per row. */
  lemma CharSendsSnoc(location: bv8, rows: seq<bv8>, i: nat)
    requires i < |rows|
    ensures Sends(CharBytes(location, rows[..i + 1])) == Sends(CharBytes(location, rows[..i])) + [Byte(rows[i], true)]
  {
    assert CharBytes(location, rows[..i + 1]) == CharBytes(location, rows[..i]) + [Received(true, rows[i])];
  }

  /** Before any row, createChar's transfers are the address command alone. */
  lemma CharSendsStart(location: bv8, rows: seq<bv8>)
    ensures Sends(CharBytes(location, rows[..0])) == [] + [Byte(CgramCommand(location), false)]
  {
    assert CharBytes(location, rows[..0]) == [Received(false, CgramCommand(location))];
  }

  /**
   * Over the SPI backpack, the nibble strobes of createChar's traffic pair
   * up into the CGRAM address instruction of slot `location & 7` followed
   * by exactly the given rows as data.
   */
  lemma CreateCharDelivers(p: Port, location: bv8, rows: seq<bv8>)
    requires p.spi && FrameWiring(p.w) && !Bit(p.frame, p.w.enable)
    ensures var got := Join(Strobes(p.w, p.frame, Emit(p, Sends(CharBytes(location, rows))).events));
            |got| == |rows| + 1
            && !got[0].rs && Decode(got[0].value) == Cgram((location & 0x07) << 3)
            && forall i | 0 <= i < |rows| :: got[i + 1] == Received(true, rows[i])
  {
    SpiDelivers(p, CharBytes(location, rows));
    CgramCommandMeans(location);
  }

  class LiquidCrystal {
    var rsPin: uint8
    var rwPin: uint8
    var enablePin: uint8
    var dataPins: array<uint8>
    var backlightPin: uint8
    var backlight: bv8
    /** The byte last written to the 74HC595, edited in place by bitWrite. */
    var bitString: bv8
    var displayFunction: bv8
    var displayControl: bv8
    var displayMode: bv8
    var usingSpi: bool
    var softSpi: bool
    var latchPin: uint8
    var sclkPin: uint8
    var sdatPin: uint8
    var numLines: uint8
    var currLine: uint8
    /** Every hardware write made so far, in order. */
    var trace: seq<Event>

    predicate Valid()
      reads this
    {
      dataPins.Length == 8
    }

    /** What the low-level routines read: transport, pin map, 8-bit flag, backlight, frame. */
    function Link(): (p: Port)
      requires Valid()
      reads this, dataPins
      ensures Wired(p.w)
    {
      Port(usingSpi, Wiring(rsPin, rwPin, enablePin, dataPins[..], backlightPin),
           displayFunction & EightBitMode != 0, backlight, bitString)
    }

    function Pins(): SerialPins
      reads this
    {
      SerialPins(latchPin, sclkPin, sdatPin)
    }

    /**
     * The shift-register constructor: software SPI when both a clock and a
     * data pin are given, hardware SPI otherwise. The fields it does not
     * assign hold whatever the object's storage held.
     */
    constructor Spi(ss: uint8, sclk: uint8, sdat: uint8)
      ensures Valid() && fresh(dataPins)
      ensures latchPin == ss && sclkPin == sclk && sdatPin == sdat
      ensures softSpi <==> sclk != NoPin && sdat != NoPin
      ensures trace == []
    {
      latchPin := ss;
      softSpi := false;
      if sclk != 255 && sdat != 255 {
        softSpi := true;
      }
      sclkPin := sclk;
      sdatPin := sdat;
      dataPins := new uint8[8];
      trace := [];
    }

    /** digitalWrite, recorded. */
    method DigitalWrite(pin: uint8, high: bool)
      requires Valid()
      modifies this`trace
      ensures trace == old(trace) + [Level(pin, high)]
    {
      trace := trace + [Level(pin, high)];
    }

    // -------------------------------------------------------------------------
    // Low level
    // -------------------------------------------------------------------------

    /**
     * writeFast: the pin writes that clock one byte into the 74HC595, most
     * significant bit first, between latch low and latch high.
     */
    method WriteFast(value: bv8) returns (wire: seq<Event>)
      ensures wire == SerialWire(Pins(), value)
      ensures Distinct(Pins()) ==> forall r: Register | !r.clock :: Run(Pins(), r, wire).outputs == value
    {
      var pins := Pins();
      wire := [Level(latchPin, false)];
      for i := 0 to 8
        invariant wire == [Level(pins.latch, false)] + Clocked(pins, value, i)
      {
        ShiftedOne(7 - i);
        var high := value & ((1 as bv8) << (7 - i)) != 0;
        wire := wire + [Level(sdatPin, high), Level(sclkPin, true), Level(sclkPin, false)];
      }
      wire := wire + [Level(latchPin, true)];
      if Distinct(pins) {
        forall r: Register | !r.clock ensures Run(pins, r, wire).outputs == value {
          SerialWireLatches(pins, r, value);
        }
      }
    }

    /**
     * spiSendOut: the frame reaches the 74HC595 outputs, recorded as one
     * Latch event. On the software path this is what the wire of writeFast
     * does to the chip (when its three pins are distinct).
     */
    method SpiSendOut()
      requires Valid()
      modifies this`trace
      ensures trace == old(trace) + [Latch(bitString)]
    {
      if softSpi {
        var wire := WriteFast(bitString);
      }
      trace := trace + [Latch(bitString)];
    }

    /** pulseEnable. */
    method PulseEnable()
      requires Valid()
      modifies this`trace, this`bitString
      ensures var o := PulseOut(old(Link()));
              trace == old(trace) + o.events && bitString == o.frame
    {
      if !usingSpi {
        DigitalWrite(enablePin, false);
        DigitalWrite(enablePin, true);
        DigitalWrite(enablePin, false);
      } else {
        bitString := BitWrite(bitString, enablePin, false);
        SpiSendOut();
        bitString := BitWrite(bitString, enablePin, true);
        SpiSendOut();
        bitString := BitWrite(bitString, enablePin, false);
        SpiSendOut();
      }
    }

    /**
     * The shift-register half of write4bits before its spiSendOut: bit k of
     * value into frame bit `_data_pins[4 + k]`, then `_backlight & 1` into
     * the backlight bit.
     */
    method LoadNibble(value: bv8)
      requires Valid()
      modifies this`bitString
      ensures bitString == NibbleFrame(old(bitString), value, Link().w, backlight)
    {
      ghost var w := Link().w;
      for i := 4 to 8
        invariant bitString == LoadData(old(bitString), value, w, i - 4)
      {
        ShiftedLowBit(value, i - 4);
        bitString := BitWrite(bitString, dataPins[i], (value >> (i - 4)) & 0x01 != 0);
      }
      bitString := BitWrite(bitString, backlightPin, backlight & 0x01 != 0);
    }

    /** write4bits: the low nibble of value onto D4..D7, then an Enable pulse. */
    method Write4Bits(value: bv8)
      requires Valid()
      modifies this`trace, this`bitString
      ensures var o := NibbleOut(old(Link()), value);
              trace == old(trace) + o.events && bitString == o.frame
    {
      ghost var p := Link();
      ghost var head: seq<Event>;
      if !usingSpi {
        for i := 0 to 4
          invariant bitString == old(bitString)
          invariant trace == old(trace) + DataLevels(dataPins[..], value, i)
        {
          ShiftedLowBit(value, i);
          DigitalWrite(dataPins[i], (value >> i) & 0x01 != 0);
        }
        head := DataLevels(p.w.data, value, 4);
      } else {
        LoadNibble(value);
        SpiNibbleOut(p, value, bitString);
        SpiSendOut();
        head := [Latch(bitString)];
      }
      ghost var q := Link();
      assert q == p.(frame := bitString) && trace == old(trace) + head;
      PulseEnable();
    }

    /** write8bits: value onto D0..D7, then an Enable pulse. */
    method Write8Bits(value: bv8)
      requires Valid()
      modifies this`trace, this`bitString
      ensures var o := OctetOut(old(Link()), value);
              trace == old(trace) + o.events && bitString == o.frame
    {
      for i := 0 to 8
        invariant bitString == old(bitString)
        invariant trace == old(trace) + DataLevels(dataPins[..], value, i)
      {
        ShiftedLowBit(value, i);
        DigitalWrite(dataPins[i], (value >> i) & 0x01 != 0);
      }
      PulseEnable();
    }

    /** send: one instruction (mode false) or data byte (mode true). */
    method Send(value: bv8, mode: bool)
      requires Valid()
      modifies this`trace, this`bitString
      ensures var o := ByteOut(old(Link()), value, mode);
              trace == old(trace) + o.events && bitString == o.frame
    {
      if !usingSpi {
        SendPins(value, mode);
      } else {
        SendFrames(value, mode);
      }
    }

    /** The parallel branch of send: RS (and R/W) levels, then write8bits or two write4bits. */
    method SendPins(value: bv8, mode: bool)
      requires Valid() && !usingSpi
      modifies this`trace, this`bitString
      ensures var o := ByteOut(old(Link()), value, mode);
              trace == old(trace) + o.events && bitString == o.frame
    {
      ghost var p := Link();
      ParallelByteOut(p, value, mode);
      DigitalWrite(rsPin, mode);
      if rwPin != 255 {
        DigitalWrite(rwPin, false);
      }
      ghost var sel := SelectLevels(p.w, mode);
      assert trace == old(trace) + sel && Link() == p;
      if displayFunction & EightBitMode != 0 {
        Write8Bits(value);
        assert trace == old(trace) + (sel + OctetOut(p, value).events);
      } else {
        ghost var hi := NibbleOut(p, value >> 4);
        ghost var lo := NibbleOut(p.(frame := hi.frame), value);
        Write4Bits(value >> 4);
        assert Link() == p.(frame := hi.frame) && trace == old(trace) + sel + hi.events;
        Write4Bits(value);
        assert trace == old(trace) + (sel + hi.events + lo.events);
      }
    }

    /** The shift-register branch of send: RS into the frame and out, then two write4bits. */
    method SendFrames(value: bv8, mode: bool)
      requires Valid() && usingSpi
      modifies this`trace, this`bitString
      ensures var o := ByteOut(old(Link()), value, mode);
              trace == old(trace) + o.events && bitString == o.frame
    {
      ghost var p := Link();
      bitString := BitWrite(bitString, rsPin, mode);
      ghost var r := bitString;
      SpiByteOut(p, value, mode, r);
      ghost var hi := NibbleOut(p.(frame := r), value >> 4);
      ghost var lo := NibbleOut(p.(frame := hi.frame), value);
      SpiSendOut();
      assert Link() == p.(frame := r) && trace == old(trace) + [Latch(r)];
      Write4Bits(value >> 4);
      assert Link() == p.(frame := hi.frame) && trace == old(trace) + [Latch(r)] + hi.events;
      Write4Bits(value);
      assert ByteOut(p, value, mode).events == [Latch(r)] + hi.events + lo.events;
      assert trace == old(trace) + ([Latch(r)] + hi.events + lo.events);
    }

    /** command: send with RS low. */
    method Command(value: bv8)
      requires Valid()
      modifies this`trace, this`bitString
      ensures var o := ByteOut(old(Link()), value, false);
              trace == old(trace) + o.events && bitString == o.frame
    {
      Send(value, false);
    }

    /** write: send with RS high; reports one byte written. */
    method Write(value: bv8) returns (n: nat)
      requires Valid()
      modifies this`trace, this`bitString
      ensures n == 1
      ensures var o := ByteOut(old(Link()), value, true);
              trace == old(trace) + o.events && bitString == o.frame
    {
      Send(value, true);
      return 1;
    }

    // -------------------------------------------------------------------------
    // Set-up
    // -------------------------------------------------------------------------

    /** The pin map and backlight setting that both versions of init store. */
    method AssignPins(rs: uint8, rw: uint8, enable: uint8, d0: uint8, d1: uint8, d2: uint8, d3: uint8,
                      d4: uint8, d5: uint8, d6: uint8, d7: uint8, backlightBit: uint8)
      requires Valid()
      modifies this`rsPin, this`rwPin, this`enablePin, this`backlightPin, this`backlight, dataPins
      ensures rsPin == rs && rwPin == rw && enablePin == enable && backlightPin == backlightBit && backlight == 0
      ensures dataPins[..] == [d0, d1, d2, d3, d4, d5, d6, d7]
    {
      rsPin := rs;
      rwPin := rw;
      enablePin := enable;
      backlightPin := backlightBit;
      backlight := 0;
      dataPins[0] := d0;
      dataPins[1] := d1;
      dataPins[2] := d2;
      dataPins[3] := d3;
      dataPins[4] := d4;
      dataPins[5] := d5;
      dataPins[6] := d6;
      dataPins[7] := d7;
    }

    /** init of sparkLiquidCrystalSPI.cpp: the pin map, then 4-bit or 8-bit function flags. */
    method Init(fourBitMode: uint8, rs: uint8, rw: uint8, enable: uint8, d0: uint8, d1: uint8, d2: uint8, d3: uint8,
                d4: uint8, d5: uint8, d6: uint8, d7: uint8, backlightBit: uint8)
      requires Valid()
      modifies this`rsPin, this`rwPin, this`enablePin, this`backlightPin, this`backlight, this`displayFunction, dataPins
      ensures rsPin == rs && rwPin == rw && enablePin == enable && backlightPin == backlightBit && backlight == 0
      ensures dataPins[..] == [d0, d1, d2, d3, d4, d5, d6, d7]
      ensures displayFunction == InitialFunction(fourBitMode)
    {
      AssignPins(rs, rw, enable, d0, d1, d2, d3, d4, d5, d6, d7, backlightBit);
      if fourBitMode != 0 {
        displayFunction := FourBitMode | OneLine | Dots5x8;
      } else {
        displayFunction := EightBitMode | OneLine | Dots5x8;
      }
    }

    /** init of firmware/liquid-crystal-spi.cpp: the pin map, then always 4-bit, whatever fourbitmode says. */
    method InitFourBitOnly(fourBitMode: uint8, rs: uint8, rw: uint8, enable: uint8, d0: uint8, d1: uint8, d2: uint8, d3: uint8,
                           d4: uint8, d5: uint8, d6: uint8, d7: uint8, backlightBit: uint8)
      requires Valid()
      modifies this`rsPin, this`rwPin, this`enablePin, this`backlightPin, this`backlight, this`displayFunction, dataPins
      ensures rsPin == rs && rwPin == rw && enablePin == enable && backlightPin == backlightBit && backlight == 0
      ensures dataPins[..] == [d0, d1, d2, d3, d4, d5, d6, d7]
      ensures displayFunction == InitialFunction(1) && !Bit(displayFunction, 4)
    {
      AssignPins(rs, rw, enable, d0, d1, d2, d3, d4, d5, d6, d7, backlightBit);
      displayFunction := FourBitMode | OneLine | Dots5x8;
    }

    /**
     * initSPI: the latch pin high (and the software clock and data pins
     * low), then init with the map of the 74HC595 backpack in 4-bit mode.
     */
    method InitSpi()
      requires Valid()
      modifies this`usingSpi, this`trace, this`rsPin, this`rwPin, this`enablePin, this`backlightPin, this`backlight, this`displayFunction, dataPins
      ensures usingSpi && backlight == 0
      ensures displayFunction == InitialFunction(1) && !Bit(displayFunction, 4)
      ensures Link().w == BackpackWiring && FrameWiring(Link().w)
      ensures trace == old(trace) + [Level(latchPin, true)] + (if softSpi then [Level(sclkPin, false), Level(sdatPin, false)] else [])
    {
      usingSpi := true;
      DigitalWrite(latchPin, true);
      if softSpi {
        DigitalWrite(sclkPin, false);
        DigitalWrite(sdatPin, false);
      }
      Init(1, 1, 255, 2, 0, 0, 0, 0, 6, 5, 4, 3, 7);
      BackpackIsFrameWiring();
    }

    // -------------------------------------------------------------------------
    // Commands for the user
    // -------------------------------------------------------------------------

    /** clear: the clear-display instruction. */
    method Clear()
      requires Valid()
      modifies this`trace, this`bitString
      ensures var o := ByteOut(old(Link()), ClearDisplay, false);
              trace == old(trace) + o.events && bitString == o.frame
    {
      Command(ClearDisplay);
    }

    /** home: the return-home instruction. */
    method Home()
      requires Valid()
      modifies this`trace, this`bitString
      ensures var o := ByteOut(old(Link()), ReturnHome, false);
              trace == old(trace) + o.events && bitString == o.frame
    {
      Command(ReturnHome);
    }

    /**
     * setCursor as written: the row is clamped only when it exceeds
     * `_numlines`, and the table lookup must land inside the four-entry
     * table, which the precondition demands.
     */
    method SetCursor(col: bv8, row: uint8)
      requires Valid() && ClampRow(row, numLines) < |RowOffsets|
      modifies this`trace, this`bitString
      ensures var o := ByteOut(old(Link()), DdramCommand(col, RowOffsets[ClampRow(row, numLines)]), false);
              trace == old(trace) + o.events && bitString == o.frame
    {
      var r := row;
      if r > numLines {
        r := (numLines as int - 1) % 256;
      }
      var command := SetDdramAddr | (col + RowOffsets[r]);
      assert command == DdramCommand(col, RowOffsets[ClampRow(row, numLines)]);
      Command(command);
    }

    /**
     * setCursor with the clamp its comment intends: a row at or past
     * `_numlines` goes to the last row. On a display of one to four lines
     * every row is accepted (ClampRowIntendedInTable).
     */
    method SetCursorClamped(col: bv8, row: uint8)
      requires Valid() && ClampRowIntended(row, numLines) < |RowOffsets|
      modifies this`trace, this`bitString
      ensures var o := ByteOut(old(Link()), DdramCommand(col, RowOffsets[ClampRowIntended(row, numLines)]), false);
              trace == old(trace) + o.events && bitString == o.frame
    {
      var r := row;
      if r >= numLines {
        r := (numLines as int - 1) % 256;
      }
      var command := SetDdramAddr | (col + RowOffsets[r]);
      assert command == DdramCommand(col, RowOffsets[ClampRowIntended(row, numLines)]);
      Command(command);
    }

    /** noDisplay: clear the display-on flag and send the control byte. */
    method NoDisplay()
      requires Valid()
      modifies this`displayControl, this`trace, this`bitString
      ensures displayControl == SetOrClear(old(displayControl), 2, false)
      ensures var o := ByteOut(old(Link()), ControlCommand(displayControl), false);
              trace == old(trace) + o.events && bitString == o.frame
    {
      displayControl := displayControl & !DisplayOn;
      Command(DisplayControl | displayControl);
    }

    /** display: set the display-on flag and send the control byte. */
    method Display()
      requires Valid()
      modifies this`displayControl, this`trace, this`bitString
      ensures displayControl == SetOrClear(old(displayControl), 2, true)
      ensures var o := ByteOut(old(Link()), ControlCommand(displayControl), false);
              trace == old(trace) + o.events && bitString == o.frame
    {
      displayControl := displayControl | DisplayOn;
      Command(DisplayControl | displayControl);
    }

    /** noCursor: clear the cursor flag and send the control byte. */
    method NoCursor()
      requires Valid()
      modifies this`displayControl, this`trace, this`bitString
      ensures displayControl == SetOrClear(old(displayControl), 1, false)
      ensures var o := ByteOut(old(Link()), ControlCommand(displayControl), false);
              trace == old(trace) + o.events && bitString == o.frame
    {
      displayControl := displayControl & !CursorOn;
      Command(DisplayControl | displayControl);
    }

    /** cursor: set the cursor flag and send the control byte. */
    method Cursor()
      requires Valid()
      modifies this`displayControl, this`trace, this`bitString
      ensures displayControl == SetOrClear(old(displayControl), 1, true)
      ensures var o := ByteOut(old(Link()), ControlCommand(displayControl), false);
              trace == old(trace) + o.events && bitString == o.frame
    {
      displayControl := displayControl | CursorOn;
      Command(DisplayControl | displayControl);
    }

    /** noBlink: clear the blink flag and send the control byte. */
    method NoBlink()
      requires Valid()
      modifies this`displayControl, this`trace, this`bitString
      ensures displayControl == SetOrClear(old(displayControl), 0, false)
      ensures var o := ByteOut(old(Link()), ControlCommand(displayControl), false);
              trace == old(trace) + o.events && bitString == o.frame
    {
      displayControl := displayControl & !BlinkOn;
      Command(DisplayControl | displayControl);
    }

    /** blink: set the blink flag and send the control byte. */
    method Blink()
      requires Valid()
      modifies this`displayControl, this`trace, this`bitString
      ensures displayControl == SetOrClear(old(displayControl), 0, true)
      ensures var o := ByteOut(old(Link()), ControlCommand(displayControl), false);
              trace == old(trace) + o.events && bitString == o.frame
    {
      displayControl := displayControl | BlinkOn;
      Command(DisplayControl | displayControl);
    }

    /** scrollDisplayLeft: shift the display one place left. */
    method ScrollDisplayLeft()
      requires Valid()
      modifies this`trace, this`bitString
      ensures var o := ByteOut(old(Link()), CursorShift | DisplayMove | MoveLeft, false);
              trace == old(trace) + o.events && bitString == o.frame
    {
      Command(CursorShift | DisplayMove | MoveLeft);
    }

    /** scrollDisplayRight: shift the display one place right. */
    method ScrollDisplayRight()
      requires Valid()
      modifies this`trace, this`bitString
      ensures var o := ByteOut(old(Link()), CursorShift | DisplayMove | MoveRight, false);
              trace == old(trace) + o.events && bitString == o.frame
    {
      Command(CursorShift | DisplayMove | MoveRight);
    }

    /** leftToRight: set the increment flag and send the entry-mode byte. */
    method LeftToRight()
      requires Valid()
      modifies this`displayMode, this`trace, this`bitString
      ensures displayMode == SetOrClear(old(displayMode), 1, true)
      ensures var o := ByteOut(old(Link()), EntryModeCommand(displayMode), false);
              trace == old(trace) + o.events && bitString == o.frame
    {
      displayMode := displayMode | EntryLeft;
      Command(EntryModeSet | displayMode);
    }

    /** rightToLeft: clear the increment flag and send the entry-mode byte. */
    method RightToLeft()
      requires Valid()
      modifies this`displayMode, this`trace, this`bitString
      ensures displayMode == SetOrClear(old(displayMode), 1, false)
      ensures var o := ByteOut(old(Link()), EntryModeCommand(displayMode), false);
              trace == old(trace) + o.events && bitString == o.frame
    {
      displayMode := displayMode & !EntryLeft;
      Command(EntryModeSet | displayMode);
    }

    /** autoscroll: set the display-shift flag and send the entry-mode byte. */
    method Autoscroll()
      requires Valid()
      modifies this`displayMode, this`trace, this`bitString
      ensures displayMode == SetOrClear(old(displayMode), 0, true)
      ensures var o := ByteOut(old(Link()), EntryModeCommand(displayMode), false);
              trace == old(trace) + o.events && bitString == o.frame
    {
      displayMode := displayMode | EntryShiftIncrement;
      Command(EntryModeSet | displayMode);
    }

    /** noAutoscroll: clear the display-shift flag and send the entry-mode byte. */
    method NoAutoscroll()
      requires Valid()
      modifies this`displayMode, this`trace, this`bitString
      ensures displayMode == SetOrClear(old(displayMode), 0, false)
      ensures var o := ByteOut(old(Link()), EntryModeCommand(displayMode), false);
              trace == old(trace) + o.events && bitString == o.frame
    {
      displayMode := displayMode & !EntryShiftIncrement;
      Command(EntryModeSet | displayMode);
    }

    /**
     * backlight: `_backlight` becomes 1, the backlight bit of the frame is
     * set, and the frame is sent once.
     */
    method Backlight()
      requires Valid()
      modifies this`backlight, this`bitString, this`trace
      ensures backlight == 1
      ensures bitString == BitWrite(old(bitString), backlightPin, true)
      ensures trace == old(trace) + [Latch(bitString)]
      ensures FrameWiring(Link().w) ==> BacklightShown(Link(), bitString)
    {
      backlight := 1;
      bitString := BitWrite(bitString, backlightPin, true);
      SpiSendOut();
    }

    /**
     * noBacklight: `_backlight` becomes 0, the backlight bit of the frame is
     * cleared, and the frame is sent once.
     */
    method NoBacklight()
      requires Valid()
      modifies this`backlight, this`bitString, this`trace
      ensures backlight == 0
      ensures bitString == BitWrite(old(bitString), backlightPin, false)
      ensures trace == old(trace) + [Latch(bitString)]
      ensures FrameWiring(Link().w) ==> BacklightShown(Link(), bitString)
    {
      backlight := 0;
      bitString := BitWrite(bitString, backlightPin, false);
      SpiSendOut();
    }

    /**
     * createChar: point the CGRAM address at slot `location & 7`, then write
     * the first eight bytes of `charmap` as data.
     */
    method CreateChar(location: bv8, charmap: array<bv8>)
      requires Valid() && charmap.Length >= 8
      modifies this`trace, this`bitString
      ensures var o := Emit(old(Link()), Sends(CharBytes(location, charmap[..8])));
              trace == old(trace) + o.events && bitString == o.frame
    {
      ghost var p := Link();
      ghost var rows := charmap[..8];
      var slot := location & 0x07;
      NextCommand(SetCgramAddr | (slot << 3), p, old(trace), []);
      ghost var done: seq<Transfer> := [Byte(CgramCommand(location), false)];
      CharSendsStart(location, rows);
      for i := 0 to 8
        invariant Valid() && Link() == p.(frame := bitString)
        invariant done == Sends(CharBytes(location, rows[..i]))
        invariant trace == old(trace) + Emit(p, done).events && bitString == Emit(p, done).frame
      {
        NextData(charmap[i], p, old(trace), done);
        CharSendsSnoc(location, rows, i);
        done := done + [Byte(rows[i], true)];
      }
      assert rows[..8] == rows;
    }

    /**
     * The next transfers of a longer sequence, one method per kind so that
     * callers can follow `Emit` over the sequence so far: an instruction byte
     * through command, a data byte through write, a nibble through
     * write4bits.
     */
    method NextCommand(v: bv8, ghost p: Port, ghost start: seq<Event>, ghost done: seq<Transfer>)
      requires Valid() && Wired(p.w) && Link() == p.(frame := bitString)
      requires trace == start + Emit(p, done).events && bitString == Emit(p, done).frame
      modifies this`trace, this`bitString
      ensures Link() == p.(frame := bitString)
      ensures trace == start + Emit(p, done + [Byte(v, false)]).events && bitString == Emit(p, done + [Byte(v, false)]).frame
    {
      ghost var before := trace;
      Command(v);
      Extend(p, done, Byte(v, false), start, before, trace);
    }

    method NextData(v: bv8, ghost p: Port, ghost start: seq<Event>, ghost done: seq<Transfer>)
      requires Valid() && Wired(p.w) && Link() == p.(frame := bitString)
      requires trace == start + Emit(p, done).events && bitString == Emit(p, done).frame
      modifies this`trace, this`bitString
      ensures Link() == p.(frame := bitString)
      ensures trace == start + Emit(p, done + [Byte(v, true)]).events && bitString == Emit(p, done + [Byte(v, true)]).frame
    {
      ghost var before := trace;
      var n := Write(v);
      Extend(p, done, Byte(v, true), start, before, trace);
    }

    method NextNibble(v: bv8, ghost p: Port, ghost start: seq<Event>, ghost done: seq<Transfer>)
      requires Valid() && Wired(p.w) && Link() == p.(frame := bitString)
      requires trace == start + Emit(p, done).events && bitString == Emit(p, done).frame
      modifies this`trace, this`bitString
      ensures Link() == p.(frame := bitString)
      ensures trace == start + Emit(p, done + [Nibble(v)]).events && bitString == Emit(p, done + [Nibble(v)]).frame
    {
      ghost var before := trace;
      Write4Bits(v);
      Extend(p, done, Nibble(v), start, before, trace);
    }

    // -------------------------------------------------------------------------
    // begin
    // -------------------------------------------------------------------------

    /**
     * begin (sparkLiquidCrystalSPI.cpp): settle the line and font flags, pull
     * RS, Enable and (when wired) RW low, then run the datasheet's
     * initialisation for the interface width init chose.
     */
    method Begin(cols: uint8, lines: uint8, dotsize: uint8)
      requires Valid()
      modifies this`displayFunction, this`numLines, this`currLine, this`displayControl, this`displayMode
      modifies this`trace, this`bitString
      ensures displayFunction == BeginFunction(old(displayFunction), lines, dotsize)
      ensures numLines == lines && currLine == 0
      ensures displayControl == DisplayOn && displayMode == EntryLeft
      ensures var p := Link().(frame := old(bitString));
              var o := Emit(p, DatasheetInit(displayFunction));
              trace == old(trace) + ResetLevels(p.w) + o.events && bitString == o.frame
    {
      SetGeometry(lines, dotsize);
      RunDatasheetInit();
    }

    /** Everything begin does after the flags: the control lines, then the datasheet sequence. */
    method RunDatasheetInit()
      requires Valid()
      modifies this`displayControl, this`displayMode, this`trace, this`bitString
      ensures displayControl == DisplayOn && displayMode == EntryLeft
      ensures var p := Link().(frame := old(bitString));
              var o := Emit(p, DatasheetInit(displayFunction));
              trace == old(trace) + ResetLevels(p.w) + o.events && bitString == o.frame
    {
      PullControlLow();
      ghost var p := Link();
      ghost var start := trace;
      ghost var reset := ResetInterface(p, start);
      ghost var done := FinishBegin(p, start, reset);
      assert done == DatasheetInit(displayFunction);
      assert Link().(frame := old(bitString)) == p;
    }

    /** The start of begin: two lines when asked for more than one, the 5x10 font only on one line. */
    method SetGeometry(lines: uint8, dotsize: uint8)
      modifies this`displayFunction, this`numLines, this`currLine
      ensures displayFunction == BeginFunction(old(displayFunction), lines, dotsize)
      ensures numLines == lines && currLine == 0
    {
      if lines > 1 {
        displayFunction := displayFunction | TwoLine;
      }
      numLines := lines;
      currLine := 0;
      if dotsize != 0 && lines == 1 {
        displayFunction := displayFunction | Dots5x10;
      }
    }

    /** RS and Enable low, and RW low when it is wired, before the first command. */
    method PullControlLow()
      requires Valid()
      modifies this`trace
      ensures trace == old(trace) + ResetLevels(Link().w)
    {
      DigitalWrite(rsPin, false);
      DigitalWrite(enablePin, false);
      if rwPin != 255 {
        DigitalWrite(rwPin, false);
      }
    }

    /**
     * The end of begin: function set, display on with cursor and blink off,
     * clear, and entry mode left-to-right with no shift.
     */
    method FinishBegin(ghost p: Port, ghost start: seq<Event>, ghost reset: seq<Transfer>) returns (ghost done: seq<Transfer>)
      requires Valid() && Wired(p.w) && Link() == p.(frame := bitString)
      requires trace == start + Emit(p, reset).events && bitString == Emit(p, reset).frame
      modifies this`displayControl, this`displayMode, this`trace, this`bitString
      ensures done == reset + [Byte(FunctionCommand(displayFunction), false), Byte(ControlCommand(DisplayOn), false),
                               Byte(ClearDisplay, false), Byte(EntryModeCommand(EntryLeft), false)]
      ensures Link() == p.(frame := bitString)
      ensures trace == start + Emit(p, done).events && bitString == Emit(p, done).frame
      ensures displayControl == DisplayOn && displayMode == EntryLeft
    {
      ghost var fn := Byte(FunctionCommand(displayFunction), false);
      NextCommand(FunctionCommand(displayFunction), p, start, reset);
      ghost var shown := ShowStep(p, start, reset + [fn]);
      shown := ClearStep(p, start, shown);
      done := EntryStep(p, start, shown);
      StepsAppend(reset, fn, Byte(ControlCommand(DisplayOn), false), Byte(ClearDisplay, false), Byte(EntryModeCommand(EntryLeft), false));
    }

    /** Display on with cursor and blink off, then display(). */
    method ShowStep(ghost p: Port, ghost start: seq<Event>, ghost before: seq<Transfer>) returns (ghost done: seq<Transfer>)
      requires Valid() && Wired(p.w) && Link() == p.(frame := bitString)
      requires trace == start + Emit(p, before).events && bitString == Emit(p, before).frame
      modifies this`displayControl, this`trace, this`bitString
      ensures Link() == p.(frame := bitString) && displayControl == DisplayOn
      ensures done == before + [Byte(ControlCommand(DisplayOn), false)]
      ensures trace == start + Emit(p, done).events && bitString == Emit(p, done).frame
    {
      ZeroFlags();
      displayControl := DisplayOn | CursorOff | BlinkOff;
      ghost var t := trace;
      Display();
      Extend(p, before, Byte(ControlCommand(DisplayOn), false), start, t, trace);
      done := before + [Byte(ControlCommand(DisplayOn), false)];
    }

    /** Left-to-right entry without shift, then the entry-mode command. */
    method EntryStep(ghost p: Port, ghost start: seq<Event>, ghost before: seq<Transfer>) returns (ghost done: seq<Transfer>)
      requires Valid() && Wired(p.w) && Link() == p.(frame := bitString)
      requires trace == start + Emit(p, before).events && bitString == Emit(p, before).frame
      modifies this`displayMode, this`trace, this`bitString
      ensures Link() == p.(frame := bitString) && displayMode == EntryLeft
      ensures done == before + [Byte(EntryModeCommand(EntryLeft), false)]
      ensures trace == start + Emit(p, done).events && bitString == Emit(p, done).frame
    {
      ZeroFlags();
      displayMode := EntryLeft | EntryShiftDecrement;
      NextCommand(EntryModeSet | displayMode, p, start, before);
      done := before + [Byte(EntryModeCommand(EntryLeft), false)];
    }

    /** clear() within begin. */
    method ClearStep(ghost p: Port, ghost start: seq<Event>, ghost before: seq<Transfer>) returns (ghost done: seq<Transfer>)
      requires Valid() && Wired(p.w) && Link() == p.(frame := bitString)
      requires trace == start + Emit(p, before).events && bitString == Emit(p, before).frame
      modifies this`trace, this`bitString
      ensures Link() == p.(frame := bitString)
      ensures done == before + [Byte(ClearDisplay, false)]
      ensures trace == start + Emit(p, done).events && bitString == Emit(p, done).frame
    {
      ghost var t := trace;
      Clear();
      Extend(p, before, Byte(ClearDisplay, false), start, t, trace);
      done := before + [Byte(ClearDisplay, false)];
    }

    /**
     * The reset part of begin: three 0x03 nibbles and a 0x02 nibble in
     * 4-bit mode (figure 24 of the HD44780U datasheet), three function-set
     * bytes in 8-bit mode (figure 23).
     */
    method ResetInterface(ghost p: Port, ghost start: seq<Event>) returns (ghost done: seq<Transfer>)
      requires Valid() && Link() == p && trace == start
      modifies this`trace, this`bitString
      ensures Link() == p.(frame := bitString)
      ensures done == ResetSequence(displayFunction)
      ensures trace == start + Emit(p, done).events && bitString == Emit(p, done).frame
    {
      if displayFunction & EightBitMode == 0 {
        done := ResetFourBit(p, start);
      } else {
        done := ResetEightBit(p, start);
      }
    }

    /** Figure 24: three tries at 8-bit mode, then 4-bit mode, one nibble each. */
    method ResetFourBit(ghost p: Port, ghost start: seq<Event>) returns (ghost done: seq<Transfer>)
      requires Valid() && Link() == p && trace == start
      modifies this`trace, this`bitString
      ensures Link() == p.(frame := bitString)
      ensures done == [Nibble(0x03), Nibble(0x03), Nibble(0x03), Nibble(0x02)]
      ensures trace == start + Emit(p, done).events && bitString == Emit(p, done).frame
    {
      done := [];
      NextNibble(0x03, p, start, done);
      done := done + [Nibble(0x03)];
      NextNibble(0x03, p, start, done);
      done := done + [Nibble(0x03)];
      NextNibble(0x03, p, start, done);
      done := done + [Nibble(0x03)];
      NextNibble(0x02, p, start, done);
      done := done + [Nibble(0x02)];
    }

    /** Figure 23: function set three times. */
    method ResetEightBit(ghost p: Port, ghost start: seq<Event>) returns (ghost done: seq<Transfer>)
      requires Valid() && Link() == p && trace == start
      modifies this`trace, this`bitString
      ensures Link() == p.(frame := bitString)
      ensures done == [Byte(FunctionCommand(displayFunction), false)] + [Byte(FunctionCommand(displayFunction), false)] + [Byte(FunctionCommand(displayFunction), false)]
      ensures trace == start + Emit(p, done).events && bitString == Emit(p, done).frame
    {
      var command := FunctionCommand(displayFunction);
      ghost var t := Byte(command, false);
      done := [];
      NextCommand(command, p, start, done);
      done := done + [t];
      NextCommand(command, p, start, done);
      done := done + [t];
      NextCommand(command, p, start, done);
      done := done + [t];
    }

    /**
     * begin (firmware/liquid-crystal-spi.cpp): the same flag set-up and
     * control lines as the datasheet version, then the fixed 4-bit sequence
     * of that fork whatever width init chose; `_displaycontrol` and
     * `_displaymode` are left as they were.
     */
    method BeginTechnobly(cols: uint8, lines: uint8, dotsize: uint8)
      requires Valid()
      modifies this`displayFunction, this`numLines, this`currLine, this`trace, this`bitString
      ensures displayFunction == BeginFunction(old(displayFunction), lines, dotsize)
      ensures numLines == lines && currLine == 0
      ensures var p := Link().(frame := old(bitString));
              var o := Emit(p, TechnoblyInit(displayFunction));
              trace == old(trace) + ResetLevels(p.w) + o.events && bitString == o.frame
    {
      SetGeometry(lines, dotsize);
      RunTechnoblyInit();
    }

    /** Everything the fork's begin does after the flags: the control lines, then its fixed sequence. */
    method RunTechnoblyInit()
      requires Valid()
      modifies this`trace, this`bitString
      ensures var p := Link().(frame := old(bitString));
              var o := Emit(p, TechnoblyInit(displayFunction));
              trace == old(trace) + ResetLevels(p.w) + o.events && bitString == o.frame
    {
      PullControlLow();
      ghost var p := Link();
      ghost var start := trace;
      ghost var wake := WakeNibbles(p, start);
      ghost var done := TechnoblyConfigure(p, start, wake);
      done := TechnoblyClearEntry(p, start, done);
      done := TechnoblyFinish(p, start, done);
      TechnoblyInitParts(displayFunction);
      assert Link().(frame := old(bitString)) == p;
    }

    /** The five nibbles 3, 8, 2, 2, 8 of the fork's begin. */
    method WakeNibbles(ghost p: Port, ghost start: seq<Event>) returns (ghost done: seq<Transfer>)
      requires Valid() && Link() == p && trace == start
      modifies this`trace, this`bitString
      ensures Link() == p.(frame := bitString)
      ensures done == [Nibble(0x03), Nibble(0x08), Nibble(0x02), Nibble(0x02), Nibble(0x08)]
      ensures trace == start + Emit(p, done).events && bitString == Emit(p, done).frame
    {
      done := [];
      NextNibble(0x03, p, start, done);
      done := done + [Nibble(0x03)];
      NextNibble(0x08, p, start, done);
      done := done + [Nibble(0x08)];
      NextNibble(0x02, p, start, done);
      done := done + [Nibble(0x02)];
      NextNibble(0x02, p, start, done);
      done := done + [Nibble(0x02)];
      NextNibble(0x08, p, start, done);
      done := done + [Nibble(0x08)];
    }

    /** Display off, then function set. */
    method TechnoblyConfigure(ghost p: Port, ghost start: seq<Event>, ghost before: seq<Transfer>) returns (ghost done: seq<Transfer>)
      requires Valid() && Wired(p.w) && Link() == p.(frame := bitString)
      requires trace == start + Emit(p, before).events && bitString == Emit(p, before).frame
      modifies this`trace, this`bitString
      ensures Link() == p.(frame := bitString)
      ensures done == before + [Byte(DisplayControl, false), Byte(FunctionCommand(displayFunction), false)]
      ensures trace == start + Emit(p, done).events && bitString == Emit(p, done).frame
    {
      NextCommand(DisplayControl, p, start, before);
      done := before + [Byte(DisplayControl, false)];
      NextCommand(FunctionCommand(displayFunction), p, start, done);
      StepsPair(before, Byte(DisplayControl, false), Byte(FunctionCommand(displayFunction), false));
      done := done + [Byte(FunctionCommand(displayFunction), false)];
    }

    /** Clear, then entry mode left-to-right. */
    method TechnoblyClearEntry(ghost p: Port, ghost start: seq<Event>, ghost before: seq<Transfer>) returns (ghost done: seq<Transfer>)
      requires Valid() && Wired(p.w) && Link() == p.(frame := bitString)
      requires trace == start + Emit(p, before).events && bitString == Emit(p, before).frame
      modifies this`trace, this`bitString
      ensures Link() == p.(frame := bitString)
      ensures done == before + [Byte(ClearDisplay, false), Byte(EntryModeSet | EntryLeft, false)]
      ensures trace == start + Emit(p, done).events && bitString == Emit(p, done).frame
    {
      done := ClearStep(p, start, before);
      NextCommand(EntryModeSet | EntryLeft, p, start, done);
      StepsPair(before, Byte(ClearDisplay, false), Byte(EntryModeSet | EntryLeft, false));
      done := done + [Byte(EntryModeSet | EntryLeft, false)];
    }

    /** Home, then display on. */
    method TechnoblyFinish(ghost p: Port, ghost start: seq<Event>, ghost before: seq<Transfer>) returns (ghost done: seq<Transfer>)
      requires Valid() && Wired(p.w) && Link() == p.(frame := bitString)
      requires trace == start + Emit(p, before).events && bitString == Emit(p, before).frame
      modifies this`trace, this`bitString
      ensures Link() == p.(frame := bitString)
      ensures done == before + [Byte(ReturnHome, false), Byte(DisplayControl | DisplayOn, false)]
      ensures trace == start + Emit(p, done).events && bitString == Emit(p, done).frame
    {
      done := HomeStep(p, start, before);
      NextCommand(DisplayControl | DisplayOn, p, start, done);
      StepsPair(before, Byte(ReturnHome, false), Byte(DisplayControl | DisplayOn, false));
      done := done + [Byte(DisplayControl | DisplayOn, false)];
    }

    /** home() within begin. */
    method HomeStep(ghost p: Port, ghost start: seq<Event>, ghost before: seq<Transfer>) returns (ghost done: seq<Transfer>)
      requires Valid() && Wired(p.w) && Link() == p.(frame := bitString)
      requires trace == start + Emit(p, before).events && bitString == Emit(p, before).frame
      modifies this`trace, this`bitString
      ensures Link() == p.(frame := bitString)
      ensures done == before + [Byte(ReturnHome, false)]
      ensures trace == start + Emit(p, done).events && bitString == Emit(p, done).frame
    {
      ghost var t := trace;
      Home();
      Extend(p, before, Byte(ReturnHome, false), start, t, trace);
      done := before + [Byte(ReturnHome, false)];
    }
  }
}
