/*
 * The HD44780 instruction bytes the driver computes, and the flag bytes
 * (`_displayfunction`, `_displaycontrol`, `_displaymode`) it keeps. `Decode`
 * is the controller's reading of an instruction byte (the highest set bit
 * selects the instruction, the bits below it are its operands); every
 * command the driver builds is proved to decode to the instruction meant.
 */
module Commands {
  import opened Bits
  import opened Wire

  // Instructions.
  const ClearDisplay: bv8 := 0x01
  const ReturnHome: bv8 := 0x02
  const EntryModeSet: bv8 := 0x04
  const DisplayControl: bv8 := 0x08
  const CursorShift: bv8 := 0x10
  const FunctionSet: bv8 := 0x20
  const SetCgramAddr: bv8 := 0x40
  const SetDdramAddr: bv8 := 0x80

  // Entry mode flags.
  const EntryRight: bv8 := 0x00
  const EntryLeft: bv8 := 0x02
  const EntryShiftIncrement: bv8 := 0x01
  const EntryShiftDecrement: bv8 := 0x00

  // Display on/off control flags.
  const DisplayOn: bv8 := 0x04
  const DisplayOff: bv8 := 0x00
  const CursorOn: bv8 := 0x02
  const CursorOff: bv8 := 0x00
  const BlinkOn: bv8 := 0x01
  const BlinkOff: bv8 := 0x00

  // Display/cursor shift flags.
  const DisplayMove: bv8 := 0x08
  const MoveRight: bv8 := 0x04
  const MoveLeft: bv8 := 0x00

  // Function set flags.
  const EightBitMode: bv8 := 0x10
  const FourBitMode: bv8 := 0x00
  const TwoLine: bv8 := 0x08
  const OneLine: bv8 := 0x00
  const Dots5x10: bv8 := 0x04
  const Dots5x8: bv8 := 0x00

  /** Proof step: the zero-valued flags add nothing to the flags they are or-ed with. */
  lemma ZeroFlags()
    ensures DisplayOn | CursorOff | BlinkOff == DisplayOn
    ensures EntryLeft | EntryShiftDecrement == EntryLeft
    ensures SetOrClear(DisplayOn, 2, true) == DisplayOn
  {}

  /** An HD44780 instruction, as the controller understands an instruction byte. */
  datatype Instruction =
    | NoInstruction
    | Clear
    | Home
    | EntryMode(increment: bool, shift: bool)
    | Control(display: bool, cursor: bool, blink: bool)
    | Shift(displayMove: bool, right: bool)
    | Function(eightBit: bool, twoLines: bool, font5x10: bool)
    | Cgram(address: bv8)
    | Ddram(address: bv8)

  /** The instruction table of the HD44780: the highest set bit names the instruction. */
  function Decode(b: bv8): Instruction
  {
    if Bit(b, 7) then Ddram(b & 0x7F)
    else if Bit(b, 6) then Cgram(b & 0x3F)
    else if Bit(b, 5) then Function(Bit(b, 4), Bit(b, 3), Bit(b, 2))
    else if Bit(b, 4) then Shift(Bit(b, 3), Bit(b, 2))
    else if Bit(b, 3) then Control(Bit(b, 2), Bit(b, 1), Bit(b, 0))
    else if Bit(b, 2) then EntryMode(Bit(b, 1), Bit(b, 0))
    else if Bit(b, 1) then Home
    else if Bit(b, 0) then Clear
    else NoInstruction
  }

  lemma FixedCommands()
    ensures Decode(ClearDisplay) == Clear
    ensures Decode(ReturnHome) == Home
    ensures Decode(CursorShift | DisplayMove | MoveLeft) == Shift(true, false)
    ensures Decode(CursorShift | DisplayMove | MoveRight) == Shift(true, true)
  {}

  // ---------------------------------------------------------------------------
  // Flag bytes
  // ---------------------------------------------------------------------------

  /** `_displayfunction` after init: 4-bit when fourbitmode is non-zero, else 8-bit; 1 line, 5x8 dots. */
  function InitialFunction(fourBitMode: uint8): (f: bv8)
    ensures Bit(f, 4) <==> fourBitMode == 0
  {
    if fourBitMode != 0 then 0x00 else EightBitMode
  }

  /** `_displayfunction` after begin's adjustments: 2 lines when lines > 1, 5x10 dots for a 1-line display. */
  function BeginFunction(f: bv8, lines: uint8, dotsize: uint8): bv8
  {
    var g := if lines > 1 then f | TwoLine else f;
    if dotsize != 0 && lines == 1 then g | Dots5x10 else g
  }

  /**
   * Starting from the byte init leaves, begin's function flags say exactly:
   * 8-bit as init chose, two lines iff lines > 1, 5x10 dots iff a non-zero
   * dotsize was asked for on a one-line display.
   */
  lemma BeginFunctionFlags(fourBitMode: uint8, lines: uint8, dotsize: uint8)
    ensures var f := BeginFunction(InitialFunction(fourBitMode), lines, dotsize);
            Decode(FunctionSet | f) == Function(fourBitMode == 0, lines > 1, dotsize != 0 && lines == 1)
  {
    var f0 := InitialFunction(fourBitMode);
    var g := if lines > 1 then f0 | TwoLine else f0;
    var f := if dotsize != 0 && lines == 1 then g | Dots5x10 else g;
    assert f0 == 0x00 || f0 == 0x10;
    assert g & 0xF7 == f0;
    assert f & 0xFB == g;
  }

  /** begin never changes the interface width init chose, so on the backpack it stays 4-bit. */
  lemma BeginKeepsWidth(f: bv8, lines: uint8, dotsize: uint8)
    ensures Bit(BeginFunction(f, lines, dotsize), 4) == Bit(f, 4)
  {
    var g := if lines > 1 then f | TwoLine else f;
    assert Bit(g, 4) == Bit(f, 4);
  }

  /** Setting (v true) or clearing one flag bit leaves the other seven alone. */
  lemma FlagChange(x: bv8, k: nat, v: bool)
    requires k < 8
    ensures var r := SetOrClear(x, k, v);
            && Bit(r, k) == v
            && (forall j | 0 <= j < 8 && j != k :: Bit(r, j) == Bit(x, j))
            && SetOrClear(r, k, v) == r
  {
    SetOrClearBits(x, k, v);
    var r := SetOrClear(x, k, v);
    SetOrClearBits(r, k, v);
    BitWriteTwice(x, k, v, v);
  }

  /** The masks the flag toggles use are single bits. */
  lemma FlagMasks()
    ensures DisplayOn == Mask(2) && CursorOn == Mask(1) && BlinkOn == Mask(0)
    ensures EntryLeft == Mask(1) && EntryShiftIncrement == Mask(0)
    ensures forall x: bv8 :: x | DisplayOn == SetOrClear(x, 2, true) && x & !DisplayOn == SetOrClear(x, 2, false)
  {}

  /** `LCD_DISPLAYCONTROL | _displaycontrol`. */
  function ControlCommand(c: bv8): bv8
  {
    DisplayControl | c
  }

  /** As long as the control flags stay in bits 0..2, the control byte means what they say. */
  lemma ControlCommandMeans(c: bv8)
    requires c & 0xF8 == 0
    ensures Decode(ControlCommand(c)) == Control(Bit(c, 2), Bit(c, 1), Bit(c, 0))
  {}

  /** `LCD_ENTRYMODESET | _displaymode`. */
  function EntryModeCommand(m: bv8): bv8
  {
    EntryModeSet | m
  }

  /** As long as the entry-mode flags stay in bits 0..1, the entry-mode byte means what they say. */
  lemma EntryModeCommandMeans(m: bv8)
    requires m & 0xFC == 0
    ensures Decode(EntryModeCommand(m)) == EntryMode(Bit(m, 1), Bit(m, 0))
  {}

  /** `LCD_FUNCTIONSET | _displayfunction`. */
  function FunctionCommand(f: bv8): bv8
  {
    FunctionSet | f
  }

  /** As long as the function flags stay in bits 2..4, the function-set byte means what they say. */
  lemma FunctionCommandMeans(f: bv8)
    requires f & 0xE3 == 0
    ensures Decode(FunctionCommand(f)) == Function(Bit(f, 4), Bit(f, 3), Bit(f, 2))
  {}

  /** Flag bytes with none of the bits in `high` set keep them clear under a change to another bit. */
  lemma FlagsStayLow(x: bv8, k: nat, v: bool, high: bv8)
    requires k < 8 && x & high == 0 && Mask(k) & high == 0
    ensures SetOrClear(x, k, v) & high == 0
  {}

  /** createChar's command: `LCD_SETCGRAMADDR | ((location & 7) << 3)`. */
  function CgramCommand(location: bv8): bv8
  {
    SetCgramAddr | ((location & 0x07) << 3)
  }

  /**
   * createChar's command sets the CGRAM address to the first pixel row (low
   * three address bits zero) of character slot location mod 8.
   */
  lemma CgramCommandMeans(location: bv8)
    ensures Decode(CgramCommand(location)) == Cgram((location & 0x07) << 3)
    ensures Decode(CgramCommand(location)).address & 0x07 == 0
    ensures Decode(CgramCommand(location)).address >> 3 == location % 8
  {}

  // ---------------------------------------------------------------------------
  // setCursor
  // ---------------------------------------------------------------------------

  /** The DDRAM address at which each row starts (the `row_offsets` table). */
  const RowOffsets: seq<bv8> := [0x00, 0x40, 0x14, 0x54]

  /**
   * setCursor's clamp as written: a row above `_numlines` becomes
   * `_numlines - 1` in `uint8_t` arithmetic (so 255 when `_numlines` is 0);
   * a row equal to `_numlines` is kept.
   */
  function ClampRow(row: uint8, numLines: uint8): uint8
  {
    if row > numLines then (numLines as int - 1) % 256 else row
  }

  /** When the clamped row indexes the four-entry table. */
  lemma ClampRowInTable(row: uint8, numLines: uint8)
    ensures ClampRow(row, numLines) < 4 <==> (row <= numLines && row < 4) || (row > numLines && 1 <= numLines <= 4)
  {}

  /** The clamp lets row == _numlines through: on a 4-line display, row 4 indexes past the table. */
  lemma ClampRowReadsPastTable()
    ensures ClampRow(4, 4) == 4 && ClampRow(4, 4) >= |RowOffsets|
    ensures ClampRowIntended(4, 4) == 3
  {}

  /** The clamp the comment at the assignment intends: rows count from 0, so row >= _numlines is off the display. */
  function ClampRowIntended(row: uint8, numLines: uint8): uint8
  {
    if row >= numLines then (numLines as int - 1) % 256 else row
  }

  /** On a display of 1 to 4 lines the intended clamp always lands on one of its rows. */
  lemma ClampRowIntendedInTable(row: uint8, numLines: uint8)
    requires 1 <= numLines <= 4
    ensures ClampRowIntended(row, numLines) < numLines
    ensures ClampRowIntended(row, numLines) < |RowOffsets|
    ensures row < numLines ==> ClampRowIntended(row, numLines) == row
  {}

  /**
   * setCursor's command: `LCD_SETDDRAMADDR | (col + row_offsets[row])`,
   * computed in `int` and truncated to the `uint8_t` that command takes (the
   * wrapping sum of two bytes). It sets the DDRAM address to (col + offset)
   * mod 128.
   */
  function DdramCommand(col: bv8, offset: bv8): bv8
  {
    SetDdramAddr | (col + offset)
  }

  /** setCursor's command sets the DDRAM address to (col + offset) mod 128. */
  lemma DdramCommandMeans(col: bv8, offset: bv8)
    ensures Decode(DdramCommand(col, offset)) == Ddram((col + offset) % 128)
  {}

  // ---------------------------------------------------------------------------
  // begin
  // ---------------------------------------------------------------------------

  /**
   * The transfers begin makes in sparkLiquidCrystalSPI.cpp: the reset
   * sequence of figure 24 (4-bit) or figure 23 (8-bit) of the HD44780U
   * datasheet, then function set, display on, clear, and entry mode
   * left-to-right.
   */
  function DatasheetInit(f: bv8): seq<Transfer>
  {
    var fnSet := Byte(FunctionCommand(f), false);
    ResetSequence(f) + [fnSet, Byte(ControlCommand(DisplayOn), false), Byte(ClearDisplay, false), Byte(EntryModeCommand(EntryLeft), false)]
  }

  /** The reset part of begin: figure 24 (4-bit) or figure 23 (8-bit) of the HD44780U datasheet. */
  function ResetSequence(f: bv8): seq<Transfer>
  {
    var fnSet := Byte(FunctionCommand(f), false);
    if !Bit(f, 4) then [Nibble(0x03), Nibble(0x03), Nibble(0x03), Nibble(0x02)] else [fnSet, fnSet, fnSet]
  }

  /**
   * The transfers begin makes in firmware/liquid-crystal-spi.cpp: five
   * nibbles, then display off, function set, clear, entry mode
   * left-to-right, home, and display on.
   */
  function TechnoblyInit(f: bv8): seq<Transfer>
  {
    [Nibble(0x03), Nibble(0x08), Nibble(0x02), Nibble(0x02), Nibble(0x08),
     Byte(DisplayControl, false), Byte(FunctionCommand(f), false), Byte(ClearDisplay, false),
     Byte(EntryModeSet | EntryLeft, false), Byte(ReturnHome, false), Byte(DisplayControl | DisplayOn, false)]
  }

  /** The fork's begin sequence in the groups its driver sends: wake-up nibbles, then pairs of instructions. */
  lemma TechnoblyInitParts(f: bv8)
    ensures TechnoblyInit(f) == [Nibble(0x03), Nibble(0x08), Nibble(0x02), Nibble(0x02), Nibble(0x08)]
                                + [Byte(DisplayControl, false), Byte(FunctionCommand(f), false)]
                                + [Byte(ClearDisplay, false), Byte(EntryModeSet | EntryLeft, false)]
                                + [Byte(ReturnHome, false), Byte(DisplayControl | DisplayOn, false)]
  {}

  /**
   * What begin (sparkLiquidCrystalSPI.cpp) tells the controller: the reset
   * nibbles 3, 3, 3, 2 in 4-bit mode or three function sets in 8-bit mode;
   * then, all as instructions, function set, display on with cursor and
   * blink off, clear, and entry mode left-to-right without shift.
   */
  lemma DatasheetInitMeans(f: bv8)
    ensures var ts := DatasheetInit(f);
            && |ts| == (if Bit(f, 4) then 7 else 8)
            && (!Bit(f, 4) ==> forall i | 0 <= i < 4 :: ts[i].Nibble? && ts[i].value & 0x0F == (if i < 3 then 0x03 else 0x02))
            && (Bit(f, 4) ==> forall i | 0 <= i < 4 :: ts[i] == Byte(FunctionCommand(f), false))
            && (forall i | |ts| - 4 <= i < |ts| :: ts[i].Byte? && !ts[i].rs)
            && (f & 0xE3 == 0 ==> Decode(ts[|ts| - 4].value) == Function(Bit(f, 4), Bit(f, 3), Bit(f, 2)))
            && Decode(ts[|ts| - 3].value) == Control(true, false, false)
            && Decode(ts[|ts| - 2].value) == Clear
            && Decode(ts[|ts| - 1].value) == EntryMode(true, false)
  {
    if f & 0xE3 == 0 {
      FunctionCommandMeans(f);
    }
    ControlCommandMeans(DisplayOn);
    EntryModeCommandMeans(EntryLeft);
  }

  /**
   * What begin (firmware/liquid-crystal-spi.cpp) tells the controller: five
   * nibbles, then, all as instructions, display off, function set, clear,
   * entry mode left-to-right, home, and display on with cursor and blink off.
   */
  lemma TechnoblyInitMeans(f: bv8)
    ensures var ts := TechnoblyInit(f);
            && |ts| == 11
            && (forall i | 0 <= i < 5 :: ts[i].Nibble?)
            && (forall i | 5 <= i < 11 :: ts[i].Byte? && !ts[i].rs)
            && Decode(ts[5].value) == Control(false, false, false)
            && (f & 0xE3 == 0 ==> Decode(ts[6].value) == Function(Bit(f, 4), Bit(f, 3), Bit(f, 2)))
            && Decode(ts[7].value) == Clear
            && Decode(ts[8].value) == EntryMode(true, false)
            && Decode(ts[9].value) == Home
            && Decode(ts[10].value) == Control(true, false, false)
  {
    if f & 0xE3 == 0 {
      FunctionCommandMeans(f);
    }
  }
}
