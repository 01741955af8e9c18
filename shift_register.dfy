/*
 * The software-SPI wire. writeFast bit-bangs one byte into the 74HC595:
 * latch low, then for each bit from the most significant down, the bit on
 * the data line followed by a clock pulse, then latch high. The 74HC595
 * shifts the data line into its stage register on each rising clock edge
 * and copies the stages to its outputs on the rising latch edge.
 */
module ShiftRegister {
  import opened Bits
  import opened Wire

  /** The three microcontroller pins of the software-SPI link. */
  datatype SerialPins = SerialPins(latch: uint8, sclk: uint8, sdat: uint8)

  predicate Distinct(pins: SerialPins)
  {
    pins.latch != pins.sclk && pins.latch != pins.sdat && pins.sclk != pins.sdat
  }

  /** Bit i of the transmission: writeFast walks its mask down from bit 7. */
  predicate SentBit(value: bv8, i: nat)
    requires i < 8
  {
    Bit(value, 7 - i)
  }

  /** The data level and clock pulse of the first n bits, in transmission order. */
  function Clocked(pins: SerialPins, value: bv8, n: nat): (es: seq<Event>)
    requires n <= 8
    ensures |es| == 3 * n
  {
    if n == 0 then []
    else Clocked(pins, value, n - 1) + [Level(pins.sdat, SentBit(value, n - 1)), Level(pins.sclk, true), Level(pins.sclk, false)]
  }

  /** Every pin write writeFast makes for one byte. */
  function SerialWire(pins: SerialPins, value: bv8): (es: seq<Event>)
  {
    [Level(pins.latch, false)] + Clocked(pins, value, 8) + [Level(pins.latch, true)]
  }

  /** The pin levels a 74HC595 sees, its eight stages, and its eight outputs. */
  datatype Register = Register(data: bool, clock: bool, latch: bool, stages: bv8, outputs: bv8)

  /** The stages after a rising clock edge: every stage moves up one place and stage 0 takes the data line. */
  function ShiftIn(stages: bv8, data: bool): bv8
  {
    (stages << 1) | (if data then 1 else 0)
  }

  /** After a shift, stage 0 holds the data line ... */
  lemma ShiftInLow(stages: bv8, data: bool)
    ensures Bit(ShiftIn(stages, data), 0) == data
  {}

  /** ... and stage k holds what stage k-1 held. */
  lemma ShiftInBit(stages: bv8, data: bool, k: nat)
    requires 1 <= k < 8
    ensures Bit(ShiftIn(stages, data), k) == Bit(stages, k - 1)
  {
    var r := ShiftIn(stages, data);
    if k == 1 { assert r & 0x02 == (stages & 0x01) << 1; }
    else if k == 2 { assert r & 0x04 == (stages & 0x02) << 1; }
    else if k == 3 { assert r & 0x08 == (stages & 0x04) << 1; }
    else if k == 4 { assert r & 0x10 == (stages & 0x08) << 1; }
    else if k == 5 { assert r & 0x20 == (stages & 0x10) << 1; }
    else if k == 6 { assert r & 0x40 == (stages & 0x20) << 1; }
    else { assert r & 0x80 == (stages & 0x40) << 1; }
  }

  /** What one pin write does to a 74HC595 whose SER, SRCLK and RCLK inputs are wired to pins. */
  function Step(pins: SerialPins, r: Register, e: Event): Register
  {
    match e
    case Latch(_) => r
    case Level(pin, high) =>
      if pin == pins.sdat then r.(data := high)
      else if pin == pins.sclk then
        if high && !r.clock then r.(clock := true, stages := ShiftIn(r.stages, r.data)) else r.(clock := high)
      else if pin == pins.latch then
        if high && !r.latch then r.(latch := true, outputs := r.stages) else r.(latch := high)
      else r
  }

  function Run(pins: SerialPins, r: Register, es: seq<Event>): Register
    decreases |es|
  {
    if es == [] then r else Step(pins, Run(pins, r, es[..|es| - 1]), es[|es| - 1])
  }

  lemma RunThree(pins: SerialPins, r: Register, e0: Event, e1: Event, e2: Event)
    ensures Run(pins, r, [e0, e1, e2]) == Step(pins, Step(pins, Step(pins, r, e0), e1), e2)
  {
    assert [e0][..0] == [];
    assert Run(pins, r, [e0]) == Step(pins, r, e0);
    assert [e0, e1][..1] == [e0];
    assert Run(pins, r, [e0, e1]) == Step(pins, Run(pins, r, [e0]), e1);
    assert [e0, e1, e2][..2] == [e0, e1];
  }

  lemma {:induction false} RunAppend(pins: SerialPins, r: Register, a: seq<Event>, b: seq<Event>)
    ensures Run(pins, r, a + b) == Run(pins, Run(pins, r, a), b)
    decreases |b|
  {
    if b == [] {
      assert a + b == a;
    } else {
      RunAppend(pins, r, a, b[..|b| - 1]);
      assert (a + b)[..|a + b| - 1] == a + b[..|b| - 1];
    }
  }

  /**
   * After the first n bits are clocked in, with the clock low to begin with:
   * stage k holds transmitted bit n-1-k, the clock is low again, and latch
   * and outputs are untouched.
   */
  lemma {:induction false} ClockedStages(pins: SerialPins, r: Register, value: bv8, n: nat)
    requires Distinct(pins) && !r.clock && n <= 8
    ensures var s := Run(pins, r, Clocked(pins, value, n));
            && !s.clock && s.latch == r.latch && s.outputs == r.outputs
            && forall k | 0 <= k < n :: Bit(s.stages, k) == SentBit(value, n - 1 - k)
  {
    if n > 0 {
      var prev := Clocked(pins, value, n - 1);
      ClockedStages(pins, r, value, n - 1);
      var s0 := Run(pins, r, prev);
      var d := SentBit(value, n - 1);
      var tail := [Level(pins.sdat, d), Level(pins.sclk, true), Level(pins.sclk, false)];
      RunAppend(pins, r, prev, tail);
      RunThree(pins, s0, tail[0], tail[1], tail[2]);
      var s3 := Run(pins, s0, tail);
      assert s3.stages == ShiftIn(s0.stages, d);
      forall k | 0 <= k < n ensures Bit(s3.stages, k) == SentBit(value, n - 1 - k) {
        if k == 0 { ShiftInLow(s0.stages, d); } else { ShiftInBit(s0.stages, d, k); }
      }
    }
  }

  /**
   * writeFast's wire delivers the byte: whatever the 74HC595 held, if its
   * clock input was low, after the wire its outputs are exactly value and its
   * clock and latch inputs are low and high.
   */
  lemma SerialWireLatches(pins: SerialPins, r: Register, value: bv8)
    requires Distinct(pins) && !r.clock
    ensures var s := Run(pins, r, SerialWire(pins, value));
            s.outputs == value && !s.clock && s.latch
  {
    var first := [Level(pins.latch, false)];
    var r1 := Run(pins, r, first);
    assert first[..0] == [];
    assert Run(pins, r, first[..0]) == r;
    assert r1 == Step(pins, r, first[0]);
    ClockedStages(pins, r1, value, 8);
    var s := Run(pins, r1, Clocked(pins, value, 8));
    RunAppend(pins, r, first, Clocked(pins, value, 8));
    RunAppend(pins, r, first + Clocked(pins, value, 8), [Level(pins.latch, true)]);
    assert [Level(pins.latch, true)][..0] == [];
    forall k | 0 <= k < 8 ensures Bit(s.stages, k) == Bit(value, k) {}
    BitsDetermineByte(s.stages, value);
  }

  // ---------------------------------------------------------------------------
  // The same wire read as a bit stream
  // ---------------------------------------------------------------------------

  /** The data level at each rising clock edge, in order. */
  function Sampled(pins: SerialPins, clock: bool, data: bool, es: seq<Event>): seq<bool>
    decreases |es|
  {
    if es == [] then []
    else match es[0]
      case Latch(_) => Sampled(pins, clock, data, es[1..])
      case Level(pin, high) =>
        if pin == pins.sdat then Sampled(pins, clock, high, es[1..])
        else if pin == pins.sclk then (if high && !clock then [data] else []) + Sampled(pins, high, data, es[1..])
        else Sampled(pins, clock, data, es[1..])
  }

  /** The byte a bit stream spells, most significant bit first. */
  function MsbFirst(bs: seq<bool>): bv8
    requires |bs| == 8
  {
    (if bs[0] then 0x80 else 0) | (if bs[1] then 0x40 else 0) | (if bs[2] then 0x20 else 0) | (if bs[3] then 0x10 else 0)
    | (if bs[4] then 0x08 else 0) | (if bs[5] then 0x04 else 0) | (if bs[6] then 0x02 else 0) | (if bs[7] then 0x01 else 0)
  }

  lemma SampledAppend(pins: SerialPins, clock: bool, data: bool, value: bv8, n: nat, rest: seq<Event>)
    requires Distinct(pins) && n < 8 && !clock
    ensures Sampled(pins, clock, data, [Level(pins.sdat, SentBit(value, n)), Level(pins.sclk, true), Level(pins.sclk, false)] + rest)
            == [SentBit(value, n)] + Sampled(pins, false, SentBit(value, n), rest)
  {
    var d := SentBit(value, n);
    var e2 := [Level(pins.sclk, false)] + rest;
    var e1 := [Level(pins.sclk, true)] + e2;
    var e0 := [Level(pins.sdat, d)] + e1;
    assert Sampled(pins, true, d, e2) == Sampled(pins, false, d, rest) by { assert e2[1..] == rest; }
    assert Sampled(pins, false, d, e1) == [d] + Sampled(pins, true, d, e2) by { assert e1[1..] == e2; }
    assert Sampled(pins, clock, data, e0) == Sampled(pins, false, d, e1) by { assert e0[1..] == e1; }
    assert e0 == [Level(pins.sdat, d), Level(pins.sclk, true), Level(pins.sclk, false)] + rest;
  }

  /** The bits presented on the data line from bit n on, in order, read at rising clock edges. */
  lemma {:induction false} ClockedFromSampled(pins: SerialPins, data: bool, value: bv8, n: nat)
    requires Distinct(pins) && n <= 8
    ensures var es := Clocked(pins, value, 8)[3 * n..] + [Level(pins.latch, true)];
            Sampled(pins, false, data, es) == seq(8 - n, i requires 0 <= i < 8 - n => SentBit(value, n + i))
    decreases 8 - n
  {
    var all := Clocked(pins, value, 8);
    if n == 8 {
      var es := [Level(pins.latch, true)];
      assert all[3 * n..] + [Level(pins.latch, true)] == es;
      assert es[1..] == [];
    } else {
      ClockedFromSampled(pins, SentBit(value, n), value, n + 1);
      ClockedSlice(pins, value, n);
      var rest := all[3 * (n + 1)..] + [Level(pins.latch, true)];
      assert all[3 * n..] + [Level(pins.latch, true)]
          == [Level(pins.sdat, SentBit(value, n)), Level(pins.sclk, true), Level(pins.sclk, false)] + rest;
      SampledAppend(pins, false, data, value, n, rest);
    }
  }

  /** Bit n of the transmission occupies events 3n .. 3n+2 of the wire. */
  lemma ClockedSlice(pins: SerialPins, value: bv8, n: nat)
    requires n < 8
    ensures var all := Clocked(pins, value, 8);
            all[3 * n..] == [Level(pins.sdat, SentBit(value, n)), Level(pins.sclk, true), Level(pins.sclk, false)] + all[3 * (n + 1)..]
  {
    ClockedPrefix(pins, value, n + 1, 8);
  }

  lemma {:induction false} ClockedPrefix(pins: SerialPins, value: bv8, n: nat, m: nat)
    requires 0 < n <= m <= 8
    ensures Clocked(pins, value, m)[3 * (n - 1)..3 * n]
            == [Level(pins.sdat, SentBit(value, n - 1)), Level(pins.sclk, true), Level(pins.sclk, false)]
    decreases m
  {
    if m > n {
      ClockedPrefix(pins, value, n, m - 1);
      assert Clocked(pins, value, m)[..3 * (m - 1)] == Clocked(pins, value, m - 1);
    }
  }

  /** The bits of a byte in the order writeFast sends them: bit 7 first. */
  function Spell(value: bv8): (bs: seq<bool>)
    ensures |bs| == 8 && forall i | 0 <= i < 8 :: bs[i] == SentBit(value, i)
  {
    [Bit(value, 7), Bit(value, 6), Bit(value, 5), Bit(value, 4), Bit(value, 3), Bit(value, 2), Bit(value, 1), Bit(value, 0)]
  }

  /** Reading the bits back most significant first gives the byte. */
  lemma MsbFirstSpell(value: bv8)
    ensures MsbFirst(Spell(value)) == value
  {
    var hi := (if Bit(value, 7) then 0x80 else 0) | (if Bit(value, 6) then 0x40 else 0) | (if Bit(value, 5) then 0x20 else 0) | (if Bit(value, 4) then 0x10 else 0);
    var lo := (if Bit(value, 3) then 0x08 else 0) | (if Bit(value, 2) then 0x04 else 0) | (if Bit(value, 1) then 0x02 else 0) | (if Bit(value, 0) then 0x01 else 0);
    assert hi == value & 0xF0;
    assert lo == value & 0x0F;
  }

  /**
   * Read as a bit stream, writeFast's wire presents bits 7, 6, ..., 0 of the
   * value, one per rising clock edge, so the stream read most significant
   * bit first is the value.
   */
  lemma SerialWireBits(pins: SerialPins, value: bv8, data: bool)
    requires Distinct(pins)
    ensures var bs := Sampled(pins, false, data, SerialWire(pins, value));
            && bs == Spell(value)
            && MsbFirst(bs) == value
  {
    var es := SerialWire(pins, value);
    var all := Clocked(pins, value, 8);
    assert es[1..] == all[3 * 0..] + [Level(pins.latch, true)];
    ClockedFromSampled(pins, data, value, 0);
    var bs := Sampled(pins, false, data, es);
    assert bs == Sampled(pins, false, data, es[1..]);
    assert forall i | 0 <= i < 8 :: bs[i] == SentBit(value, 0 + i);
    MsbFirstSpell(value);
  }
}
