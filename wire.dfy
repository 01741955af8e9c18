/*
 * What the driver puts on the wires. Every hardware write of the driver is an
 * `Event`: a `digitalWrite` of a microcontroller pin, or a byte latched onto
 * the outputs of the 74HC595 shift register by `spiSendOut`. The functions
 * here say, for each low-level routine of the driver, which events it emits
 * and which shift-register frame (`_bitString`) it leaves behind; the class in
 * liquid_crystal.dfy is proved to emit exactly these.
 */
module Wire {
  import opened Bits

  /** One hardware write, in the order the driver performs them. */
  datatype Event =
    | Level(pin: uint8, high: bool)   // digitalWrite(pin, high ? HIGH : LOW)
    | Latch(frame: bv8)               // spiSendOut(): this byte appears on the 74HC595 outputs

  /** Pin number meaning "not connected" (the R/W line when it is tied low). */
  const NoPin: uint8 := 255

  /**
   * The pin roles of a driver object: RS, R/W, Enable, the eight data pins
   * and the backlight. On the shift-register path the numbers are bit
   * positions in the frame byte, on the parallel path GPIO pin numbers.
   */
  datatype Wiring = Wiring(rs: uint8, rw: uint8, enable: uint8, data: seq<uint8>, backlight: uint8)

  predicate Wired(w: Wiring)
  {
    |w.data| == 8
  }

  /**
   * The map `initSPI` installs: RS = bit 1, Enable = bit 2, D4..D7 = bits
   * 6, 5, 4, 3, backlight = bit 7, R/W not connected, bit 0 unused.
   */
  const BackpackWiring: Wiring := Wiring(1, NoPin, 2, [0, 0, 0, 0, 6, 5, 4, 3], 7)

  /**
   * The shift-register path drives RS, E, D4..D7 and the backlight as bits of
   * one frame byte: each must be a bit of the byte, and no two may share one.
   */
  predicate FrameWiring(w: Wiring)
  {
    && Wired(w)
    && w.rs < 8 && w.enable < 8 && w.backlight < 8
    && w.rs != w.enable && w.rs != w.backlight && w.enable != w.backlight
    && (forall k | 4 <= k < 8 :: w.data[k] < 8 && w.data[k] != w.rs && w.data[k] != w.enable && w.data[k] != w.backlight)
    && (forall i, j | 4 <= i < j < 8 :: w.data[i] != w.data[j])
  }

  lemma BackpackIsFrameWiring()
    ensures FrameWiring(BackpackWiring)
  {}

  // ---------------------------------------------------------------------------
  // Shift-register frames (the `_usingSpi` branches)
  // ---------------------------------------------------------------------------

  /** The first n of the four `bitWrite`s of write4bits: D(4+k) := bit k of v. */
  function LoadData(x: bv8, v: bv8, w: Wiring, n: nat): bv8
    requires Wired(w) && n <= 4
  {
    if n == 0 then x else BitWrite(LoadData(x, v, w, n - 1), w.data[3 + n], Bit(v, n - 1))
  }

  /** The frame write4bits sends before its Enable pulse: the data bits, then the backlight bit. */
  function NibbleFrame(x: bv8, v: bv8, w: Wiring, backlight: bv8): bv8
    requires Wired(w)
  {
    BitWrite(LoadData(x, v, w, 4), w.backlight, backlight & 1 != 0)
  }

  /** The nibble on lines D4..D7 of a frame. */
  function DataNibble(f: bv8, w: Wiring): bv8
    requires FrameWiring(w)
  {
    assert w.data[4] < 8 && w.data[5] < 8 && w.data[6] < 8 && w.data[7] < 8;
    (if Bit(f, w.data[4]) then 1 else 0) | (if Bit(f, w.data[5]) then 2 else 0)
    | (if Bit(f, w.data[6]) then 4 else 0) | (if Bit(f, w.data[7]) then 8 else 0)
  }

  /** Proof step: the low nibble of a byte is the sum of its four low bits. */
  lemma LowNibbleBits(v: bv8)
    ensures (if Bit(v, 0) then 1 else 0) | (if Bit(v, 1) then 2 else 0)
            | (if Bit(v, 2) then 4 else 0) | (if Bit(v, 3) then 8 else 0) == v & 0x0F
  {}

  /** A frame whose data lines carry the low four bits of v reads back as v & 0x0F. */
  lemma DataNibbleOf(f: bv8, w: Wiring, v: bv8)
    requires FrameWiring(w)
    requires forall k | 4 <= k < 8 :: Bit(f, w.data[k]) == Bit(v, k - 4)
    ensures DataNibble(f, w) == v & 0x0F
  {
    assert Bit(f, w.data[4]) == Bit(v, 0) && Bit(f, w.data[5]) == Bit(v, 1);
    assert Bit(f, w.data[6]) == Bit(v, 2) && Bit(f, w.data[7]) == Bit(v, 3);
    LowNibbleBits(v);
  }

  lemma {:induction false} LoadDataBits(x: bv8, v: bv8, w: Wiring, n: nat)
    requires FrameWiring(w) && n <= 4
    ensures forall k | 4 <= k < 4 + n :: Bit(LoadData(x, v, w, n), w.data[k]) == Bit(v, k - 4)
    ensures forall j | 0 <= j < 8 && j !in w.data[4..4 + n] :: Bit(LoadData(x, v, w, n), j) == Bit(x, j)
  {
    if n > 0 {
      LoadDataBits(x, v, w, n - 1);
      assert w.data[4..4 + n] == w.data[4..3 + n] + [w.data[3 + n]];
    }
  }

  /**
   * write4bits on the shift-register path: bit data[4+k] of the frame becomes
   * bit k of v, the backlight bit becomes bit 0 of `_backlight`, and every
   * other bit (RS and Enable among them) keeps its value.
   */
  lemma NibbleFrameBits(x: bv8, v: bv8, w: Wiring, backlight: bv8)
    requires FrameWiring(w)
    ensures forall k | 4 <= k < 8 :: Bit(NibbleFrame(x, v, w, backlight), w.data[k]) == Bit(v, k - 4)
    ensures DataNibble(NibbleFrame(x, v, w, backlight), w) == v & 0x0F
    ensures Bit(NibbleFrame(x, v, w, backlight), w.backlight) == (backlight & 1 != 0)
    ensures forall j | 0 <= j < 8 && j !in w.data[4..] && j != w.backlight :: Bit(NibbleFrame(x, v, w, backlight), j) == Bit(x, j)
  {
    LoadDataBits(x, v, w, 4);
    assert w.data[4..4 + 4] == w.data[4..];
    DataNibbleOf(NibbleFrame(x, v, w, backlight), w, v);
  }

  /**
   * pulseEnable on the shift-register path: three frames that differ from the
   * current one at most in the Enable bit, which goes 0, 1, 0.
   */
  function EnablePulse(x: bv8, e: uint8): (fs: seq<bv8>)
    ensures |fs| == 3
    ensures e < 8 ==> !Bit(fs[0], e) && Bit(fs[1], e) && !Bit(fs[2], e)
    ensures forall i, k | 0 <= i < 3 && 0 <= k < 8 && k != e :: Bit(fs[i], k) == Bit(x, k)
    ensures fs[2] == fs[0]
  {
    var low := BitWrite(x, e, false);
    var high := BitWrite(low, e, true);
    BitWriteTwice(low, e, true, false);
    [low, high, BitWrite(high, e, false)]
  }

  // ---------------------------------------------------------------------------
  // Both paths
  // ---------------------------------------------------------------------------

  /**
   * What the low-level routines read: the transport (`_usingSpi`), the pin
   * map, the 8-bit flag of `_displayfunction`, `_backlight`, and the current
   * shift-register frame `_bitString`.
   */
  datatype Port = Port(spi: bool, w: Wiring, eightBit: bool, backlight: bv8, frame: bv8)

  /** The events a routine emits and the frame `_bitString` holds afterwards. */
  datatype Out = Out(events: seq<Event>, frame: bv8)

  /** One call of write4bits (`Nibble`) or of send (`Byte`, with the RS level). */
  datatype Transfer = Nibble(value: bv8) | Byte(value: bv8, rs: bool)

  /** The three writes of pulseEnable on the parallel path. */
  function EnableLevels(enable: uint8): seq<Event>
  {
    [Level(enable, false), Level(enable, true), Level(enable, false)]
  }

  /** pulseEnable. */
  function PulseOut(p: Port): Out
  {
    if p.spi then
      var fs := EnablePulse(p.frame, p.w.enable);
      Out([Latch(fs[0]), Latch(fs[1]), Latch(fs[2])], fs[2])
    else
      Out(EnableLevels(p.w.enable), p.frame)
  }

  /** digitalWrite(pins[i], bit i of v) for i = 0 .. n-1. */
  function DataLevels(pins: seq<uint8>, v: bv8, n: nat): seq<Event>
    requires n <= |pins| && n <= 8
  {
    if n == 0 then [] else DataLevels(pins, v, n - 1) + [Level(pins[n - 1], Bit(v, n - 1))]
  }

  /** write4bits(v). */
  function NibbleOut(p: Port, v: bv8): Out
    requires Wired(p.w)
  {
    if p.spi then
      var f := NibbleFrame(p.frame, v, p.w, p.backlight);
      var q := PulseOut(p.(frame := f));
      Out([Latch(f)] + q.events, q.frame)
    else
      var q := PulseOut(p);
      Out(DataLevels(p.w.data, v, 4) + q.events, q.frame)
  }

  /** On the shift-register path write4bits is one latched frame followed by pulseEnable from it. */
  lemma SpiNibbleOut(p: Port, v: bv8, f: bv8)
    requires p.spi && Wired(p.w) && f == NibbleFrame(p.frame, v, p.w, p.backlight)
    ensures NibbleOut(p, v) == Out([Latch(f)] + PulseOut(p.(frame := f)).events, PulseOut(p.(frame := f)).frame)
  {}

  /** write8bits(v). */
  function OctetOut(p: Port, v: bv8): Out
    requires Wired(p.w)
  {
    var q := PulseOut(p);
    Out(DataLevels(p.w.data, v, 8) + q.events, q.frame)
  }

  /** The register-select prefix of send on the parallel path. */
  function SelectLevels(w: Wiring, mode: bool): seq<Event>
  {
    [Level(w.rs, mode)] + (if w.rw != NoPin then [Level(w.rw, false)] else [])
  }

  /** begin's opening writes: RS and Enable low, and R/W low when it is connected. */
  function ResetLevels(w: Wiring): seq<Event>
  {
    [Level(w.rs, false), Level(w.enable, false)] + (if w.rw != NoPin then [Level(w.rw, false)] else [])
  }

  /** send(v, mode). */
  function ByteOut(p: Port, v: bv8, mode: bool): Out
    requires Wired(p.w)
  {
    if p.spi then
      var r := BitWrite(p.frame, p.w.rs, mode);
      var hi := NibbleOut(p.(frame := r), v >> 4);
      var lo := NibbleOut(p.(frame := hi.frame), v);
      Out([Latch(r)] + hi.events + lo.events, lo.frame)
    else if p.eightBit then
      var o := OctetOut(p, v);
      Out(SelectLevels(p.w, mode) + o.events, o.frame)
    else
      var hi := NibbleOut(p, v >> 4);
      var lo := NibbleOut(p.(frame := hi.frame), v);
      Out(SelectLevels(p.w, mode) + hi.events + lo.events, lo.frame)
  }

  /** send on the shift-register path: the frame with RS set, then the two nibbles. */
  lemma SpiByteOut(p: Port, v: bv8, mode: bool, r: bv8)
    requires p.spi && Wired(p.w) && r == BitWrite(p.frame, p.w.rs, mode)
    ensures var hi := NibbleOut(p.(frame := r), v >> 4);
            var lo := NibbleOut(p.(frame := hi.frame), v);
            ByteOut(p, v, mode) == Out([Latch(r)] + hi.events + lo.events, lo.frame)
  {}

  /** send on the parallel path: the RS (and R/W) levels, then write8bits or the two nibbles. */
  lemma ParallelByteOut(p: Port, v: bv8, mode: bool)
    requires !p.spi && Wired(p.w)
    ensures p.eightBit ==> ByteOut(p, v, mode) == Out(SelectLevels(p.w, mode) + OctetOut(p, v).events, OctetOut(p, v).frame)
    ensures !p.eightBit ==>
            var hi := NibbleOut(p, v >> 4);
            var lo := NibbleOut(p.(frame := hi.frame), v);
            ByteOut(p, v, mode) == Out(SelectLevels(p.w, mode) + hi.events + lo.events, lo.frame)
  {}

  function StepOut(p: Port, t: Transfer): Out
    requires Wired(p.w)
  {
    match t
    case Nibble(v) => NibbleOut(p, v)
    case Byte(v, mode) => ByteOut(p, v, mode)
  }

  /** A sequence of transfers, each starting from the frame the previous one left. */
  function Emit(p: Port, ts: seq<Transfer>): Out
    requires Wired(p.w)
    decreases |ts|
  {
    if ts == [] then Out([], p.frame)
    else
      var o := Emit(p, ts[..|ts| - 1]);
      var r := StepOut(p.(frame := o.frame), ts[|ts| - 1]);
      Out(o.events + r.events, r.frame)
  }

  /** Emitting one more transfer appends exactly its events. */
  lemma EmitSnoc(p: Port, a: seq<Transfer>, t: Transfer)
    requires Wired(p.w)
    ensures var o := Emit(p, a);
            var r := StepOut(p.(frame := o.frame), t);
            Emit(p, a + [t]) == Out(o.events + r.events, r.frame)
  {
    assert (a + [t])[..|a|] == a;
  }
}
