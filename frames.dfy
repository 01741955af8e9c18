/*
 * The layout of the frames the shift-register path latches: which bits each
 * of pulseEnable, write4bits and send sets, and which it leaves alone; and
 * the order of the pin writes on the parallel path.
 */
module Frames {
  import opened Bits
  import opened Wire

  /** The frame write4bits latches keeps RS and Enable, carries the nibble on D4..D7 and the backlight bit. */
  lemma NibbleFrameKeeps(x: bv8, v: bv8, w: Wiring, backlight: bv8)
    requires FrameWiring(w)
    ensures var f := NibbleFrame(x, v, w, backlight);
            && Bit(f, w.enable) == Bit(x, w.enable) && Bit(f, w.rs) == Bit(x, w.rs)
            && DataNibble(f, w) == v & 0x0F
            && Bit(f, w.backlight) == (backlight & 1 != 0)
  {
    NibbleFrameBits(x, v, w, backlight);
    assert w.rs !in w.data[4..] && w.enable !in w.data[4..] by {
      forall j | 4 <= j < 8 ensures w.data[j] != w.rs && w.data[j] != w.enable {}
      assert forall i | 0 <= i < 4 :: w.data[4..][i] == w.data[4 + i];
    }
  }

  /** Every frame of an Enable pulse keeps RS, D4..D7 and the backlight bit of the frame it starts from. */
  lemma PulseKeeps(f: bv8, w: Wiring, i: nat)
    requires FrameWiring(w) && i < 3
    ensures var g := EnablePulse(f, w.enable)[i];
            && Bit(g, w.enable) == (i == 1)
            && Bit(g, w.rs) == Bit(f, w.rs) && Bit(g, w.backlight) == Bit(f, w.backlight)
            && DataNibble(g, w) == DataNibble(f, w)
  {
    var g := EnablePulse(f, w.enable)[i];
    assert Bit(g, w.data[4]) == Bit(f, w.data[4]) && Bit(g, w.data[5]) == Bit(f, w.data[5]);
    assert Bit(g, w.data[6]) == Bit(f, w.data[6]) && Bit(g, w.data[7]) == Bit(f, w.data[7]);
  }

  /** The shape of a frame as send and write4bits see it. */
  predicate Shows(g: bv8, w: Wiring, rs: bool, nibble: bv8, backlight: bool)
    requires FrameWiring(w)
  {
    Bit(g, w.rs) == rs && DataNibble(g, w) == nibble && Bit(g, w.backlight) == backlight
  }

  /** The events of write4bits(v) on the shift-register path: the loaded frame, then the pulse. */
  lemma NibbleEvents(p: Port, v: bv8)
    requires p.spi && Wired(p.w)
    ensures var f := NibbleFrame(p.frame, v, p.w, p.backlight);
            var fs := EnablePulse(f, p.w.enable);
            var o := NibbleOut(p, v);
            o.events == [Latch(f), Latch(fs[0]), Latch(fs[1]), Latch(fs[2])] && o.frame == fs[2]
  {}

  /** Frame i of write4bits(v) on the shift-register path. */
  lemma NibbleFrameAt(p: Port, v: bv8, i: nat)
    requires p.spi && FrameWiring(p.w) && i < 4
    ensures var o := NibbleOut(p, v);
            && |o.events| == 4 && o.events[i].Latch?
            && Shows(o.events[i].frame, p.w, Bit(p.frame, p.w.rs), v & 0x0F, p.backlight & 1 != 0)
            && Bit(o.events[i].frame, p.w.enable) == (if i == 0 then Bit(p.frame, p.w.enable) else i == 2)
            && o.frame == o.events[3].frame
  {
    var f := NibbleFrame(p.frame, v, p.w, p.backlight);
    var fs := EnablePulse(f, p.w.enable);
    NibbleEvents(p, v);
    NibbleFrameKeeps(p.frame, v, p.w, p.backlight);
    var g := if i == 0 then f else fs[i - 1];
    if i > 0 {
      PulseKeeps(f, p.w, i - 1);
    }
    assert NibbleOut(p, v).events[i] == Latch(g);
  }

  /**
   * write4bits(v) on the shift-register path latches four frames: the loaded
   * frame, then the three frames of the Enable pulse. All four keep RS,
   * carry the low nibble of v and the backlight bit `_backlight & 1`; Enable
   * is as before in the first, then 0, 1, 0.
   */
  lemma NibbleFrames(p: Port, v: bv8)
    requires p.spi && FrameWiring(p.w)
    ensures var o := NibbleOut(p, v);
            && |o.events| == 4
            && (forall i | 0 <= i < 4 :: o.events[i].Latch?)
            && (forall i | 0 <= i < 4 :: Shows(o.events[i].frame, p.w, Bit(p.frame, p.w.rs), v & 0x0F, p.backlight & 1 != 0))
            && Bit(o.events[0].frame, p.w.enable) == Bit(p.frame, p.w.enable)
            && (forall i | 1 <= i < 4 :: Bit(o.events[i].frame, p.w.enable) == (i == 2))
            && o.frame == o.events[3].frame
  {
    forall i | 0 <= i < 4
      ensures var o := NibbleOut(p, v);
              && o.events[i].Latch?
              && Shows(o.events[i].frame, p.w, Bit(p.frame, p.w.rs), v & 0x0F, p.backlight & 1 != 0)
              && Bit(o.events[i].frame, p.w.enable) == (if i == 0 then Bit(p.frame, p.w.enable) else i == 2)
    {
      NibbleFrameAt(p, v, i);
    }
    NibbleFrameAt(p, v, 0);
  }

  /** Proof step: the high nibble of a byte already fits in four bits. */
  lemma HighNibble(v: bv8)
    ensures (v >> 4) & 0x0F == v >> 4
  {}

  /** Frame i of send(v, mode) on the shift-register path. */
  lemma SendFrameAt(p: Port, v: bv8, mode: bool, i: nat)
    requires p.spi && FrameWiring(p.w) && i < 9
    ensures var o := ByteOut(p, v, mode);
            && |o.events| == 9 && o.events[i].Latch?
            && Bit(o.events[i].frame, p.w.rs) == mode
            && (1 <= i < 5 ==> Shows(o.events[i].frame, p.w, mode, v >> 4, p.backlight & 1 != 0))
            && (5 <= i ==> Shows(o.events[i].frame, p.w, mode, v & 0x0F, p.backlight & 1 != 0))
            && Bit(o.events[i].frame, p.w.enable) == (if i < 2 then Bit(p.frame, p.w.enable) else i == 3 || i == 7)
            && o.frame == o.events[8].frame
  {
    if i == 0 {
      SendFrameFirst(p, v, mode);
    } else if i < 5 {
      SendFrameHigh(p, v, mode, i);
    } else {
      SendFrameLow(p, v, mode, i);
    }
  }

  /** The first frame of send: only RS changed. */
  lemma SendFrameFirst(p: Port, v: bv8, mode: bool)
    requires p.spi && FrameWiring(p.w)
    ensures var o := ByteOut(p, v, mode);
            && |o.events| == 9 && o.events[0] == Latch(BitWrite(p.frame, p.w.rs, mode))
            && Bit(o.events[0].frame, p.w.rs) == mode
            && Bit(o.events[0].frame, p.w.enable) == Bit(p.frame, p.w.enable)
            && o.frame == o.events[8].frame
  {
    var r := BitWrite(p.frame, p.w.rs, mode);
    var hi := NibbleOut(p.(frame := r), v >> 4);
    var lo := NibbleOut(p.(frame := hi.frame), v);
    NibbleFrameAt(p.(frame := r), v >> 4, 0);
    NibbleFrameAt(p.(frame := hi.frame), v, 3);
    var es := [Latch(r)] + hi.events + lo.events;
    assert es[8] == lo.events[3];
  }

  /** Frames 1 to 4 of send: the high nibble. */
  lemma SendFrameHigh(p: Port, v: bv8, mode: bool, i: nat)
    requires p.spi && FrameWiring(p.w) && 1 <= i < 5
    ensures var o := ByteOut(p, v, mode);
            && |o.events| == 9 && o.events[i].Latch?
            && Bit(o.events[i].frame, p.w.rs) == mode
            && Shows(o.events[i].frame, p.w, mode, v >> 4, p.backlight & 1 != 0)
            && Bit(o.events[i].frame, p.w.enable) == (if i < 2 then Bit(p.frame, p.w.enable) else i == 3)
  {
    var r := BitWrite(p.frame, p.w.rs, mode);
    SendHighPlace(p, v, mode, i);
    NibbleFrameAt(p.(frame := r), v >> 4, i - 1);
    HighNibble(v);
  }

  /** Frames 1 to 4 of send are the frames of write4bits(v >> 4) after RS is written. */
  lemma SendHighPlace(p: Port, v: bv8, mode: bool, i: nat)
    requires p.spi && FrameWiring(p.w) && 1 <= i < 5
    ensures var r := BitWrite(p.frame, p.w.rs, mode);
            var o := ByteOut(p, v, mode);
            |o.events| == 9 && o.events[i] == NibbleOut(p.(frame := r), v >> 4).events[i - 1]
  {
    var r := BitWrite(p.frame, p.w.rs, mode);
    var hi := NibbleOut(p.(frame := r), v >> 4);
    var lo := NibbleOut(p.(frame := hi.frame), v);
    NibbleEvents(p.(frame := r), v >> 4);
    NibbleEvents(p.(frame := hi.frame), v);
    var es := [Latch(r)] + hi.events + lo.events;
    assert es[i] == hi.events[i - 1];
  }

  /** Frames 5 to 8 of send: the low nibble. */
  lemma SendFrameLow(p: Port, v: bv8, mode: bool, i: nat)
    requires p.spi && FrameWiring(p.w) && 5 <= i < 9
    ensures var o := ByteOut(p, v, mode);
            && |o.events| == 9 && o.events[i].Latch?
            && Bit(o.events[i].frame, p.w.rs) == mode
            && Shows(o.events[i].frame, p.w, mode, v & 0x0F, p.backlight & 1 != 0)
            && Bit(o.events[i].frame, p.w.enable) == (i == 7)
            && o.frame == o.events[8].frame
  {
    var r := BitWrite(p.frame, p.w.rs, mode);
    var hi := NibbleOut(p.(frame := r), v >> 4);
    var lo := NibbleOut(p.(frame := hi.frame), v);
    NibbleFrameAt(p.(frame := r), v >> 4, 3);
    NibbleFrameAt(p.(frame := hi.frame), v, i - 5);
    NibbleFrameAt(p.(frame := hi.frame), v, 3);
    var es := [Latch(r)] + hi.events + lo.events;
    assert es[i] == lo.events[i - 5];
    assert es[8] == lo.events[3];
  }

  /**
   * send(v, mode) on the shift-register path latches nine frames: one with
   * the RS bit set to mode, then four carrying v >> 4, then four carrying
   * v & 0x0F. RS equals mode in all nine, the backlight bit is `_backlight & 1`
   * from the second on, and Enable is high exactly in the fourth and eighth.
   */
  lemma SpiSendFrames(p: Port, v: bv8, mode: bool)
    requires p.spi && FrameWiring(p.w)
    ensures var o := ByteOut(p, v, mode);
            && |o.events| == 9
            && (forall i | 0 <= i < 9 :: o.events[i].Latch?)
            && (forall i | 0 <= i < 9 :: Bit(o.events[i].frame, p.w.rs) == mode)
            && (forall i | 1 <= i < 5 :: Shows(o.events[i].frame, p.w, mode, v >> 4, p.backlight & 1 != 0))
            && (forall i | 5 <= i < 9 :: Shows(o.events[i].frame, p.w, mode, v & 0x0F, p.backlight & 1 != 0))
            && (forall i | 0 <= i < 2 :: Bit(o.events[i].frame, p.w.enable) == Bit(p.frame, p.w.enable))
            && (forall i | 2 <= i < 9 :: Bit(o.events[i].frame, p.w.enable) == (i == 3 || i == 7))
            && o.frame == o.events[8].frame
  {
    forall i | 0 <= i < 9
      ensures var o := ByteOut(p, v, mode);
              && o.events[i].Latch?
              && Bit(o.events[i].frame, p.w.rs) == mode
              && (1 <= i < 5 ==> Shows(o.events[i].frame, p.w, mode, v >> 4, p.backlight & 1 != 0))
              && (5 <= i ==> Shows(o.events[i].frame, p.w, mode, v & 0x0F, p.backlight & 1 != 0))
              && Bit(o.events[i].frame, p.w.enable) == (if i < 2 then Bit(p.frame, p.w.enable) else i == 3 || i == 7)
    {
      SendFrameAt(p, v, mode, i);
    }
    SendFrameAt(p, v, mode, 0);
  }

  /** On the shift-register path send always splits the byte into two nibbles: the 8-bit flag plays no part. */
  lemma SpiIgnoresEightBit(p: Port, v: bv8, mode: bool)
    requires p.spi && Wired(p.w)
    ensures ByteOut(p, v, mode) == ByteOut(p.(eightBit := !p.eightBit), v, mode)
  {}

  /** The backlight bit of a frame agrees with `_backlight & 1`. */
  predicate BacklightShown(p: Port, f: bv8)
    requires FrameWiring(p.w)
  {
    Bit(f, p.w.backlight) == (p.backlight & 1 != 0)
  }

  /** Once the frame shows the backlight setting, every frame a transfer latches shows it too. */
  lemma StepKeepsBacklight(p: Port, t: Transfer)
    requires p.spi && FrameWiring(p.w) && BacklightShown(p, p.frame)
    ensures var o := StepOut(p, t);
            && BacklightShown(p, o.frame)
            && forall i | 0 <= i < |o.events| :: o.events[i].Latch? && BacklightShown(p, o.events[i].frame)
  {
    match t
    case Nibble(v) =>
      NibbleFrames(p, v);
    case Byte(v, mode) =>
      SpiSendFrames(p, v, mode);
      var r := BitWrite(p.frame, p.w.rs, mode);
      assert ByteOut(p, v, mode).events[0] == Latch(r);
      assert Bit(r, p.w.backlight) == Bit(p.frame, p.w.backlight);
  }

  /**
   * The backlight bit survives everything the driver sends: after
   * backlight() or noBacklight() has put `_backlight & 1` into the frame,
   * every frame any later sequence of write4bits and send calls latches
   * carries that same bit.
   */
  lemma {:induction false} BacklightKept(p: Port, ts: seq<Transfer>)
    requires p.spi && FrameWiring(p.w) && BacklightShown(p, p.frame)
    ensures var o := Emit(p, ts);
            && BacklightShown(p, o.frame)
            && forall i | 0 <= i < |o.events| :: o.events[i].Latch? && BacklightShown(p, o.events[i].frame)
    decreases |ts|
  {
    if ts != [] {
      var a := ts[..|ts| - 1];
      var t := ts[|ts| - 1];
      assert ts == a + [t];
      BacklightKept(p, a);
      var o := Emit(p, a);
      var q := p.(frame := o.frame);
      StepKeepsBacklight(q, t);
      EmitSnoc(p, a, t);
      var r := StepOut(q, t);
      forall i | 0 <= i < |o.events| + |r.events|
        ensures (o.events + r.events)[i].Latch? && BacklightShown(p, (o.events + r.events)[i].frame)
      {
        if i >= |o.events| {
          assert (o.events + r.events)[i] == r.events[i - |o.events|];
        }
      }
    }
  }

  // ---------------------------------------------------------------------------
  // Parallel path
  // ---------------------------------------------------------------------------

  /** The data-pin writes of write4bits / write8bits: pin i gets bit i of v, in order of i. */
  lemma {:induction false} DataLevelsAt(pins: seq<uint8>, v: bv8, n: nat)
    requires n <= |pins| && n <= 8
    ensures |DataLevels(pins, v, n)| == n
    ensures forall i | 0 <= i < n :: DataLevels(pins, v, n)[i] == Level(pins[i], Bit(v, i))
  {
    if n > 0 {
      DataLevelsAt(pins, v, n - 1);
    }
  }

  lemma ShiftedBit(v: bv8, k: nat)
    requires k < 4
    ensures Bit(v >> 4, k) == Bit(v, 4 + k)
  {
    if k == 0 { assert (v >> 4) & 0x01 == (v & 0x10) >> 4; }
    else if k == 1 { assert (v >> 4) & 0x02 == (v & 0x20) >> 4; }
    else if k == 2 { assert (v >> 4) & 0x04 == (v & 0x40) >> 4; }
    else { assert (v >> 4) & 0x08 == (v & 0x80) >> 4; }
  }

  lemma ParallelEvents(p: Port, v: bv8, mode: bool)
    requires !p.spi && Wired(p.w)
    ensures var o := ByteOut(p, v, mode);
            && o.frame == p.frame
            && (p.eightBit ==> o.events == SelectLevels(p.w, mode) + DataLevels(p.w.data, v, 8) + EnableLevels(p.w.enable))
            && (!p.eightBit ==> o.events == SelectLevels(p.w, mode) + (DataLevels(p.w.data, v >> 4, 4) + EnableLevels(p.w.enable))
                                            + (DataLevels(p.w.data, v, 4) + EnableLevels(p.w.enable)))
  {}

  /** The 8-bit half of ParallelSendLevels. */
  lemma ParallelOctetLevels(sel: seq<Event>, w: Wiring, v: bv8)
    requires Wired(w)
    ensures var es := sel + DataLevels(w.data, v, 8) + EnableLevels(w.enable);
            && |es| == |sel| + 11
            && (forall i | 0 <= i < 8 :: es[|sel| + i] == Level(w.data[i], Bit(v, i)))
            && es[|sel| + 8..] == EnableLevels(w.enable)
  {
    var n := |sel|;
    DataLevelsAt(w.data, v, 8);
    var es := sel + DataLevels(w.data, v, 8) + EnableLevels(w.enable);
    forall i | 0 <= i < 8 ensures es[n + i] == Level(w.data[i], Bit(v, i)) {
      assert es[n + i] == DataLevels(w.data, v, 8)[i];
    }
    assert es[n + 8..] == EnableLevels(w.enable);
  }

  /** The 4-bit half of ParallelSendLevels. */
  lemma ParallelNibbleLevels(sel: seq<Event>, w: Wiring, v: bv8)
    requires Wired(w)
    ensures var es := sel + (DataLevels(w.data, v >> 4, 4) + EnableLevels(w.enable)) + (DataLevels(w.data, v, 4) + EnableLevels(w.enable));
            && |es| == |sel| + 14
            && (forall i | 0 <= i < 4 :: es[|sel| + i] == Level(w.data[i], Bit(v, 4 + i)))
            && es[|sel| + 4..|sel| + 7] == EnableLevels(w.enable)
            && (forall i | 0 <= i < 4 :: es[|sel| + 7 + i] == Level(w.data[i], Bit(v, i)))
            && es[|sel| + 11..] == EnableLevels(w.enable)
  {
    var n := |sel|;
    DataLevelsAt(w.data, v >> 4, 4);
    DataLevelsAt(w.data, v, 4);
    var hi := DataLevels(w.data, v >> 4, 4);
    var lo := DataLevels(w.data, v, 4);
    var es := sel + (hi + EnableLevels(w.enable)) + (lo + EnableLevels(w.enable));
    forall i | 0 <= i < 4 ensures es[n + i] == Level(w.data[i], Bit(v, 4 + i)) {
      assert es[n + i] == hi[i];
      ShiftedBit(v, i);
    }
    forall i | 0 <= i < 4 ensures es[n + 7 + i] == Level(w.data[i], Bit(v, i)) {
      assert es[n + 7 + i] == lo[i];
    }
    assert es[n + 4..n + 7] == EnableLevels(w.enable);
    assert es[n + 11..] == EnableLevels(w.enable);
  }

  /**
   * send(v, mode) on the parallel path: RS := mode, R/W low if connected,
   * then in 8-bit mode data pin i := bit i of v for i = 0..7 and one Enable
   * pulse; in 4-bit mode data pin i := bit 4+i of v, a pulse, data pin i :=
   * bit i of v, a pulse. The frame byte is left alone.
   */
  lemma ParallelSendLevels(p: Port, v: bv8, mode: bool)
    requires !p.spi && Wired(p.w)
    ensures var o := ByteOut(p, v, mode);
            var n := if p.w.rw != NoPin then 2 else 1;
            && o.frame == p.frame
            && |o.events| == n + (if p.eightBit then 11 else 14)
            && o.events[0] == Level(p.w.rs, mode)
            && (p.w.rw != NoPin ==> o.events[1] == Level(p.w.rw, false))
            && (p.eightBit ==>
                  && (forall i | 0 <= i < 8 :: o.events[n + i] == Level(p.w.data[i], Bit(v, i)))
                  && o.events[n + 8..] == EnableLevels(p.w.enable))
            && (!p.eightBit ==>
                  && (forall i | 0 <= i < 4 :: o.events[n + i] == Level(p.w.data[i], Bit(v, 4 + i)))
                  && o.events[n + 4..n + 7] == EnableLevels(p.w.enable)
                  && (forall i | 0 <= i < 4 :: o.events[n + 7 + i] == Level(p.w.data[i], Bit(v, i)))
                  && o.events[n + 11..] == EnableLevels(p.w.enable))
  {
    if p.eightBit {
      ParallelSendOctet(p, v, mode);
    } else {
      ParallelSendNibbles(p, v, mode);
    }
  }

  /** The 8-bit case of ParallelSendLevels. */
  lemma ParallelSendOctet(p: Port, v: bv8, mode: bool)
    requires !p.spi && Wired(p.w) && p.eightBit
    ensures var o := ByteOut(p, v, mode);
            var n := if p.w.rw != NoPin then 2 else 1;
            && o.frame == p.frame
            && |o.events| == n + 11
            && o.events[0] == Level(p.w.rs, mode)
            && (p.w.rw != NoPin ==> o.events[1] == Level(p.w.rw, false))
            && (forall i | 0 <= i < 8 :: o.events[n + i] == Level(p.w.data[i], Bit(v, i)))
            && o.events[n + 8..] == EnableLevels(p.w.enable)
  {
    var sel := SelectLevels(p.w, mode);
    ParallelEvents(p, v, mode);
    ParallelOctetLevels(sel, p.w, v);
    var es := sel + DataLevels(p.w.data, v, 8) + EnableLevels(p.w.enable);
    assert es[0] == sel[0];
    assert p.w.rw != NoPin ==> es[1] == sel[1];
  }

  /** The 4-bit case of ParallelSendLevels. */
  lemma ParallelSendNibbles(p: Port, v: bv8, mode: bool)
    requires !p.spi && Wired(p.w) && !p.eightBit
    ensures var o := ByteOut(p, v, mode);
            var n := if p.w.rw != NoPin then 2 else 1;
            && o.frame == p.frame
            && |o.events| == n + 14
            && o.events[0] == Level(p.w.rs, mode)
            && (p.w.rw != NoPin ==> o.events[1] == Level(p.w.rw, false))
            && (forall i | 0 <= i < 4 :: o.events[n + i] == Level(p.w.data[i], Bit(v, 4 + i)))
            && o.events[n + 4..n + 7] == EnableLevels(p.w.enable)
            && (forall i | 0 <= i < 4 :: o.events[n + 7 + i] == Level(p.w.data[i], Bit(v, i)))
            && o.events[n + 11..] == EnableLevels(p.w.enable)
  {
    var sel := SelectLevels(p.w, mode);
    ParallelEvents(p, v, mode);
    ParallelNibbleLevels(sel, p.w, v);
    var es := sel + (DataLevels(p.w.data, v >> 4, 4) + EnableLevels(p.w.enable)) + (DataLevels(p.w.data, v, 4) + EnableLevels(p.w.enable));
    assert es[0] == sel[0];
    assert p.w.rw != NoPin ==> es[1] == sel[1];
  }
}
