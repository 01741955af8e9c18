/*
 * The HD44780 side of the shift-register link. The controller samples RS and
 * D4..D7 when Enable falls; in 4-bit mode two consecutive samples make one
 * instruction or data byte, high nibble first. `Strobes` is that sampling
 * applied to the frames the 74HC595 shows, and the theorems below say that
 * the frames the driver emits are sampled as exactly the nibbles it meant to
 * send, and that pairing them gives back the bytes passed to send.
 */
module Controller {
  import opened Bits
  import opened Wire
  import opened Frames

  /** One sample of the controller: the RS level and the nibble on D4..D7. */
  datatype Strobe = Strobe(rs: bool, nibble: bv8)

  /** The frame on the 74HC595 outputs after the events es, starting from x. */
  function LastFrame(x: bv8, es: seq<Event>): bv8
    decreases |es|
  {
    if es == [] then x
    else match es[|es| - 1]
      case Latch(f) => f
      case Level(_, _) => LastFrame(x, es[..|es| - 1])
  }

  /** The sample taken, if any, when the frame `last` is followed by the event e. */
  function StrobeAt(w: Wiring, last: bv8, e: Event): seq<Strobe>
    requires FrameWiring(w)
  {
    match e
    case Latch(f) =>
      if Bit(last, w.enable) && !Bit(f, w.enable) then [Strobe(Bit(last, w.rs), DataNibble(last, w))] else []
    case Level(_, _) => []
  }

  /** Every sample the controller takes while the events es happen, starting from frame x. */
  function Strobes(w: Wiring, x: bv8, es: seq<Event>): seq<Strobe>
    requires FrameWiring(w)
    decreases |es|
  {
    if es == [] then []
    else Strobes(w, x, es[..|es| - 1]) + StrobeAt(w, LastFrame(x, es[..|es| - 1]), es[|es| - 1])
  }

  /** The frame after a + b is the frame b leaves when started from the frame a left. */
  lemma {:induction false} LastFrameAppend(x: bv8, a: seq<Event>, b: seq<Event>)
    ensures LastFrame(x, a + b) == LastFrame(LastFrame(x, a), b)
    decreases |b|
  {
    if b == [] {
      assert a + b == a;
    } else {
      var b' := b[..|b| - 1];
      LastFrameAppend(x, a, b');
      assert (a + b)[..|a + b| - 1] == a + b';
      assert (a + b)[|a + b| - 1] == b[|b| - 1];
    }
  }

  /** Sampling a + b is sampling a, then sampling b from the frame a left. */
  lemma {:induction false} StrobesAppend(w: Wiring, x: bv8, a: seq<Event>, b: seq<Event>)
    requires FrameWiring(w)
    ensures LastFrame(x, a + b) == LastFrame(LastFrame(x, a), b)
    ensures Strobes(w, x, a + b) == Strobes(w, x, a) + Strobes(w, LastFrame(x, a), b)
    decreases |b|
  {
    LastFrameAppend(x, a, b);
    if b == [] {
      assert a + b == a;
    } else {
      var b' := b[..|b| - 1];
      var e := b[|b| - 1];
      StrobesAppend(w, x, a, b');
      LastFrameAppend(x, a, b');
      assert (a + b)[..|a + b| - 1] == a + b';
      assert (a + b)[|a + b| - 1] == e;
      var s := StrobeAt(w, LastFrame(x, a + b'), e);
      assert Strobes(w, x, a + b) == Strobes(w, x, a + b') + s;
      assert Strobes(w, LastFrame(x, a), b) == Strobes(w, LastFrame(x, a), b') + s;
    }
  }

  /** One more latched frame: it becomes the current frame, and it may end an Enable pulse. */
  lemma StrobesLatch(w: Wiring, x: bv8, es: seq<Event>, f: bv8)
    requires FrameWiring(w)
    ensures LastFrame(x, es + [Latch(f)]) == f
    ensures Strobes(w, x, es + [Latch(f)]) == Strobes(w, x, es) + StrobeAt(w, LastFrame(x, es), Latch(f))
  {
    assert (es + [Latch(f)])[..|es|] == es;
  }

  /** The nibble samples that one transfer is meant to produce, given the RS level before it. */
  function Intended(t: Transfer, rs: bool): seq<Strobe>
  {
    match t
    case Nibble(v) => [Strobe(rs, v & 0x0F)]
    case Byte(v, mode) => [Strobe(mode, v >> 4), Strobe(mode, v & 0x0F)]
  }

  /** The RS level after one transfer: send sets it, write4bits leaves it. */
  function RsStep(rs: bool, t: Transfer): bool
  {
    match t
    case Nibble(_) => rs
    case Byte(_, mode) => mode
  }

  /** The RS level after the transfers ts. */
  function RsAfter(rs: bool, ts: seq<Transfer>): bool
    decreases |ts|
  {
    if ts == [] then rs else RsStep(RsAfter(rs, ts[..|ts| - 1]), ts[|ts| - 1])
  }

  /** The samples a sequence of transfers is meant to produce. */
  function Expand(rs: bool, ts: seq<Transfer>): seq<Strobe>
    decreases |ts|
  {
    if ts == [] then []
    else Expand(rs, ts[..|ts| - 1]) + Intended(ts[|ts| - 1], RsAfter(rs, ts[..|ts| - 1]))
  }


  /**
   * A frame latched with Enable low, then an Enable pulse: the controller
   * takes one sample, of that frame's RS level and data nibble.
   */
  lemma PulseStrobes(w: Wiring, x: bv8, f: bv8)
    requires FrameWiring(w) && !Bit(x, w.enable) && !Bit(f, w.enable)
    ensures var fs := EnablePulse(f, w.enable);
            var es := [Latch(f), Latch(fs[0]), Latch(fs[1]), Latch(fs[2])];
            && Strobes(w, x, es) == [Strobe(Bit(f, w.rs), DataNibble(f, w))]
            && LastFrame(x, es) == fs[2]
  {
    var fs := EnablePulse(f, w.enable);
    PulseKeeps(f, w, 1);
    var e0: seq<Event> := [];
    var e1 := e0 + [Latch(f)];
    var e2 := e1 + [Latch(fs[0])];
    var e3 := e2 + [Latch(fs[1])];
    var e4 := e3 + [Latch(fs[2])];
    StrobesLatch(w, x, e0, f);
    assert Strobes(w, x, e1) == [] && LastFrame(x, e1) == f;
    StrobesLatch(w, x, e1, fs[0]);
    assert Strobes(w, x, e2) == [] && LastFrame(x, e2) == fs[0];
    StrobesLatch(w, x, e2, fs[1]);
    assert Strobes(w, x, e3) == [] && LastFrame(x, e3) == fs[1];
    StrobesLatch(w, x, e3, fs[2]);
    assert e4 == [Latch(f), Latch(fs[0]), Latch(fs[1]), Latch(fs[2])];
  }

  /**
   * write4bits on the shift-register path, from a frame with Enable low: the
   * controller takes exactly one sample, the low nibble of v with the RS
   * level already in the frame, and Enable ends low again.
   */
  lemma SpiNibbleStrobes(p: Port, v: bv8)
    requires p.spi && FrameWiring(p.w) && !Bit(p.frame, p.w.enable)
    ensures var o := NibbleOut(p, v);
            && Strobes(p.w, p.frame, o.events) == [Strobe(Bit(p.frame, p.w.rs), v & 0x0F)]
            && LastFrame(p.frame, o.events) == o.frame
            && !Bit(o.frame, p.w.enable)
            && Bit(o.frame, p.w.rs) == Bit(p.frame, p.w.rs)
  {
    var o := NibbleOut(p, v);
    var f := NibbleFrame(p.frame, v, p.w, p.backlight);
    var fs := EnablePulse(f, p.w.enable);
    assert o.events == [Latch(f), Latch(fs[0]), Latch(fs[1]), Latch(fs[2])] && o.frame == fs[2];
    NibbleFrameKeeps(p.frame, v, p.w, p.backlight);
    PulseStrobes(p.w, p.frame, f);
  }

  /**
   * send(v, mode) on the shift-register path, from a frame with Enable low:
   * the controller takes exactly two samples, both with RS = mode, carrying
   * the high and then the low nibble of v; RS stays at mode and Enable ends low.
   */
  lemma SpiByteStrobes(p: Port, v: bv8, mode: bool)
    requires p.spi && FrameWiring(p.w) && !Bit(p.frame, p.w.enable)
    ensures var o := ByteOut(p, v, mode);
            && Strobes(p.w, p.frame, o.events) == [Strobe(mode, v >> 4), Strobe(mode, v & 0x0F)]
            && LastFrame(p.frame, o.events) == o.frame
            && !Bit(o.frame, p.w.enable)
            && Bit(o.frame, p.w.rs) == mode
  {
    var w := p.w;
    var o := ByteOut(p, v, mode);
    var r := BitWrite(p.frame, w.rs, mode);
    var hi := NibbleOut(p.(frame := r), v >> 4);
    var lo := NibbleOut(p.(frame := hi.frame), v);
    assert o.events == [Latch(r)] + hi.events + lo.events && o.frame == lo.frame;
    StrobesLatch(w, p.frame, [], r);
    assert [] + [Latch(r)] == [Latch(r)];
    SpiNibbleStrobes(p.(frame := r), v >> 4);
    SpiNibbleStrobes(p.(frame := hi.frame), v);
    HighNibble(v);
    StrobesAppend(w, p.frame, [Latch(r)], hi.events);
    StrobesAppend(w, p.frame, [Latch(r)] + hi.events, lo.events);
  }

  lemma SpiStepStrobes(p: Port, t: Transfer)
    requires p.spi && FrameWiring(p.w) && !Bit(p.frame, p.w.enable)
    ensures var o := StepOut(p, t);
            && Strobes(p.w, p.frame, o.events) == Intended(t, Bit(p.frame, p.w.rs))
            && LastFrame(p.frame, o.events) == o.frame
            && !Bit(o.frame, p.w.enable)
            && Bit(o.frame, p.w.rs) == RsStep(Bit(p.frame, p.w.rs), t)
  {
    match t
    case Nibble(v) => SpiNibbleStrobes(p, v);
    case Byte(v, mode) => SpiByteStrobes(p, v, mode);
  }

  /**
   * The shift-register path is correct: whatever mix of write4bits and send
   * calls the driver makes, starting with Enable low, the controller samples
   * exactly the intended nibbles, in order, with the intended RS levels.
   */
  lemma {:induction false} SpiEmitStrobes(p: Port, ts: seq<Transfer>)
    requires p.spi && FrameWiring(p.w) && !Bit(p.frame, p.w.enable)
    ensures var o := Emit(p, ts);
            && Strobes(p.w, p.frame, o.events) == Expand(Bit(p.frame, p.w.rs), ts)
            && LastFrame(p.frame, o.events) == o.frame
            && !Bit(o.frame, p.w.enable)
            && Bit(o.frame, p.w.rs) == RsAfter(Bit(p.frame, p.w.rs), ts)
    decreases |ts|
  {
    if ts != [] {
      var a := ts[..|ts| - 1];
      var t := ts[|ts| - 1];
      assert ts == a + [t];
      SpiEmitStrobes(p, a);
      var o := Emit(p, a);
      var q := p.(frame := o.frame);
      SpiStepStrobes(q, t);
      EmitSnoc(p, a, t);
      StrobesAppend(p.w, p.frame, o.events, StepOut(q, t).events);
      assert [t][..0] == [];
    }
  }

  /** The RS level after two runs of transfers is the level the second run leaves, starting from the first's. */
  lemma {:induction false} RsAfterAppend(rs: bool, a: seq<Transfer>, b: seq<Transfer>)
    ensures RsAfter(rs, a + b) == RsAfter(RsAfter(rs, a), b)
    decreases |b|
  {
    if b == [] {
      assert a + b == a;
    } else {
      var c := b[..|b| - 1];
      RsAfterAppend(rs, a, c);
      assert (a + b)[..|a + b| - 1] == a + c;
    }
  }

  /** The samples of two runs of transfers, one after the other, are the samples of each run in turn. */
  lemma {:induction false} ExpandAppend(rs: bool, a: seq<Transfer>, b: seq<Transfer>)
    ensures Expand(rs, a + b) == Expand(rs, a) + Expand(RsAfter(rs, a), b)
    decreases |b|
  {
    if b == [] {
      assert a + b == a;
    } else {
      var c := b[..|b| - 1];
      var t := b[|b| - 1];
      ExpandAppend(rs, a, c);
      RsAfterAppend(rs, a, c);
      assert (a + b)[..|a + b| - 1] == a + c;
      assert (a + b)[|a + b| - 1] == t;
      var tail := Intended(t, RsAfter(RsAfter(rs, a), c));
      calc {
        Expand(rs, a + b);
        Expand(rs, a + c) + tail;
        Expand(rs, a) + Expand(RsAfter(rs, a), c) + tail;
        Expand(rs, a) + (Expand(RsAfter(rs, a), c) + tail);
      }
    }
  }

  /** A run of write4bits calls is sampled nibble by nibble, each with the RS level it started from. */
  lemma {:induction false} ExpandNibbles(rs: bool, ts: seq<Transfer>)
    requires forall i | 0 <= i < |ts| :: ts[i].Nibble?
    ensures Expand(rs, ts) == seq(|ts|, i requires 0 <= i < |ts| => Strobe(rs, ts[i].value & 0x0F))
    ensures RsAfter(rs, ts) == rs
    decreases |ts|
  {
    if ts != [] {
      ExpandNibbles(rs, ts[..|ts| - 1]);
    }
  }

  // ---------------------------------------------------------------------------
  // Pairing nibbles into bytes (4-bit interface)
  // ---------------------------------------------------------------------------

  /** An instruction (rs false) or a data byte (rs true) as the controller assembles it. */
  datatype Received = Received(rs: bool, value: bv8)

  /** In 4-bit mode the controller pairs samples from the start: high nibble, then low nibble. */
  function Join(ss: seq<Strobe>): seq<Received>
    decreases |ss|
  {
    if |ss| < 2 then [] else [Received(ss[0].rs, (ss[0].nibble << 4) | (ss[1].nibble & 0x0F))] + Join(ss[2..])
  }

  lemma {:induction false} JoinAppend(a: seq<Strobe>, b: seq<Strobe>)
    requires |a| % 2 == 0
    ensures Join(a + b) == Join(a) + Join(b)
    decreases |a|
  {
    if a == [] {
      assert a + b == b;
    } else {
      JoinAppend(a[2..], b);
      assert (a + b)[2..] == a[2..] + b;
      assert (a + b)[0] == a[0] && (a + b)[1] == a[1];
      var r := Received(a[0].rs, (a[0].nibble << 4) | (a[1].nibble & 0x0F));
      assert Join(a + b) == [r] + Join(a[2..] + b);
      assert Join(a) == [r] + Join(a[2..]);
    }
  }

  /** The transfers a sequence of send calls makes. */
  function Sends(bs: seq<Received>): seq<Transfer>
  {
    seq(|bs|, i requires 0 <= i < |bs| => Byte(bs[i].value, bs[i].rs))
  }

  /** Proof step: the two nibbles of a byte put back together give the byte. */
  lemma NibblesRejoin(v: bv8)
    ensures ((v >> 4) << 4) | ((v & 0x0F) & 0x0F) == v
  {}

  /**
   * Round trip: a sequence of send calls, split into nibbles as the driver
   * intends, is paired back by the controller into exactly those bytes with
   * their RS levels, whatever the RS level was before.
   */
  lemma {:induction false} JoinExpandSends(rs: bool, bs: seq<Received>)
    ensures |Expand(rs, Sends(bs))| == 2 * |bs|
    ensures Join(Expand(rs, Sends(bs))) == bs
    decreases |bs|
  {
    if bs != [] {
      var a := bs[..|bs| - 1];
      var b := bs[|bs| - 1];
      JoinExpandSends(rs, a);
      assert Sends(bs)[..|bs| - 1] == Sends(a);
      var pair := Intended(Byte(b.value, b.rs), RsAfter(rs, Sends(a)));
      JoinAppend(Expand(rs, Sends(a)), pair);
      NibblesRejoin(b.value);
      assert pair[2..] == [];
      assert bs == a + [b];
    }
  }

  /**
   * End to end on the shift-register path: the bytes passed to send arrive at
   * the controller as exactly those instructions and data bytes, in order.
   */
  lemma SpiDelivers(p: Port, bs: seq<Received>)
    requires p.spi && FrameWiring(p.w) && !Bit(p.frame, p.w.enable)
    ensures Join(Strobes(p.w, p.frame, Emit(p, Sends(bs)).events)) == bs
  {
    SpiEmitStrobes(p, Sends(bs));
    JoinExpandSends(Bit(p.frame, p.w.rs), bs);
  }
}
