/*
 * What the two begin sequences mean to the controller on the shift-register
 * backpack. In 4-bit mode the controller samples one nibble per Enable
 * pulse; after the reset nibbles it pairs samples into instruction bytes.
 * The theorems below take the transfers begin makes (module Commands), the
 * frames the driver emits for them (module Wire) and the sampling of module
 * Controller, and say what the controller sees.
 */
module Startup {
  import opened Bits
  import opened Wire
  import opened Commands
  import opened Controller

  /** The instructions begin sends after the reset nibbles, in order. */
  function DatasheetBytes(f: bv8): seq<Received>
  {
    [Received(false, FunctionCommand(f)), Received(false, ControlCommand(DisplayOn)),
     Received(false, ClearDisplay), Received(false, EntryModeCommand(EntryLeft))]
  }

  /** The instructions the fork's begin sends after its five nibbles, in order. */
  function TechnoblyBytes(f: bv8): seq<Received>
  {
    [Received(false, DisplayControl), Received(false, FunctionCommand(f)), Received(false, ClearDisplay),
     Received(false, EntryModeSet | EntryLeft), Received(false, ReturnHome), Received(false, DisplayControl | DisplayOn)]
  }

  /** In 4-bit mode begin is four reset nibbles followed by sends of its instructions. */
  lemma DatasheetInitSplit(f: bv8)
    requires !Bit(f, 4)
    ensures DatasheetInit(f) == [Nibble(0x03), Nibble(0x03), Nibble(0x03), Nibble(0x02)] + Sends(DatasheetBytes(f))
  {
    assert Sends(DatasheetBytes(f)) == [Byte(FunctionCommand(f), false), Byte(ControlCommand(DisplayOn), false),
                                        Byte(ClearDisplay, false), Byte(EntryModeCommand(EntryLeft), false)];
  }

  /** The fork's begin is five nibbles followed by sends of its instructions. */
  lemma TechnoblyInitSplit(f: bv8)
    ensures TechnoblyInit(f) == [Nibble(0x03), Nibble(0x08), Nibble(0x02), Nibble(0x02), Nibble(0x08)] + Sends(TechnoblyBytes(f))
  {
    TechnoblyInitParts(f);
    assert Sends(TechnoblyBytes(f)) == [Byte(DisplayControl, false), Byte(FunctionCommand(f), false), Byte(ClearDisplay, false),
                                        Byte(EntryModeSet | EntryLeft, false), Byte(ReturnHome, false), Byte(DisplayControl | DisplayOn, false)];
  }

  /**
   * Nibbles then sends, from a frame with Enable low: the controller samples
   * the nibbles one by one, and pairs the samples after them into exactly
   * the bytes sent.
   */
  lemma SpiNibblesThenBytes(p: Port, ns: seq<Transfer>, bs: seq<Received>)
    requires p.spi && FrameWiring(p.w) && !Bit(p.frame, p.w.enable)
    requires forall i | 0 <= i < |ns| :: ns[i].Nibble?
    ensures var ss := Strobes(p.w, p.frame, Emit(p, ns + Sends(bs)).events);
            && |ss| == |ns| + 2 * |bs|
            && (forall i | 0 <= i < |ns| :: ss[i] == Strobe(Bit(p.frame, p.w.rs), ns[i].value & 0x0F))
            && Join(ss[|ns|..]) == bs
  {
    var rs := Bit(p.frame, p.w.rs);
    SpiEmitStrobes(p, ns + Sends(bs));
    ExpandAppend(rs, ns, Sends(bs));
    ExpandNibbles(rs, ns);
    JoinExpandSends(rs, bs);
    var ss := Strobes(p.w, p.frame, Emit(p, ns + Sends(bs)).events);
    assert ss == Expand(rs, ns) + Expand(rs, Sends(bs));
    assert ss[|ns|..] == Expand(rs, Sends(bs));
  }

  /**
   * Over the backpack, begin in 4-bit mode makes the controller sample 3, 3,
   * 3, 2 and then receive function set, display on, clear and entry mode as
   * instructions.
   */
  lemma DatasheetInitDelivers(p: Port, f: bv8)
    requires p.spi && FrameWiring(p.w) && !Bit(p.frame, p.w.enable) && !Bit(f, 4)
    ensures var ss := Strobes(p.w, p.frame, Emit(p, DatasheetInit(f)).events);
            && |ss| == 12
            && ss[0].nibble == 0x03 && ss[1].nibble == 0x03 && ss[2].nibble == 0x03 && ss[3].nibble == 0x02
            && Join(ss[4..]) == DatasheetBytes(f)
  {
    var ns := [Nibble(0x03), Nibble(0x03), Nibble(0x03), Nibble(0x02)];
    DatasheetInitSplit(f);
    SpiNibblesThenBytes(p, ns, DatasheetBytes(f));
    assert ns[0].value & 0x0F == 0x03 && ns[3].value & 0x0F == 0x02;
  }

  /**
   * Over the backpack, the fork's begin makes the controller sample 3, 8, 2,
   * 2, 8 and then receive its six instructions.
   */
  lemma TechnoblyInitDelivers(p: Port, f: bv8)
    requires p.spi && FrameWiring(p.w) && !Bit(p.frame, p.w.enable)
    ensures var ss := Strobes(p.w, p.frame, Emit(p, TechnoblyInit(f)).events);
            && |ss| == 17
            && ss[0].nibble == 0x03 && ss[1].nibble == 0x08 && ss[2].nibble == 0x02
            && ss[3].nibble == 0x02 && ss[4].nibble == 0x08
            && Join(ss[5..]) == TechnoblyBytes(f)
  {
    var ns := [Nibble(0x03), Nibble(0x08), Nibble(0x02), Nibble(0x02), Nibble(0x08)];
    TechnoblyInitSplit(f);
    SpiNibblesThenBytes(p, ns, TechnoblyBytes(f));
    assert ns[1].value & 0x0F == 0x08 && ns[2].value & 0x0F == 0x02;
  }
}
