/**
 * The display controller's side of the 4-bit bus, as a reference for the
 * framing that lcdCmd and lcdDat produce.  The controller (an HD44780 in
 * 4-bit mode) samples RS and D4-D7 when EN falls, and takes two such
 * nibbles, high first, as one byte: a command if RS was low, data if high.
 * The pin levels are those of port 0 after each FIOSET/FIOCLR write.
 */
module Hd44780 {
  import opened Lcd

  /** The port 0 output levels after one write. */
  function Apply(pins: bv32, w: PinWrite): bv32
  {
    match w
    case Set(m) => pins | m
    case Clr(m) => pins & !m
  }

  /** The port 0 output levels after a sequence of writes. */
  function Final(pins: bv32, ws: seq<PinWrite>): bv32
    decreases |ws|
  {
    if ws == [] then pins else Final(Apply(pins, ws[0]), ws[1..])
  }

  /** What the controller samples on a falling EN edge. */
  datatype Nibble = Nibble(rs: bool, bits: bv32)

  /** The write lowers EN while it is high. */
  predicate FallingEdge(pins: bv32, w: PinWrite)
  {
    w.Clr? && w.mask & LCDEN != 0 && pins & LCDEN != 0
  }

  function Sample(pins: bv32): (n: Nibble)
    ensures n.bits < 16
  {
    Nibble(pins & LCDRS != 0, (pins >> 4) & 0xF)
  }

  /** The nibble one write makes the controller latch, if any. */
  function Latch(pins: bv32, w: PinWrite): seq<Nibble>
  {
    if FallingEdge(pins, w) then [Sample(pins)] else []
  }

  /** The nibbles the controller latches while the writes go out, in order. */
  function Latched(pins: bv32, ws: seq<PinWrite>): seq<Nibble>
    decreases |ws|
  {
    if ws == [] then [] else Latch(pins, ws[0]) + Latched(Apply(pins, ws[0]), ws[1..])
  }

  /** Two nibbles, high first, make one transfer; RS of the first decides its kind. */
  function Join(hi: Nibble, lo: Nibble): LcdOp
  {
    var b := ((((hi.bits & 0xF) << 4) | (lo.bits & 0xF)) as bv8);
    if hi.rs then Dat(b) else Cmd(b)
  }

  /** The transfers the controller assembles from a nibble stream (an odd last nibble waits). */
  function Assemble(ns: seq<Nibble>): seq<LcdOp>
    decreases |ns|
  {
    if |ns| < 2 then [] else [Join(ns[0], ns[1])] + Assemble(ns[2..])
  }

  /** The transfers the controller receives from a sequence of port writes. */
  function Decode(pins: bv32, ws: seq<PinWrite>): seq<LcdOp>
  {
    Assemble(Latched(pins, ws))
  }

  lemma {:induction false} FinalAppend(pins: bv32, a: seq<PinWrite>, b: seq<PinWrite>)
    ensures Final(pins, a + b) == Final(Final(pins, a), b)
    decreases |a|
  {
    if a == [] {
      assert a + b == b;
    } else {
      assert (a + b)[0] == a[0];
      assert (a + b)[1..] == a[1..] + b;
      FinalAppend(Apply(pins, a[0]), a[1..], b);
    }
  }

  lemma {:induction false} LatchedAppend(pins: bv32, a: seq<PinWrite>, b: seq<PinWrite>)
    ensures Latched(pins, a + b) == Latched(pins, a) + Latched(Final(pins, a), b)
    decreases |a|
  {
    FinalAppend(pins, a, b);
    if a == [] {
      assert a + b == b;
    } else {
      var p1 := Apply(pins, a[0]);
      var here := Latch(pins, a[0]);
      assert (a + b)[0] == a[0];
      assert (a + b)[1..] == a[1..] + b;
      LatchedAppend(p1, a[1..], b);
      var x, y := Latched(p1, a[1..]), Latched(Final(p1, a[1..]), b);
      assert Final(pins, a) == Final(p1, a[1..]);
      assert Latched(pins, a + b) == here + (x + y);
      assert Latched(pins, a) == here + x;
      assert here + (x + y) == (here + x) + y;
    }
  }

  // Apply's two cases as lemmas: proved apart, they keep bit-vector reasoning
  // out of the larger proofs that use them.
  lemma ApplySet(pins: bv32, m: bv32)
    ensures Apply(pins, Set(m)) == pins | m
  {
  }

  lemma ApplyClr(pins: bv32, m: bv32)
    ensures Apply(pins, Clr(m)) == pins & !m
  {
  }

  /** Raising EN and then lowering it is a falling edge. */
  lemma StrobeEdge(pins: bv32)
    ensures FallingEdge(Apply(pins, Set(LCDEN)), Clr(LCDEN))
  {
    ApplySet(pins, LCDEN);
  }

  /** At the falling edge D4-D7 carry the nibble and RS is as it was. */
  lemma SampleBits(pins: bv32, nibble: bv32, p1: bv32, p2: bv32, p3: bv32)
    requires nibble & !DATA_PINS == 0
    requires p1 == pins & !DATA_PINS && p2 == p1 | nibble && p3 == p2 | LCDEN
    ensures Sample(p3) == Nibble(pins & LCDRS != 0, (nibble >> 4) & 0xF)
  {
  }

  /** After the strobe D4-D7 hold the nibble, EN is low and every other pin is as it was. */
  lemma FinalBits(pins: bv32, nibble: bv32, p1: bv32, p2: bv32, p3: bv32, p4: bv32)
    requires nibble & !DATA_PINS == 0
    requires p1 == pins & !DATA_PINS && p2 == p1 | nibble && p3 == p2 | LCDEN && p4 == p3 & !LCDEN
    ensures p4 == (pins & !DATA_PINS & !LCDEN) | nibble
  {
  }

  /** Four writes of which only the last lowers EN latch one nibble, taken just before it. */
  lemma LatchedFour(p0: bv32, p1: bv32, p2: bv32, p3: bv32, p4: bv32,
                    ws: seq<PinWrite>, w0: PinWrite, w1: PinWrite, w2: PinWrite, w3: PinWrite)
    requires ws == [w0, w1, w2, w3]
    requires Apply(p0, w0) == p1 && Apply(p1, w1) == p2
    requires Apply(p2, w2) == p3 && Apply(p3, w3) == p4
    requires !FallingEdge(p0, w0) && !FallingEdge(p1, w1) && !FallingEdge(p2, w2)
    requires FallingEdge(p3, w3)
    ensures Latched(p0, ws) == [Sample(p3)] && Final(p0, ws) == p4
  {
    var t3 := ws[3..];
    assert t3[1..] == [];
    assert Latched(p4, t3[1..]) == [] && Final(p4, t3[1..]) == p4;
    assert Latched(p3, t3) == [Sample(p3)] && Final(p3, t3) == p4;
    assert ws[2..][1..] == t3 && ws[1..][1..] == ws[2..];
    assert Latched(p2, ws[2..]) == [Sample(p3)] && Final(p2, ws[2..]) == p4;
    assert Latched(p1, ws[1..]) == [Sample(p3)] && Final(p1, ws[1..]) == p4;
  }

  /** Clearing D4-D7 leaves EN alone, so it is no falling edge. */
  lemma DataClearIsNoEdge(pins: bv32)
    ensures !FallingEdge(pins, Clr(DATA_PINS))
  {
    assert DATA_PINS & LCDEN == 0;
  }

  /** The writes of one EN strobe, given the pin levels they step through. */
  lemma StrobeShape(pins: bv32, nibble: bv32, p1: bv32, p2: bv32, p3: bv32, p4: bv32)
    requires Apply(pins, Clr(DATA_PINS)) == p1 && Apply(p1, Set(nibble)) == p2
    requires Apply(p2, Set(LCDEN)) == p3 && Apply(p3, Clr(LCDEN)) == p4
    requires FallingEdge(p3, Clr(LCDEN))
    ensures var ws := [Clr(DATA_PINS), Set(nibble), Set(LCDEN), Clr(LCDEN)];
      Latched(pins, ws) == [Sample(p3)] && Final(pins, ws) == p4
  {
    DataClearIsNoEdge(pins);
    LatchedFour(pins, p1, p2, p3, p4, [Clr(DATA_PINS), Set(nibble), Set(LCDEN), Clr(LCDEN)],
      Clr(DATA_PINS), Set(nibble), Set(LCDEN), Clr(LCDEN));
  }

  /** One EN strobe latches exactly the nibble it put on D4-D7, with the RS level it found. */
  lemma StrobeLatched(pins: bv32, nibble: bv32)
    requires nibble & !DATA_PINS == 0
    ensures var ws := [Clr(DATA_PINS), Set(nibble), Set(LCDEN), Clr(LCDEN)];
      && Latched(pins, ws) == [Nibble(pins & LCDRS != 0, (nibble >> 4) & 0xF)]
      && Final(pins, ws) == (pins & !DATA_PINS & !LCDEN) | nibble
  {
    var p1 := pins & !DATA_PINS;
    ApplyClr(pins, DATA_PINS);
    var p2 := p1 | nibble;
    ApplySet(p1, nibble);
    var p3 := p2 | LCDEN;
    ApplySet(p2, LCDEN);
    var p4 := p3 & !LCDEN;
    ApplyClr(p3, LCDEN);
    StrobeEdge(p2);
    SampleBits(pins, nibble, p1, p2, p3);
    FinalBits(pins, nibble, p1, p2, p3, p4);
    StrobeShape(pins, nibble, p1, p2, p3, p4);
  }

  /** The strobe's end levels: RS kept, EN low, the other pins kept. */
  lemma StrobeKeepsRs(pins: bv32, nibble: bv32)
    requires nibble & !DATA_PINS == 0
    ensures (((pins & !DATA_PINS & !LCDEN) | nibble) & LCDRS != 0) == (pins & LCDRS != 0)
  {
  }

  lemma StrobeLowersEn(pins: bv32, nibble: bv32)
    requires nibble & !DATA_PINS == 0
    ensures ((pins & !DATA_PINS & !LCDEN) | nibble) & LCDEN == 0
  {
  }

  lemma StrobeKeepsOthers(pins: bv32, nibble: bv32)
    requires nibble & !DATA_PINS == 0
    ensures ((pins & !DATA_PINS & !LCDEN) | nibble) & !LCD_PINS == pins & !LCD_PINS
  {
  }

  /** The frame's first write sets RS for data and clears it for a command ... */
  lemma RsWriteLevel(pins: bv32, op: LcdOp)
    ensures (Apply(pins, Frame(op)[0]) & LCDRS != 0) == op.Dat?
  {
    if op.Cmd? {
      ApplyClr(pins, LCDRS);
    } else {
      ApplySet(pins, LCDRS);
    }
  }

  /** ... and touches no pin outside the display's. */
  lemma RsWriteKeepsOthers(pins: bv32, op: LcdOp)
    ensures Apply(pins, Frame(op)[0]) & !LCD_PINS == pins & !LCD_PINS
  {
    if op.Cmd? {
      ApplyClr(pins, LCDRS);
    } else {
      ApplySet(pins, LCDRS);
    }
  }

  /** A frame is its RS write followed by two strobes. */
  lemma FrameSplit(pins: bv32, op: LcdOp)
    ensures var p1 := Apply(pins, Frame(op)[0]);
      var hi := [Clr(DATA_PINS), Set(HighNibble(op.b)), Set(LCDEN), Clr(LCDEN)];
      var lo := [Clr(DATA_PINS), Set(LowNibble(op.b)), Set(LCDEN), Clr(LCDEN)];
      && Latched(pins, Frame(op)) == Latched(p1, hi) + Latched(Final(p1, hi), lo)
      && Final(pins, Frame(op)) == Final(Final(p1, hi), lo)
  {
    var rs := Frame(op)[..1];
    var hi := [Clr(DATA_PINS), Set(HighNibble(op.b)), Set(LCDEN), Clr(LCDEN)];
    var lo := [Clr(DATA_PINS), Set(LowNibble(op.b)), Set(LCDEN), Clr(LCDEN)];
    assert Frame(op) == rs + hi + lo;
    assert rs[1..] == [];
    LatchedAppend(pins, rs, hi);
    FinalAppend(pins, rs, hi);
    LatchedAppend(pins, rs + hi, lo);
    FinalAppend(pins, rs + hi, lo);
  }

  /**
   * One lcdCmd or lcdDat frame delivers exactly its byte: two nibbles, high
   * first, RS low for a command and high for data, whatever the pins were
   * before; and it leaves every port 0 pin outside RS, EN and D4-D7 as it was.
   */
  lemma FrameLatched(pins: bv32, op: LcdOp)
    ensures Latched(pins, Frame(op)) == [Nibble(op.Dat?, (op.b as bv32) >> 4), Nibble(op.Dat?, (op.b as bv32) & 0xF)]
    ensures Final(pins, Frame(op)) & !LCD_PINS == pins & !LCD_PINS
    ensures Final(pins, Frame(op)) & LCDEN == 0
  {
    FrameSplit(pins, op);
    NibbleBits(op.b);
    var p1 := Apply(pins, Frame(op)[0]);
    RsWriteLevel(pins, op);
    RsWriteKeepsOthers(pins, op);
    var hi := [Clr(DATA_PINS), Set(HighNibble(op.b)), Set(LCDEN), Clr(LCDEN)];
    StrobeLatched(p1, HighNibble(op.b));
    StrobeKeepsRs(p1, HighNibble(op.b));
    StrobeKeepsOthers(p1, HighNibble(op.b));
    var p2 := Final(p1, hi);
    StrobeLatched(p2, LowNibble(op.b));
    StrobeKeepsOthers(p2, LowNibble(op.b));
    StrobeLowersEn(p2, LowNibble(op.b));
  }

  /** The two nibbles of a frame join back into its transfer. */
  lemma JoinNibbles(op: LcdOp)
    ensures Join(Nibble(op.Dat?, (op.b as bv32) >> 4), Nibble(op.Dat?, (op.b as bv32) & 0xF)) == op
  {
  }

  /** Round trip: the controller receives exactly the transfers that were encoded. */
  lemma {:induction false} DecodeEncode(pins: bv32, ops: seq<LcdOp>)
    ensures Decode(pins, Encode(ops)) == ops
    decreases |ops|
  {
    if ops != [] {
      var f := Frame(ops[0]);
      var rest := Encode(ops[1..]);
      assert Encode(ops) == f + rest;
      LatchedAppend(pins, f, rest);
      FinalAppend(pins, f, rest);
      FrameLatched(pins, ops[0]);
      JoinNibbles(ops[0]);
      DecodeEncode(Final(pins, f), ops[1..]);
      var ns := Latched(pins, f + rest);
      assert ns[2..] == Latched(Final(pins, f), rest);
      assert Assemble(ns) == [Join(ns[0], ns[1])] + Assemble(ns[2..]);
    }
  }

  /** A whole sequence of transfers never disturbs the other port 0 pins. */
  lemma {:induction false} EncodeKeepsOtherPins(pins: bv32, ops: seq<LcdOp>)
    ensures Final(pins, Encode(ops)) & !LCD_PINS == pins & !LCD_PINS
    decreases |ops|
  {
    if ops != [] {
      FinalAppend(pins, Frame(ops[0]), Encode(ops[1..]));
      FrameLatched(pins, ops[0]);
      EncodeKeepsOtherPins(Final(pins, Frame(ops[0])), ops[1..]);
    }
  }

  // What the two display lines hold.  Only the two commands the firmware sends
  // after initialisation are interpreted: clear display (also homes the cursor)
  // and set the cursor to the start of line two; the entry mode lcdInit selects
  // moves the cursor one place right after each data byte.

  /** The characters on each line, which line the cursor is on and its column. */
  datatype Screen = Screen(line1: seq<byte>, line2: seq<byte>, onLine2: bool, col: nat)

  const Blank := Screen([], [], false, 0)

  /** The cursor stands right after the last character of its line. */
  predicate AtEnd(s: Screen)
  {
    s.col == if s.onLine2 then |s.line2| else |s.line1|
  }

  /** A data byte written at a column: overwrites, or extends the line at its end. */
  function Put(line: seq<byte>, col: nat, c: byte): (r: seq<byte>)
    requires col <= |line|
    ensures |r| == if col < |line| then |line| else |line| + 1
    ensures r[col] == c
    ensures forall i :: 0 <= i < |line| && i != col ==> r[i] == line[i]
  {
    if col < |line| then line[col := c] else line + [c]
  }

  predicate Wf(s: Screen)
  {
    s.col <= if s.onLine2 then |s.line2| else |s.line1|
  }

  function Step(s: Screen, op: LcdOp): (r: Screen)
    requires Wf(s)
    ensures Wf(r)
  {
    match op
    case Cmd(c) =>
      if c == CLEAR_DISPLAY then Blank
      else if c == LINE_TWO then s.(onLine2 := true, col := 0)
      else s
    case Dat(c) =>
      if s.onLine2 then s.(line2 := Put(s.line2, s.col, c), col := s.col + 1)
      else s.(line1 := Put(s.line1, s.col, c), col := s.col + 1)
  }

  /** The screen after a sequence of transfers. */
  function Show(s: Screen, ops: seq<LcdOp>): (r: Screen)
    requires Wf(s)
    ensures Wf(r)
    decreases |ops|
  {
    if ops == [] then s else Show(Step(s, ops[0]), ops[1..])
  }

  lemma {:induction false} ShowConcat(s: Screen, a: seq<LcdOp>, b: seq<LcdOp>)
    requires Wf(s)
    ensures Show(s, a + b) == Show(Show(s, a), b)
    decreases |a|
  {
    if a == [] {
      assert a + b == b;
    } else {
      assert (a + b)[0] == a[0];
      assert (a + b)[1..] == a[1..] + b;
      ShowConcat(Step(s, a[0]), a[1..], b);
    }
  }

  /** The screen with characters typed at the end of the cursor's line. */
  function Typed(s: Screen, t: seq<byte>): (r: Screen)
    requires AtEnd(s)
    ensures AtEnd(r)
  {
    if s.onLine2 then s.(line2 := s.line2 + t, col := s.col + |t|)
    else s.(line1 := s.line1 + t, col := s.col + |t|)
  }

  /** Typing on a blank screen fills line one from its start. */
  lemma TypedBlank(t: seq<byte>)
    ensures Typed(Blank, t) == Screen(t, [], false, |t|)
  {
    assert [] + t == t;
  }

  /** One data byte with the cursor at the end of its line types that byte. */
  lemma StepTypes(s: Screen, c: byte, t: seq<byte>)
    requires AtEnd(s)
    ensures Step(s, Dat(c)) == Typed(s, [c])
    ensures Typed(Typed(s, [c]), t) == Typed(s, [c] + t)
  {
    if s.onLine2 {
      assert (s.line2 + [c]) + t == s.line2 + ([c] + t);
    } else {
      assert (s.line1 + [c]) + t == s.line1 + ([c] + t);
    }
  }

  /** lcdStr with the cursor at the end of a line types the string's characters there. */
  lemma {:induction false} ShowStr(s: Screen, str: CStr)
    requires AtEnd(s)
    ensures Show(s, StrOps(str)) == Typed(s, CString(str))
    decreases |str|
  {
    if str == [] || str[0] == NUL {
      assert CString(str) == [];
      if s.onLine2 {
        assert s.line2 + [] == s.line2;
      } else {
        assert s.line1 + [] == s.line1;
      }
    } else {
      var c, ops, t := str[0], StrOps(str), CString(str[1..]);
      StrOpsCons(str);
      assert ops[0] == Dat(c) && ops[1..] == StrOps(str[1..]);
      assert CString(str) == [c] + t;
      StepTypes(s, c, t);
      ShowStr(Typed(s, [c]), str[1..]);
    }
  }
}
