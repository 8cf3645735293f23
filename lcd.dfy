/**
 * The character display's 4-bit parallel bus on GPIO port 0, as lcdCmd,
 * lcdDat and lcdStr drive it.  A write to FIOSET raises the pins of its mask,
 * a write to FIOCLR lowers them; the port records the writes in order.
 * The busy waits between writes are timing only and are not modelled.
 */
module Lcd {
  type byte = bv8

  // Port 0 pins wired to the display.
  const LCDRS: bv32 := 1 << 0
  const LCDEN: bv32 := 1 << 1
  const LCDD4: bv32 := 1 << 4
  const LCDD5: bv32 := 1 << 5
  const LCDD6: bv32 := 1 << 6
  const LCDD7: bv32 := 1 << 7
  const DATA_PINS: bv32 := LCDD4 | LCDD5 | LCDD6 | LCDD7
  const LCD_PINS: bv32 := LCDRS | LCDEN | DATA_PINS

  // The display commands the firmware sends after initialisation.
  const CLEAR_DISPLAY: byte := 0x01  // clear, cursor home
  const LINE_TWO: byte := 0xC0       // cursor to the start of line two

  /** One write to LPC_GPIO0: FIOSET (Set) or FIOCLR (Clr) with a pin mask. */
  datatype PinWrite = Set(mask: bv32) | Clr(mask: bv32)

  /** One transfer to the display: a command byte (RS low) or a data byte (RS high). */
  datatype LcdOp = Cmd(b: byte) | Dat(b: byte)

  /** The first nibble on D4-D7: bits 4-7 of the byte. */
  function HighNibble(b: byte): bv32
  {
    (b as bv32) & 0xF0
  }

  /** The second nibble on D4-D7: bits 0-3 of the byte, shifted up by four. */
  function LowNibble(b: byte): bv32
  {
    ((b as bv32) << 4) & 0xF0
  }

  /** Both nibbles go out on D4-D7 only: the high one carries bits 4-7, the low one bits 0-3. */
  lemma NibbleBits(b: byte)
    ensures HighNibble(b) & !DATA_PINS == 0 && LowNibble(b) & !DATA_PINS == 0
    ensures (HighNibble(b) >> 4) & 0xF == (b as bv32) >> 4
    ensures (LowNibble(b) >> 4) & 0xF == (b as bv32) & 0xF
  {
  }

  /** The two nibbles, put back together high first, give the byte back. */
  lemma NibblesRecombine(b: byte)
    ensures (HighNibble(b) | (LowNibble(b) >> 4)) == b as bv32
  {
  }

  /** The nine port writes of one lcdCmd (RS cleared) or lcdDat (RS set). */
  function Frame(op: LcdOp): (ws: seq<PinWrite>)
    ensures |ws| == 9
  {
    var rs := if op.Cmd? then Clr(LCDRS) else Set(LCDRS);
    [rs] + [Clr(DATA_PINS), Set(HighNibble(op.b)), Set(LCDEN), Clr(LCDEN)]
         + [Clr(DATA_PINS), Set(LowNibble(op.b)), Set(LCDEN), Clr(LCDEN)]
  }

  /** The port writes of a sequence of transfers, one frame after another. */
  function Encode(ops: seq<LcdOp>): (ws: seq<PinWrite>)
    ensures |ws| == 9 * |ops|
  {
    if ops == [] then [] else Frame(ops[0]) + Encode(ops[1..])
  }

  lemma EncodeOne(op: LcdOp)
    ensures Encode([op]) == Frame(op)
  {
    assert [op][1..] == [];
  }

  lemma {:induction false} EncodeConcat(a: seq<LcdOp>, b: seq<LcdOp>)
    ensures Encode(a + b) == Encode(a) + Encode(b)
  {
    if a != [] {
      assert (a + b)[0] == a[0];
      assert (a + b)[1..] == a[1..] + b;
      EncodeConcat(a[1..], b);
    } else {
      assert a + b == b;
    }
  }

  /** A C string: a char array, each char one byte, ended by a NUL. */
  type CStr = seq<byte>

  const NUL: byte := 0

  /** The bytes of a string literal whose characters are all ASCII. */
  function Ascii(s: string): (r: CStr)
    requires forall i :: 0 <= i < |s| ==> 0 < s[i] as int < 128
    ensures |r| == |s|
    ensures NUL !in r
  {
    seq(|s|, i requires 0 <= i < |s| => (s[i] as int) as byte)
  }

  /** The characters a C string holds: everything before its first NUL. */
  function CString(s: CStr): (r: CStr)
    ensures r <= s
    ensures NUL !in r
    ensures |r| < |s| ==> s[|r|] == NUL
  {
    if s == [] || s[0] == NUL then [] else [s[0]] + CString(s[1..])
  }

  /** A string literal is its characters followed by a NUL. */
  lemma {:induction false} CStringOfLiteral(t: CStr)
    requires NUL !in t
    ensures CString(t + [NUL]) == t
  {
    if t != [] {
      assert (t + [NUL])[0] == t[0];
      assert (t + [NUL])[1..] == t[1..] + [NUL];
      CStringOfLiteral(t[1..]);
    }
  }

  /** The transfers of lcdStr: one data byte per character, in order, up to the NUL. */
  function StrOps(s: CStr): (ops: seq<LcdOp>)
    ensures |ops| == |CString(s)|
    ensures forall i :: 0 <= i < |ops| ==> ops[i] == Dat(CString(s)[i])
  {
    var t := CString(s);
    seq(|t|, i requires 0 <= i < |t| => Dat(t[i]))
  }

  /** lcdStr sends the first character and then walks on from the second. */
  lemma StrOpsCons(s: CStr)
    requires s != [] && s[0] != NUL
    ensures StrOps(s) == [Dat(s[0])] + StrOps(s[1..])
  {
    assert CString(s) == [s[0]] + CString(s[1..]);
  }

  /** GPIO port 0 as seen by the display: the writes issued to it so far. */
  class LcdPort {
    var bus: seq<PinWrite>

    constructor ()
      ensures bus == []
    {
      bus := [];
    }

    /** LPC_GPIO0->FIOSET = mask */
    method FioSet(mask: bv32)
      modifies this
      ensures bus == old(bus) + [Set(mask)]
    {
      bus := bus + [Set(mask)];
    }

    /** LPC_GPIO0->FIOCLR = mask */
    method FioClr(mask: bv32)
      modifies this
      ensures bus == old(bus) + [Clr(mask)]
    {
      bus := bus + [Clr(mask)];
    }

    /** One half of lcdCmd/lcdDat: the nibble on D4-D7, then an EN pulse. */
    method SendNibble(nibble: bv32)
      modifies this
      ensures bus == old(bus) + [Clr(DATA_PINS), Set(nibble), Set(LCDEN), Clr(LCDEN)]
    {
      FioClr(DATA_PINS);
      FioSet(nibble);
      FioSet(LCDEN);
      FioClr(LCDEN);
    }

    /** lcdCmd: RS low, then the high and the low nibble, each latched by an EN pulse. */
    method LcdCmd(cmd: byte)
      modifies this
      ensures bus == old(bus) + Frame(Cmd(cmd))
    {
      FioClr(LCDRS);
      SendNibble((cmd as bv32) & 0xF0);
      SendNibble(((cmd as bv32) << 4) & 0xF0);
    }

    /** lcdDat: as lcdCmd, with RS high. */
    method LcdDat(dat: byte)
      modifies this
      ensures bus == old(bus) + Frame(Dat(dat))
    {
      FioSet(LCDRS);
      SendNibble((dat as bv32) & 0xF0);
      SendNibble(((dat as bv32) << 4) & 0xF0);
    }

    /** lcdCmd(0x01) followed by lcdStr(s): a cleared screen that starts with s. */
    method ClearAndStr(s: CStr)
      modifies this
      ensures bus == old(bus) + Encode([Cmd(CLEAR_DISPLAY)] + StrOps(s))
    {
      EncodeConcat([Cmd(CLEAR_DISPLAY)], StrOps(s));
      EncodeOne(Cmd(CLEAR_DISPLAY));
      LcdCmd(CLEAR_DISPLAY);
      LcdStr(s);
    }

    /** lcdStr: walk the string and send each character until the NUL. */
    method LcdStr(s: CStr)
      modifies this
      ensures bus == old(bus) + Encode(StrOps(s))
    {
      var rest := s;
      while rest != [] && rest[0] != NUL
        invariant old(bus) + Encode(StrOps(s)) == bus + Encode(StrOps(rest))
        decreases |rest|
      {
        StrOpsCons(rest);
        var ops := StrOps(rest);
        assert Encode(ops) == Frame(Dat(rest[0])) + Encode(StrOps(rest[1..])) by {
          assert ops[0] == Dat(rest[0]) && ops[1..] == StrOps(rest[1..]);
        }
        LcdDat(rest[0]);
        rest := rest[1..];
      }
    }
  }
}
