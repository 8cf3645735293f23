/**
 * What the second sensor's interrupt computes and shows: the Timer0 ticks
 * since the first sensor, the speed over the 10 cm between the sensors, and
 * the showSpd screen with its over-limit warning.
 */
module Speed {
  import opened Lcd
  import opened Hd44780

  const DIST: real := 10.0                   // cm between the two sensors
  const MAXSPD: real := 30.0                 // cm/s
  const TICKS_PER_SECOND: real := 1000000.0  // Timer0 is prescaled to 1 us per tick
  const TICK_MODULUS: int := 0x1_0000_0000   // TC and the tick variables are 32-bit unsigned

  /** A reading of Timer0's TC, or a value of startT, stopT or lastInt. */
  type Tick = t: int | 0 <= t < 0x1_0000_0000

  /** `to - from` in unsigned 32-bit arithmetic: the ticks from `from` forward to `to`. */
  function Elapsed(from: Tick, to: Tick): (d: Tick)
    ensures (from + d) % TICK_MODULUS == to
  {
    (to - from) % TICK_MODULUS
  }

  /** The elapsed count is the only tick count that leads from `from` to `to`. */
  lemma ElapsedUnique(from: Tick, to: Tick, d: Tick)
    requires (from + d) % TICK_MODULUS == to
    ensures d == Elapsed(from, to)
  {
    if from + d >= TICK_MODULUS {
      assert (from + d) % TICK_MODULUS == from + d - TICK_MODULUS;
    } else {
      assert (from + d) % TICK_MODULUS == from + d;
    }
  }

  /** Without a wrap the difference is the plain one; across a wrap it gains 2^32. */
  lemma ElapsedCases(from: Tick, to: Tick)
    ensures from <= to ==> Elapsed(from, to) == to - from
    ensures to < from ==> Elapsed(from, to) == to - from + TICK_MODULUS
  {
    if from <= to {
      ElapsedUnique(from, to, to - from);
    } else {
      ElapsedUnique(from, to, to - from + TICK_MODULUS);
    }
  }

  /** The speed as a C float: +inf when no tick passed (10.0 / 0.0), else DIST over the seconds. */
  datatype Speed = Finite(cmPerSec: real) | Infinite

  /** timeSec: the ticks in seconds. */
  function Seconds(elapsed: Tick): (t: real)
    ensures t * TICKS_PER_SECOND == elapsed as real
  {
    elapsed as real / TICKS_PER_SECOND
  }

  /** spd = DIST / timeSec. */
  function SpeedOf(elapsed: Tick): (s: Speed)
    ensures s.Infinite? <==> elapsed == 0
    ensures s.Finite? ==> s.cmPerSec > 0.0 && s.cmPerSec * Seconds(elapsed) == DIST
  {
    if elapsed == 0 then Infinite else Finite(DIST / Seconds(elapsed))
  }

  /** `spd > MAXSPD`; +inf compares above every finite value. */
  predicate OverLimit(s: Speed)
  {
    s.Infinite? || s.cmPerSec > MAXSPD
  }

  /** Ticks between the sensors at which the speed is still over the limit: 10 cm / 30 cm/s, in whole us. */
  const LIMIT_TICKS: Tick := 333333

  /** The warning shows exactly when the object took at most 333333 ticks. */
  lemma OverLimitIff(elapsed: Tick)
    ensures OverLimit(SpeedOf(elapsed)) <==> elapsed <= LIMIT_TICKS
  {
    if elapsed > 0 {
      var v := SpeedOf(elapsed).cmPerSec;
      var e := elapsed as real;
      assert v * e == DIST * TICKS_PER_SECOND by {
        assert v * Seconds(elapsed) == DIST;
        assert Seconds(elapsed) * TICKS_PER_SECOND == e;
        assert v * e == v * (Seconds(elapsed) * TICKS_PER_SECOND);
      }
      if elapsed <= LIMIT_TICKS {
        assert v * e > MAXSPD * e;
      } else {
        assert MAXSPD * e > DIST * TICKS_PER_SECOND;
        assert v * e < MAXSPD * e;
      }
    }
  }

  /** A longer crossing is a lower speed. */
  lemma SpeedDecreasing(e1: Tick, e2: Tick)
    requires 0 < e1 < e2
    ensures SpeedOf(e2).cmPerSec < SpeedOf(e1).cmPerSec
  {
    var v1, v2 := SpeedOf(e1).cmPerSec, SpeedOf(e2).cmPerSec;
    assert v1 * (e1 as real) == v2 * (e2 as real) by {
      assert v1 * Seconds(e1) == v2 * Seconds(e2);
      assert Seconds(e1) * TICKS_PER_SECOND == e1 as real;
      assert Seconds(e2) * TICKS_PER_SECOND == e2 as real;
      assert v1 * (e1 as real) == v1 * Seconds(e1) * TICKS_PER_SECOND;
      assert v2 * (e2 as real) == v2 * Seconds(e2) * TICKS_PER_SECOND;
    }
    assert v2 * (e2 as real) - v2 * (e1 as real) == v2 * (e2 as real - e1 as real);
    assert v2 * (e2 as real) > v2 * (e1 as real);
    assert (v1 - v2) * (e1 as real) == v1 * (e1 as real) - v2 * (e1 as real);
    var inv := 1.0 / (e1 as real);
    assert v1 - v2 == ((v1 - v2) * (e1 as real)) * inv;
    MulPos((v1 - v2) * (e1 as real), inv);
  }

  lemma MulPos(a: real, b: real)
    requires a > 0.0 && b > 0.0
    ensures a * b > 0.0
  {
  }

  // "Speed:" and "OVER LIMIT", in ASCII.
  const SPEED_TEXT: CStr := Ascii("Speed:")
  const OVER_LIMIT_TEXT: CStr := Ascii("OVER LIMIT")

  // The string literals as the compiler lays them out, NUL included.
  const SPEED_LABEL: CStr := SPEED_TEXT + [NUL]
  const OVER_LIMIT_LABEL: CStr := OVER_LIMIT_TEXT + [NUL]

  /**
   * The transfers of a two-line message: clear, the title and the value on
   * line one, then, when `warn`, line two and the warning.
   */
  function ShowOps(title: CStr, value: CStr, warn: bool, warning: CStr): seq<LcdOp>
  {
    var line1 := [Cmd(CLEAR_DISPLAY)] + StrOps(title) + StrOps(value);
    if warn then line1 + ([Cmd(LINE_TWO)] + StrOps(warning)) else line1
  }

  /** The transfers of showSpd, with `text` what sprintf left in buf. */
  function ShowSpdOps(spd: Speed, text: CStr): seq<LcdOp>
  {
    ShowOps(SPEED_LABEL, text, OverLimit(spd), OVER_LIMIT_LABEL)
  }

  /**
   * showSpd starts by clearing the display, sends "Speed:" and the value,
   * and moves to line two exactly when the speed is over the limit.
   */
  lemma ShowSpdOpsShape(spd: Speed, text: CStr)
    ensures var ops := ShowSpdOps(spd, text);
      && |ops| == 1 + |SPEED_TEXT| + |CString(text)| + (if OverLimit(spd) then 1 + |OVER_LIMIT_TEXT| else 0)
      && ops[0] == Cmd(CLEAR_DISPLAY)
      && (Cmd(LINE_TWO) in ops <==> OverLimit(spd))
  {
    CStringOfLiteral(SPEED_TEXT);
    CStringOfLiteral(OVER_LIMIT_TEXT);
    var line1 := [Cmd(CLEAR_DISPLAY)] + StrOps(SPEED_LABEL) + StrOps(text);
    var ops := ShowSpdOps(spd, text);
    assert forall i :: 1 <= i < |line1| ==> line1[i].Dat?;
    if OverLimit(spd) {
      assert ops[|line1|] == Cmd(LINE_TWO);
      assert forall i :: |line1| < i < |ops| ==> ops[i].Dat?;
    }
  }

  /** Clear, then the title and the value: line one holds both, line two is blank. */
  lemma ShowLineOne(s: Screen, title: CStr, value: CStr)
    requires Wf(s)
    ensures Show(s, [Cmd(CLEAR_DISPLAY)] + StrOps(title) + StrOps(value))
         == Screen(CString(title) + CString(value), [], false, |CString(title)| + |CString(value)|)
  {
    var t, v := StrOps(title), StrOps(value);
    var s1 := Step(s, Cmd(CLEAR_DISPLAY));
    assert Show(s, [Cmd(CLEAR_DISPLAY)]) == s1 == Blank;
    ShowStr(s1, title);
    TypedBlank(CString(title));
    var s2 := Show(s1, t);
    ShowStr(s2, value);
    ShowConcat(s, [Cmd(CLEAR_DISPLAY)], t);
    ShowConcat(s, [Cmd(CLEAR_DISPLAY)] + t, v);
  }

  /** Line two, then the warning: line two holds the warning, line one is kept. */
  lemma ShowLineTwo(s: Screen, warning: CStr)
    requires AtEnd(s) && !s.onLine2 && s.line2 == []
    ensures Show(s, [Cmd(LINE_TWO)] + StrOps(warning))
         == Screen(s.line1, CString(warning), true, |CString(warning)|)
  {
    var s4 := Step(s, Cmd(LINE_TWO));
    assert Show(s, [Cmd(LINE_TWO)]) == s4;
    ShowConcat(s, [Cmd(LINE_TWO)], StrOps(warning));
    ShowStr(s4, warning);
    assert [] + CString(warning) == CString(warning);
  }

  /**
   * Whatever the display showed before, a two-line message leaves the title
   * and the value on line one, and the warning on line two when `warn`,
   * line two blank otherwise.
   */
  lemma ShowOpsScreen(s: Screen, title: CStr, value: CStr, warn: bool, warning: CStr)
    requires Wf(s)
    ensures var r := Show(s, ShowOps(title, value, warn, warning));
      && r.line1 == CString(title) + CString(value)
      && r.line2 == (if warn then CString(warning) else [])
  {
    var line1 := [Cmd(CLEAR_DISPLAY)] + StrOps(title) + StrOps(value);
    ShowLineOne(s, title, value);
    if warn {
      ShowLineTwo(Show(s, line1), warning);
      ShowConcat(s, line1, [Cmd(LINE_TWO)] + StrOps(warning));
    }
  }

  /**
   * Whatever the display showed before, after showSpd line one reads
   * "Speed:" followed by the formatted speed, and line two reads
   * "OVER LIMIT" when the speed is over the limit and is blank otherwise.
   */
  lemma ShowSpdScreen(s: Screen, spd: Speed, text: CStr)
    requires Wf(s)
    ensures var r := Show(s, ShowSpdOps(spd, text));
      && r.line1 == SPEED_TEXT + CString(text)
      && r.line2 == (if OverLimit(spd) then OVER_LIMIT_TEXT else [])
  {
    CStringOfLiteral(SPEED_TEXT);
    CStringOfLiteral(OVER_LIMIT_TEXT);
    ShowOpsScreen(s, SPEED_LABEL, text, OverLimit(spd), OVER_LIMIT_LABEL);
  }

  /** The port writes of a two-line message, transfer group by transfer group. */
  lemma ShowOpsEncode(title: CStr, value: CStr, warn: bool, warning: CStr)
    ensures Encode(ShowOps(title, value, warn, warning))
         == Frame(Cmd(CLEAR_DISPLAY)) + Encode(StrOps(title)) + Encode(StrOps(value))
            + (if warn then Frame(Cmd(LINE_TWO)) + Encode(StrOps(warning)) else [])
  {
    var t, v := StrOps(title), StrOps(value);
    EncodeOne(Cmd(CLEAR_DISPLAY));
    EncodeConcat([Cmd(CLEAR_DISPLAY)], t);
    EncodeConcat([Cmd(CLEAR_DISPLAY)] + t, v);
    var line1 := [Cmd(CLEAR_DISPLAY)] + t + v;
    if warn {
      var w := StrOps(warning);
      EncodeOne(Cmd(LINE_TWO));
      EncodeConcat([Cmd(LINE_TWO)], w);
      EncodeConcat(line1, [Cmd(LINE_TWO)] + w);
    }
  }

  /** The calls showSpd makes, for any title, value and warning text. */
  method ShowLines(lcd: LcdPort, title: CStr, value: CStr, warn: bool, warning: CStr)
    modifies lcd
    ensures lcd.bus == old(lcd.bus) + Frame(Cmd(CLEAR_DISPLAY)) + Encode(StrOps(title)) + Encode(StrOps(value))
            + (if warn then Frame(Cmd(LINE_TWO)) + Encode(StrOps(warning)) else [])
  {
    lcd.LcdCmd(CLEAR_DISPLAY);
    lcd.LcdStr(title);
    lcd.LcdStr(value);
    if warn {
      lcd.LcdCmd(LINE_TWO);
      lcd.LcdStr(warning);
    }
  }

  /** showSpd(spd), with sprintf's output passed in as `text`. */
  method ShowSpd(lcd: LcdPort, spd: Speed, text: CStr)
    modifies lcd
    ensures lcd.bus == old(lcd.bus) + Encode(ShowSpdOps(spd, text))
  {
    ShowOpsEncode(SPEED_LABEL, text, OverLimit(spd), OVER_LIMIT_LABEL);
    ShowLines(lcd, SPEED_LABEL, text, OverLimit(spd), OVER_LIMIT_LABEL);
  }
}
