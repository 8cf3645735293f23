/**
 * The two-sensor speed trap: the EINT3 interrupt handler that takes the
 * first sensor's time, and on the second sensor computes and shows the
 * speed; and the main loop's acknowledgement of a finished measurement.
 * Timer0's TC is read afresh at each place the handler reads it, so every
 * reading is a parameter.
 */
module Tracker {
  import opened Lcd
  import opened Hd44780
  import opened Speed

  // Port 2 pins of the sensors; their falling edges interrupt.
  const IR1: bv32 := 1 << 10
  const IR2: bv32 := 1 << 11

  /** Ticks after the last accepted interrupt during which interrupts are ignored (50 ms). */
  const DEBOUNCE: int := 50000

  /**
   * What the handler reads and writes: startT, stopT, spd and measDone, its
   * static lastInt, and IO2IntStatF, the falling-edge status of port 2.
   */
  datatype Globals = Globals(startT: Tick, stopT: Tick, spd: Speed, measDone: bool, lastInt: Tick, intStatF: bv32)

  /** At reset: every variable zero, no edge pending. */
  const Initial: Globals := Globals(0, 0, Finite(0.0), false, 0, 0)

  /** The guard: more than DEBOUNCE ticks since lastInt, in unsigned arithmetic. */
  predicate Accepted(g: Globals, tcGuard: Tick)
  {
    Elapsed(g.lastInt, tcGuard) > DEBOUNCE
  }

  /**
   * One run of EINT3_IRQHandler.  tcGuard is TC as the guard reads it,
   * tcCapture as the taken branch stores it, tcLast as lastInt takes it.
   */
  function Next(g: Globals, tcGuard: Tick, tcCapture: Tick, tcLast: Tick): Globals
  {
    if !Accepted(g, tcGuard) then g
    else if g.intStatF & IR1 != 0 then
      g.(startT := tcCapture, intStatF := g.intStatF & !IR1, lastInt := tcLast)
    else if g.intStatF & IR2 != 0 then
      g.(stopT := tcCapture, intStatF := g.intStatF & !IR2,
         spd := SpeedOf(Elapsed(g.startT, tcCapture)), measDone := true, lastInt := tcLast)
    else
      g.(lastInt := tcLast)
  }

  /** A sensor output falls: the GPIO interrupt logic sets its bit in IO2IntStatF. */
  function Edge(g: Globals, pin: bv32): Globals
  {
    g.(intStatF := g.intStatF | pin)
  }

  /** The handler takes the second sensor's branch. */
  predicate Measures(g: Globals, tcGuard: Tick)
  {
    Accepted(g, tcGuard) && g.intStatF & IR1 == 0 && g.intStatF & IR2 != 0
  }

  /** The transfers the handler sends to the display; `fmt` is sprintf's "%.2f cm/s". */
  function HandlerOps(g: Globals, tcGuard: Tick, tcCapture: Tick, fmt: Speed -> CStr): seq<LcdOp>
  {
    if Measures(g, tcGuard) then
      var spd := SpeedOf(Elapsed(g.startT, tcCapture));
      ShowSpdOps(spd, fmt(spd))
    else []
  }

  // "Ready...", in ASCII, and as a NUL-ended literal.
  const READY_TEXT: CStr := Ascii("Ready...")
  const READY_LABEL: CStr := READY_TEXT + [NUL]

  /** The transfers of one pass of main's loop. */
  function MainLoopOps(measDone: bool): seq<LcdOp>
  {
    if measDone then [Cmd(CLEAR_DISPLAY)] + StrOps(READY_LABEL) else []
  }

  /** A debounced interrupt changes nothing and sends nothing; its edge flags stay pending. */
  lemma DebouncedIgnored(g: Globals, tcGuard: Tick, tcCapture: Tick, tcLast: Tick, fmt: Speed -> CStr)
    requires Elapsed(g.lastInt, tcGuard) <= DEBOUNCE
    ensures Next(g, tcGuard, tcCapture, tcLast) == g
    ensures HandlerOps(g, tcGuard, tcCapture, fmt) == []
  {
  }

  /**
   * An accepted interrupt sets lastInt to the handler's last TC reading, so
   * every interrupt within DEBOUNCE ticks of that reading is ignored.
   */
  lemma AcceptedRestartsWindow(g: Globals, tcGuard: Tick, tcCapture: Tick, tcLast: Tick,
                               tcGuard2: Tick, tcCapture2: Tick, tcLast2: Tick)
    requires Accepted(g, tcGuard)
    requires Elapsed(tcLast, tcGuard2) <= DEBOUNCE
    ensures Next(g, tcGuard, tcCapture, tcLast).lastInt == tcLast
    ensures var g1 := Next(g, tcGuard, tcCapture, tcLast);
      Next(g1, tcGuard2, tcCapture2, tcLast2) == g1
  {
  }

  /**
   * The first sensor wins when both edges are pending: the handler records
   * startT and clears IR1 only; the second sensor's edge stays pending for
   * a later interrupt, and nothing is shown.
   */
  lemma FirstSensorFirst(g: Globals, tcGuard: Tick, tcCapture: Tick, tcLast: Tick, fmt: Speed -> CStr)
    requires Accepted(g, tcGuard) && g.intStatF & IR1 != 0
    ensures Next(g, tcGuard, tcCapture, tcLast)
         == g.(startT := tcCapture, intStatF := g.intStatF & !IR1, lastInt := tcLast)
    ensures Next(g, tcGuard, tcCapture, tcLast).intStatF & IR2 == g.intStatF & IR2
    ensures HandlerOps(g, tcGuard, tcCapture, fmt) == []
  {
    ClearKeeps(g.intStatF, IR1, IR2);
  }

  lemma ClearKeeps(x: bv32, clr: bv32, keep: bv32)
    requires clr & keep == 0
    ensures (x & !clr) & keep == x & keep
  {
  }

  /**
   * The second sensor's branch: stopT is the capture, the speed is DIST over
   * the unsigned tick difference from the unchanged startT, measDone is set,
   * IR2 is cleared, and showSpd shows that speed.
   */
  lemma SecondSensorMeasures(g: Globals, tcGuard: Tick, tcCapture: Tick, tcLast: Tick, fmt: Speed -> CStr)
    requires Measures(g, tcGuard)
    ensures var r := Next(g, tcGuard, tcCapture, tcLast);
      && r.startT == g.startT && r.stopT == tcCapture && r.lastInt == tcLast
      && r.spd == SpeedOf(Elapsed(g.startT, tcCapture)) && r.measDone
      && r.intStatF == g.intStatF & !IR2
    ensures HandlerOps(g, tcGuard, tcCapture, fmt) == ShowSpdOps(SpeedOf(Elapsed(g.startT, tcCapture)), fmt(SpeedOf(Elapsed(g.startT, tcCapture))))
  {
  }

  /** The handler leaves IO2IntStatF as it was or clears IR1 or IR2 in it. */
  lemma FlagsAfter(g: Globals, tcGuard: Tick, tcCapture: Tick, tcLast: Tick)
    ensures var f := Next(g, tcGuard, tcCapture, tcLast).intStatF;
      f == g.intStatF || f == g.intStatF & !IR1 || f == g.intStatF & !IR2
  {
  }

  /**
   * The handler only ever clears edge flags: it sets none, and clears none
   * but IR1 or IR2, so every other port 2 flag stays as it was.
   */
  lemma FlagsOnlyCleared(g: Globals, tcGuard: Tick, tcCapture: Tick, tcLast: Tick, f: bv32)
    requires f == Next(g, tcGuard, tcCapture, tcLast).intStatF
    ensures f & !g.intStatF == 0
    ensures f & !(IR1 | IR2) == g.intStatF & !(IR1 | IR2)
  {
    FlagsAfter(g, tcGuard, tcCapture, tcLast);
    ClearOne(g.intStatF, f);
  }

  /** Clearing IR1, IR2 or nothing sets no flag and keeps every other. */
  lemma ClearOne(x: bv32, f: bv32)
    requires f == x || f == x & !IR1 || f == x & !IR2
    ensures f & !x == 0
    ensures f & !(IR1 | IR2) == x & !(IR1 | IR2)
  {
  }

  /** measDone, once set, stays set until the main loop clears it; only the second sensor sets it. */
  lemma MeasDoneOnlyBySecond(g: Globals, tcGuard: Tick, tcCapture: Tick, tcLast: Tick)
    ensures g.measDone ==> Next(g, tcGuard, tcCapture, tcLast).measDone
    ensures !g.measDone && Next(g, tcGuard, tcCapture, tcLast).measDone ==> Measures(g, tcGuard)
  {
  }

  /**
   * A second sensor edge with no first one since the last measurement
   * measures again from the same startT.
   */
  lemma RepeatedSecondReusesStart(g: Globals, tcGuard: Tick, tcCapture: Tick, tcLast: Tick,
                                  tcGuard2: Tick, tcCapture2: Tick, tcLast2: Tick)
    requires Measures(g, tcGuard)
    requires var g1 := Edge(Next(g, tcGuard, tcCapture, tcLast), IR2);
      Measures(g1, tcGuard2)
    ensures var g1 := Edge(Next(g, tcGuard, tcCapture, tcLast), IR2);
      Next(g1, tcGuard2, tcCapture2, tcLast2).spd == SpeedOf(Elapsed(g.startT, tcCapture2))
  {
  }

  /**
   * Before any first-sensor edge, the second sensor measures from startT = 0:
   * the speed is DIST over the ticks since reset.
   */
  lemma OrphanSecondSensor(tcGuard: Tick, tcCapture: Tick, tcLast: Tick)
    requires tcGuard > DEBOUNCE
    ensures Next(Edge(Initial, IR2), tcGuard, tcCapture, tcLast).spd == SpeedOf(tcCapture)
  {
    assert Elapsed(0, tcGuard) == tcGuard;
    assert Elapsed(0, tcCapture) == tcCapture;
  }

  /** A start just before TC wraps and a stop just after: 0x20 ticks, not a negative time. */
  lemma WrapAroundMeasure(tcGuard: Tick, tcLast: Tick)
    requires Elapsed(0xFFFF_FFF0, tcGuard) > DEBOUNCE
    ensures var g := Edge(Initial.(startT := 0xFFFF_FFF0, lastInt := 0xFFFF_FFF0), IR2);
      && Elapsed(0xFFFF_FFF0, 0x10) == 0x20
      && Next(g, tcGuard, 0x10, tcLast).spd == SpeedOf(0x20)
      && OverLimit(SpeedOf(0x20))
  {
    assert Elapsed(0xFFFF_FFF0, 0x10) == 0x20;
    OverLimitIff(0x20);
  }

  /**
   * A full pass, as the firmware sees it: the first sensor falls and is
   * accepted, the second falls and is accepted; the speed is DIST over the
   * ticks between the two captures, measDone is set, and the display shows
   * "Speed:" and the formatted speed, with "OVER LIMIT" on line two exactly
   * when the crossing took at most LIMIT_TICKS ticks.
   */
  lemma FullPass(g: Globals, t1: Tick, c1: Tick, l1: Tick, t2: Tick, c2: Tick, l2: Tick,
                 fmt: Speed -> CStr, s: Screen, pins: bv32)
    requires g.intStatF == IR1
    requires Accepted(g, t1)
    requires var g1 := Edge(Next(g, t1, c1, l1), IR2); Accepted(g1, t2)
    ensures var g1 := Edge(Next(g, t1, c1, l1), IR2);
      var g2 := Next(g1, t2, c2, l2);
      && g2.spd == SpeedOf(Elapsed(c1, c2)) && g2.measDone && g2.intStatF == 0
      && g2.startT == c1 && g2.stopT == c2
    ensures Wf(s) ==>
      var g1 := Edge(Next(g, t1, c1, l1), IR2);
      var spd := SpeedOf(Elapsed(c1, c2));
      var r := Show(s, Decode(pins, Encode(HandlerOps(g, t1, c1, fmt) + HandlerOps(g1, t2, c2, fmt))));
      && r.line1 == SPEED_TEXT + CString(fmt(spd))
      && r.line2 == (if Elapsed(c1, c2) <= LIMIT_TICKS then OVER_LIMIT_TEXT else [])
  {
    var g1 := Edge(Next(g, t1, c1, l1), IR2);
    FirstSensorFirst(g, t1, c1, l1, fmt);
    assert g1.startT == c1;
    assert g1.intStatF == IR2 by {
      assert (IR1 & !IR1) | IR2 == IR2;
    }
    SecondSensorMeasures(g1, t2, c2, l2, fmt);
    var spd := SpeedOf(Elapsed(c1, c2));
    var ops := HandlerOps(g, t1, c1, fmt) + HandlerOps(g1, t2, c2, fmt);
    assert ops == ShowSpdOps(spd, fmt(spd));
    DecodeEncode(pins, ops);
    OverLimitIff(Elapsed(c1, c2));
    if Wf(s) {
      ShowSpdScreen(s, spd, fmt(spd));
    }
  }

  /** The reference numbers: 100000 ticks over 10 cm is 100 cm/s, over the 30 cm/s limit. */
  lemma HundredCmPerSecond()
    ensures Elapsed(1000000, 1100000) == 100000
    ensures SpeedOf(100000) == Finite(100.0)
    ensures OverLimit(SpeedOf(100000))
  {
    assert Seconds(100000) == 0.1;
  }

  /** The main loop acknowledges a measurement: measDone cleared, a blank screen reading "Ready...". */
  lemma MainLoopShowsReady(s: Screen)
    requires Wf(s)
    ensures var r := Show(s, MainLoopOps(true));
      r.line1 == READY_TEXT && r.line2 == []
    ensures MainLoopOps(false) == []
  {
    CStringOfLiteral(READY_TEXT);
    assert Show(s, [Cmd(CLEAR_DISPLAY)]) == Blank;
    ShowConcat(s, [Cmd(CLEAR_DISPLAY)], StrOps(READY_LABEL));
    ShowStr(Blank, READY_LABEL);
  }

  /** The firmware's state, updated in place by the handler and the main loop. */
  class SpeedTracker {
    var startT: Tick
    var stopT: Tick
    var spd: Speed
    var measDone: bool
    var lastInt: Tick
    var intStatF: bv32
    const lcd: LcdPort

    function State(): Globals
      reads this
    {
      Globals(startT, stopT, spd, measDone, lastInt, intStatF)
    }

    constructor (lcd: LcdPort)
      ensures State() == Initial && this.lcd == lcd
    {
      startT, stopT, spd, measDone, lastInt, intStatF := 0, 0, Finite(0.0), false, 0, 0;
      this.lcd := lcd;
    }

    /** A sensor output falls: the GPIO interrupt logic sets its bit in IO2IntStatF. */
    method SensorEdge(pin: bv32)
      requires pin == IR1 || pin == IR2
      modifies this
      ensures State() == old(State()).(intStatF := old(intStatF) | pin)
    {
      intStatF := intStatF | pin;
    }

    /** EINT3_IRQHandler. */
    method Irq(tcGuard: Tick, tcCapture: Tick, tcLast: Tick, fmt: Speed -> CStr)
      modifies this, lcd
      ensures State() == Next(old(State()), tcGuard, tcCapture, tcLast)
      ensures lcd.bus == old(lcd.bus) + Encode(HandlerOps(old(State()), tcGuard, tcCapture, fmt))
    {
      if Elapsed(lastInt, tcGuard) > DEBOUNCE {
        if intStatF & IR1 != 0 {
          startT := tcCapture;
          intStatF := intStatF & !IR1;
        } else if intStatF & IR2 != 0 {
          stopT := tcCapture;
          intStatF := intStatF & !IR2;
          var elapsed := Elapsed(startT, stopT);
          spd := SpeedOf(elapsed);
          ShowSpd(lcd, spd, fmt(spd));
          measDone := true;
        }
        lastInt := tcLast;
      }
    }

    /** One pass of main's while(1): on a finished measurement, clear it and show "Ready...". */
    method MainLoopStep()
      modifies this, lcd
      ensures State() == old(State()).(measDone := false)
      ensures lcd.bus == old(lcd.bus) + Encode(MainLoopOps(old(measDone)))
    {
      if measDone {
        measDone := false;
        lcd.ClearAndStr(READY_LABEL);
      }
    }
  }
}
