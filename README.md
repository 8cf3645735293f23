# AutoSpeedTracker: a model of the speed trap firmware

This is a Dafny model of the firmware in C_Code.c and SpeedometerProjectFiles/speed_tracker.c. Apart from comments the two files hold the same code. The firmware runs on an LPC1768 with two infrared sensors 10 cm apart, on port 2 pins 10 and 11, and a character display driven over a 4-bit bus on port 0.

Each falling sensor edge raises EINT3. The handler works as follows:

- It defers any edge that arrives within 50000 Timer0 ticks (50 ms) of `lastInt`, the TC reading taken at the end of the last accepted run. The edge stays pending in IO2IntStatF, and the first run after the window handles it with that run's TC.
- On the first sensor it stores the tick count in `startT`.
- On the second sensor it stores `stopT`. It then computes `DIST / ((stopT - startT) / 1e6)` in unsigned 32-bit tick arithmetic, shows the result with `showSpd` and sets `measDone`.
- `showSpd` clears the display and writes "Speed:" and the formatted value. When the speed is above 30 cm/s it adds "OVER LIMIT" on line two.
- `main`'s loop waits for `measDone`, clears it, and shows "Ready...".

The model has four modules, one file each:

- `Lcd` (lcd.dfy) covers the port-0 writes of `lcdCmd`, `lcdDat` and `lcdStr`.
  - `LcdPort` is a class whose `bus` field records every FIOSET and FIOCLR write in order.
  - `Frame` gives the nine writes of one transfer, and `Encode` gives the writes of a sequence of transfers.
  - C strings are byte sequences ending in a NUL. `CString` gives the characters before the NUL.
- `Hd44780` (hd44780.dfy) is an independent reference for the display side.
  - It tracks the pin levels after each write and samples RS and D4-D7 on each falling EN edge.
  - Two nibbles, high first, form one byte: RS low means a command, RS high means data.
  - A small screen model holds two lines with a cursor. Clear, "line two" and data bytes are interpreted.
  - `DecodeEncode` proves that the display receives exactly the transfers that were encoded.
- `Speed` (speed.dfy) covers ticks, speed and `showSpd`.
  - `Elapsed` is the unsigned 32-bit difference of two tick counts.
  - `SpeedOf` is the speed in cm/s. An exact real stands in for the float, and `Infinite` stands for IEEE +inf when the elapsed time is 0.
  - `OverLimit` is the test `spd > MAXSPD`.
  - `ShowSpd` is the display output of `showSpd`.
- `Tracker` (tracker.dfy) covers the handler and the main loop.
  - `Globals` is a value snapshot of `startT`, `stopT`, `spd`, `measDone`, the static `lastInt` and the IO2IntStatF register.
  - `Next` is one run of the handler.
  - The class `SpeedTracker` mutates the same fields in place. Its methods `Irq` (the handler) and `MainLoopStep` (one pass of `main`'s loop) are proved against `Next`, `HandlerOps` and `MainLoopOps`.

Some inputs come from outside the code, so they are parameters:

- The handler reads Timer0's TC three times: in the guard, in the branch that stores the capture, and in the `lastInt` update. The three readings are the parameters `tcGuard`, `tcCapture` and `tcLast`.
- `sprintf(buf, "%.2f cm/s", spd)` is the parameter `fmt`.

## Model

| member | source | states |
|---|---|---|
| Lcd.HighNibble | SpeedometerProjectFiles/speed_tracker.c:103 | `cmd & 0xF0`. It has no contract of its own; `NibbleBits` states that it carries bits 4-7 on D4-D7 only. |
| Lcd.LowNibble | SpeedometerProjectFiles/speed_tracker.c:108 | `(cmd<<4) & 0xF0`. It has no contract of its own; `NibbleBits` states that it carries bits 0-3 on D4-D7 only. |
| Lcd.Frame | SpeedometerProjectFiles/speed_tracker.c:100-128 | The writes of one `lcdCmd`/`lcdDat`. Its contract states nine writes; `FrameLatched` and `DecodeEncode` state that they deliver exactly the byte and its kind. |
| Lcd.NibbleBits | SpeedometerProjectFiles/speed_tracker.c:100-128 | `cmd & 0xF0` and `(cmd<<4) & 0xF0` touch only D4-D7. The first carries the byte's high nibble, the second its low nibble. |
| Lcd.NibblesRecombine | SpeedometerProjectFiles/speed_tracker.c:103-108 | The two nibbles put back together, high first, give the byte back. |
| Lcd.Encode | SpeedometerProjectFiles/speed_tracker.c:100-128 | Each transfer costs exactly nine port writes. |
| Lcd.EncodeConcat | SpeedometerProjectFiles/speed_tracker.c:130-131 | The writes of two transfer sequences in a row are the writes of each, concatenated. |
| Lcd.Ascii | SpeedometerProjectFiles/speed_tracker.c:68 | An ASCII string literal gives one byte per character and holds no NUL. |
| Lcd.CString | SpeedometerProjectFiles/speed_tracker.c:131 | The characters `lcdStr` sends form a prefix of the array with no NUL in it. They end at the first NUL or at the end of the array. |
| Lcd.CStringOfLiteral | SpeedometerProjectFiles/speed_tracker.c:68 | A literal's characters followed by its NUL give back exactly those characters. |
| Lcd.StrOps | SpeedometerProjectFiles/speed_tracker.c:130-132 | `lcdStr` makes one data transfer per character before the NUL, in order. |
| Lcd.StrOpsCons | SpeedometerProjectFiles/speed_tracker.c:131 | `*s++`: the first character goes out, then the walk goes on from the second. |
| Lcd.LcdPort.constructor | SpeedometerProjectFiles/speed_tracker.c:84 | No write has been issued yet. |
| Lcd.LcdPort.FioSet | SpeedometerProjectFiles/speed_tracker.c:118 | A FIOSET write is appended to the bus and nothing else changes. |
| Lcd.LcdPort.FioClr | SpeedometerProjectFiles/speed_tracker.c:101 | A FIOCLR write is appended to the bus and nothing else changes. |
| Lcd.LcdPort.SendNibble | SpeedometerProjectFiles/speed_tracker.c:102-106 | The bus gains: clear D4-D7, set the nibble, raise EN, lower EN. |
| Lcd.LcdPort.LcdCmd | SpeedometerProjectFiles/speed_tracker.c:100-115 | The bus gains exactly `Frame(Cmd(cmd))`: RS cleared, then two strobes. |
| Lcd.LcdPort.LcdDat | SpeedometerProjectFiles/speed_tracker.c:117-128 | The bus gains exactly `Frame(Dat(dat))`: RS set, then two strobes. |
| Lcd.LcdPort.LcdStr | SpeedometerProjectFiles/speed_tracker.c:130-132 | The `while(*s)` loop appends `Encode(StrOps(s))`: one lcdDat frame per character up to the NUL. |
| Lcd.LcdPort.ClearAndStr | SpeedometerProjectFiles/speed_tracker.c:147-148 | `lcdCmd(0x01); lcdStr(s)` appends the writes of a clear followed by the string's characters. |
| Hd44780.FinalAppend | SpeedometerProjectFiles/speed_tracker.c:100-128 | The pin levels after two write sequences are the levels after the second, starting from the first's levels. |
| Hd44780.LatchedAppend | SpeedometerProjectFiles/speed_tracker.c:100-128 | The nibbles latched over two write sequences are those of the first, then those of the second. |
| Hd44780.StrobeLatched | SpeedometerProjectFiles/speed_tracker.c:102-106 | One EN strobe latches exactly one nibble: the one put on D4-D7, with the RS level it found. Afterwards EN is low and the other pins are unchanged. |
| Hd44780.RsWriteLevel | SpeedometerProjectFiles/speed_tracker.c:101 | The first write of a frame leaves RS low for `lcdCmd` and high for `lcdDat`. |
| Hd44780.FrameLatched | SpeedometerProjectFiles/speed_tracker.c:100-128 | From any starting pin levels, one frame latches two nibbles, high then low, with RS telling command from data. It ends with EN low and every non-display pin of port 0 unchanged. |
| Hd44780.JoinNibbles | SpeedometerProjectFiles/speed_tracker.c:103-108 | The two latched nibbles of a frame join back into its transfer. |
| Hd44780.DecodeEncode | SpeedometerProjectFiles/speed_tracker.c:100-132 | Round trip: from any pin levels, the display receives exactly the transfers that were encoded, in order. |
| Hd44780.EncodeKeepsOtherPins | SpeedometerProjectFiles/speed_tracker.c:100-128 | Any sequence of transfers leaves the port 0 pins other than RS, EN and D4-D7 as they were. |
| Hd44780.ShowConcat | SpeedometerProjectFiles/speed_tracker.c:65-75 | The screen after two transfer sequences is the screen after the second, applied after the first. |
| Hd44780.ShowStr | SpeedometerProjectFiles/speed_tracker.c:130-132 | With the cursor at the end of its line, `lcdStr` appends the string's characters to that line. |
| Speed.Seconds | SpeedometerProjectFiles/speed_tracker.c:40 | `timeSec`: the elapsed seconds, which multiplied by 1000000 give the tick count. |
| Speed.OverLimit | SpeedometerProjectFiles/speed_tracker.c:71 | `spd > MAXSPD`, with +inf above every finite value. It has no contract of its own; `OverLimitIff` gives its meaning in ticks. |
| Speed.ShowOps | SpeedometerProjectFiles/speed_tracker.c:65-75 | The transfers of a two-line message. It has no contract of its own; `ShowOpsEncode` and `ShowOpsScreen` state its port writes and the screen it leaves. |
| Speed.ShowSpdOps | SpeedometerProjectFiles/speed_tracker.c:65-75 | The transfers of `showSpd`. It has no contract of its own; `ShowSpdOpsShape` and `ShowSpdScreen` state what they are and what the display then shows. |
| Speed.Elapsed | SpeedometerProjectFiles/speed_tracker.c:40 | `stopT - startT` in `unsigned int`: the tick count that, added to the start modulo 2^32, gives the stop. |
| Speed.ElapsedUnique | SpeedometerProjectFiles/speed_tracker.c:40 | That tick count is the only one in 0..2^32-1 with this property. |
| Speed.ElapsedCases | SpeedometerProjectFiles/speed_tracker.c:40 | It is `to - from` without a wrap and `to - from + 2^32` across a wrap. |
| Speed.SpeedOf | SpeedometerProjectFiles/speed_tracker.c:40-41 | `DIST / timeSec` is infinite exactly when no tick elapsed. Otherwise it is positive and, multiplied by the elapsed seconds, gives DIST. |
| Speed.OverLimitIff | SpeedometerProjectFiles/speed_tracker.c:71 | `spd > MAXSPD` holds exactly when at most 333333 ticks elapsed; 0 ticks (+inf) counts as over the limit. |
| Speed.SpeedDecreasing | SpeedometerProjectFiles/speed_tracker.c:40-41 | A longer crossing time gives a strictly lower speed. |
| Speed.ShowSpdOpsShape | SpeedometerProjectFiles/speed_tracker.c:65-75 | `showSpd` starts with a clear and sends "Speed:" and the value. It issues "line two" (0xC0) exactly when the speed is over the limit. |
| Speed.ShowLineOne | SpeedometerProjectFiles/speed_tracker.c:67-70 | Clear, then title and value: line one holds both, line two is blank. |
| Speed.ShowLineTwo | SpeedometerProjectFiles/speed_tracker.c:72-73 | 0xC0 and then the warning: line two holds the warning and line one is kept. |
| Speed.ShowOpsScreen | SpeedometerProjectFiles/speed_tracker.c:65-75 | Whatever was on screen, the message leaves title and value on line one, and the warning or nothing on line two. |
| Speed.ShowSpdScreen | SpeedometerProjectFiles/speed_tracker.c:65-75 | After `showSpd`, line one reads "Speed:" plus `buf`. Line two reads "OVER LIMIT" exactly when `spd > MAXSPD` and is blank otherwise. |
| Speed.ShowOpsEncode | SpeedometerProjectFiles/speed_tracker.c:67-74 | The port writes of the message are its calls' frames in order. |
| Speed.ShowLines | SpeedometerProjectFiles/speed_tracker.c:67-74 | The sequence of lcdCmd and lcdStr calls in `showSpd` appends exactly those frames. |
| Speed.ShowSpd | SpeedometerProjectFiles/speed_tracker.c:65-75 | The bus gains exactly `Encode(ShowSpdOps(spd, buf))`. |
| Tracker.Accepted | SpeedometerProjectFiles/speed_tracker.c:32 | The guard `(TC - lastInt) > 50000` in unsigned arithmetic. It has no contract of its own; `DebouncedIgnored` and `AcceptedRestartsWindow` state what it decides. |
| Tracker.Measures | SpeedometerProjectFiles/speed_tracker.c:32-37 | The handler reaches the second sensor's branch. It has no contract of its own; `SecondSensorMeasures` and `MeasDoneOnlyBySecond` use it. |
| Tracker.Next | SpeedometerProjectFiles/speed_tracker.c:29-47 | One run of the handler on the globals. It has no contract of its own. `DebouncedIgnored`, `FirstSensorFirst`, `SecondSensorMeasures`, `FlagsOnlyCleared` and `MeasDoneOnlyBySecond` state its branches, and `SpeedTracker.Irq` is proved equal to it. |
| Tracker.HandlerOps | SpeedometerProjectFiles/speed_tracker.c:42 | The display transfers of one handler run. It has no contract of its own; `SecondSensorMeasures` and `DebouncedIgnored` state when it is `showSpd`'s and when it is empty. |
| Tracker.Edge | SpeedometerProjectFiles/speed_tracker.c:61 | A falling edge ORs its pin into IO2IntStatF. It has no contract of its own; `SpeedTracker.SensorEdge` makes the same update in place. `RepeatedSecondReusesStart`, `OrphanSecondSensor`, `WrapAroundMeasure` and `FullPass` use it for the sensor edges between handler runs. |
| Tracker.MainLoopOps | SpeedometerProjectFiles/speed_tracker.c:144-149 | The transfers of one pass of the main loop. It has no contract of its own; `MainLoopShowsReady` states the screen it leaves. |
| Tracker.DebouncedIgnored | SpeedometerProjectFiles/speed_tracker.c:32 | An interrupt within 50000 ticks of `lastInt` changes nothing (pending flags included) and shows nothing. |
| Tracker.AcceptedRestartsWindow | SpeedometerProjectFiles/speed_tracker.c:32-45 | An accepted interrupt sets `lastInt` to the last TC reading. Any interrupt within the window after it is ignored. |
| Tracker.FirstSensorFirst | SpeedometerProjectFiles/speed_tracker.c:33-36 | With IR1 pending, only `startT`, IR1 and `lastInt` change, whatever the state. IR2 stays pending and nothing is shown. |
| Tracker.SecondSensorMeasures | SpeedometerProjectFiles/speed_tracker.c:37-44 | With only IR2 pending, `stopT` becomes the capture and `spd` the speed over `Elapsed(startT, stopT)`. `measDone` is set, IR2 is cleared, and `showSpd` shows that speed. |
| Tracker.FlagsAfter | SpeedometerProjectFiles/speed_tracker.c:35-39 | IO2IntStatF after the handler is the old value, or the old value with IR1 or IR2 cleared. |
| Tracker.FlagsOnlyCleared | SpeedometerProjectFiles/speed_tracker.c:35-39 | The handler sets no edge flag and changes none but IR1 and IR2. |
| Tracker.MeasDoneOnlyBySecond | SpeedometerProjectFiles/speed_tracker.c:43 | The handler never clears `measDone`. It sets `measDone` only in the second sensor's branch. |
| Tracker.RepeatedSecondReusesStart | SpeedometerProjectFiles/speed_tracker.c:37-41 | A second IR2 edge with no IR1 in between measures again from the same `startT`. |
| Tracker.OrphanSecondSensor | SpeedometerProjectFiles/speed_tracker.c:25-41 | With no first-sensor edge since reset, IR2 measures from `startT = 0`. |
| Tracker.WrapAroundMeasure | SpeedometerProjectFiles/speed_tracker.c:40 | A start at 0xFFFFFFF0 and a stop at 0x10 give 0x20 ticks. |
| Tracker.FullPass | SpeedometerProjectFiles/speed_tracker.c:29-75 | IR1 then IR2 measure the speed over the ticks between the two captures, set `measDone` and clear both flags. The display decoded from the bus shows "Speed:" plus the value, with "OVER LIMIT" exactly when the crossing took at most 333333 ticks. |
| Tracker.HundredCmPerSecond | SpeedometerProjectFiles/speed_tracker.c:40-41 | 100000 ticks over 10 cm is 100 cm/s, which is over the limit. |
| Tracker.MainLoopShowsReady | SpeedometerProjectFiles/speed_tracker.c:144-149 | After the main loop acknowledges a measurement, line one reads "Ready..." and line two is blank. |
| Tracker.SpeedTracker.constructor | SpeedometerProjectFiles/speed_tracker.c:25-30 | At reset every variable is zero and no edge is pending. |
| Tracker.SpeedTracker.SensorEdge | SpeedometerProjectFiles/speed_tracker.c:61 | A falling edge on IR1 or IR2, the two pins enabled for falling-edge interrupts, sets its bit in IO2IntStatF and changes nothing else. |
| Tracker.SpeedTracker.Irq | SpeedometerProjectFiles/speed_tracker.c:29-47 | The handler's in-place updates give exactly `Next` of the old state. The bus gains exactly the `showSpd` writes of `HandlerOps`. |
| Tracker.SpeedTracker.MainLoopStep | SpeedometerProjectFiles/speed_tracker.c:143-150 | `measDone` is cleared and nothing else changes. The clear and "Ready..." are written exactly when `measDone` was set. |

The same code sits in C_Code.c:
- the handler at lines 73-91;
- `showSpd` at 109-119;
- `lcdCmd`, `lcdDat` and `lcdStr` at 144-176;
- `main`'s loop at 187-194.

## Left out

- `tmrInit`, `ioInit`, `lcdInit`, `SystemInit` and `wait` are not modelled. They are register set-up and busy-wait delays. This covers the EN pulse delays and the extra delay in `lcdCmd` for `cmd <= 2`.
- The start-up output of `main` (lines 139-142) is not modelled: the "Speed Meter" banner, the 2 s wait, and the first clear followed by "Ready...". That last pair issues the same calls as `LcdPort.ClearAndStr` in `MainLoopStep`.
- Floating point: `timeSec` and `spd` are exact reals, with `Infinite` for IEEE +inf when the elapsed time is 0. Rounding of the `float`/`double` arithmetic is not modelled, so the limit test is exact.
- `sprintf(buf, "%.2f cm/s", spd)`: the formatter is the parameter `fmt`, whose result is the content of `buf`.
- The 16-byte size of `buf` is not modelled. Output of 16 characters or more, for a speed of at least 10^7 cm/s (one tick), would overflow it.
- Concurrency: the handler and each main-loop pass are atomic steps.
  - The handler interrupting `main` in the middle of `lcdStr` is not modelled.
  - The unsynchronised `volatile` sharing of `measDone` is not modelled.
  - The 2 s wait in the loop is not modelled.
- IO2IntStatF is read once per handler run. The hardware could set a flag between the two tests on lines 33 and 37; the model does not capture that.
- The display model interprets only clear (0x01) and "line two" (0xC0), the two commands sent after initialisation. The line length and the display's other commands are not modelled.
- The handler, as written:
  - keeps no record of whether a first-sensor edge has been seen;
  - measures a second-sensor edge from whatever `startT` holds, the reset value 0 included;
  - does not guard a zero elapsed time, which gives +inf;
  - lets a new first-sensor edge overwrite `startT`;
  - leaves edges that arrive inside the debounce window pending, because it clears nothing then.
- `Decode` pairs nibbles starting from the first EN strobe it sees. This assumes the controller is in 4-bit mode and waiting for a high nibble when the writes begin. `lcdInit` (lines 82-98) is what would establish this, and it is not part of this model. So `DecodeEncode` and the screen facts built on it hold under that assumption, and the model does not check that `lcdInit` sets it up.
