/**
 * main.c: the firmware's start-up and the blocks of its main loop.  On
 * every received byte the loop runs the command switch and then the
 * settings-packet receiver; it then discards a packet the five-second
 * watchdog cut short, runs the pending pattern steps, answers the GUI's
 * settings request, applies a completed settings packet and streams a
 * data frame.
 *
 * The receiver's state, `temp_settings` and its six flags are described
 * by the value `Receiver` and the pure step `SettingsStep`; the command
 * switch by `CommandModes`, `ResetsTimer` and `ValveCommand`.  The
 * methods of `Board` are proved against them.
 */
module Firmware {
  import opened CInt
  import opened Hardware
  import opened Bme280
  import opened Bme280Driver
  import opened ModulationPatterns
  import opened Utils
  import opened Interrupts

  /** Settings-packet receiver states (MACROS.h). */
  const IDLE: byte := 0
  const HEAD: byte := 1
  const SET_H: byte := 2
  const SET_T: byte := 3
  const SET_P: byte := 4
  const SET_S: byte := 5
  const SET_F: byte := 6
  const TAIL: byte := 7

  /** A settings packet is a header, the five settings and a tail (BME280_DEF_SETTING_PACKET). */
  const SETTING_PACKET: nat := 7
  const SET_HEADER: byte := 't' as int
  const SET_TAIL: byte := 'T' as int
  /** Framing of the BME280_ActualSettings reply. */
  const ACTUAL_HEADER: bv8 := 0xBB
  const ACTUAL_TAIL: bv8 := 0xB0

  /** Command bytes of the main loop's switch. */
  const CMD_CONNECT: byte := 'v' as int
  const CMD_RAMP: byte := 'r' as int
  const CMD_SQUARE: byte := 'q' as int
  const CMD_SINE: byte := 'w' as int
  const CMD_TRIANGLE: byte := 't' as int
  const CMD_SQTR: byte := 'c' as int
  const CMD_START: byte := 'a' as int
  const CMD_STOP: byte := 's' as int
  const CMD_FULL_ON: byte := 'O' as int
  const CMD_OFF: byte := 'o' as int
  const CMD_SETTINGS: byte := 'g' as int
  const CMD_IN: byte := 'h' as int
  const CMD_OUT: byte := 'y' as int
  const CMD_BOTH: byte := 'e' as int
  const CMD_NONE: byte := 'i' as int

  const CONNECTION: string := "COM Connection $$$"
  const WATCHDOG_MESSAGE: string := "WATCHDOG\r\n"
  const INIT_FAILED: string := "Could not initialize sensor\r\n"

  /** Defaults ApplyNewSettings uses for a field whose packet byte was not valid. */
  const DEFAULT_HUM: byte := OVERSAMPLING_1X
  const DEFAULT_TEMP: byte := OVERSAMPLING_2X
  const DEFAULT_PRESS: byte := OVERSAMPLING_16X
  const DEFAULT_STANDBY: byte := TSTANDBY_0_5_MS
  const DEFAULT_FILTER: byte := FILTER_COEFF_16

  // ----------------------------------------------------------------------
  // The command switch
  // ----------------------------------------------------------------------

  /** `flag_stream` and the five pattern-enable flags. */
  datatype Modes = Modes(stream: bool, ramp: bool, square: bool, sine: bool, triangle: bool, sqtr: bool)

  /** Number of enabled patterns. */
  function Enabled(m: Modes): (n: nat)
    ensures n <= 5
    ensures n == 0 <==> !m.ramp && !m.square && !m.sine && !m.triangle && !m.sqtr
  {
    (if m.ramp then 1 else 0) + (if m.square then 1 else 0) + (if m.sine then 1 else 0) +
    (if m.triangle then 1 else 0) + (if m.sqtr then 1 else 0)
  }

  predicate IsPatternCommand(rx: byte)
  {
    rx == CMD_RAMP || rx == CMD_SQUARE || rx == CMD_SINE || rx == CMD_TRIANGLE || rx == CMD_SQTR
  }

  /** The switch calls Reset_TIMER for command `rx` when the modes were `m`. */
  predicate ResetsTimer(m: Modes, rx: byte)
  {
    (IsPatternCommand(rx) && Enabled(m) == 0) || (rx == CMD_START && !m.stream) ||
    rx == CMD_STOP || rx == CMD_FULL_ON || rx == CMD_OFF
  }

  /**
   * The modes after command `rx`.  A pattern command enables its pattern,
   * and only it, when no pattern is enabled and is ignored otherwise, so
   * at most one pattern is ever enabled; 'a' (when not streaming), 's',
   * 'O' and 'o' disable all five; only 'a' and 's' touch the stream flag;
   * a command that does not reset the timers leaves the modes alone.
   */
  function CommandModes(m: Modes, rx: byte): (n: Modes)
    ensures Enabled(m) <= 1 ==> Enabled(n) <= 1
    ensures IsPatternCommand(rx) && Enabled(m) == 0 ==>
              Enabled(n) == 1 && n.stream == m.stream &&
              n.ramp == (rx == CMD_RAMP) && n.square == (rx == CMD_SQUARE) && n.sine == (rx == CMD_SINE) &&
              n.triangle == (rx == CMD_TRIANGLE) && n.sqtr == (rx == CMD_SQTR)
    ensures ResetsTimer(m, rx) && !IsPatternCommand(rx) ==> Enabled(n) == 0
    ensures !ResetsTimer(m, rx) ==> n == m
    ensures n.stream == (if rx == CMD_START then true else if rx == CMD_STOP then false else m.stream)
  {
    var off := Modes(m.stream, false, false, false, false, false);
    if IsPatternCommand(rx) then
      if Enabled(m) != 0 then m
      else off.(ramp := rx == CMD_RAMP, square := rx == CMD_SQUARE, sine := rx == CMD_SINE,
                triangle := rx == CMD_TRIANGLE, sqtr := rx == CMD_SQTR)
    else if rx == CMD_START then
      if m.stream then m else off.(stream := true)
    else if rx == CMD_STOP then off.(stream := false)
    else if rx == CMD_FULL_ON || rx == CMD_OFF then off
    else m
  }

  /** The state Reset_TIMER resets: 200 ms flag and counter, step and read flags, table indices. */
  datatype Timing = Timing(tick: bool, counter: int, ramp: bool, sine: bool, triangle: bool, sqtr: bool,
                           readGas: bool, readBme: bool, readData: bool,
                           lutIdx: byte, trngState: byte, lutSqtrIdx: byte)

  const RESET_TIMING := Timing(false, -1, false, false, false, false, false, false, false, 0, UP, 0)

  /** Pump and valve outputs. */
  datatype Valves = Valves(pumpIn: byte, valveIn: byte, pumpOut: byte, valveOut: byte)

  /**
   * The outputs hydraulic command `rx` drives: 'h' opens the inlet side
   * and closes the outlet side, 'y' the reverse, 'e' opens both and 'i'
   * closes both; pump and valve of a side always move together.
   */
  function ValveCommand(rx: byte): (r: Option<Valves>)
    ensures r.Some? <==> rx == CMD_IN || rx == CMD_OUT || rx == CMD_BOTH || rx == CMD_NONE
    ensures r.Some? ==> r.value.pumpIn == r.value.valveIn && r.value.pumpOut == r.value.valveOut
    ensures r.Some? ==> (r.value.pumpIn == HIGH <==> rx == CMD_IN || rx == CMD_BOTH) &&
                        (r.value.pumpIn == LOW <==> rx == CMD_OUT || rx == CMD_NONE)
    ensures r.Some? ==> (r.value.pumpOut == HIGH <==> rx == CMD_OUT || rx == CMD_BOTH) &&
                        (r.value.pumpOut == LOW <==> rx == CMD_IN || rx == CMD_NONE)
  {
    if rx == CMD_IN then Some(Valves(HIGH, HIGH, LOW, LOW))
    else if rx == CMD_OUT then Some(Valves(LOW, LOW, HIGH, HIGH))
    else if rx == CMD_BOTH then Some(Valves(HIGH, HIGH, HIGH, HIGH))
    else if rx == CMD_NONE then Some(Valves(LOW, LOW, LOW, LOW))
    else None
  }

  ghost function ModesOf(s: IsrState): Modes
    reads s`stream, s`enableRamp, s`enableSquare, s`enableSine, s`enableTriangle, s`enableSqtr
  {
    Modes(s.stream, s.enableRamp, s.enableSquare, s.enableSine, s.enableTriangle, s.enableSqtr)
  }

  ghost function TimingOf(s: IsrState, m: Modulation): Timing
    reads s`tick200ms, s`counter, s`rampIncrement, s`sineIncrement, s`trngIncrement, s`sqtrIncrement,
          s`readGas, s`readBme, s`readData, m`lutIdx, m`trngState, m`lutSqtrIdx
  {
    Timing(s.tick200ms, s.counter, s.rampIncrement, s.sineIncrement, s.trngIncrement, s.sqtrIncrement,
           s.readGas, s.readBme, s.readData, m.lutIdx, m.trngState, m.lutSqtrIdx)
  }

  ghost function ValvesOf(h: Hydraulics): Valves
    reads h
  {
    Valves(h.pumpIn, h.valveIn, h.pumpOut, h.valveOut)
  }

  /**
   * What the command switch can change: the modes, the timing state,
   * the kill register and the eight compares, the pumps and valves, the
   * transmitted bytes and flag_settings.
   */
  datatype Controls = Controls(modes: Modes, timing: Timing, kill: byte, compare: seq<byte>,
                               valves: Valves, tx: seq<byte>, settingsRequest: bool)

  /**
   * The command switch on byte `rx`: the modes follow CommandModes, and
   * the timing state is reset exactly where the switch calls
   * Reset_TIMER; 's' and 'O' enable the heaters at full power, 'o'
   * disables them; the hydraulic commands drive the valves; 'v' sends
   * the connection string; 'g' raises flag_settings.
   */
  function CommandEffect(c: Controls, rx: byte): (n: Controls)
    ensures n.modes == CommandModes(c.modes, rx)
    ensures n.timing == RESET_TIMING || n.timing == c.timing
    ensures |c.tx| <= |n.tx| && n.tx[..|c.tx|] == c.tx
    ensures n.settingsRequest ==> c.settingsRequest || rx == CMD_SETTINGS
    ensures n.kill != c.kill ==> rx == CMD_STOP || rx == CMD_FULL_ON || rx == CMD_OFF
  {
    Controls(CommandModes(c.modes, rx),
             if ResetsTimer(c.modes, rx) then RESET_TIMING else c.timing,
             if rx == CMD_STOP || rx == CMD_FULL_ON then ENABLE_PWM else if rx == CMD_OFF then DISABLE_PWM else c.kill,
             if rx == CMD_STOP || rx == CMD_FULL_ON then Uniform(0) else c.compare,
             if ValveCommand(rx).Some? then ValveCommand(rx).value else c.valves,
             c.tx + (if rx == CMD_CONNECT then Ascii(CONNECTION) else []),
             c.settingsRequest || rx == CMD_SETTINGS)
  }

  /** A pattern command touches only the modes and, when it enables its pattern, the timing state. */
  lemma PatternCommandEffect(c: Controls, rx: byte)
    requires IsPatternCommand(rx)
    ensures CommandEffect(c, rx) ==
            c.(modes := CommandModes(c.modes, rx), timing := if Enabled(c.modes) == 0 then RESET_TIMING else c.timing)
  {
  }

  /** Modes with every pattern disabled. */
  function PatternsOff(m: Modes): (n: Modes)
    ensures Enabled(n) == 0 && n.stream == m.stream
  {
    m.(ramp := false, square := false, sine := false, triangle := false, sqtr := false)
  }

  /** 's' and 'O' disable the patterns and reset the timing state; the heaters go fully on; 's' also stops the stream. */
  lemma HeatersOnEffect(c: Controls, rx: byte)
    requires rx == CMD_STOP || rx == CMD_FULL_ON
    ensures var c' := if rx == CMD_STOP then c.(modes := c.modes.(stream := false)) else c;
            CommandEffect(c, rx) ==
              c'.(modes := PatternsOff(c'.modes), timing := RESET_TIMING, kill := ENABLE_PWM, compare := Uniform(0))
  {
  }

  /** 'o' disables the patterns, resets the timing state and disables the heaters. */
  lemma HeatersOffEffect(c: Controls)
    ensures CommandEffect(c, CMD_OFF) ==
            c.(modes := PatternsOff(c.modes), timing := RESET_TIMING, kill := DISABLE_PWM)
  {
  }

  /** 'a' when not streaming starts the stream with the patterns disabled and resets the timing state; otherwise it does nothing. */
  lemma StartEffect(c: Controls)
    ensures CommandEffect(c, CMD_START) ==
            if c.modes.stream then c else c.(modes := PatternsOff(c.modes).(stream := true), timing := RESET_TIMING)
  {
  }

  /** A byte that is none of the switch's commands changes none of the controls. */
  lemma NotACommand(c: Controls, rx: byte)
    requires !IsPatternCommand(rx) && ValveCommand(rx).None?
    requires rx != CMD_CONNECT && rx != CMD_START && rx != CMD_STOP && rx != CMD_FULL_ON
    requires rx != CMD_OFF && rx != CMD_SETTINGS
    ensures CommandEffect(c, rx) == c
  {
  }

  /** Every raised pattern-step flag belongs to an enabled pattern. */
  ghost predicate StepsFollowPatterns(s: IsrState)
    reads s
  {
    (s.rampIncrement ==> s.enableRamp) && (s.sineIncrement ==> s.enableSine) &&
    (s.trngIncrement ==> s.enableTriangle) && (s.sqtrIncrement ==> s.enableSqtr)
  }

  /** With one pattern enabled and steps following patterns, at most one step flag is up. */
  lemma OneStepAtATime(s: IsrState)
    requires StepsFollowPatterns(s) && Enabled(ModesOf(s)) <= 1
    ensures (if s.rampIncrement then 1 else 0) + (if s.sineIncrement then 1 else 0) +
            (if s.trngIncrement then 1 else 0) + (if s.sqtrIncrement then 1 else 0) <= 1
  {
    assert Enabled(ModesOf(s)) == (if s.enableRamp then 1 else 0) + (if s.enableSquare then 1 else 0) +
      (if s.enableSine then 1 else 0) + (if s.enableTriangle then 1 else 0) + (if s.enableSqtr then 1 else 0);
  }

  // ----------------------------------------------------------------------
  // The settings-packet receiver
  // ----------------------------------------------------------------------

  /** `state`, `temp_settings` and the six flags the receiver sets. */
  datatype Receiver = Receiver(state: byte, temp: seq<byte>, ready: bool,
                               hum: bool, tmp: bool, press: bool, standby: bool, filter: bool)

  const ZERO_PACKET: seq<byte> := [0, 0, 0, 0, 0, 0, 0]

  /** What a rejected tail, or a state outside HEAD .. TAIL, leaves. */
  const DISCARDED := Receiver(IDLE, ZERO_PACKET, false, false, false, false, false, false)

  /** BME280_NO_OVERSAMPLING .. BME280_OVERSAMPLING_16X. */
  predicate IsOversampling(b: byte) { b <= OVERSAMPLING_16X }
  /** BME280_TSTANBDY_0_5_MS .. BME280_TSTANBDY_20_MS. */
  predicate IsStandby(b: byte) { b <= TSTANDBY_20_MS }
  /** BME280_FILTER_COEFF_OFF .. BME280_FILTER_COEFF_16. */
  predicate IsFilter(b: byte) { b <= FILTER_COEFF_16 }

  /** `v` when it was accepted, `was` otherwise. */
  function Accepted(ok: bool, v: byte, was: byte): byte
  {
    if ok then v else was
  }

  /** `state++` on the uint8_t `state`: 255 wraps to 0. */
  function Next(s: byte): (r: byte)
    ensures r == if s == 255 then 0 else s + 1
  {
    U8(s as int + 1)
  }

  /** The switch on `state` for byte `rx`, after `state` was incremented. */
  function Dispatch(r: Receiver, rx: byte): (n: Receiver)
    requires |r.temp| == SETTING_PACKET
    ensures |n.temp| == SETTING_PACKET && n.state <= SET_F
  {
    if r.state == HEAD then
      if rx == SET_HEADER then r.(temp := r.temp[0 := rx]) else r.(state := IDLE)
    else if r.state == SET_H then
      r.(temp := r.temp[1 := Accepted(IsOversampling(rx), rx, r.temp[1])], hum := IsOversampling(rx))
    else if r.state == SET_T then
      r.(temp := r.temp[2 := Accepted(IsOversampling(rx), rx, r.temp[2])], tmp := IsOversampling(rx))
    else if r.state == SET_P then
      r.(temp := r.temp[3 := Accepted(IsOversampling(rx), rx, r.temp[3])], press := IsOversampling(rx))
    else if r.state == SET_S then
      r.(temp := r.temp[4 := Accepted(IsStandby(rx), rx, r.temp[4])], standby := IsStandby(rx))
    else if r.state == SET_F then
      r.(temp := r.temp[5 := Accepted(IsFilter(rx), rx, r.temp[5])], filter := IsFilter(rx))
    else if r.state == TAIL then
      if rx == SET_TAIL then r.(state := IDLE, temp := r.temp[6 := rx], ready := true) else DISCARDED
    else DISCARDED
  }

  /**
   * One received byte: `state` is incremented (as a uint8_t) and the
   * switch on it runs.  Afterwards `state` is IDLE or one of HEAD ..
   * SET_F; HEAD is entered only from IDLE and only by 't'; at IDLE any
   * other byte changes nothing; the ready flag is raised only by 'T'
   * right after the filter byte, and any other byte there discards the
   * packet.
   */
  function SettingsStep(r: Receiver, rx: byte): (n: Receiver)
    requires |r.temp| == SETTING_PACKET
    ensures |n.temp| == SETTING_PACKET && n.state <= SET_F
    ensures n.state == HEAD <==> r.state == IDLE && rx == SET_HEADER
    ensures r.state == IDLE && rx != SET_HEADER ==> n == r
    ensures n.ready && !r.ready ==> r.state == SET_F && rx == SET_TAIL
    ensures r.state == SET_F && rx == SET_TAIL ==> n.ready && n.state == IDLE && n.temp == r.temp[6 := SET_TAIL]
    ensures r.state == SET_F && rx != SET_TAIL ==> n == DISCARDED
  {
    Dispatch(r.(state := Next(r.state)), rx)
  }

  /** The receiver after the bytes `bytes`, one SettingsStep each. */
  function Feed(r: Receiver, bytes: seq<byte>): (n: Receiver)
    requires |r.temp| == SETTING_PACKET
    ensures |n.temp| == SETTING_PACKET
    decreases |bytes|
  {
    if bytes == [] then r else Feed(SettingsStep(r, bytes[0]), bytes[1..])
  }

  /** Peels the first byte off a Feed. */
  lemma FeedOne(r: Receiver, bytes: seq<byte>)
    requires |r.temp| == SETTING_PACKET && |bytes| > 0
    ensures Feed(r, bytes) == Feed(SettingsStep(r, bytes[0]), bytes[1..])
  {
  }

  /** Seven updates of a seven-entry sequence rebuild it. */
  lemma Rebuilt(s: seq<byte>, a0: byte, a1: byte, a2: byte, a3: byte, a4: byte, a5: byte, a6: byte)
    requires |s| == SETTING_PACKET
    ensures s[0 := a0][1 := a1][2 := a2][3 := a3][4 := a4][5 := a5][6 := a6] == [a0, a1, a2, a3, a4, a5, a6]
  {
  }

  /** The range check the receiver applies to the field byte it reads in state `s`. */
  predicate InRange(s: byte, rx: byte)
  {
    if s == SET_S then IsStandby(rx) else if s == SET_F then IsFilter(rx) else IsOversampling(rx)
  }

  /**
   * A field byte: in HEAD .. SET_S the next state is SET_H .. SET_F, the
   * byte is stored at its entry of `temp_settings` exactly when it is in
   * range, that field's flag says whether it was, and nothing else
   * changes.
   */
  lemma FieldStep(r: Receiver, rx: byte)
    requires |r.temp| == SETTING_PACKET && HEAD <= r.state <= SET_S
    ensures var k := r.state as nat; var ok := InRange(r.state + 1, rx);
            SettingsStep(r, rx) ==
              r.(state := r.state + 1, temp := r.temp[k := Accepted(ok, rx, r.temp[k])],
                 hum := if k == 1 then ok else r.hum, tmp := if k == 2 then ok else r.tmp,
                 press := if k == 3 then ok else r.press, standby := if k == 4 then ok else r.standby,
                 filter := if k == 5 then ok else r.filter)
  {
    assert Next(r.state) == r.state + 1;
  }

  /** The header byte at IDLE: on to HEAD, with 't' stored at entry 0. */
  lemma HeaderStep(r: Receiver)
    requires |r.temp| == SETTING_PACKET && r.state == IDLE
    ensures SettingsStep(r, SET_HEADER) == r.(state := HEAD, temp := r.temp[0 := SET_HEADER])
  {
    assert Next(IDLE) == HEAD;
  }

  /** The tail byte after the filter byte: back to IDLE, 'T' stored at entry 6 and the ready flag up. */
  lemma TailStep(r: Receiver)
    requires |r.temp| == SETTING_PACKET && r.state == SET_F
    ensures SettingsStep(r, SET_TAIL) == r.(state := IDLE, temp := r.temp[6 := SET_TAIL], ready := true)
  {
    assert Next(SET_F) == TAIL;
  }

  /**
   * The five field bytes of a packet after its header: each moves one
   * state on, stores itself at its entry when it is in range and sets
   * its field's flag to whether it was.
   */
  lemma FieldSteps(r: Receiver, h: byte, t: byte, p: byte, sb: byte, f: byte)
    requires |r.temp| == SETTING_PACKET && r.state == HEAD
    ensures SettingsStep(SettingsStep(SettingsStep(SettingsStep(SettingsStep(r, h), t), p), sb), f) ==
            r.(state := SET_F,
               temp := r.temp[1 := Accepted(IsOversampling(h), h, r.temp[1])][2 := Accepted(IsOversampling(t), t, r.temp[2])]
                             [3 := Accepted(IsOversampling(p), p, r.temp[3])][4 := Accepted(IsStandby(sb), sb, r.temp[4])]
                             [5 := Accepted(IsFilter(f), f, r.temp[5])],
               hum := IsOversampling(h), tmp := IsOversampling(t), press := IsOversampling(p),
               standby := IsStandby(sb), filter := IsFilter(f))
  {
    FieldStep(r, h);
    var r2 := SettingsStep(r, h);
    FieldStep(r2, t);
    var r3 := SettingsStep(r2, t);
    FieldStep(r3, p);
    var r4 := SettingsStep(r3, p);
    FieldStep(r4, sb);
    var r5 := SettingsStep(r4, sb);
    FieldStep(r5, f);
  }

  /**
   * The seven bytes of a settings packet received at IDLE, one
   * SettingsStep each: back at IDLE with the ready flag up, each field's
   * flag saying whether its byte was in range, and `temp_settings`
   * holding the header, the accepted bytes and the tail.
   */
  lemma PacketSteps(r: Receiver, h: byte, t: byte, p: byte, sb: byte, f: byte)
    requires |r.temp| == SETTING_PACKET && r.state == IDLE
    ensures var r1 := SettingsStep(r, SET_HEADER);
            SettingsStep(SettingsStep(SettingsStep(SettingsStep(SettingsStep(SettingsStep(r1, h), t), p), sb), f), SET_TAIL) ==
            Receiver(IDLE, [SET_HEADER, Accepted(IsOversampling(h), h, r.temp[1]), Accepted(IsOversampling(t), t, r.temp[2]),
                            Accepted(IsOversampling(p), p, r.temp[3]), Accepted(IsStandby(sb), sb, r.temp[4]),
                            Accepted(IsFilter(f), f, r.temp[5]), SET_TAIL],
                     true, IsOversampling(h), IsOversampling(t), IsOversampling(p), IsStandby(sb), IsFilter(f))
  {
    HeaderStep(r);
    var r1 := SettingsStep(r, SET_HEADER);
    FieldSteps(r1, h, t, p, sb, f);
    TailStep(SettingsStep(SettingsStep(SettingsStep(SettingsStep(SettingsStep(r1, h), t), p), sb), f));
    Rebuilt(r.temp, SET_HEADER, Accepted(IsOversampling(h), h, r.temp[1]), Accepted(IsOversampling(t), t, r.temp[2]),
            Accepted(IsOversampling(p), p, r.temp[3]), Accepted(IsStandby(sb), sb, r.temp[4]),
            Accepted(IsFilter(f), f, r.temp[5]), SET_TAIL);
  }

  /**
   * A whole settings packet received at IDLE: the receiver is back at
   * IDLE with the ready flag up, each field's flag says whether its byte
   * was in its range, and `temp_settings` holds the header, every
   * accepted byte (an entry whose byte was rejected keeps what it held)
   * and the tail.
   */
  lemma {:induction false} PacketReceived(r: Receiver, h: byte, t: byte, p: byte, sb: byte, f: byte)
    requires |r.temp| == SETTING_PACKET && r.state == IDLE
    ensures var n := Feed(r, [SET_HEADER, h, t, p, sb, f, SET_TAIL]);
            n.state == IDLE && n.ready &&
            n.hum == IsOversampling(h) && n.tmp == IsOversampling(t) && n.press == IsOversampling(p) &&
            n.standby == IsStandby(sb) && n.filter == IsFilter(f) &&
            n.temp == [SET_HEADER, Accepted(IsOversampling(h), h, r.temp[1]), Accepted(IsOversampling(t), t, r.temp[2]),
                       Accepted(IsOversampling(p), p, r.temp[3]), Accepted(IsStandby(sb), sb, r.temp[4]),
                       Accepted(IsFilter(f), f, r.temp[5]), SET_TAIL]
  {
    var bytes := [SET_HEADER, h, t, p, sb, f, SET_TAIL];
    PacketSteps(r, h, t, p, sb, f);
    var r1 := SettingsStep(r, SET_HEADER);
    var r2 := SettingsStep(r1, h);
    var r3 := SettingsStep(r2, t);
    var r4 := SettingsStep(r3, p);
    var r5 := SettingsStep(r4, sb);
    var r6 := SettingsStep(r5, f);
    FeedOne(r, bytes);
    FeedOne(r1, bytes[1..]);
    FeedOne(r2, bytes[2..]);
    FeedOne(r3, bytes[3..]);
    FeedOne(r4, bytes[4..]);
    FeedOne(r5, bytes[5..]);
    FeedOne(r6, bytes[6..]);
    assert bytes[1..][0] == h && bytes[2..][0] == t && bytes[3..][0] == p;
    assert bytes[4..][0] == sb && bytes[5..][0] == f && bytes[6..][0] == SET_TAIL && bytes[6..][1..] == [];
  }

  /** The BME280_ActualSettings reply: 0xBB, the five EEPROM settings, 0xB0. */
  function ActualReply(cells: seq<bv8>): (r: seq<bv8>)
    requires |cells| == EEPROM_CELLS
    ensures |r| == SETTING_PACKET && r[0] == ACTUAL_HEADER && r[SETTING_PACKET - 1] == ACTUAL_TAIL
    ensures r[1..SETTING_PACKET - 1] == cells
  {
    [ACTUAL_HEADER] + cells + [ACTUAL_TAIL]
  }

  /** The setting ApplyNewSettings passes on: the received byte when its flag is up, else the default. */
  function Requested(flag: bool, received: byte, fallback: byte): (r: bv8)
    ensures flag ==> r as int == received
    ensures !flag ==> r as int == fallback
  {
    (if flag then received else fallback) as bv8
  }

  /** The cells `cells` after the five setters asked for `h` .. `f`, with `okH` .. `okF` saying which succeeded. */
  function StoredCells(cells: seq<bv8>, h: bv8, t: bv8, p: bv8, sb: bv8, f: bv8,
                              okH: bool, okT: bool, okP: bool, okS: bool, okF: bool): (r: seq<bv8>)
    requires |cells| == EEPROM_CELLS
    ensures |r| == EEPROM_CELLS
    ensures r[EEPROM_H_OSR] == Kept(okH, h, cells[EEPROM_H_OSR]) && r[EEPROM_T_OSR] == Kept(okT, t, cells[EEPROM_T_OSR])
    ensures r[EEPROM_P_OSR] == Kept(okP, p, cells[EEPROM_P_OSR]) && r[EEPROM_SB_TIME] == Kept(okS, sb, cells[EEPROM_SB_TIME])
    ensures r[EEPROM_FILT] == Kept(okF, f, cells[EEPROM_FILT])
  {
    cells[EEPROM_H_OSR := Kept(okH, h, cells[EEPROM_H_OSR])][EEPROM_T_OSR := Kept(okT, t, cells[EEPROM_T_OSR])]
         [EEPROM_P_OSR := Kept(okP, p, cells[EEPROM_P_OSR])][EEPROM_SB_TIME := Kept(okS, sb, cells[EEPROM_SB_TIME])]
         [EEPROM_FILT := Kept(okF, f, cells[EEPROM_FILT])]
  }

  /** An EEPROM setting after BME280_SetRegisters wrote back the value the sensor took: itself or its low three bits. */
  predicate Stored(was: bv8, now: bv8)
  {
    now == was || now == Low3(was)
  }

  /** The values main.c gives the interrupt flags and counters: all zero but `counter`, which starts at -1. */
  ghost predicate IsrInitial(s: IsrState)
    reads s
  {
    !s.rx && !s.stream && !s.enableRamp && !s.enableSquare && !s.enableSine &&
    !s.enableTriangle && !s.enableSqtr && !s.tick200ms && !s.rampIncrement && !s.sineIncrement &&
    !s.trngIncrement && !s.sqtrIncrement && s.counter == -1 && !s.fiveSec && s.counterWtd == 0 &&
    !s.readGas && !s.readBme && !s.readData
  }

  /** The values main.c gives the pattern globals: all zero but `trng_state`, which starts UP. */
  ghost predicate ModulationInitial(m: Modulation)
    reads m
  {
    m.sineDc == 0 && m.lutIdx == 0 && m.sineCmp == 0 && m.trngState == UP &&
    m.sqtrDc == 0 && m.lutSqtrIdx == 0 && m.sqtrCmp == 0
  }

  /** The flag and counter assignments at the top of main that concern the interrupts. */
  method InitIsr(s: IsrState)
    modifies s
    ensures IsrInitial(s)
  {
    InitModes(s);
    InitSteps(s);
    InitCounters(s);
  }

  /** The receive, stream and pattern-enable flags drop. */
  method InitModes(s: IsrState)
    modifies s`rx, s`stream, s`enableRamp, s`enableSquare, s`enableSine, s`enableTriangle, s`enableSqtr
    ensures !s.rx && !s.stream && !s.enableRamp && !s.enableSquare && !s.enableSine && !s.enableTriangle && !s.enableSqtr
  {
    s.rx, s.stream := false, false;
    s.enableRamp, s.enableSquare, s.enableSine, s.enableTriangle, s.enableSqtr := false, false, false, false, false;
  }

  /** The tick and pattern-step flags drop. */
  method InitSteps(s: IsrState)
    modifies s`tick200ms, s`rampIncrement, s`sineIncrement, s`trngIncrement, s`sqtrIncrement
    ensures !s.tick200ms && !s.rampIncrement && !s.sineIncrement && !s.trngIncrement && !s.sqtrIncrement
  {
    s.tick200ms, s.rampIncrement, s.sineIncrement, s.trngIncrement, s.sqtrIncrement := false, false, false, false, false;
  }

  /** The counters start at -1 and 0, the watchdog and read flags drop. */
  method InitCounters(s: IsrState)
    modifies s`counter, s`fiveSec, s`counterWtd, s`readGas, s`readBme, s`readData
    ensures s.counter == -1 && !s.fiveSec && s.counterWtd == 0 && !s.readGas && !s.readBme && !s.readData
  {
    s.counter := -1;
    s.fiveSec, s.counterWtd := false, 0;
    s.readGas, s.readBme, s.readData := false, false, false;
  }

  /** The pattern-global assignments at the top of main. */
  method InitModulation(m: Modulation)
    modifies m
    ensures ModulationInitial(m) && m.Valid()
  {
    m.sineDc, m.lutIdx, m.sineCmp, m.trngState := 0, 0, 0, UP;
    m.sqtrDc, m.lutSqtrIdx, m.sqtrCmp := 0, 0, 0;
  }

  /**
   * BME280_SetRegisters on the reply array keeps it the framed copy of
   * EEPROM: an entry whose setter succeeded becomes, in the array and in
   * EEPROM alike, the low three bits of what it held.
   */
  lemma WriteBackMirrors(cells: seq<bv8>, okH: bool, okT: bool, okP: bool, okS: bool, okF: bool)
    requires |cells| == EEPROM_CELLS
    ensures var a := ActualReply(cells);
            var c := cells[EEPROM_H_OSR := Kept(okH, a[1], cells[EEPROM_H_OSR])]
                          [EEPROM_T_OSR := Kept(okT, a[2], cells[EEPROM_T_OSR])]
                          [EEPROM_P_OSR := Kept(okP, a[3], cells[EEPROM_P_OSR])]
                          [EEPROM_SB_TIME := Kept(okS, a[4], cells[EEPROM_SB_TIME])]
                          [EEPROM_FILT := Kept(okF, a[5], cells[EEPROM_FILT])];
            a[1 := Kept(okH, a[1], a[1])][2 := Kept(okT, a[2], a[2])][3 := Kept(okP, a[3], a[3])]
             [4 := Kept(okS, a[4], a[4])][5 := Kept(okF, a[5], a[5])] == ActualReply(c) &&
            forall i | 0 <= i < EEPROM_CELLS :: Stored(cells[i], c[i])
  {
    ReplyEntries(cells);
    var k := [Kept(okH, cells[0], cells[0]), Kept(okT, cells[1], cells[1]), Kept(okP, cells[2], cells[2]),
              Kept(okS, cells[3], cells[3]), Kept(okF, cells[4], cells[4])];
    CellsUpdated(cells, k);
    ReplyUpdated(cells, k);
  }

  /** The reply entry by entry. */
  lemma ReplyEntries(cells: seq<bv8>)
    requires |cells| == EEPROM_CELLS
    ensures ActualReply(cells) == [ACTUAL_HEADER, cells[0], cells[1], cells[2], cells[3], cells[4], ACTUAL_TAIL]
  {
  }

  /** Five updates of the five cells rebuild `k`. */
  lemma CellsUpdated(cells: seq<bv8>, k: seq<bv8>)
    requires |cells| == EEPROM_CELLS && |k| == EEPROM_CELLS
    ensures cells[EEPROM_H_OSR := k[0]][EEPROM_T_OSR := k[1]][EEPROM_P_OSR := k[2]][EEPROM_SB_TIME := k[3]]
                 [EEPROM_FILT := k[4]] == k
  {
  }

  /** Overwriting the five settings of a reply gives the reply for the new settings. */
  lemma ReplyUpdated(cells: seq<bv8>, k: seq<bv8>)
    requires |cells| == EEPROM_CELLS && |k| == EEPROM_CELLS
    ensures ActualReply(cells)[1 := k[0]][2 := k[1]][3 := k[2]][4 := k[3]][5 := k[4]] == ActualReply(k)
  {
    ReplyEntries(cells);
    ReplyEntries(k);
  }

  // ----------------------------------------------------------------------
  // The board
  // ----------------------------------------------------------------------

  /** The globals main.c works on, the local `temp_settings`, and the components. */
  class Board {
    const isr: IsrState
    const mod: Modulation
    const pwm: Pwm
    const eeprom: Eeprom
    const uart: Uart
    const sensor: Sensor
    const gas: GasSensor
    const adc: Adc
    const lines: MuxLines
    const hyd: Hydraulics
    /** GlobalBuffer, BME280_ActualSettings and main's temp_settings. */
    const globalBuffer: array<byte>
    const actualSettings: array<bv8>
    const tempSettings: array<byte>

    var state: byte
    /** flag_settings: the GUI asked for the settings. */
    var settingsRequest: bool
    /** flag_new_setting_ready and the five per-field flags of BME280_Macros.h. */
    var newSettingReady: bool
    var humSetting: bool
    var tempSetting: bool
    var pressSetting: bool
    var sbSetting: bool
    var filtSetting: bool

    ghost predicate Valid()
      reads pwm, eeprom, gas, mod
    {
      pwm.Valid() && eeprom.Valid() && sensor.Valid() && gas.Valid() && mod.Valid() &&
      globalBuffer.Length == DATA_BUFFER_SIZE && actualSettings.Length == SETTING_PACKET &&
      tempSettings.Length == SETTING_PACKET && globalBuffer != tempSettings &&
      actualSettings as object != tempSettings && actualSettings as object != globalBuffer
    }

    /** GlobalBuffer carries its header and tail. */
    ghost predicate Framed()
      reads globalBuffer
    {
      globalBuffer.Length == DATA_BUFFER_SIZE &&
      globalBuffer[0] == DATA_HEADER && globalBuffer[DATA_BUFFER_SIZE - 1] == DATA_TAIL
    }

    /** BME280_ActualSettings is the framed copy of the EEPROM settings. */
    ghost predicate Mirrored()
      reads eeprom, actualSettings
      requires eeprom.Valid()
    {
      actualSettings[..] == ActualReply(eeprom.cells)
    }

    /** The receiver as a value. */
    ghost function Rcv(): Receiver
      reads this`state, this`newSettingReady, this`humSetting, this`tempSetting, this`pressSetting,
            this`sbSetting, this`filtSetting, tempSettings
    {
      Receiver(state, tempSettings[..], newSettingReady, humSetting, tempSetting, pressSetting, sbSetting, filtSetting)
    }

    /**
     * Power-up: the components with their initial contents (compare
     * registers and kill register, EEPROM cells, sensor registers and
     * bus behaviour, ADC conversions) and every C global at zero.
     */
    constructor (compares: seq<byte>, kill: byte, cells: seq<bv8>, registers: seq<bv8>,
                 nak: nat -> bool, conversions: nat -> int32)
      requires |compares| == PWM_COMPARES && |cells| == EEPROM_CELLS && |registers| == REGISTERS
      ensures Valid() && state == IDLE
    {
      isr := new IsrState();
      mod := new Modulation();
      pwm := new Pwm(compares, kill);
      eeprom := new Eeprom(cells);
      uart := new Uart();
      sensor := new Sensor(registers, nak);
      gas := new GasSensor();
      adc := new Adc(conversions);
      lines := new MuxLines();
      hyd := new Hydraulics();
      globalBuffer := new byte[DATA_BUFFER_SIZE](_ => 0);
      actualSettings := new bv8[SETTING_PACKET](_ => 0);
      tempSettings := new byte[SETTING_PACKET](_ => 0);
      state := IDLE;
      settingsRequest, newSettingReady := false, false;
      humSetting, tempSetting, pressSetting, sbSetting, filtSetting := false, false, false, false, false;
    }

    /** The state the command switch works on, as a value. */
    ghost function ControlState(): Controls
      reads this`settingsRequest, isr`stream, isr`enableRamp, isr`enableSquare, isr`enableSine,
            isr`enableTriangle, isr`enableSqtr, isr`tick200ms, isr`counter, isr`rampIncrement,
            isr`sineIncrement, isr`trngIncrement, isr`sqtrIncrement, isr`readGas, isr`readBme,
            isr`readData, mod`lutIdx, mod`trngState, mod`lutSqtrIdx, pwm, hyd, uart
    {
      Controls(ModesOf(isr), TimingOf(isr, mod), pwm.kill, pwm.compare, ValvesOf(hyd), uart.tx, settingsRequest)
    }

    /**
     * The `if(flag_rx)` block: the watchdog window restarts, the flag
     * drops, `state` is incremented, then the command switch and the
     * receiver switch run on the byte UART_ReadRxData returned.
     */
    method ReceiveByte(rx: byte)
      requires Valid() && isr.rx
      modifies isr`rx, isr`counterWtd, isr`fiveSec,
               isr`stream, isr`enableRamp, isr`enableSquare, isr`enableSine, isr`enableTriangle, isr`enableSqtr,
               isr`tick200ms, isr`counter, isr`rampIncrement, isr`sineIncrement, isr`trngIncrement,
               isr`sqtrIncrement, isr`readGas, isr`readBme, isr`readData,
               mod`lutIdx, mod`trngState, mod`lutSqtrIdx, pwm, hyd, uart, this`settingsRequest,
               tempSettings, this`state, this`newSettingReady, this`humSetting, this`tempSetting,
               this`pressSetting, this`sbSetting, this`filtSetting
      ensures Valid()
      ensures !isr.rx && isr.counterWtd == 0 && !isr.fiveSec
      ensures ControlState() == CommandEffect(old(ControlState()), rx)
      ensures Rcv() == SettingsStep(old(Rcv()), rx)
      ensures old(StepsFollowPatterns(isr)) ==> StepsFollowPatterns(isr)
    {
      ghost var c0 := ControlState();
      isr.ResetWatchdogTimer();
      isr.rx := false;
      assert ControlState() == c0;
      assert !isr.rx && isr.counterWtd == 0 && !isr.fiveSec;
      ProcessByte(rx);
    }

    /** `state++`, then the command switch and the switch on `state`. */
    method ProcessByte(rx: byte)
      requires Valid()
      modifies isr`stream, isr`enableRamp, isr`enableSquare, isr`enableSine, isr`enableTriangle, isr`enableSqtr,
               isr`tick200ms, isr`counter, isr`rampIncrement, isr`sineIncrement, isr`trngIncrement,
               isr`sqtrIncrement, isr`readGas, isr`readBme, isr`readData,
               mod`lutIdx, mod`trngState, mod`lutSqtrIdx, pwm, hyd, uart, this`settingsRequest,
               tempSettings, this`state, this`newSettingReady, this`humSetting, this`tempSetting,
               this`pressSetting, this`sbSetting, this`filtSetting
      ensures Valid()
      ensures ControlState() == CommandEffect(old(ControlState()), rx)
      ensures Rcv() == SettingsStep(old(Rcv()), rx)
      ensures old(StepsFollowPatterns(isr)) ==> StepsFollowPatterns(isr)
    {
      CountAndHandle(rx);
      SettingsSwitch(rx);
    }

    /** The `state++` every received byte makes, then the command switch on it. */
    method CountAndHandle(rx: byte)
      requires Valid()
      modifies isr`stream, isr`enableRamp, isr`enableSquare, isr`enableSine, isr`enableTriangle, isr`enableSqtr,
               isr`tick200ms, isr`counter, isr`rampIncrement, isr`sineIncrement, isr`trngIncrement,
               isr`sqtrIncrement, isr`readGas, isr`readBme, isr`readData,
               mod`lutIdx, mod`trngState, mod`lutSqtrIdx, pwm, hyd, uart, this`settingsRequest, this`state
      ensures Valid() && state == Next(old(state))
      ensures ControlState() == CommandEffect(old(ControlState()), rx)
      ensures old(StepsFollowPatterns(isr)) ==> StepsFollowPatterns(isr)
    {
      state := Next(state);
      assert ControlState() == old(ControlState());
      HandleCommand(rx);
    }

    /** The command switch (main.c, `switch(rx)`). */
    method HandleCommand(rx: byte)
      requires Valid()
      modifies isr`stream, isr`enableRamp, isr`enableSquare, isr`enableSine, isr`enableTriangle, isr`enableSqtr,
               isr`tick200ms, isr`counter, isr`rampIncrement, isr`sineIncrement, isr`trngIncrement,
               isr`sqtrIncrement, isr`readGas, isr`readBme, isr`readData,
               mod`lutIdx, mod`trngState, mod`lutSqtrIdx, pwm, hyd, uart, this`settingsRequest
      ensures Valid()
      ensures ControlState() == CommandEffect(old(ControlState()), rx)
      ensures old(StepsFollowPatterns(isr)) ==> StepsFollowPatterns(isr)
    {
      if rx == CMD_CONNECT {
        Connect();
      } else if IsPatternCommand(rx) {
        EnablePattern(rx);
      } else if rx == CMD_START {
        StartStream();
      } else if rx == CMD_STOP || rx == CMD_FULL_ON {
        HeatersOn(rx);
      } else if rx == CMD_OFF {
        HeatersOff();
      } else if rx == CMD_SETTINGS {
        RequestSettings();
      } else if ValveCommand(rx).Some? {
        SetValves(rx);
      }
    }

    /** 'v': the connection string. */
    method Connect()
      modifies uart
      ensures ControlState() == CommandEffect(old(ControlState()), CMD_CONNECT)
    {
      uart.PutString(CONNECTION);
    }

    /** 'g': flag_settings. */
    method RequestSettings()
      modifies this`settingsRequest
      ensures ControlState() == CommandEffect(old(ControlState()), CMD_SETTINGS)
    {
      settingsRequest := true;
    }

    /** 'a': start streaming with every pattern disabled, unless already streaming. */
    method StartStream()
      requires Valid()
      modifies isr`stream, isr`enableRamp, isr`enableSquare, isr`enableSine, isr`enableTriangle, isr`enableSqtr,
               isr`tick200ms, isr`counter, isr`rampIncrement, isr`sineIncrement, isr`trngIncrement,
               isr`sqtrIncrement, isr`readGas, isr`readBme, isr`readData,
               mod`lutIdx, mod`trngState, mod`lutSqtrIdx
      ensures Valid()
      ensures ControlState() == CommandEffect(old(ControlState()), CMD_START)
    {
      StartEffect(ControlState());
      if !isr.stream {
        isr.stream := true;
        StopPatterns();
      }
    }

    /** Every pattern switched off and the timers reset, as 'a' does when streaming starts. */
    method StopPatterns()
      requires Valid()
      modifies isr`enableRamp, isr`enableSquare, isr`enableSine, isr`enableTriangle, isr`enableSqtr,
               isr`tick200ms, isr`counter, isr`rampIncrement, isr`sineIncrement, isr`trngIncrement,
               isr`sqtrIncrement, isr`readGas, isr`readBme, isr`readData,
               mod`lutIdx, mod`trngState, mod`lutSqtrIdx
      ensures Valid()
      ensures var c := old(ControlState());
              ControlState() == c.(modes := PatternsOff(c.modes), timing := RESET_TIMING)
    {
      DisablePatterns();
      ResetTiming();
    }

    /** 's' (which also stops the stream) and 'O': patterns off, heaters fully on. */
    method HeatersOn(rx: byte)
      requires Valid() && (rx == CMD_STOP || rx == CMD_FULL_ON)
      modifies isr`stream, isr`enableRamp, isr`enableSquare, isr`enableSine, isr`enableTriangle, isr`enableSqtr,
               isr`tick200ms, isr`counter, isr`rampIncrement, isr`sineIncrement, isr`trngIncrement,
               isr`sqtrIncrement, isr`readGas, isr`readBme, isr`readData,
               mod`lutIdx, mod`trngState, mod`lutSqtrIdx, pwm
      ensures Valid()
      ensures ControlState() == CommandEffect(old(ControlState()), rx)
    {
      HeatersOnEffect(ControlState(), rx);
      if rx == CMD_STOP {
        isr.stream := false;
      }
      FullPower();
    }

    /** The part of 's' and 'O' they share: patterns off, heaters enabled at 100% duty, timers reset. */
    method FullPower()
      requires Valid()
      modifies isr`enableRamp, isr`enableSquare, isr`enableSine, isr`enableTriangle, isr`enableSqtr,
               isr`tick200ms, isr`counter, isr`rampIncrement, isr`sineIncrement, isr`trngIncrement,
               isr`sqtrIncrement, isr`readGas, isr`readBme, isr`readData,
               mod`lutIdx, mod`trngState, mod`lutSqtrIdx, pwm
      ensures Valid()
      ensures var c := old(ControlState());
              ControlState() == c.(modes := PatternsOff(c.modes), timing := RESET_TIMING, kill := ENABLE_PWM,
                                   compare := Uniform(0))
    {
      DisablePatterns();
      pwm.kill := ENABLE_PWM;
      pwm.WriteCompares(0);
      ResetTiming();
    }

    /** 'o': patterns off, heater output disabled. */
    method HeatersOff()
      requires Valid()
      modifies isr`enableRamp, isr`enableSquare, isr`enableSine, isr`enableTriangle, isr`enableSqtr,
               isr`tick200ms, isr`counter, isr`rampIncrement, isr`sineIncrement, isr`trngIncrement,
               isr`sqtrIncrement, isr`readGas, isr`readBme, isr`readData,
               mod`lutIdx, mod`trngState, mod`lutSqtrIdx, pwm`kill
      ensures Valid()
      ensures ControlState() == CommandEffect(old(ControlState()), CMD_OFF)
    {
      HeatersOffEffect(ControlState());
      DisablePatterns();
      pwm.kill := DISABLE_PWM;
      ResetTiming();
    }

    /** 'r', 'q', 'w', 't', 'c': enable one pattern, only when none is enabled. */
    method EnablePattern(rx: byte)
      requires Valid() && IsPatternCommand(rx)
      modifies isr`enableRamp, isr`enableSquare, isr`enableSine, isr`enableTriangle, isr`enableSqtr,
               isr`tick200ms, isr`counter, isr`rampIncrement, isr`sineIncrement, isr`trngIncrement,
               isr`sqtrIncrement, isr`readGas, isr`readBme, isr`readData,
               mod`lutIdx, mod`trngState, mod`lutSqtrIdx
      ensures Valid()
      ensures ControlState() == CommandEffect(old(ControlState()), rx)
    {
      if !isr.enableRamp && !isr.enableSquare && !isr.enableSine && !isr.enableTriangle && !isr.enableSqtr {
        SwitchOnPattern(rx);
      } else {
        PatternCommandEffect(ControlState(), rx);
      }
    }

    /** The enabling branch of a pattern command: its flag goes up and Reset_TIMER runs. */
    method SwitchOnPattern(rx: byte)
      requires Valid() && IsPatternCommand(rx) && Enabled(ModesOf(isr)) == 0
      modifies isr`enableRamp, isr`enableSquare, isr`enableSine, isr`enableTriangle, isr`enableSqtr,
               isr`tick200ms, isr`counter, isr`rampIncrement, isr`sineIncrement, isr`trngIncrement,
               isr`sqtrIncrement, isr`readGas, isr`readBme, isr`readData,
               mod`lutIdx, mod`trngState, mod`lutSqtrIdx
      ensures Valid()
      ensures ControlState() == CommandEffect(old(ControlState()), rx)
    {
      PatternCommandEffect(ControlState(), rx);
      SelectPattern(rx);
      ResetTiming();
    }

    /** The pattern command's own flag goes up, the other four stay down. */
    method SelectPattern(rx: byte)
      requires IsPatternCommand(rx) && Enabled(ModesOf(isr)) == 0
      modifies isr`enableRamp, isr`enableSquare, isr`enableSine, isr`enableTriangle, isr`enableSqtr
      ensures ModesOf(isr) == CommandModes(old(ModesOf(isr)), rx)
    {
      isr.enableRamp := rx == CMD_RAMP;
      isr.enableSquare := rx == CMD_SQUARE;
      isr.enableSine := rx == CMD_SINE;
      isr.enableTriangle := rx == CMD_TRIANGLE;
      isr.enableSqtr := rx == CMD_SQTR;
    }

    /** Reset_TIMER, seen as the timing state it sets. */
    method ResetTiming()
      modifies isr`tick200ms, isr`counter, isr`rampIncrement, isr`sineIncrement, isr`trngIncrement,
               isr`sqtrIncrement, isr`readGas, isr`readBme, isr`readData, mod`lutIdx, mod`trngState, mod`lutSqtrIdx
      ensures TimingOf(isr, mod) == RESET_TIMING
    {
      isr.ResetTimer(mod);
    }

    /** The five pattern-enable flags drop. */
    method DisablePatterns()
      modifies isr`enableRamp, isr`enableSquare, isr`enableSine, isr`enableTriangle, isr`enableSqtr
      ensures ModesOf(isr) == PatternsOff(old(ModesOf(isr)))
    {
      isr.enableRamp := false;
      isr.enableSquare := false;
      isr.enableSine := false;
      isr.enableTriangle := false;
      isr.enableSqtr := false;
    }

    /** 'h', 'y', 'e', 'i': drive the pumps and valves. */
    method SetValves(rx: byte)
      requires ValveCommand(rx).Some?
      modifies hyd
      ensures ControlState() == CommandEffect(old(ControlState()), rx)
    {
      if rx == CMD_IN {
        hyd.pumpIn := HIGH;
        hyd.valveIn := HIGH;
        hyd.pumpOut := LOW;
        hyd.valveOut := LOW;
      } else if rx == CMD_OUT {
        hyd.pumpOut := HIGH;
        hyd.valveOut := HIGH;
        hyd.pumpIn := LOW;
        hyd.valveIn := LOW;
      } else if rx == CMD_BOTH {
        hyd.pumpIn := HIGH;
        hyd.valveIn := HIGH;
        hyd.pumpOut := HIGH;
        hyd.valveOut := HIGH;
      } else {
        hyd.pumpIn := LOW;
        hyd.valveIn := LOW;
        hyd.pumpOut := LOW;
        hyd.valveOut := LOW;
      }
    }

    /** The switch on `state` (main.c, `switch(state)`). */
    method SettingsSwitch(rx: byte)
      requires Valid()
      modifies tempSettings, this`state, this`newSettingReady, this`humSetting, this`tempSetting,
               this`pressSetting, this`sbSetting, this`filtSetting
      ensures Valid()
      ensures Rcv() == Dispatch(old(Rcv()), rx)
    {
      if state == HEAD {
        ReadHeader(rx);
      } else if state == SET_H || state == SET_T || state == SET_P {
        ReadOversampling(rx);
      } else if state == SET_S || state == SET_F {
        ReadTiming(rx);
      } else if state == TAIL && rx == SET_TAIL {
        Store(state - 1, rx);
        newSettingReady := true;
        state := IDLE;
      } else {
        Discard();
      }
    }

    /** HEAD: keep 't', otherwise back to IDLE. */
    method ReadHeader(rx: byte)
      requires Valid() && state == HEAD
      modifies tempSettings, this`state
      ensures Rcv() == Dispatch(old(Rcv()), rx)
    {
      if rx == SET_HEADER {
        Store(state - 1, rx);
      } else {
        state := IDLE;
      }
    }

    /** SET_H, SET_T, SET_P: an oversampling code is stored and raises the field's flag; any other byte lowers it. */
    method ReadOversampling(rx: byte)
      requires Valid() && (state == SET_H || state == SET_T || state == SET_P)
      modifies tempSettings, this`humSetting, this`tempSetting, this`pressSetting
      ensures Rcv() == Dispatch(old(Rcv()), rx)
    {
      var ok := IsOversampling(rx);
      if ok {
        Store(state - 1, rx);
      }
      if state == SET_H {
        humSetting := ok;
      } else if state == SET_T {
        tempSetting := ok;
      } else {
        pressSetting := ok;
      }
    }

    /** SET_S, SET_F: a stand-by code, or a filter code, is stored and raises the field's flag. */
    method ReadTiming(rx: byte)
      requires Valid() && (state == SET_S || state == SET_F)
      modifies tempSettings, this`sbSetting, this`filtSetting
      ensures Rcv() == Dispatch(old(Rcv()), rx)
    {
      if state == SET_S {
        sbSetting := IsStandby(rx);
        if sbSetting {
          Store(state - 1, rx);
        }
      } else {
        filtSetting := IsFilter(rx);
        if filtSetting {
          Store(state - 1, rx);
        }
      }
    }

    /** `temp_settings[i] = rx`. */
    method Store(i: nat, rx: byte)
      requires i < tempSettings.Length
      modifies tempSettings
      ensures tempSettings[..] == old(tempSettings[..])[i := rx]
    {
      tempSettings[i] := rx;
    }

    /** A rejected tail, or a state outside HEAD .. TAIL: clear the packet and its flags. */
    method Discard()
      requires tempSettings.Length == SETTING_PACKET
      modifies tempSettings, this`state, this`newSettingReady, this`humSetting, this`tempSetting,
               this`pressSetting, this`sbSetting, this`filtSetting
      ensures Rcv() == DISCARDED
    {
      ClearPacket();
      newSettingReady := false;
      humSetting, tempSetting, pressSetting, sbSetting, filtSetting := false, false, false, false, false;
      state := IDLE;
    }

    /** The for-loop that zeroes `temp_settings`. */
    method ClearPacket()
      requires tempSettings.Length == SETTING_PACKET
      modifies tempSettings
      ensures tempSettings[..] == ZERO_PACKET
    {
      for i := 0 to SETTING_PACKET
        invariant forall j | 0 <= j < i :: tempSettings[j] == 0
      {
        tempSettings[i] := 0;
      }
    }

    /**
     * The watchdog discard: in HEAD .. SET_F, once the five seconds ran
     * out, "WATCHDOG" is sent, the packet is zeroed and the receiver goes
     * back to IDLE.  The six flags are not in the frame: they keep their
     * values.
     */
    method CheckWatchdog()
      requires Valid()
      modifies isr`fiveSec, uart, tempSettings, this`state
      ensures if HEAD <= old(state) <= SET_F && old(isr.fiveSec) then
                state == IDLE && tempSettings[..] == ZERO_PACKET && !isr.fiveSec &&
                uart.tx == old(uart.tx) + Ascii(WATCHDOG_MESSAGE)
              else
                state == old(state) && tempSettings[..] == old(tempSettings[..]) &&
                isr.fiveSec == old(isr.fiveSec) && uart.tx == old(uart.tx)
    {
      if state == HEAD || state == SET_H || state == SET_T || state == SET_P || state == SET_S || state == SET_F {
        if isr.fiveSec {
          uart.PutString(WATCHDOG_MESSAGE);
          isr.fiveSec := false;
          ClearPacket();
          state := IDLE;
        }
      }
    }

    /** A pattern step is pending. */
    ghost predicate StepPending()
      reads isr`rampIncrement, isr`sineIncrement, isr`trngIncrement, isr`sqtrIncrement
    {
      isr.rampIncrement || isr.sineIncrement || isr.trngIncrement || isr.sqtrIncrement
    }

    /**
     * The four pattern blocks of the loop, in order: each pending step
     * clears flag_200ms and its own flag and runs its Mod_ function.
     * Afterwards no step is pending; with no step pending nothing
     * changes; eight equal compares stay equal; and when exactly one step
     * was pending, its pattern's step is what happened.
     */
    method RunPatterns()
      requires Valid()
      modifies isr`tick200ms, isr`rampIncrement, isr`sineIncrement, isr`trngIncrement, isr`sqtrIncrement,
               mod`sineDc, mod`sineCmp, mod`lutIdx, mod`trngState, mod`sqtrDc, mod`sqtrCmp, mod`lutSqtrIdx, pwm
      ensures Valid() && !StepPending()
      ensures isr.tick200ms == (old(isr.tick200ms) && !old(StepPending()))
      ensures old(pwm.Balanced()) ==> pwm.Balanced()
      ensures !old(StepPending()) ==>
                pwm.kill == old(pwm.kill) && pwm.compare == old(pwm.compare) &&
                mod.lutIdx == old(mod.lutIdx) && mod.trngState == old(mod.trngState) &&
                mod.lutSqtrIdx == old(mod.lutSqtrIdx)
      ensures old(isr.rampIncrement && !isr.sineIncrement && !isr.trngIncrement && !isr.sqtrIncrement) ==>
                var r := RampStep(old(pwm.compare[AS_CMP1])); pwm.kill == r.kill && pwm.AllEqual(r.cmp)
      ensures old(!isr.rampIncrement && !isr.sineIncrement && isr.trngIncrement && !isr.sqtrIncrement) ==>
                var r := TriangleStep(old(pwm.compare[AS_CMP1]), old(mod.trngState));
                pwm.kill == r.kill && pwm.AllEqual(r.cmp) && mod.trngState == r.state
      ensures old(!isr.rampIncrement && isr.sineIncrement && !isr.trngIncrement && !isr.sqtrIncrement) ==>
                mod.sineDc == SINE_TABLE[old(mod.lutIdx)] &&
                mod.lutIdx as nat == (old(mod.lutIdx) as nat + 1) % SINE_LEN &&
                (mod.sineDc == 0 ==> pwm.kill == DISABLE_PWM && pwm.compare == old(pwm.compare)) &&
                (mod.sineDc != 0 ==> pwm.kill == ENABLE_PWM && pwm.AllEqual(DutyCompare(mod.sineDc)))
      ensures old(!isr.rampIncrement && !isr.sineIncrement && !isr.trngIncrement && isr.sqtrIncrement) ==>
                mod.sqtrDc == SQTR_TABLE[old(mod.lutSqtrIdx)] &&
                mod.lutSqtrIdx as nat == (old(mod.lutSqtrIdx) as nat + 1) % SQTR_LEN &&
                (mod.sqtrDc == 0 ==> pwm.kill == DISABLE_PWM && pwm.compare == old(pwm.compare)) &&
                (mod.sqtrDc != 0 ==> pwm.kill == ENABLE_PWM && pwm.AllEqual(DutyCompare(mod.sqtrDc)))
    {
      RampAndSine();
      TriangleAndSquareTriangle();
    }

    /** The ramp and sine blocks. */
    method RampAndSine()
      requires Valid()
      modifies isr`tick200ms, isr`rampIncrement, isr`sineIncrement, mod`sineDc, mod`sineCmp, mod`lutIdx, pwm
      ensures Valid() && !isr.rampIncrement && !isr.sineIncrement
      ensures isr.tick200ms == (old(isr.tick200ms) && !old(isr.rampIncrement) && !old(isr.sineIncrement))
      ensures old(pwm.Balanced()) ==> pwm.Balanced()
      ensures !old(isr.rampIncrement) && !old(isr.sineIncrement) ==>
                pwm.kill == old(pwm.kill) && pwm.compare == old(pwm.compare) && mod.lutIdx == old(mod.lutIdx)
      ensures old(isr.rampIncrement && !isr.sineIncrement) ==>
                var r := RampStep(old(pwm.compare[AS_CMP1])); pwm.kill == r.kill && pwm.AllEqual(r.cmp)
      ensures old(!isr.rampIncrement && isr.sineIncrement) ==>
                mod.sineDc == SINE_TABLE[old(mod.lutIdx)] &&
                mod.lutIdx as nat == (old(mod.lutIdx) as nat + 1) % SINE_LEN &&
                (mod.sineDc == 0 ==> pwm.kill == DISABLE_PWM && pwm.compare == old(pwm.compare)) &&
                (mod.sineDc != 0 ==> pwm.kill == ENABLE_PWM && pwm.AllEqual(DutyCompare(mod.sineDc)))
    {
      RampBlock();
      SineBlock();
    }

    /** The triangle and square+triangle blocks. */
    method TriangleAndSquareTriangle()
      requires Valid()
      modifies isr`tick200ms, isr`trngIncrement, isr`sqtrIncrement, mod`trngState, mod`sqtrDc, mod`sqtrCmp,
               mod`lutSqtrIdx, pwm
      ensures Valid() && !isr.trngIncrement && !isr.sqtrIncrement
      ensures isr.tick200ms == (old(isr.tick200ms) && !old(isr.trngIncrement) && !old(isr.sqtrIncrement))
      ensures old(pwm.Balanced()) ==> pwm.Balanced()
      ensures !old(isr.trngIncrement) && !old(isr.sqtrIncrement) ==>
                pwm.kill == old(pwm.kill) && pwm.compare == old(pwm.compare) &&
                mod.trngState == old(mod.trngState) && mod.lutSqtrIdx == old(mod.lutSqtrIdx)
      ensures old(isr.trngIncrement && !isr.sqtrIncrement) ==>
                var r := TriangleStep(old(pwm.compare[AS_CMP1]), old(mod.trngState));
                pwm.kill == r.kill && pwm.AllEqual(r.cmp) && mod.trngState == r.state
      ensures old(!isr.trngIncrement && isr.sqtrIncrement) ==>
                mod.sqtrDc == SQTR_TABLE[old(mod.lutSqtrIdx)] &&
                mod.lutSqtrIdx as nat == (old(mod.lutSqtrIdx) as nat + 1) % SQTR_LEN &&
                (mod.sqtrDc == 0 ==> pwm.kill == DISABLE_PWM && pwm.compare == old(pwm.compare)) &&
                (mod.sqtrDc != 0 ==> pwm.kill == ENABLE_PWM && pwm.AllEqual(DutyCompare(mod.sqtrDc)))
    {
      TriangleBlock();
      SquareTriangleBlock();
    }

    /** `if(flag_ramp_increment)`: Mod_Ramp. */
    method RampBlock()
      requires Valid()
      modifies isr`tick200ms, isr`rampIncrement, pwm
      ensures Valid() && !isr.rampIncrement
      ensures old(pwm.Balanced()) ==> pwm.Balanced()
      ensures if old(isr.rampIncrement) then
                !isr.tick200ms && var r := RampStep(old(pwm.compare[AS_CMP1])); pwm.kill == r.kill && pwm.AllEqual(r.cmp)
              else
                isr.tick200ms == old(isr.tick200ms) && pwm.kill == old(pwm.kill) && pwm.compare == old(pwm.compare)
    {
      if isr.rampIncrement {
        isr.tick200ms := false;
        isr.rampIncrement := false;
        mod.Ramp(pwm);
      }
    }

    /** `if(flag_sine_increment)`: Mod_Sine. */
    method SineBlock()
      requires Valid()
      modifies isr`tick200ms, isr`sineIncrement, mod`sineDc, mod`sineCmp, mod`lutIdx, pwm
      ensures Valid() && !isr.sineIncrement
      ensures old(pwm.Balanced()) ==> pwm.Balanced()
      ensures if old(isr.sineIncrement) then
                !isr.tick200ms && mod.sineDc == SINE_TABLE[old(mod.lutIdx)] &&
                mod.lutIdx as nat == (old(mod.lutIdx) as nat + 1) % SINE_LEN &&
                (mod.sineDc == 0 ==> pwm.kill == DISABLE_PWM && pwm.compare == old(pwm.compare)) &&
                (mod.sineDc != 0 ==> pwm.kill == ENABLE_PWM && pwm.AllEqual(DutyCompare(mod.sineDc)))
              else
                isr.tick200ms == old(isr.tick200ms) && pwm.kill == old(pwm.kill) && pwm.compare == old(pwm.compare) &&
                mod.lutIdx == old(mod.lutIdx)
    {
      if isr.sineIncrement {
        isr.tick200ms := false;
        isr.sineIncrement := false;
        mod.Sine(pwm);
      }
    }

    /** `if(flag_trng_increment)`: Mod_Triangle. */
    method TriangleBlock()
      requires Valid()
      modifies isr`tick200ms, isr`trngIncrement, mod`trngState, pwm
      ensures Valid() && !isr.trngIncrement
      ensures old(pwm.Balanced()) ==> pwm.Balanced()
      ensures if old(isr.trngIncrement) then
                !isr.tick200ms && var r := TriangleStep(old(pwm.compare[AS_CMP1]), old(mod.trngState));
                pwm.kill == r.kill && pwm.AllEqual(r.cmp) && mod.trngState == r.state
              else
                isr.tick200ms == old(isr.tick200ms) && pwm.kill == old(pwm.kill) && pwm.compare == old(pwm.compare) &&
                mod.trngState == old(mod.trngState)
    {
      if isr.trngIncrement {
        isr.tick200ms := false;
        isr.trngIncrement := false;
        mod.TriangleWave(pwm);
      }
    }

    /** `if(flag_sqtr_increment)`: Mod_SquareTriangle. */
    method SquareTriangleBlock()
      requires Valid()
      modifies isr`tick200ms, isr`sqtrIncrement, mod`sqtrDc, mod`sqtrCmp, mod`lutSqtrIdx, pwm
      ensures Valid() && !isr.sqtrIncrement
      ensures old(pwm.Balanced()) ==> pwm.Balanced()
      ensures if old(isr.sqtrIncrement) then
                !isr.tick200ms && mod.sqtrDc == SQTR_TABLE[old(mod.lutSqtrIdx)] &&
                mod.lutSqtrIdx as nat == (old(mod.lutSqtrIdx) as nat + 1) % SQTR_LEN &&
                (mod.sqtrDc == 0 ==> pwm.kill == DISABLE_PWM && pwm.compare == old(pwm.compare)) &&
                (mod.sqtrDc != 0 ==> pwm.kill == ENABLE_PWM && pwm.AllEqual(DutyCompare(mod.sqtrDc)))
              else
                isr.tick200ms == old(isr.tick200ms) && pwm.kill == old(pwm.kill) && pwm.compare == old(pwm.compare) &&
                mod.lutSqtrIdx == old(mod.lutSqtrIdx)
    {
      if isr.sqtrIncrement {
        isr.tick200ms := false;
        isr.sqtrIncrement := false;
        mod.SquareTriangle(pwm);
      }
    }

    /**
     * The `if(flag_settings)` block: the request is consumed, and the
     * settings reply is sent only while not streaming.
     */
    method ServeSettingsRequest()
      requires Valid()
      modifies this`settingsRequest, uart
      ensures !settingsRequest
      ensures uart.tx == old(uart.tx) +
                (if old(settingsRequest) && !isr.stream then Bytes(actualSettings[..], 0, SETTING_PACKET) else [])
    {
      if settingsRequest {
        settingsRequest := false;
        if !isr.stream {
          uart.PutArray(Bytes(actualSettings[..], 0, SETTING_PACKET));
        }
      }
    }

    /** BME280_ActualSettings rebuilt from header, the five EEPROM cells and tail. */
    method RebuildActualSettings()
      requires Valid()
      modifies actualSettings
      ensures Mirrored()
    {
      actualSettings[0] := ACTUAL_HEADER;
      actualSettings[1] := eeprom.ReadByte(EEPROM_H_OSR);
      actualSettings[2] := eeprom.ReadByte(EEPROM_T_OSR);
      actualSettings[3] := eeprom.ReadByte(EEPROM_P_OSR);
      actualSettings[4] := eeprom.ReadByte(EEPROM_SB_TIME);
      actualSettings[5] := eeprom.ReadByte(EEPROM_FILT);
      actualSettings[SETTING_PACKET - 1] := ACTUAL_TAIL;
      assert actualSettings[..] == ActualReply(eeprom.cells);
    }

    /** The five values ApplyNewSettings passes on: each received byte whose flag is up, else its default. */
    ghost function Requests(): (r: (bv8, bv8, bv8, bv8, bv8))
      reads this`humSetting, this`tempSetting, this`pressSetting, this`sbSetting, this`filtSetting, tempSettings
      requires tempSettings.Length == SETTING_PACKET
    {
      (Requested(humSetting, tempSettings[1], DEFAULT_HUM), Requested(tempSetting, tempSettings[2], DEFAULT_TEMP),
       Requested(pressSetting, tempSettings[3], DEFAULT_PRESS), Requested(sbSetting, tempSettings[4], DEFAULT_STANDBY),
       Requested(filtSetting, tempSettings[5], DEFAULT_FILTER))
    }

    /**
     * The `if(flag_new_setting_ready)` block.  The ready flag is cleared;
     * while streaming the packet is dropped and nothing else changes.  Otherwise each field goes to
     * its setter, the received byte when its flag is up and the default
     * when not; each setter that succeeds stores the value the sensor
     * took into EEPROM; `okH` .. `okF` say which did, and all do when no
     * transfer fails.  The reply array is rebuilt from EEPROM and sent.
     */
    method ApplyNewSettings() returns (ghost okH: bool, ghost okT: bool, ghost okP: bool, ghost okS: bool, ghost okF: bool)
      requires Valid() && Mirrored()
      modifies this`newSettingReady, this`humSetting, this`tempSetting, this`pressSetting, this`sbSetting,
               this`filtSetting, sensor`transfers, sensor`ctrlHum, sensor`ctrlMeas, sensor`config, sensor`settings,
               eeprom, actualSettings, uart
      ensures Valid() && Mirrored() && !newSettingReady
      ensures var q := old(Requests());
              if old(newSettingReady) && !isr.stream then
                !humSetting && !tempSetting && !pressSetting && !sbSetting && !filtSetting &&
                old(sensor.transfers) < sensor.transfers <= old(sensor.transfers) + RESTORE_TRANSFERS - 2 &&
                eeprom.cells == StoredCells(old(eeprom.cells), q.0, q.1, q.2, q.3, q.4, okH, okT, okP, okS, okF) &&
                (sensor.NoNak(old(sensor.transfers), old(sensor.transfers) + RESTORE_TRANSFERS - 2) ==>
                   okH && okT && okP && okS && okF && ModeField(sensor.ctrlMeas) == SLEEP_MODE &&
                   sensor.settings == Settings(SLEEP_MODE, Low3(q.2), Low3(q.1), Low3(q.0), Low3(q.4), Low3(q.3))) &&
                uart.tx == old(uart.tx) + Bytes(actualSettings[..], 0, SETTING_PACKET)
              else
                humSetting == old(humSetting) && tempSetting == old(tempSetting) && pressSetting == old(pressSetting) &&
                sbSetting == old(sbSetting) && filtSetting == old(filtSetting) &&
                eeprom.cells == old(eeprom.cells) && uart.tx == old(uart.tx) &&
                sensor.transfers == old(sensor.transfers) && sensor.settings == old(sensor.settings) &&
                sensor.ctrlHum == old(sensor.ctrlHum) && sensor.ctrlMeas == old(sensor.ctrlMeas) &&
                sensor.config == old(sensor.config) && actualSettings[..] == old(actualSettings[..])
    {
      okH, okT, okP, okS, okF := false, false, false, false, false;
      if newSettingReady {
        newSettingReady := false;
        if !isr.stream {
          okH, okT, okP, okS, okF := StorePacket();
        }
      }
    }

    /**
     * ApplyNewSettings followed by BME280_SetNormalMode, as
     * BME280_SetRegisters ends: the same packet handling, after which the
     * sensor is back in normal mode on a bus with no failed transfer.
     * ApplyNewSettings leaves it asleep, since every setter puts it to
     * sleep first.
     */
    method ApplyNewSettingsAwake() returns (ghost okH: bool, ghost okT: bool, ghost okP: bool, ghost okS: bool, ghost okF: bool)
      requires Valid() && Mirrored()
      modifies this`newSettingReady, this`humSetting, this`tempSetting, this`pressSetting, this`sbSetting,
               this`filtSetting, sensor`transfers, sensor`ctrlHum, sensor`ctrlMeas, sensor`config, sensor`settings,
               eeprom, actualSettings, uart
      ensures Valid() && Mirrored() && !newSettingReady
      ensures var q := old(Requests());
              if old(newSettingReady) && !isr.stream then
                !humSetting && !tempSetting && !pressSetting && !sbSetting && !filtSetting &&
                eeprom.cells == StoredCells(old(eeprom.cells), q.0, q.1, q.2, q.3, q.4, okH, okT, okP, okS, okF) &&
                (sensor.NoNak(old(sensor.transfers), old(sensor.transfers) + RESTORE_TRANSFERS) ==>
                   okH && okT && okP && okS && okF && ModeField(sensor.ctrlMeas) == NORMAL_MODE &&
                   sensor.settings == Settings(NORMAL_MODE, Low3(q.2), Low3(q.1), Low3(q.0), Low3(q.4), Low3(q.3))) &&
                uart.tx == old(uart.tx) + Bytes(actualSettings[..], 0, SETTING_PACKET)
              else
                humSetting == old(humSetting) && tempSetting == old(tempSetting) && pressSetting == old(pressSetting) &&
                sbSetting == old(sbSetting) && filtSetting == old(filtSetting) &&
                eeprom.cells == old(eeprom.cells) && uart.tx == old(uart.tx) &&
                sensor.transfers == old(sensor.transfers) && sensor.settings == old(sensor.settings) &&
                sensor.ctrlHum == old(sensor.ctrlHum) && sensor.ctrlMeas == old(sensor.ctrlMeas) &&
                sensor.config == old(sensor.config) && actualSettings[..] == old(actualSettings[..])
    {
      ghost var t0 := sensor.transfers;
      ghost var full := sensor.NoNak(t0, t0 + RESTORE_TRANSFERS);
      var applied := newSettingReady && !isr.stream;
      if full {
        sensor.NoNakWithin(t0, t0 + RESTORE_TRANSFERS, t0, t0 + RESTORE_TRANSFERS - 2);
      }
      okH, okT, okP, okS, okF := ApplyNewSettings();
      if applied {
        if full {
          sensor.NoNakWithin(t0, t0 + RESTORE_TRANSFERS, sensor.transfers, sensor.transfers + 2);
        }
        var _ := sensor.SetNormalMode();
      }
    }

    /** The not-streaming branch of ApplyNewSettings. */
    method StorePacket() returns (ghost okH: bool, ghost okT: bool, ghost okP: bool, ghost okS: bool, ghost okF: bool)
      requires Valid() && Mirrored()
      modifies this`humSetting, this`tempSetting, this`pressSetting, this`sbSetting, this`filtSetting,
               sensor`transfers, sensor`ctrlHum, sensor`ctrlMeas, sensor`config, sensor`settings,
               eeprom, actualSettings, uart
      ensures Valid() && Mirrored()
      ensures !humSetting && !tempSetting && !pressSetting && !sbSetting && !filtSetting
      ensures old(sensor.transfers) < sensor.transfers <= old(sensor.transfers) + RESTORE_TRANSFERS - 2
      ensures var q := old(Requests());
              eeprom.cells == StoredCells(old(eeprom.cells), q.0, q.1, q.2, q.3, q.4, okH, okT, okP, okS, okF) &&
              (sensor.NoNak(old(sensor.transfers), old(sensor.transfers) + RESTORE_TRANSFERS - 2) ==>
                 okH && okT && okP && okS && okF && ModeField(sensor.ctrlMeas) == SLEEP_MODE &&
                 sensor.settings == Settings(SLEEP_MODE, Low3(q.2), Low3(q.1), Low3(q.0), Low3(q.4), Low3(q.3)))
      ensures uart.tx == old(uart.tx) + Bytes(actualSettings[..], 0, SETTING_PACKET)
    {
      var h := Requested(humSetting, tempSettings[1], DEFAULT_HUM);
      var t := Requested(tempSetting, tempSettings[2], DEFAULT_TEMP);
      var p := Requested(pressSetting, tempSettings[3], DEFAULT_PRESS);
      var sb := Requested(sbSetting, tempSettings[4], DEFAULT_STANDBY);
      var f := Requested(filtSetting, tempSettings[5], DEFAULT_FILTER);
      humSetting, tempSetting, pressSetting, sbSetting, filtSetting := false, false, false, false, false;
      okH, okT, okP, okS, okF := StoreRequested(h, t, p, sb, f);
    }

    /** The setters, the EEPROM and the reply of StorePacket for the register values `h` .. `f`. */
    method StoreRequested(h: bv8, t: bv8, p: bv8, sb: bv8, f: bv8)
      returns (ghost okH: bool, ghost okT: bool, ghost okP: bool, ghost okS: bool, ghost okF: bool)
      requires Valid() && Mirrored()
      modifies sensor`transfers, sensor`ctrlHum, sensor`ctrlMeas, sensor`config, sensor`settings,
               eeprom, actualSettings, uart
      ensures Valid() && Mirrored()
      ensures eeprom.cells == StoredCells(old(eeprom.cells), h, t, p, sb, f, okH, okT, okP, okS, okF)
      ensures old(sensor.transfers) < sensor.transfers <= old(sensor.transfers) + RESTORE_TRANSFERS - 2
      ensures sensor.NoNak(old(sensor.transfers), old(sensor.transfers) + RESTORE_TRANSFERS - 2) ==>
                okH && okT && okP && okS && okF && ModeField(sensor.ctrlMeas) == SLEEP_MODE &&
                sensor.settings == Settings(SLEEP_MODE, Low3(p), Low3(t), Low3(h), Low3(f), Low3(sb))
      ensures uart.tx == old(uart.tx) + Bytes(actualSettings[..], 0, SETTING_PACKET)
    {
      var _, oh, ot, op, os, of := sensor.StoreAll(actualSettings[..], eeprom, h, t, p, sb, f);
      okH, okT, okP, okS, okF := oh, ot, op, os, of;
      RebuildActualSettings();
      uart.PutArray(Bytes(actualSettings[..], 0, SETTING_PACKET));
    }

    /** The values main.c gives its own flags before the loop starts. */
    ghost predicate Initial()
      reads this`state, this`settingsRequest, this`newSettingReady, this`humSetting, this`tempSetting,
            this`pressSetting, this`sbSetting, this`filtSetting
    {
      state == IDLE && !settingsRequest && !newSettingReady &&
      !humSetting && !tempSetting && !pressSetting && !sbSetting && !filtSetting
    }

    /**
     * main.c before the loop: the flags and counters get their initial
     * values, BME280_ActualSettings is built from EEPROM, the packet and
     * GlobalBuffer get their framing, and the sensor is started.  When it
     * starts, BME280_SetRegisters applies the stored settings, each
     * EEPROM cell keeping its value or its low three bits; when it does
     * not, "Could not initialize sensor" is sent and EEPROM is untouched.
     */
    method Startup() returns (err: ErrorCode)
      requires Valid()
      modifies isr, mod, this`state, this`settingsRequest, this`newSettingReady, this`humSetting, this`tempSetting,
               this`pressSetting, this`sbSetting, this`filtSetting, actualSettings, tempSettings, globalBuffer,
               sensor`transfers, sensor`ctrlHum, sensor`ctrlMeas, sensor`config, sensor`settings, sensor`chipId,
               sensor`calib, eeprom, uart
      ensures Valid() && IsrInitial(isr) && ModulationInitial(mod) && Initial()
      ensures Mirrored() && Framed() && globalBuffer[1] == 0 && tempSettings[..] == ZERO_PACKET
      ensures err == Success || err == CommFail || err == NvmCopyFailed || err == DevNotFound
      ensures err == Success ==>
                uart.tx == old(uart.tx) &&
                forall i | 0 <= i < EEPROM_CELLS :: Stored(old(eeprom.cells)[i], eeprom.cells[i])
      ensures err != Success ==> uart.tx == old(uart.tx) + Ascii(INIT_FAILED) && eeprom.cells == old(eeprom.cells)
    {
      InitIsr(isr);
      InitModulation(mod);
      InitFlags();
      PrepareBuffers();
      err := StartSensor();
    }

    /** state = IDLE and the receiver's and settings flags at zero. */
    method InitFlags()
      modifies this`state, this`settingsRequest, this`newSettingReady, this`humSetting, this`tempSetting,
               this`pressSetting, this`sbSetting, this`filtSetting
      ensures Initial()
    {
      state := IDLE;
      settingsRequest, newSettingReady := false, false;
      humSetting, tempSetting, pressSetting, sbSetting, filtSetting := false, false, false, false, false;
    }

    /** BME280_ActualSettings from EEPROM, temp_settings zero, GlobalBuffer's header, counter and tail. */
    method PrepareBuffers()
      requires Valid()
      modifies actualSettings, tempSettings, globalBuffer
      ensures Mirrored() && Framed() && globalBuffer[1] == 0 && tempSettings[..] == ZERO_PACKET
    {
      ClearPacket();
      globalBuffer[0] := DATA_HEADER;
      globalBuffer[1] := 0;
      globalBuffer[DATA_BUFFER_SIZE - 1] := DATA_TAIL;
      RebuildActualSettings();
    }

    /** BME280_Start, then BME280_SetRegisters on success or the failure message otherwise. */
    method StartSensor() returns (err: ErrorCode)
      requires Valid() && Mirrored()
      modifies sensor`transfers, sensor`ctrlHum, sensor`ctrlMeas, sensor`config, sensor`settings, sensor`chipId,
               sensor`calib, eeprom, actualSettings, uart
      ensures Valid() && Mirrored()
      ensures err == Success || err == CommFail || err == NvmCopyFailed || err == DevNotFound
      ensures err == Success ==>
                uart.tx == old(uart.tx) &&
                forall i | 0 <= i < EEPROM_CELLS :: Stored(old(eeprom.cells)[i], eeprom.cells[i])
      ensures err != Success ==> uart.tx == old(uart.tx) + Ascii(INIT_FAILED) && eeprom.cells == old(eeprom.cells)
    {
      err := StartDriver();
      if err == Success {
        ConfigureSensor();
      } else {
        uart.PutString(INIT_FAILED);
      }
    }

    /** BME280_Start, as far as the board's own state is concerned: mirrors and EEPROM stay as they were. */
    method StartDriver() returns (err: ErrorCode)
      requires Valid() && Mirrored()
      modifies sensor`transfers, sensor`ctrlHum, sensor`ctrlMeas, sensor`config, sensor`settings, sensor`chipId,
               sensor`calib
      ensures Valid() && Mirrored()
      ensures err == Success || err == CommFail || err == NvmCopyFailed || err == DevNotFound
    {
      err := sensor.Start();
    }

    /**
     * BME280_SetRegisters(&bme280, BME280_ActualSettings): entries 1 .. 5
     * of the array go to the setters and each one that succeeds is
     * replaced, in the array and in EEPROM, by the value the sensor took.
     */
    method ConfigureSensor()
      requires Valid() && Mirrored()
      modifies sensor`transfers, sensor`ctrlHum, sensor`ctrlMeas, sensor`config, sensor`settings, eeprom, actualSettings
      ensures Valid() && Mirrored()
      ensures forall i | 0 <= i < EEPROM_CELLS :: Stored(old(eeprom.cells)[i], eeprom.cells[i])
    {
      ghost var cells := eeprom.cells;
      var r, okH, okT, okP, okS, okF := sensor.SetRegisters(actualSettings[..], eeprom);
      WriteBackMirrors(cells, okH, okT, okP, okS, okF);
      WriteBack(r);
    }

    /** The in-place writes BME280_SetRegisters makes to entries 1 .. 5 of its array. */
    method WriteBack(r: seq<bv8>)
      requires |r| == SETTING_PACKET && actualSettings.Length == SETTING_PACKET
      modifies actualSettings
      ensures actualSettings[..] == old(actualSettings[..])[1 := r[1]][2 := r[2]][3 := r[3]][4 := r[4]][5 := r[5]]
    {
      actualSettings[1] := r[1];
      actualSettings[2] := r[2];
      actualSettings[3] := r[3];
      actualSettings[4] := r[4];
      actualSettings[5] := r[5];
    }

    /**
     * The `if(flag_stream)` block.  The busy wait on flag_read_data ends
     * once the ADC interrupt raised it, which the precondition states.
     * BundleData fills GlobalBuffer (the packet counter goes up by one
     * modulo 256, the eleven words are the gas channels and the BME280
     * readings), the whole buffer is sent and the read flags drop.
     */
    method SendData()
      requires Valid() && Framed() && (isr.stream ==> isr.readData)
      modifies globalBuffer, uart, isr`readGas, isr`readBme, isr`readData
      ensures Framed()
      ensures if isr.stream then
                globalBuffer[1] == U8(old(globalBuffer[1]) as int + 1) &&
                WordsHold(globalBuffer[..], FrameFields(gas.volt, sensor.data), 0, FRAME_WORDS) &&
                uart.tx == old(uart.tx) + globalBuffer[..] &&
                !isr.readGas && !isr.readBme && !isr.readData
              else
                globalBuffer[..] == old(globalBuffer[..]) && uart.tx == old(uart.tx) &&
                isr.readGas == old(isr.readGas) && isr.readBme == old(isr.readBme) && isr.readData == old(isr.readData)
    {
      if isr.stream {
        BundleData(globalBuffer, gas, sensor.data);
        uart.PutArray(globalBuffer[..]);
        isr.readGas := false;
        isr.readBme := false;
        isr.readData := false;
      }
    }
  }
}
