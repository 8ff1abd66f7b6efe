/**
 * Interrupts.c: the bodies of the UART, 200 ms timer, 250 ms watchdog and
 * 10 ms ADC interrupt service routines, and the two timer resets.  Each
 * ISR body is one atomic step on the flags of Interrupts.h.
 *
 * Every flag of Interrupts.h is a uint8_t that the firmware only ever
 * sets to 0 or 1, so the flags are booleans here.  `counter` and
 * `counterWtd` are int16_t; their increments wrap as in C.
 */
module Interrupts {
  import opened CInt
  import opened Hardware
  import opened Bme280
  import opened Bme280Driver
  import opened ModulationPatterns
  import opened Utils
  import opened MuxFunctions

  /** 200 ms ticks in the 300 s cycle after which `counter` starts again. */
  const CYCLE_TICKS: int := 1500
  /** Ticks between sine, triangle and square+triangle steps (1 s). */
  const STEP_TICKS: int := 5
  /** Ticks between ramp steps and square toggles (30 s). */
  const SLOW_TICKS: int := 150
  /** Watchdog ticks in five seconds. */
  const WATCHDOG_TICKS: int := 20

  /** Toggling the kill register: `!Control_Reg_KILL_PWM_Read()`. */
  function Toggled(kill: byte): (r: byte)
    ensures r == ENABLE_PWM || r == DISABLE_PWM
    ensures (r == ENABLE_PWM) <==> kill != ENABLE_PWM
  {
    if kill == 0 then 1 else 0
  }

  /** The 200 ms counter after one tick that saw it at `counter`. */
  function TickCounter(counter: int): (r: int)
    ensures -1 <= counter < CYCLE_TICKS ==> 0 <= r < CYCLE_TICKS && (r == 0 <==> counter == -1 || counter == CYCLE_TICKS - 1)
    ensures -1 <= counter < CYCLE_TICKS - 1 ==> r == counter + 1
  {
    var c := I16(counter + 1);
    if c % SLOW_TICKS == 0 && c == CYCLE_TICKS then 0 else c
  }

  /** Global flags and counters of Interrupts.h. */
  class IsrState {
    var rx: bool
    var stream: bool
    var enableRamp: bool
    var enableSquare: bool
    var enableSine: bool
    var enableTriangle: bool
    var enableSqtr: bool
    var tick200ms: bool
    var rampIncrement: bool
    var sineIncrement: bool
    var trngIncrement: bool
    var sqtrIncrement: bool
    var counter: int
    var fiveSec: bool
    var counterWtd: int
    var readGas: bool
    var readBme: bool
    var readData: bool

    /** C globals start at zero. */
    constructor ()
      ensures !rx && !stream && !tick200ms && !fiveSec && !readGas && !readBme && !readData
      ensures !enableRamp && !enableSquare && !enableSine && !enableTriangle && !enableSqtr
      ensures !rampIncrement && !sineIncrement && !trngIncrement && !sqtrIncrement
      ensures counter == 0 && counterWtd == 0
    {
      rx, stream, tick200ms, fiveSec := false, false, false, false;
      readGas, readBme, readData := false, false, false;
      enableRamp, enableSquare, enableSine, enableTriangle, enableSqtr := false, false, false, false, false;
      rampIncrement, sineIncrement, trngIncrement, sqtrIncrement := false, false, false, false;
      counter, counterWtd := 0, 0;
    }

    /** At most one modulation pattern is enabled. */
    ghost predicate AtMostOnePattern()
      reads this
    {
      (if enableRamp then 1 else 0) + (if enableSquare then 1 else 0) + (if enableSine then 1 else 0) +
      (if enableTriangle then 1 else 0) + (if enableSqtr then 1 else 0) <= 1
    }

    /** No modulation pattern is enabled. */
    ghost predicate NoPattern()
      reads this
    {
      !enableRamp && !enableSquare && !enableSine && !enableTriangle && !enableSqtr
    }

    /** Custom_ISR_RX: a byte in the receive FIFO raises `rx`. */
    method RxIsr(fifoNotEmpty: bool)
      modifies this`rx
      ensures rx == (old(rx) || fifoNotEmpty)
    {
      if fifoNotEmpty {
        rx := true;
      }
    }

    /**
     * Custom_ISR_TIMER200ms.  The counter is incremented; every fifth
     * tick a streaming firmware raises the step flag of the enabled
     * sine, triangle or square+triangle pattern (in that priority); every
     * 150th tick it raises the ramp flag or, for the square pattern,
     * switches the heaters fully on at the start of the cycle and toggles
     * the kill register otherwise.  At 1500 the counter restarts at 0, so
     * from Reset_TIMER's -1 it stays in [0, 1499].  C's `%` truncates, but
     * whether a remainder is zero is the same for both conventions.
     */
    method Timer200msIsr(pwm: Pwm)
      requires pwm.Valid()
      modifies this`tick200ms, this`counter, this`sineIncrement, this`trngIncrement, this`sqtrIncrement,
               this`rampIncrement, pwm
      ensures pwm.Valid() && tick200ms
      ensures counter == TickCounter(old(counter))
      ensures -1 <= old(counter) < CYCLE_TICKS ==> 0 <= counter < CYCLE_TICKS
      ensures var c := I16(old(counter) + 1);
              var step := c % STEP_TICKS == 0 && stream;
              sineIncrement == (old(sineIncrement) || (step && enableSine)) &&
              trngIncrement == (old(trngIncrement) || (step && !enableSine && enableTriangle)) &&
              sqtrIncrement == (old(sqtrIncrement) || (step && !enableSine && !enableTriangle && enableSqtr))
      ensures var slow := I16(old(counter) + 1) % SLOW_TICKS == 0 && stream;
              rampIncrement == (old(rampIncrement) || (slow && enableRamp))
      ensures var square := I16(old(counter) + 1) % SLOW_TICKS == 0 && stream && !enableRamp && enableSquare;
              if square && counter == 0 then pwm.kill == ENABLE_PWM && pwm.AllEqual(0)
              else if square then pwm.kill == Toggled(old(pwm.kill)) && pwm.compare == old(pwm.compare)
              else pwm.kill == old(pwm.kill) && pwm.compare == old(pwm.compare)
      ensures !stream ==> rampIncrement == old(rampIncrement) && sineIncrement == old(sineIncrement) &&
                          trngIncrement == old(trngIncrement) && sqtrIncrement == old(sqtrIncrement)
    {
      tick200ms := true;
      counter := I16(counter + 1);
      if counter % STEP_TICKS == 0 {
        StepTick();
      }
      if counter % SLOW_TICKS == 0 {
        SlowTick(pwm);
      }
    }

    /** The one-second branch of Custom_ISR_TIMER200ms. */
    method StepTick()
      modifies this`sineIncrement, this`trngIncrement, this`sqtrIncrement
      ensures sineIncrement == (old(sineIncrement) || (stream && enableSine))
      ensures trngIncrement == (old(trngIncrement) || (stream && !enableSine && enableTriangle))
      ensures sqtrIncrement == (old(sqtrIncrement) || (stream && !enableSine && !enableTriangle && enableSqtr))
    {
      if stream {
        if enableSine {
          sineIncrement := true;
        } else if enableTriangle {
          trngIncrement := true;
        } else if enableSqtr {
          sqtrIncrement := true;
        }
      }
    }

    /** The thirty-second branch of Custom_ISR_TIMER200ms, entered with `counter` a multiple of 150. */
    method SlowTick(pwm: Pwm)
      requires pwm.Valid()
      modifies this`counter, this`rampIncrement, pwm
      ensures pwm.Valid()
      ensures counter == if old(counter) == CYCLE_TICKS then 0 else old(counter)
      ensures rampIncrement == (old(rampIncrement) || (stream && enableRamp))
      ensures var square := stream && !enableRamp && enableSquare;
              if square && counter == 0 then pwm.kill == ENABLE_PWM && pwm.AllEqual(0)
              else if square then pwm.kill == Toggled(old(pwm.kill)) && pwm.compare == old(pwm.compare)
              else pwm.kill == old(pwm.kill) && pwm.compare == old(pwm.compare)
    {
      if counter == CYCLE_TICKS {
        counter := 0;
      }
      if stream {
        if enableRamp {
          rampIncrement := true;
        } else if enableSquare {
          if counter == 0 {
            pwm.kill := ENABLE_PWM;
            pwm.WriteCompares(0);
          } else {
            pwm.kill := Toggled(pwm.kill);
          }
        }
      }
    }

    /**
     * Custom_ISR_WATCHDOG: 20 ticks of 250 ms raise `fiveSec` and restart
     * the count, so from 0 .. 19 the count stays in 0 .. 19.
     */
    method WatchdogIsr()
      modifies this`counterWtd, this`fiveSec
      ensures var c := I16(old(counterWtd) + 1);
              counterWtd == (if c == WATCHDOG_TICKS then 0 else c) &&
              fiveSec == (old(fiveSec) || c == WATCHDOG_TICKS)
      ensures 0 <= old(counterWtd) < WATCHDOG_TICKS ==> 0 <= counterWtd < WATCHDOG_TICKS
      ensures old(counterWtd) == WATCHDOG_TICKS - 1 ==> fiveSec && counterWtd == 0
    {
      counterWtd := I16(counterWtd + 1);
      if counterWtd == WATCHDOG_TICKS {
        fiveSec := true;
        counterWtd := 0;
      }
    }

    /**
     * Custom_ISR_ADC: sample all eight gas sensors, raise `readGas`, read
     * the BME280 with every compensation, raise `readBme` when that
     * succeeded, and raise `readData` once both are up.  `error` is the
     * ISR's local status of BME280_ReadData.
     */
    method AdcIsr(gas: GasSensor, adc: Adc, lines: MuxLines, sensor: Sensor) returns (error: ErrorCode)
      requires gas.Valid() && sensor.Valid()
      modifies this`readGas, this`readBme, this`readData, gas, adc, lines,
               sensor`transfers, sensor`uncomp, sensor`data, sensor`calib
      ensures gas.Valid() && adc.taken == old(adc.taken) + 2 * CHANNELS
      ensures gas.volt == SweepVolts(adc.sample, old(adc.taken))
      ensures gas.copies == SweepVolts(adc.sample, old(adc.taken) + 1)
      ensures error == Success <==> sensor.ReadAnswers(old(sensor.transfers))
      ensures readGas && readBme == (old(readBme) || error == Success)
      ensures readData == (old(readData) || (readGas && readBme))
      ensures if sensor.ReadFresh(old(sensor.transfers)) then
                sensor.uncomp == ParseSensorData(Bytes(sensor.rom, PRESS_MSB_REG, P_T_H_DATA_LEN)) &&
                Compensated(sensor.data, sensor.calib) == CompensateData(ALL_COMP, sensor.uncomp, old(sensor.calib))
              else
                sensor.uncomp == old(sensor.uncomp) && sensor.data == old(sensor.data) && sensor.calib == old(sensor.calib)
    {
      SweepChannels(gas, adc, lines);
      readGas := true;
      error := sensor.ReadData(ALL_COMP);
      if error == Success {
        readBme := true;
      }
      if readGas && readBme {
        readData := true;
      }
    }

    /**
     * Reset_TIMER: the 200 ms counter restarts at -1, the pattern step
     * flags and the ADC read flags drop, both look-up tables restart and
     * the triangle rises again.
     */
    method ResetTimer(m: Modulation)
      modifies this`tick200ms, this`counter, this`rampIncrement, this`sineIncrement, this`trngIncrement,
               this`sqtrIncrement, this`readGas, this`readBme, this`readData,
               m`lutIdx, m`trngState, m`lutSqtrIdx
      ensures !tick200ms && counter == -1
      ensures !rampIncrement && !sineIncrement && !trngIncrement && !sqtrIncrement
      ensures !readGas && !readBme && !readData
      ensures m.lutIdx == 0 && m.trngState == UP && m.lutSqtrIdx == 0
    {
      tick200ms := false;
      counter := -1;
      rampIncrement := false;
      sineIncrement := false;
      m.lutIdx := 0;
      trngIncrement := false;
      m.trngState := UP;
      m.lutSqtrIdx := 0;
      sqtrIncrement := false;
      readGas := false;
      readBme := false;
      readData := false;
    }

    /** Reset_WatchdogTimer: the five-second window starts again. */
    method ResetWatchdogTimer()
      modifies this`counterWtd, this`fiveSec
      ensures counterWtd == 0 && !fiveSec
    {
      counterWtd := 0;
      fiveSec := false;
    }
  }

  /**
   * The sweep of Custom_ISR_ADC over channels 0, 2, 4 and 6: every one of
   * the eight fields and its global copy take a fresh conversion, the
   * field at slot k of SWEEP conversion 2k and its copy conversion 2k + 1.
   */
  method SweepChannels(gas: GasSensor, adc: Adc, lines: MuxLines)
    requires gas.Valid()
    modifies gas, adc, lines
    ensures gas.Valid() && adc.taken == old(adc.taken) + 2 * CHANNELS
    ensures lines.a0 == LOW && lines.a1 == HIGH && lines.a2 == HIGH && lines.en == HIGH
    ensures gas.volt == SweepVolts(adc.sample, old(adc.taken))
    ensures gas.copies == SweepVolts(adc.sample, old(adc.taken) + 1)
  {
    ghost var t := adc.taken;
    ghost var v0, c0 := gas.volt, gas.copies;
    ghost var v1, c1, v2, c2 := SweepLow(gas, adc, lines);
    ghost var v3, c3 := SweepHigh(gas, adc, lines);
    SweepReadsBoth(v0, v1, v2, v3, gas.volt, c0, c1, c2, c3, gas.copies, adc.sample, t);
  }

  /** SweepReadsAll for the struct fields and for their global copies together. */
  lemma SweepReadsBoth(v0: seq<int>, v1: seq<int>, v2: seq<int>, v3: seq<int>, v4: seq<int>,
                       c0: seq<int>, c1: seq<int>, c2: seq<int>, c3: seq<int>, c4: seq<int>,
                       sample: nat -> int32, t: nat)
    requires |v0| == CHANNELS && |c0| == CHANNELS
    requires v1 == Sampled(v0, 0, sample, t) && v2 == Sampled(v1, 2, sample, t + 4)
    requires v3 == Sampled(v2, 4, sample, t + 8) && v4 == Sampled(v3, 6, sample, t + 12)
    requires c1 == Sampled(c0, 0, sample, t + 1) && c2 == Sampled(c1, 2, sample, t + 5)
    requires c3 == Sampled(c2, 4, sample, t + 9) && c4 == Sampled(c3, 6, sample, t + 13)
    ensures v4 == SweepVolts(sample, t) && c4 == SweepVolts(sample, t + 1)
  {
    SweepReadsAll(v0, v1, v2, v3, v4, sample, t);
    SweepReadsAll(c0, c1, c2, c3, c4, sample, t + 1);
  }

  /** Channels 0 and 2 of the sweep; `v1`, `c1` are the fields after channel 0. */
  method SweepLow(gas: GasSensor, adc: Adc, lines: MuxLines)
    returns (ghost v1: seq<int>, ghost c1: seq<int>, ghost v2: seq<int>, ghost c2: seq<int>)
    requires gas.Valid()
    modifies gas, adc, lines
    ensures gas.Valid() && adc.taken == old(adc.taken) + 8
    ensures v1 == Sampled(old(gas.volt), 0, adc.sample, old(adc.taken))
    ensures c1 == Sampled(old(gas.copies), 0, adc.sample, old(adc.taken) + 1)
    ensures v2 == gas.volt == Sampled(v1, 2, adc.sample, old(adc.taken) + 4)
    ensures c2 == gas.copies == Sampled(c1, 2, adc.sample, old(adc.taken) + 5)
  {
    MuxSelection(gas, 0, adc, lines);
    v1, c1 := gas.volt, gas.copies;
    MuxSelection(gas, 2, adc, lines);
    v2, c2 := gas.volt, gas.copies;
  }

  /** Channels 4 and 6 of the sweep; `v3`, `c3` are the fields after channel 4. */
  method SweepHigh(gas: GasSensor, adc: Adc, lines: MuxLines) returns (ghost v3: seq<int>, ghost c3: seq<int>)
    requires gas.Valid()
    modifies gas, adc, lines
    ensures gas.Valid() && adc.taken == old(adc.taken) + 8
    ensures lines.a0 == LOW && lines.a1 == HIGH && lines.a2 == HIGH && lines.en == HIGH
    ensures v3 == Sampled(old(gas.volt), 4, adc.sample, old(adc.taken))
    ensures c3 == Sampled(old(gas.copies), 4, adc.sample, old(adc.taken) + 1)
    ensures gas.volt == Sampled(v3, 6, adc.sample, old(adc.taken) + 4)
    ensures gas.copies == Sampled(c3, 6, adc.sample, old(adc.taken) + 5)
  {
    MuxSelection(gas, 4, adc, lines);
    v3, c3 := gas.volt, gas.copies;
    MuxSelection(gas, 6, adc, lines);
  }
}
