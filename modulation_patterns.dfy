/**
 * ModulationPatterns.c: one step of each heater temperature pattern.
 *
 * Every step reads or computes one compare value and writes it to all
 * eight heater PWM compare registers, so the pattern state is the compare
 * held by PWM_AS_HC compare 1 plus the globals of ModulationPatterns.h.
 * Each step is a method on `Modulation` proved against a pure step
 * function, and the properties of the patterns are lemmas about those
 * functions.
 */
module ModulationPatterns {
  import opened CInt
  import opened Hardware

  /** trng_state values (MACROS.h). */
  const UP: byte := 1
  const DOWN: byte := 0

  /** A duty cycle in percent, as the tables hold them. */
  type Duty = d: byte | d <= 100

  const SINE_LEN: nat := 50
  const SQTR_LEN: nat := 100

  /** sine_table: duty cycles in percent of one sine period. */
  const SINE_TABLE: seq<Duty> := [
    50, 56, 62, 68, 74, 78, 84, 88, 92, 96,
    98, 100, 100, 100, 100, 98, 96, 92, 88, 84,
    78, 74, 68, 62, 56, 50, 44, 38, 32, 26,
    22, 16, 12, 8, 4, 2, 0, 0, 0, 0,
    2, 4, 8, 12, 16, 22, 26, 32, 38, 44]

  /** sqtr_table: duty cycles in percent of one square-then-triangle period. */
  const SQTR_TABLE: seq<Duty> := [
    100, 100, 100, 100, 100, 100, 100, 100, 100, 100,
    100, 100, 100, 100, 100, 100, 100, 100, 100, 100,
    100, 100, 100, 100, 100, 100, 100, 100, 100, 100,
    100, 100, 100, 100, 100, 100, 100, 100, 100, 100,
    100, 100, 100, 100, 100, 100, 100, 100, 100, 0,
    4, 8, 12, 16, 20, 24, 28, 32, 36, 40,
    44, 48, 52, 56, 60, 64, 68, 72, 76, 80,
    84, 88, 92, 96, 100,
    96, 92, 88, 84, 80,
    76, 72, 68, 64, 60, 56, 52, 48, 44, 40,
    36, 32, 28, 24, 20, 16, 12, 8, 4, 0]

  /** The lengths the index updates `% 50` and `% 100` assume. */
  lemma TableLengths()
    ensures |SINE_TABLE| == SINE_LEN && |SQTR_TABLE| == SQTR_LEN
  {
  }

  /** A compare value and the kill register after one pattern step. */
  datatype Output = Output(cmp: byte, kill: byte)

  /**
   * Mod_Ramp: a nonzero compare drops by 11 in uint8_t arithmetic with
   * the output enabled; compare 0 restarts at PWM_PERIOD with the output
   * disabled.
   */
  function RampStep(cmp: byte): (r: Output)
    ensures cmp == 0 ==> r == Output(PWM_PERIOD, DISABLE_PWM)
    ensures cmp != 0 ==> r.kill == ENABLE_PWM && (r.cmp + 11 - cmp) % TWO8 == 0
  {
    if cmp != 0 then Output(U8(cmp as int - 11), ENABLE_PWM) else Output(PWM_PERIOD, DISABLE_PWM)
  }

  /** The compares the ramp is meant to visit: 99, 88, ..., 11, 0. */
  predicate RampLevel(cmp: byte)
  {
    cmp <= PWM_PERIOD && cmp % 11 == 0
  }

  /** From a multiple of 11 in [0, 99] the ramp stays on that ladder and never wraps. */
  lemma RampStaysOnLadder(cmp: byte)
    requires RampLevel(cmp)
    ensures RampLevel(RampStep(cmp).cmp)
    ensures cmp != 0 ==> RampStep(cmp).cmp == cmp - 11
  {
  }

  /** A compare below 11 that is not 0, which another pattern can leave behind, wraps past PWM_PERIOD. */
  lemma RampWrapsBelowEleven(cmp: byte)
    requires 0 < cmp < 11
    ensures RampStep(cmp).cmp == cmp + 245 && RampStep(cmp).cmp > PWM_PERIOD
  {
  }

  /**
   * The compare a table step writes for duty `dc`: PWM_PERIOD - dc, and 0
   * for a duty above 99 so that the uint8_t subtraction cannot wrap.
   */
  function DutyCompare(dc: byte): (cmp: byte)
    ensures cmp <= PWM_PERIOD
    ensures dc <= PWM_PERIOD ==> cmp + dc == PWM_PERIOD
    ensures dc > PWM_PERIOD ==> cmp == 0
  {
    if dc > 99 then 0 else PWM_PERIOD - dc
  }

  /** Every duty the tables hold maps to a compare in [0, 99], 100% giving compare 0. */
  lemma TableComparesInRange(i: nat)
    ensures i < SINE_LEN ==> DutyCompare(SINE_TABLE[i]) <= PWM_PERIOD
    ensures i < SQTR_LEN ==> DutyCompare(SQTR_TABLE[i]) <= PWM_PERIOD
    ensures i < SQTR_LEN && SQTR_TABLE[i] == 100 ==> DutyCompare(SQTR_TABLE[i]) == 0
  {
  }

  /** The triangle's compare, kill register and direction after Mod_Triangle. */
  datatype Triangle = Triangle(cmp: byte, kill: byte, state: byte)

  /**
   * Mod_Triangle.  In UP the compare falls by 2 (the duty rises), turning
   * at 1 to 3 and DOWN; compare 0 restarts at PWM_PERIOD disabled.  In any
   * other state the compare rises by 2, 97 jumps to PWM_PERIOD disabled, and
   * PWM_PERIOD turns to 97 and UP.
   */
  function TriangleStep(cmp: byte, state: byte): (r: Triangle)
    ensures state == UP && cmp == 0 ==> r == Triangle(PWM_PERIOD, DISABLE_PWM, UP)
    ensures state == UP && cmp == 1 ==> r == Triangle(3, ENABLE_PWM, DOWN)
    ensures state == UP && cmp > 1 ==> r == Triangle(cmp - 2, ENABLE_PWM, UP)
    ensures state != UP && cmp == 97 ==> r == Triangle(PWM_PERIOD, DISABLE_PWM, state)
    ensures state != UP && cmp == PWM_PERIOD ==> r == Triangle(97, ENABLE_PWM, UP)
    ensures state != UP && cmp != 97 && cmp != PWM_PERIOD ==> r == Triangle(U8(cmp as int + 2), ENABLE_PWM, state)
  {
    if state == UP then
      if cmp != 0 then
        if cmp == 1 then Triangle(U8(cmp as int + 2), ENABLE_PWM, DOWN)
        else Triangle(U8(cmp as int - 2), ENABLE_PWM, UP)
      else Triangle(PWM_PERIOD, DISABLE_PWM, UP)
    else
      if cmp == 97 then Triangle(PWM_PERIOD, DISABLE_PWM, state)
      else if cmp == PWM_PERIOD then Triangle(U8(cmp as int - 2), ENABLE_PWM, UP)
      else Triangle(U8(cmp as int + 2), ENABLE_PWM, state)
  }

  /** The compares the triangle visits once started: odd values in [1, 99], direction UP or DOWN. */
  predicate TriangleLevel(cmp: byte, state: byte)
  {
    1 <= cmp <= PWM_PERIOD && cmp % 2 == 1 && (state == UP || state == DOWN)
  }

  /** Started from UP with compare 0 or on the odd ladder, the triangle stays on the odd ladder. */
  lemma TriangleStaysOdd(cmp: byte, state: byte)
    requires TriangleLevel(cmp, state) || (state == UP && cmp == 0)
    ensures var r := TriangleStep(cmp, state); TriangleLevel(r.cmp, r.state)
  {
  }

  /** Going down the ladder the triangle turns at 1, going up it turns at 99. */
  lemma TriangleTurns(cmp: byte, state: byte)
    requires TriangleLevel(cmp, state)
    ensures var r := TriangleStep(cmp, state);
      (r.state != state <==> (state == UP && cmp == 1) || (state == DOWN && cmp == PWM_PERIOD))
  {
  }

  /** The globals of ModulationPatterns.h. */
  class Modulation {
    var sineDc: byte
    var sineCmp: byte
    var lutIdx: byte
    var trngState: byte
    var sqtrDc: byte
    var sqtrCmp: byte
    var lutSqtrIdx: byte

    /** The lookup indices stay inside their tables. */
    ghost predicate Valid()
      reads this
    {
      lutIdx as nat < SINE_LEN && lutSqtrIdx as nat < SQTR_LEN
    }

    /** The initial values main.c gives these globals. */
    constructor ()
      ensures Valid()
      ensures sineDc == 0 && sineCmp == 0 && lutIdx == 0 && trngState == UP
      ensures sqtrDc == 0 && sqtrCmp == 0 && lutSqtrIdx == 0
    {
      sineDc, sineCmp, lutIdx, trngState := 0, 0, 0, UP;
      sqtrDc, sqtrCmp, lutSqtrIdx := 0, 0, 0;
    }

    /** Mod_Ramp. */
    method Ramp(pwm: Pwm)
      requires pwm.Valid()
      modifies pwm
      ensures pwm.Valid()
      ensures var r := RampStep(old(pwm.compare[AS_CMP1])); pwm.kill == r.kill && pwm.AllEqual(r.cmp)
    {
      var cmp := pwm.ReadCompareAS1();
      if cmp != 0 {
        pwm.kill := ENABLE_PWM;
        cmp := U8(cmp as int - 11);
        pwm.WriteCompares(cmp);
      } else {
        pwm.kill := DISABLE_PWM;
        pwm.WriteCompares(PWM_PERIOD);
      }
    }

    /**
     * Mod_Sine: duty 0 kills the output and leaves the compares and
     * sine_cmp as they were; any other duty enables it and writes
     * DutyCompare(dc).  lut_idx then advances modulo the table length.
     */
    method Sine(pwm: Pwm)
      requires Valid() && pwm.Valid()
      modifies this`sineDc, this`sineCmp, this`lutIdx, pwm
      ensures Valid() && pwm.Valid()
      ensures sineDc == SINE_TABLE[old(lutIdx)]
      ensures lutIdx as nat == (old(lutIdx) as nat + 1) % SINE_LEN
      ensures sineDc == 0 ==>
                pwm.kill == DISABLE_PWM && pwm.compare == old(pwm.compare) && sineCmp == old(sineCmp)
      ensures sineDc != 0 ==>
                pwm.kill == ENABLE_PWM && sineCmp == DutyCompare(sineDc) && pwm.AllEqual(sineCmp)
    {
      sineDc := SINE_TABLE[lutIdx];
      if sineDc == 0 {
        pwm.kill := DISABLE_PWM;
      } else {
        pwm.kill := ENABLE_PWM;
        if sineDc > 99 {
          sineCmp := 0;
        } else {
          sineCmp := PWM_PERIOD - sineDc;
        }
        pwm.WriteCompares(sineCmp);
      }
      lutIdx := (lutIdx + 1) % 50;
    }

    /** Mod_Triangle. */
    method TriangleWave(pwm: Pwm)
      requires pwm.Valid()
      modifies this`trngState, pwm
      ensures pwm.Valid()
      ensures var r := TriangleStep(old(pwm.compare[AS_CMP1]), old(trngState));
        pwm.AllEqual(r.cmp) && pwm.kill == r.kill && trngState == r.state
    {
      var cmp := pwm.ReadCompareAS1();
      if trngState == UP {
        if cmp != 0 {
          if cmp == 1 {
            pwm.kill := ENABLE_PWM;
            cmp := U8(cmp as int + 2);
            pwm.WriteCompares(cmp);
            trngState := DOWN;
          } else {
            pwm.kill := ENABLE_PWM;
            cmp := U8(cmp as int - 2);
            pwm.WriteCompares(cmp);
          }
        } else {
          pwm.kill := DISABLE_PWM;
          pwm.WriteCompares(PWM_PERIOD);
        }
      } else {
        if cmp == 97 {
          pwm.kill := DISABLE_PWM;
          pwm.WriteCompares(PWM_PERIOD);
        } else if cmp == PWM_PERIOD {
          pwm.kill := ENABLE_PWM;
          cmp := U8(cmp as int - 2);
          pwm.WriteCompares(cmp);
          trngState := UP;
        } else {
          pwm.kill := ENABLE_PWM;
          cmp := U8(cmp as int + 2);
          pwm.WriteCompares(cmp);
        }
      }
    }

    /** Mod_SquareTriangle: the rule of Mod_Sine over sqtr_table, lut_sqtr_idx advancing modulo 100. */
    method SquareTriangle(pwm: Pwm)
      requires Valid() && pwm.Valid()
      modifies this`sqtrDc, this`sqtrCmp, this`lutSqtrIdx, pwm
      ensures Valid() && pwm.Valid()
      ensures sqtrDc == SQTR_TABLE[old(lutSqtrIdx)]
      ensures lutSqtrIdx as nat == (old(lutSqtrIdx) as nat + 1) % SQTR_LEN
      ensures sqtrDc == 0 ==>
                pwm.kill == DISABLE_PWM && pwm.compare == old(pwm.compare) && sqtrCmp == old(sqtrCmp)
      ensures sqtrDc != 0 ==>
                pwm.kill == ENABLE_PWM && sqtrCmp == DutyCompare(sqtrDc) && pwm.AllEqual(sqtrCmp)
    {
      sqtrDc := SQTR_TABLE[lutSqtrIdx];
      if sqtrDc == 0 {
        pwm.kill := DISABLE_PWM;
      } else {
        pwm.kill := ENABLE_PWM;
        if sqtrDc > 99 {
          sqtrCmp := 0;
        } else {
          sqtrCmp := PWM_PERIOD - sqtrDc;
        }
        pwm.WriteCompares(sqtrCmp);
      }
      lutSqtrIdx := (lutSqtrIdx + 1) % 100;
    }
  }
}
