/**
 * The PSoC components the firmware drives, reduced to the state the
 * firmware reads back or that leaves the board: the eight heater PWM
 * compare registers and the kill control register, the EEPROM cells that
 * hold the BME280 settings, the UART transmit stream, the delta-sigma ADC
 * and the digital output pins.
 */
module Hardware {
  import opened CInt

  /** Control_Reg_KILL_PWM values (MACROS.h). */
  const ENABLE_PWM: byte := 0
  const DISABLE_PWM: byte := 1
  /** Period of the heater PWMs: compare 99 is 0% duty, compare 0 is 100%. */
  const PWM_PERIOD: byte := 99

  const HIGH: byte := 1
  const LOW: byte := 0

  /** Position of each compare register in `Pwm.compare`. */
  const S4_12_CMP1: nat := 0
  const S4_12_CMP2: nat := 1
  const S4_34_CMP1: nat := 2
  const S4_34_CMP2: nat := 3
  const S6_CMP1: nat := 4
  const S6_CMP2: nat := 5
  const AS_CMP1: nat := 6
  const AS_CMP2: nat := 7
  const PWM_COMPARES: nat := 8

  /** Eight compare registers all holding `v`. */
  function Uniform(v: byte): (r: seq<byte>)
    ensures |r| == PWM_COMPARES
    ensures forall i | 0 <= i < PWM_COMPARES :: r[i] == v
  {
    seq(PWM_COMPARES, _ => v)
  }

  /** The four 8-bit heater PWMs (two compares each) and the shared kill register. */
  class Pwm {
    var compare: seq<byte>
    var kill: byte

    ghost predicate Valid()
      reads this
    {
      |compare| == PWM_COMPARES
    }

    /** Start-up compare values come from the hardware design, so they are a parameter. */
    constructor (initial: seq<byte>, initialKill: byte)
      requires |initial| == PWM_COMPARES
      ensures Valid() && compare == initial && kill == initialKill
    {
      compare := initial;
      kill := initialKill;
    }

    /** PWM_AS_HC_ReadCompare1. */
    function ReadCompareAS1(): byte
      reads this
      requires Valid()
    {
      compare[AS_CMP1]
    }

    /** The eight WriteCompare calls every pattern step makes with one value `v`. */
    method WriteCompares(v: byte)
      modifies this`compare
      ensures Valid() && AllEqual(v)
    {
      compare := Uniform(v);
    }

    /** All eight compares hold one value, as every pattern step leaves them. */
    ghost predicate AllEqual(v: byte)
      reads this
    {
      compare == Uniform(v)
    }

    /** The eight compares agree with each other, whatever their value. */
    ghost predicate Balanced()
      reads this
    {
      Valid() && AllEqual(compare[0])
    }
  }

  /** Addresses of the settings in EEPROM (BME280_Macros.h). */
  const EEPROM_H_OSR: nat := 0
  const EEPROM_T_OSR: nat := 1
  const EEPROM_P_OSR: nat := 2
  const EEPROM_SB_TIME: nat := 3
  const EEPROM_FILT: nat := 4
  /** Number of EEPROM cells the firmware uses. */
  const EEPROM_CELLS: nat := 5

  /** The EEPROM keeps the BME280 register settings as raw register bytes. */
  class Eeprom {
    var cells: seq<bv8>

    ghost predicate Valid()
      reads this
    {
      |cells| == EEPROM_CELLS
    }

    /** Cell contents at power-up are whatever an earlier run stored, so they are a parameter. */
    constructor (initial: seq<bv8>)
      requires |initial| == EEPROM_CELLS
      ensures Valid() && cells == initial
    {
      cells := initial;
    }

    /** EEPROM_ReadByte. */
    function ReadByte(address: nat): bv8
      reads this
      requires Valid() && address < EEPROM_CELLS
    {
      cells[address]
    }

    /** EEPROM_WriteByte: only the addressed cell changes, and reading it back gives `v`. */
    method WriteByte(v: bv8, address: nat)
      requires Valid() && address < EEPROM_CELLS
      modifies this
      ensures Valid() && cells == old(cells)[address := v]
      ensures forall a: nat | a < EEPROM_CELLS :: ReadByte(a) == if a == address then v else old(ReadByte(a))
    {
      cells := cells[address := v];
    }
  }

  /** ASCII text as the bytes the UART sends. */
  function Ascii(s: string): (r: seq<byte>)
    requires forall i | 0 <= i < |s| :: s[i] as int < 0x100
    ensures |r| == |s|
    ensures forall i | 0 <= i < |s| :: r[i] == s[i] as int
  {
    seq(|s|, i requires 0 <= i < |s| => s[i] as int)
  }

  /** The UART as the stream of bytes it has transmitted. */
  class Uart {
    var tx: seq<byte>

    constructor ()
      ensures tx == []
    {
      tx := [];
    }

    /** UART_PutArray. */
    method PutArray(a: seq<byte>)
      modifies this
      ensures tx == old(tx) + a
    {
      tx := tx + a;
    }

    /** UART_PutString. */
    method PutString(s: string)
      requires forall i | 0 <= i < |s| :: s[i] as int < 0x100
      modifies this
      ensures tx == old(tx) + Ascii(s)
    {
      tx := tx + Ascii(s);
    }
  }

  /**
   * ADC_DelSig_Read32: the int32 conversions the ADC will deliver are a
   * fixed script `sample`, and `taken` counts the conversions taken so far.
   */
  class Adc {
    const sample: nat -> int32
    var taken: nat

    constructor (script: nat -> int32)
      ensures sample == script && taken == 0
    {
      sample := script;
      taken := 0;
    }

    /** The next conversion. */
    method Read32() returns (v: int32)
      modifies this
      ensures v == sample(old(taken)) && taken == old(taken) + 1
    {
      v := sample(taken);
      taken := taken + 1;
    }
  }

  /** Pump and valve outputs of the hydraulic circuit. */
  class Hydraulics {
    var pumpIn: byte
    var valveIn: byte
    var pumpOut: byte
    var valveOut: byte

    /** Utils_StartComponents drives every output LOW. */
    constructor ()
      ensures pumpIn == LOW && valveIn == LOW && pumpOut == LOW && valveOut == LOW
    {
      pumpIn, valveIn, pumpOut, valveOut := LOW, LOW, LOW, LOW;
    }
  }

  /** Select lines A0..A2 and enable line of the external analog multiplexer. */
  class MuxLines {
    var a0: byte
    var a1: byte
    var a2: byte
    var en: byte

    /** Utils_StartComponents drives every line LOW. */
    constructor ()
      ensures a0 == LOW && a1 == LOW && a2 == LOW && en == LOW
    {
      a0, a1, a2, en := LOW, LOW, LOW, LOW;
    }
  }
}
