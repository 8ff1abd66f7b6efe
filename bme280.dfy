/**
 * The pure part of the BME280 driver: the calibration, sensor-data and
 * compensation routines of BME280.c together with the enumerations and
 * constants of BME280.h and BME280_Macros.h.
 *
 * Every signed intermediate of the 32-bit compensation formulas is an
 * int32_t in the firmware; the model wraps it with `I32` and divides with
 * C's truncating `Quot`.  The encoders below lay coefficients and readings
 * out the way the sensor stores them (Bosch BME280 datasheet, section 4.2.2
 * and section 5.4.7 to 5.4.9); they are the inverses the parsers are proved against.
 */
module Bme280 {
  import opened CInt

  // Oversampling codes (BME280_Oversampling).
  const NO_OVERSAMPLING: int := 0
  const OVERSAMPLING_1X: int := 1
  const OVERSAMPLING_2X: int := 2
  const OVERSAMPLING_16X: int := 5
  // Standby codes (BME280_TStandby) and filter codes (BME280_Filter).
  const TSTANDBY_0_5_MS: int := 0
  const TSTANDBY_20_MS: int := 7
  const FILTER_COEFF_OFF: int := 0
  const FILTER_COEFF_16: int := 4

  // Selection bits of BME280_CompensateData.
  const PRESS_COMP: int := 1
  const TEMP_COMP: int := 2
  const HUM_COMP: int := 4
  const ALL_COMP: int := 7

  const WHO_AM_I: int := 0x60
  const TEMP_PRESS_CALIB_DATA_LEN: nat := 26
  const HUMIDITY_CALIB_DATA_LEN: nat := 7
  const P_T_H_DATA_LEN: nat := 8

  predicate ValidOversampling(v: int) { 0 <= v <= OVERSAMPLING_16X }
  predicate ValidStandby(v: int) { 0 <= v <= TSTANDBY_20_MS }
  predicate ValidFilter(v: int) { 0 <= v <= FILTER_COEFF_16 }

  /** BME280_Calib_Data: the trimming coefficients and the shared t_fine. */
  datatype CalibData = CalibData(
    digT1: int, digT2: int, digT3: int,
    digP1: int, digP2: int, digP3: int, digP4: int, digP5: int,
    digP6: int, digP7: int, digP8: int, digP9: int,
    digH1: int, digH2: int, digH3: int, digH4: int, digH5: int, digH6: int,
    tFine: int)

  /** BME280_Uncomp_Data: the raw ADC readings. */
  datatype UncompData = UncompData(pressure: int, temperature: int, humidity: int)

  /** BME280_Data: pressure in Pa, temperature in 0.01 degC, humidity in 1/1024 %RH. */
  datatype SensorData = SensorData(pressure: int, temperature: int, humidity: int)

  const ZeroCalib := CalibData(0, 0, 0, 0, 0, 0, 0, 0, 0, 0, 0, 0, 0, 0, 0, 0, 0, 0, 0)
  const ZeroUncomp := UncompData(0, 0, 0)
  const ZeroData := SensorData(0, 0, 0)

  predicate IsU16(v: int) { 0 <= v < TWO16 }
  predicate IsI16(v: int) { -TWO15 <= v < TWO15 }
  predicate IsI8(v: int) { -0x80 <= v < 0x80 }
  predicate IsI12(v: int) { -0x800 <= v < 0x800 }

  /** The types BME280_Calib_Data gives the temperature and pressure coefficients and dig_H1. */
  predicate TempPressCoefficientsFit(c: CalibData)
  {
    IsU16(c.digT1) && IsI16(c.digT2) && IsI16(c.digT3) &&
    IsU16(c.digP1) && IsI16(c.digP2) && IsI16(c.digP3) && IsI16(c.digP4) &&
    IsI16(c.digP5) && IsI16(c.digP6) && IsI16(c.digP7) && IsI16(c.digP8) &&
    IsI16(c.digP9) && 0 <= c.digH1 < TWO8
  }

  /** The humidity coefficients as the sensor stores them: dig_H4 and dig_H5 are 12-bit. */
  predicate HumidityCoefficientsFit(c: CalibData)
  {
    IsI16(c.digH2) && 0 <= c.digH3 < TWO8 && IsI12(c.digH4) && IsI12(c.digH5) && IsI8(c.digH6)
  }

  /** BME280_CONCAT_BYTES(msb, lsb). */
  function Concat(msb: byte, lsb: byte): (r: int)
    ensures IsU16(r)
  {
    msb * TWO8 + lsb
  }

  /** The two bytes of the 16-bit pattern of `v`, least significant first. */
  function Le16(v: int): (r: seq<byte>)
    ensures |r| == 2
  {
    var u := v % TWO16;
    [u % TWO8, u / TWO8]
  }

  lemma Le16Pattern(v: int)
    ensures Concat(Le16(v)[1], Le16(v)[0]) == v % TWO16
  {
  }

  lemma SignedPattern(v: int)
    requires IsI16(v)
    ensures I16(v % TWO16) == v
  {
  }

  lemma Le16Signed(v: int)
    requires IsI16(v)
    ensures I16(Concat(Le16(v)[1], Le16(v)[0])) == v
  {
    Le16Pattern(v);
  }

  /** The i-th little-endian 16-bit word of `reg`: BME280_CONCAT_BYTES(reg[2i+1], reg[2i]). */
  function Word(reg: seq<byte>, i: nat): (r: int)
    requires 2 * i + 1 < |reg|
    ensures IsU16(r)
  {
    Concat(reg[2 * i + 1], reg[2 * i])
  }

  /** BME280_ParseTempPressCalibData: 26 registers from 0x88, coefficients little-endian. */
  function ParseTempPressCalibData(c: CalibData, reg: seq<byte>): (r: CalibData)
    requires |reg| >= TEMP_PRESS_CALIB_DATA_LEN
    ensures TempPressCoefficientsFit(r)
    ensures r.digH2 == c.digH2 && r.digH3 == c.digH3 && r.digH4 == c.digH4
    ensures r.digH5 == c.digH5 && r.digH6 == c.digH6 && r.tFine == c.tFine
  {
    c.(digT1 := Word(reg, 0),
       digT2 := I16(Word(reg, 1)),
       digT3 := I16(Word(reg, 2)),
       digP1 := Word(reg, 3),
       digP2 := I16(Word(reg, 4)),
       digP3 := I16(Word(reg, 5)),
       digP4 := I16(Word(reg, 6)),
       digP5 := I16(Word(reg, 7)),
       digP6 := I16(Word(reg, 8)),
       digP7 := I16(Word(reg, 9)),
       digP8 := I16(Word(reg, 10)),
       digP9 := I16(Word(reg, 11)),
       digH1 := reg[25])
  }

  /** Registers 0x88..0xA1 holding the coefficients of `c`; register 0xA0 is unused. */
  function EncodeTempPressCalib(c: CalibData): (r: seq<byte>)
    ensures |r| == TEMP_PRESS_CALIB_DATA_LEN
  {
    seq(TEMP_PRESS_CALIB_DATA_LEN, k requires 0 <= k < TEMP_PRESS_CALIB_DATA_LEN =>
      if k < 24 then Le16(TempPressCoefficient(c, k / 2))[k % 2]
      else if k == 24 then 0
      else c.digH1 % TWO8)
  }

  /** The i-th 16-bit coefficient in register order: dig_T1..dig_T3, dig_P1..dig_P9. */
  function TempPressCoefficient(c: CalibData, i: nat): int
    requires i < 12
  {
    match i
    case 0 => c.digT1 case 1 => c.digT2 case 2 => c.digT3
    case 3 => c.digP1 case 4 => c.digP2 case 5 => c.digP3
    case 6 => c.digP4 case 7 => c.digP5 case 8 => c.digP6
    case 9 => c.digP7 case 10 => c.digP8 case _ => c.digP9
  }

  /** Parsing the stored layout recovers every temperature and pressure coefficient and dig_H1. */
  lemma TempPressCalibRoundTrip(c: CalibData, prev: CalibData)
    requires TempPressCoefficientsFit(c)
    ensures var r := ParseTempPressCalibData(prev, EncodeTempPressCalib(c));
      (forall i | 0 <= i < 12 :: TempPressCoefficient(r, i) == TempPressCoefficient(c, i)) &&
      r.digH1 == c.digH1
  {
    forall i | 0 <= i < 12
      ensures TempPressCoefficient(ParseTempPressCalibData(prev, EncodeTempPressCalib(c)), i)
        == TempPressCoefficient(c, i)
    {
      ParsedCoefficient(c, prev, i);
    }
    assert EncodeTempPressCalib(c)[25] == c.digH1;
  }

  lemma ParsedCoefficient(c: CalibData, prev: CalibData, i: nat)
    requires TempPressCoefficientsFit(c) && i < 12
    ensures TempPressCoefficient(ParseTempPressCalibData(prev, EncodeTempPressCalib(c)), i)
      == TempPressCoefficient(c, i)
  {
    var e := EncodeTempPressCalib(c);
    var v := TempPressCoefficient(c, i);
    var w := Word(e, i);
    ParsedWord(prev, e, i);
    CoefficientRoundTrip(c, i);
    CoefficientFits(c, i);
    WordBack(v, w, TempPressCoefficient(ParseTempPressCalibData(prev, e), i), i == 0 || i == 3);
  }

  /** dig_T1 and dig_P1 are uint16_t, the other ten int16_t. */
  lemma CoefficientFits(c: CalibData, i: nat)
    requires TempPressCoefficientsFit(c) && i < 12
    ensures if i == 0 || i == 3 then IsU16(TempPressCoefficient(c, i)) else IsI16(TempPressCoefficient(c, i))
  {
  }

  /** A 16-bit value read back from its pattern, unsigned or as int16_t. */
  lemma WordBack(v: int, w: int, parsed: int, unsigned: bool)
    requires w == v % TWO16
    requires parsed == if unsigned then w else I16(w)
    requires if unsigned then IsU16(v) else IsI16(v)
    ensures parsed == v
  {
    if !unsigned {
      SignedPattern(v);
    }
  }

  /** dig_T1 and dig_P1 are the unsigned words 0 and 3; the others are read as int16_t. */
  lemma ParsedWord(prev: CalibData, reg: seq<byte>, i: nat)
    requires |reg| >= TEMP_PRESS_CALIB_DATA_LEN && i < 12
    ensures TempPressCoefficient(ParseTempPressCalibData(prev, reg), i)
      == if i == 0 || i == 3 then Word(reg, i) else I16(Word(reg, i))
  {
  }

  lemma CoefficientRoundTrip(c: CalibData, i: nat)
    requires i < 12
    ensures Word(EncodeTempPressCalib(c), i) == TempPressCoefficient(c, i) % TWO16
  {
    var e := EncodeTempPressCalib(c);
    var v := TempPressCoefficient(c, i);
    assert e[2 * i] == Le16(v)[0];
    assert e[2 * i + 1] == Le16(v)[1];
    Le16Pattern(v);
  }

  /**
   * BME280_ParseHumidityCalibData: 7 registers from 0xE1.  dig_H4 and dig_H5
   * are 12-bit values sharing register 0xE5; the firmware ORs a sign-extended
   * high part shifted by four with a low nibble, which adds them because the
   * low four bits of the high part are zero.
   */
  function ParseHumidityCalibData(c: CalibData, reg: seq<byte>): (r: CalibData)
    requires |reg| >= HUMIDITY_CALIB_DATA_LEN
    ensures HumidityCoefficientsFit(r)
    ensures r.(digH2 := c.digH2, digH3 := c.digH3, digH4 := c.digH4,
               digH5 := c.digH5, digH6 := c.digH6) == c
  {
    c.(digH2 := I16(Concat(reg[1], reg[0])),
       digH3 := reg[2],
       digH4 := I8(reg[3]) * 16 + reg[4] % 16,
       digH5 := I8(reg[5]) * 16 + reg[4] / 16,
       digH6 := I8(reg[6]))
  }

  /** Registers 0xE1..0xE7 holding the humidity coefficients of `c`. */
  function EncodeHumidityCalib(c: CalibData): (r: seq<byte>)
    ensures |r| == HUMIDITY_CALIB_DATA_LEN
  {
    var h4 := c.digH4 % 0x1000;
    var h5 := c.digH5 % 0x1000;
    Le16(c.digH2) + [c.digH3 % TWO8, h4 / 16, h4 % 16 + (h5 % 16) * 16, h5 / 16, c.digH6 % TWO8]
  }

  lemma TwelveBitRoundTrip(v: int)
    requires IsI12(v)
    ensures I8(v % 0x1000 / 16) * 16 + v % 0x1000 % 16 == v
  {
  }

  /** Parsing the stored layout recovers every humidity coefficient, including the split 12-bit ones. */
  lemma HumidityCalibRoundTrip(c: CalibData, prev: CalibData)
    requires HumidityCoefficientsFit(c)
    ensures var r := ParseHumidityCalibData(prev, EncodeHumidityCalib(c));
      r.digH2 == c.digH2 && r.digH3 == c.digH3 && r.digH4 == c.digH4 &&
      r.digH5 == c.digH5 && r.digH6 == c.digH6
  {
    Le16Signed(c.digH2);
    TwelveBitRoundTrip(c.digH4);
    TwelveBitRoundTrip(c.digH5);
    var h5 := c.digH5 % 0x1000;
    var b4 := c.digH4 % 0x1000 % 16 + (h5 % 16) * 16;
    assert b4 % 16 == c.digH4 % 0x1000 % 16;
    assert b4 / 16 == h5 % 16;
  }

  /**
   * BME280_ParseSensorData: 8 registers from 0xF7.  Pressure and temperature
   * are 20-bit (msb, lsb, high nibble of xlsb), humidity 16-bit; the pieces
   * occupy disjoint bits, so the firmware's OR is a sum.
   */
  function ParseSensorData(reg: seq<byte>): (r: UncompData)
    requires |reg| >= P_T_H_DATA_LEN
    ensures 0 <= r.pressure < 0x10_0000 && 0 <= r.temperature < 0x10_0000
    ensures 0 <= r.humidity < TWO16
  {
    UncompData(reg[0] as int * 0x1000 + reg[1] as int * 0x10 + reg[2] as int / 0x10,
               reg[3] as int * 0x1000 + reg[4] as int * 0x10 + reg[5] as int / 0x10,
               reg[6] as int * TWO8 + reg[7])
  }

  /** The three bytes of a 20-bit reading: msb, lsb, and xlsb with the value in bits 7..4. */
  function Encode20(v: int): (r: seq<byte>)
    requires 0 <= v < 0x10_0000
    ensures |r| == 3
  {
    [v / 0x1000, v / 0x10 % TWO8, v % 0x10 * 0x10]
  }

  /** Registers 0xF7..0xFE for raw readings `u`. */
  function EncodeSensorData(u: UncompData): (r: seq<byte>)
    requires 0 <= u.pressure < 0x10_0000 && 0 <= u.temperature < 0x10_0000
    requires 0 <= u.humidity < TWO16
    ensures |r| == P_T_H_DATA_LEN
  {
    Encode20(u.pressure) + Encode20(u.temperature) + [u.humidity / TWO8, u.humidity % TWO8]
  }

  lemma Decode20(v: int)
    requires 0 <= v < 0x10_0000
    ensures var e := Encode20(v); e[0] as int * 0x1000 + e[1] as int * 0x10 + e[2] as int / 0x10 == v
  {
    assert v == (v / 0x1000) * 0x1000 + (v / 0x10 % TWO8) * 0x10 + v % 0x10 by {
      assert v == (v / 0x10) * 0x10 + v % 0x10;
      assert v / 0x10 == (v / 0x1000) * TWO8 + v / 0x10 % TWO8;
    }
  }

  /** Every 20-bit pressure and temperature and every 16-bit humidity reading is parsed back exactly. */
  lemma SensorDataRoundTrip(u: UncompData)
    requires 0 <= u.pressure < 0x10_0000 && 0 <= u.temperature < 0x10_0000
    requires 0 <= u.humidity < TWO16
    ensures ParseSensorData(EncodeSensorData(u)) == u
  {
    Decode20(u.pressure);
    Decode20(u.temperature);
  }

  // int32_t arithmetic of the compensation formulas.
  function Add32(a: int, b: int): int { I32(a + b) }
  function Sub32(a: int, b: int): int { I32(a - b) }
  function Mul32(a: int, b: int): int { I32(a * b) }
  function Div32(a: int, b: int): int requires b != 0 { I32(Quot(a, b)) }

  function Clamp(lo: int, hi: int, v: int): (r: int)
    requires lo <= hi
    ensures lo <= r <= hi
    ensures lo <= v <= hi ==> r == v
  {
    if v < lo then lo else if v > hi then hi else v
  }

  /** Compensated temperature and the new t_fine. */
  datatype TempResult = TempResult(temperature: int, tFine: int)

  /** t_fine of BME280_CompensateTemperature. */
  function FineTemperature(u: UncompData, c: CalibData): (r: int)
    ensures -TWO31 <= r < TWO31
  {
    var a1 := Sub32(Quot(u.temperature, 8), Mul32(c.digT1, 2));
    var var1 := Div32(Mul32(a1, c.digT2), 2048);
    var a2 := Sub32(Quot(u.temperature, 16), c.digT1);
    var var2 := Div32(Mul32(Div32(Mul32(a2, a2), 4096), c.digT3), 16384);
    Add32(var1, var2)
  }

  /** The last step of BME280_CompensateTemperature: t_fine scaled to 0.01 degC and clamped. */
  function TemperatureFromFine(tFine: int): (r: int)
    ensures -4000 <= r <= 8500
  {
    Clamp(-4000, 8500, Div32(Add32(Mul32(tFine, 5), 128), 256))
  }

  /** BME280_CompensateTemperature. */
  function CompensateTemperature(u: UncompData, c: CalibData): (r: TempResult)
    ensures -4000 <= r.temperature <= 8500
    ensures -TWO31 <= r.tFine < TWO31
    ensures r.temperature == TemperatureFromFine(r.tFine)
  {
    var tFine := FineTemperature(u, c);
    TempResult(TemperatureFromFine(tFine), tFine)
  }

  /** Without wrap-around, a higher t_fine never yields a lower temperature. */
  lemma TemperatureMonotone(f1: int, f2: int)
    requires 0 <= f1 <= f2 < 0x1900_0000
    ensures TemperatureFromFine(f1) <= TemperatureFromFine(f2)
  {
    assert Quot(f1 * 5 + 128, 256) <= Quot(f2 * 5 + 128, 256);
  }

  /** On a non-negative t_fine the scaled value is t_fine * 5 / 256 rounded to nearest. */
  lemma TemperatureRounding(f: int)
    requires 0 <= f < 0x1900_0000
    requires TemperatureFromFine(f) < 8500
    ensures var t := TemperatureFromFine(f); -128 <= t * 256 - f * 5 <= 128
  {
    var q := Quot(f * 5 + 128, 256);
    assert q == (f * 5 + 128) / 256;
    assert q * 256 <= f * 5 + 128 < q * 256 + 256;
  }

  /** The divisor var1 of BME280_CompensatePressure, from t_fine and dig_P1..dig_P3. */
  function PressureDivisor(c: CalibData): (r: int)
    ensures -TWO31 <= r < TWO31
  {
    var v1 := Sub32(Div32(c.tFine, 2), 64000);
    var q := Div32(v1, 4);
    var var3 := Div32(Mul32(c.digP3, Div32(Mul32(q, q), 8192)), 8);
    var var4 := Div32(Mul32(c.digP2, v1), 2);
    var v := Div32(Add32(var3, var4), 262144);
    Div32(Mul32(Add32(32768, v), c.digP1), 32768)
  }

  /** var2 of BME280_CompensatePressure, from t_fine and dig_P4..dig_P6. */
  function PressureOffset(c: CalibData): (r: int)
    ensures -TWO31 <= r < TWO31
  {
    var v1 := Sub32(Div32(c.tFine, 2), 64000);
    var q := Div32(v1, 4);
    var a := Mul32(Div32(Mul32(q, q), 2048), c.digP6);
    var b := Add32(a, Mul32(Mul32(v1, c.digP5), 2));
    Add32(Div32(b, 4), Mul32(c.digP4, 65536))
  }

  lemma U32OfNonZero(x: int)
    requires -TWO31 <= x < TWO31 && x != 0
    ensures U32(x) != 0
  {
  }

  /** BME280_CompensatePressure: pressure in Pa, 30000 when the divisor is zero. */
  function CompensatePressure(u: UncompData, c: CalibData): (r: int)
    ensures 30000 <= r <= 110000
    ensures PressureDivisor(c) == 0 ==> r == 30000
  {
    var var1 := PressureDivisor(c);
    if var1 == 0 then 30000
    else
      U32OfNonZero(var1);
      var var5 := U32(0x10_0000 - u.pressure);
      var p0 := U32(U32(var5 - U32(Div32(PressureOffset(c), 4096))) * 3125);
      var p1 := if p0 < 0x8000_0000 then U32(p0 * 2) / U32(var1) else U32((p0 / U32(var1)) * 2);
      var w1 := Div32(Mul32(c.digP9, I32(U32((p1 / 8) * (p1 / 8)) / 8192)), 4096);
      var w2 := Div32(Mul32(I32(p1 / 4), c.digP8), 8192);
      var p2 := U32(Add32(I32(p1), Div32(Add32(Add32(w1, w2), c.digP7), 16)));
      Clamp(30000, 110000, p2)
  }

  /** var5 of BME280_CompensateHumidity after its clamp to [0, 419430400]. */
  function HumidityVar5(u: UncompData, c: CalibData): (r: int)
    ensures 0 <= r <= 419430400
  {
    var var1 := Sub32(c.tFine, 76800);
    var var2 := I32(U32(u.humidity * 16384));
    var var3 := Mul32(c.digH4, 1048576);
    var var4 := Mul32(c.digH5, var1);
    var v5 := Div32(Add32(Sub32(Sub32(var2, var3), var4), 16384), 32768);
    var b2 := Div32(Mul32(var1, c.digH6), 1024);
    var b3 := Div32(Mul32(var1, c.digH3), 2048);
    var b4 := Add32(Div32(Mul32(b2, Add32(b3, 32768)), 1024), 2097152);
    var c2 := Div32(Add32(Mul32(b4, c.digH2), 8192), 16384);
    var c3 := Mul32(v5, c2);
    var c4 := Div32(Mul32(Div32(c3, 32768), Div32(c3, 32768)), 128);
    var w5 := Sub32(c3, Div32(Mul32(c4, c.digH1), 16));
    Clamp(0, 419430400, w5)
  }

  /** BME280_CompensateHumidity: relative humidity in 1/1024 %RH, at most 100 %RH. */
  function CompensateHumidity(u: UncompData, c: CalibData): (r: int)
    ensures 0 <= r <= 102400
  {
    var h := HumidityVar5(u, c) / 4096;
    if h > 102400 then 102400 else h
  }

  /** The final cap of BME280_CompensateHumidity never changes the value: the clamp of var5 already bounds it. */
  lemma HumidityCapRedundant(u: UncompData, c: CalibData)
    ensures CompensateHumidity(u, c) == HumidityVar5(u, c) / 4096
  {
  }

  /** Outcome of BME280_CompensateData: the new data and the calibration with the new t_fine. */
  datatype Compensated = Compensated(data: SensorData, calib: CalibData)

  /**
   * BME280_CompensateData: the readings selected by `comp` are compensated
   * and the others are 0; temperature goes first, because pressure and
   * humidity use the t_fine it leaves behind.
   */
  function CompensateData(comp: byte, u: UncompData, c: CalibData): (r: Compensated)
    ensures comp % 8 == 0 ==> r == Compensated(ZeroData, c)
    ensures comp % 8 != 0 ==>
      var t := CompensateTemperature(u, c);
      r.calib == c.(tFine := t.tFine) && r.data.temperature == t.temperature
    ensures r.data.pressure == (if comp % 2 == 1 then CompensatePressure(u, r.calib) else 0)
    ensures r.data.humidity == (if comp / 4 % 2 == 1 then CompensateHumidity(u, r.calib) else 0)
    ensures -4000 <= r.data.temperature <= 8500 && 0 <= r.data.humidity <= 102400
    ensures r.data.pressure == 0 || 30000 <= r.data.pressure <= 110000
  {
    SelectionBits(comp);
    if comp % 8 == 0 then Compensated(ZeroData, c)
    else
      var t := CompensateTemperature(u, c);
      var c1 := c.(tFine := t.tFine);
      var p := if comp % 2 == 1 then CompensatePressure(u, c1) else 0;
      var h := if comp / 4 % 2 == 1 then CompensateHumidity(u, c1) else 0;
      Compensated(SensorData(p, t.temperature, h), c1)
  }

  /** No selection bit among the low three means neither pressure nor humidity is selected. */
  lemma SelectionBits(comp: byte)
    ensures comp % 8 == 0 ==> comp % 2 == 0 && comp / 4 % 2 == 0
  {
  }

  /** A sample calibration worked through the firmware's formula: t_fine 128423, 25.08 degC. */
  lemma TemperatureSample()
    ensures var c := ZeroCalib.(digT1 := 27504, digT2 := 26435, digT3 := -1000);
      var t := CompensateTemperature(UncompData(0, 519888, 0), c);
      t.tFine == 128423 && t.temperature == 2508
  {
    var c := ZeroCalib.(digT1 := 27504, digT2 := 26435, digT3 := -1000);
    var u := UncompData(0, 519888, 0);
    assert Sub32(Quot(u.temperature, 8), Mul32(c.digT1, 2)) == 9978;
    assert Div32(Mul32(9978, c.digT2), 2048) == 128793;
    assert Sub32(Quot(u.temperature, 16), c.digT1) == 4989;
    assert Div32(Mul32(4989, 4989), 4096) == 6076;
    assert Div32(Mul32(6076, c.digT3), 16384) == -370;
    assert FineTemperature(u, c) == 128423;
    assert Div32(Add32(Mul32(128423, 5), 128), 256) == 2508;
  }
}
