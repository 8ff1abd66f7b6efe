/**
 * The stateful half of BME280.c: the device structure `bme280` and the
 * sensor behind the I2C bus.
 *
 * The sensor's 256 registers are the three control registers the driver
 * writes (ctrl_hum, ctrl_meas, config), kept as fields, and a fixed map
 * `rom` for every other register (chip id, status, calibration and the
 * measurement registers).  Every I2C transfer (one register read, one
 * register write or one burst read) is numbered, and the fixed script
 * `nak` says which transfers fail; a failed transfer reports
 * BME280_E_COMM_FAIL and leaves both the registers and the destination
 * buffer untouched.  Register bit fields are worked on as `bv8`, as the C
 * code does with masks and shifts.
 */
module Bme280Driver {
  import opened CInt
  import opened Bme280
  import opened Hardware

  /** BME280_ErrorCode. */
  datatype ErrorCode = Success | NullPtr | CommFail | DevNotFound | NvmCopyFailed

  /** Register addresses of the BME280 register map (section 5.3 of its datasheet). */
  const CALIB_TEMP_PRESS_REG: nat := 0x88
  const CHIP_ID_REG: nat := 0xD0
  const RESET_REG: nat := 0xE0
  const CALIB_HUM_REG: nat := 0xE1
  const CTRL_HUM_REG: nat := 0xF2
  const STATUS_REG: nat := 0xF3
  const CTRL_MEAS_REG: nat := 0xF4
  const CONFIG_REG: nat := 0xF5
  const PRESS_MSB_REG: nat := 0xF7
  const REGISTERS: nat := 0x100

  const RESET_COMMAND: bv8 := 0xB6
  const STATUS_IM_UPDATE: bv8 := 0x01
  const STATUS_MEASURING: bv8 := 0x08

  const SLEEP_MODE: bv8 := 0
  const FORCED_MODE: bv8 := 1
  const NORMAL_MODE: bv8 := 3

  /** BME280_Settings: every field is a uint8_t. */
  datatype Settings = Settings(mode: bv8, osrP: bv8, osrT: bv8, osrH: bv8, filter: bv8, standbyTime: bv8)

  const ZeroSettings := Settings(0, 0, 0, 0, 0, 0)

  /** Mode bits [1:0] of ctrl_meas. */
  function ModeField(meas: bv8): bv8 { meas & 0x03 }
  /** Humidity oversampling bits [2:0] of ctrl_hum. */
  function HumField(hum: bv8): bv8 { hum & 0x07 }
  /** Temperature oversampling bits [7:5] of ctrl_meas. */
  function TempField(meas: bv8): bv8 { (meas & 0xE0) >> 5 }
  /** Pressure oversampling bits [4:2] of ctrl_meas. */
  function PressField(meas: bv8): bv8 { (meas & 0x1C) >> 2 }
  /** Standby bits [7:5] of config. */
  function StandbyField(config: bv8): bv8 { (config & 0xE0) >> 5 }
  /** Filter bits [4:2] of config. */
  function FilterField(config: bv8): bv8 { (config & 0x1C) >> 2 }

  /** `reg &= ~0x03; reg |= mode`: the mode is not masked, so only a mode below 4 leaves bits [7:2] alone. */
  function PutMode(meas: bv8, mode: bv8): (r: bv8)
    ensures ModeField(r) == mode & 0x03
    ensures mode & !0x03 == 0 ==> r & !0x03 == meas & !0x03
  {
    (meas & !0x03) | mode
  }

  /** `reg &= ~0x07; reg |= hos`: as with the mode, only a value below 8 leaves bits [7:3] alone. */
  function PutHum(hum: bv8, hos: bv8): (r: bv8)
    ensures HumField(r) == hos & 0x07
    ensures hos & !0x07 == 0 ==> r & !0x07 == hum & !0x07
  {
    (hum & !0x07) | hos
  }

  /** `reg &= ~0xE0; reg |= tos << 5`, truncated to 8 bits: only bits [7:5] change. */
  function PutTemp(meas: bv8, tos: bv8): (r: bv8)
    ensures TempField(r) == tos & 0x07
    ensures r & !0xE0 == meas & !0xE0
    ensures ModeField(r) == ModeField(meas) && PressField(r) == PressField(meas)
  {
    (meas & !0xE0) | (tos << 5)
  }

  /** `reg &= ~0x1C; reg |= pos << 2`: bits [4:2] take the value, bits [1:0] are kept. */
  function PutPress(meas: bv8, pos: bv8): (r: bv8)
    ensures PressField(r) == pos & 0x07
    ensures ModeField(r) == ModeField(meas)
    ensures pos & !0x07 == 0 ==> r & !0x1C == meas & !0x1C
  {
    (meas & !0x1C) | (pos << 2)
  }

  /** `reg &= ~0xE0; reg |= t << 5` on config. */
  function PutStandby(config: bv8, t: bv8): (r: bv8)
    ensures StandbyField(r) == t & 0x07
    ensures r & !0xE0 == config & !0xE0
  {
    (config & !0xE0) | (t << 5)
  }

  /** `reg &= ~0x1C; reg |= filter << 2` on config. */
  function PutFilter(config: bv8, f: bv8): (r: bv8)
    ensures FilterField(r) == f & 0x07
    ensures r & 0x03 == config & 0x03
    ensures f & !0x07 == 0 ==> r & !0x1C == config & !0x1C
  {
    (config & !0x1C) | (f << 2)
  }

  /** ctrl_meas after BME280_SetSleepMode, or unchanged when the sensor already sleeps. */
  function Asleep(meas: bv8): (r: bv8)
    ensures ModeField(r) == SLEEP_MODE
    ensures r & !0x03 == meas & !0x03
    ensures TempField(r) == TempField(meas) && PressField(r) == PressField(meas)
    ensures ModeField(meas) == SLEEP_MODE ==> r == meas
  {
    PutMode(meas, SLEEP_MODE)
  }

  /**
   * Most transfers a setter makes: BME280_GetSensorMode, two for
   * BME280_SetSleepMode when the sensor is awake, then its own.
   */
  const HUM_SETTER_TRANSFERS: nat := 8
  const SETTER_TRANSFERS: nat := 6
  /** Most transfers the restore step of BME280_Reset makes: five setters and BME280_SetMode. */
  const RESTORE_TRANSFERS: nat := HUM_SETTER_TRANSFERS + 4 * SETTER_TRANSFERS + 2


  /** `n` registers of `rom` from `address`, as the bytes a burst read fills in. */
  function Bytes(rom: seq<bv8>, address: nat, n: nat): (r: seq<byte>)
    requires address + n <= |rom|
    ensures |r| == n
    ensures forall k | 0 <= k < n :: r[k] == rom[address + k] as int
  {
    seq(n, k requires 0 <= k < n => rom[address + k] as int)
  }

  /** The calibration BME280_ReadCalibrationData leaves when both of its burst reads succeed. */
  function CalibrationFrom(prev: CalibData, rom: seq<bv8>): (r: CalibData)
    requires |rom| == REGISTERS
    ensures TempPressCoefficientsFit(r) && HumidityCoefficientsFit(r)
    ensures r.tFine == prev.tFine
  {
    ParseHumidityCalibData(ParseTempPressCalibData(prev, Bytes(rom, CALIB_TEMP_PRESS_REG, TEMP_PRESS_CALIB_DATA_LEN)),
                           Bytes(rom, CALIB_HUM_REG, HUMIDITY_CALIB_DATA_LEN))
  }

  /** The humidity coefficients depend on the first seven bytes of the burst only. */
  lemma HumidityPrefix(c: CalibData, a: seq<byte>, b: seq<byte>)
    requires |a| >= HUMIDITY_CALIB_DATA_LEN && |b| >= HUMIDITY_CALIB_DATA_LEN
    requires forall k | 0 <= k < HUMIDITY_CALIB_DATA_LEN :: a[k] == b[k]
    ensures ParseHumidityCalibData(c, a) == ParseHumidityCalibData(c, b)
  {
    assert a[0] == b[0] && a[1] == b[1] && a[2] == b[2] && a[3] == b[3];
    assert a[4] == b[4] && a[5] == b[5] && a[6] == b[6];
  }

  /** Every stored setting fits its register field, as the values the driver reads back do. */
  predicate SettingsFit(s: Settings)
  {
    s.mode & !0x03 == 0 && s.osrP & !0x07 == 0 && s.osrT & !0x07 == 0 &&
    s.osrH & !0x07 == 0 && s.filter & !0x07 == 0 && s.standbyTime & !0x07 == 0
  }

  /** The control registers hold the settings `s`. */
  predicate Applied(hum: bv8, meas: bv8, config: bv8, s: Settings)
  {
    ModeField(meas) == s.mode && TempField(meas) == s.osrT && PressField(meas) == s.osrP &&
    HumField(hum) == s.osrH && StandbyField(config) == s.standbyTime && FilterField(config) == s.filter
  }

  /** The settings the five setters store when each is given the field of `s`, with `mode` as the final mode. */
  function Masked(s: Settings, mode: bv8): (r: Settings)
    ensures SettingsFit(s) && mode & !0x03 == 0 ==> r == s.(mode := mode)
  {
    Settings(mode, s.osrP & 0x07, s.osrT & 0x07, s.osrH & 0x07, s.filter & 0x07, s.standbyTime & 0x07)
  }

  /**
   * ctrl_meas after the humidity, temperature and pressure setters and two
   * config setters, each of which sleeps the sensor first.
   */
  function MeasAfterSetters(meas: bv8, tos: bv8, pos: bv8): bv8
  {
    Asleep(Asleep(PutPress(Asleep(PutTemp(Asleep(Asleep(meas)), tos)), pos)))
  }

  /** config after the filter and standby setters, in either order: they write disjoint fields. */
  function ConfigAfterSetters(config: bv8, f: bv8, t: bv8): bv8
  {
    PutStandby(PutFilter(config, f), t)
  }

  /** The temperature field survives the pressure setter when the pressure value fits. */
  lemma MeasTempAfterSetters(meas: bv8, tos: bv8, pos: bv8, mode: bv8)
    requires tos & !0x07 == 0 && pos & !0x07 == 0 && mode & !0x03 == 0
    ensures TempField(PutMode(MeasAfterSetters(meas, tos, pos), mode)) == tos
  {
    var m1 := PutTemp(Asleep(Asleep(meas)), tos);
    assert TempField(m1) == tos;
    var m2 := PutPress(Asleep(m1), pos);
    assert TempField(m2) == tos;
  }

  lemma MeasPressAfterSetters(meas: bv8, tos: bv8, pos: bv8, mode: bv8)
    requires pos & !0x07 == 0 && mode & !0x03 == 0
    ensures PressField(PutMode(MeasAfterSetters(meas, tos, pos), mode)) == pos
  {
    var m2 := PutPress(Asleep(PutTemp(Asleep(Asleep(meas)), tos)), pos);
    assert PressField(m2) == pos;
  }

  lemma ConfigFieldsAfterSetters(config: bv8, f: bv8, t: bv8)
    requires f & !0x07 == 0 && t & !0x07 == 0
    ensures FilterField(ConfigAfterSetters(config, f, t)) == f
    ensures StandbyField(ConfigAfterSetters(config, f, t)) == t
  {
    assert FilterField(PutFilter(config, f)) == f;
  }

  /** When every setting fits its field, the five setters leave exactly those settings in the registers. */
  lemma AfterSettersApplied(hum: bv8, meas: bv8, config: bv8, s: Settings, mode: bv8)
    requires SettingsFit(s) && mode & !0x03 == 0
    ensures Applied(PutHum(hum, s.osrH), PutMode(MeasAfterSetters(meas, s.osrT, s.osrP), mode),
                    ConfigAfterSetters(config, s.filter, s.standbyTime), s.(mode := mode))
  {
    MeasTempAfterSetters(meas, s.osrT, s.osrP, mode);
    MeasPressAfterSetters(meas, s.osrT, s.osrP, mode);
    ConfigFieldsAfterSetters(config, s.filter, s.standbyTime);
  }

  /** Bits [2:0] of a byte, as the setters store it back into the settings array. */
  function Low3(x: bv8): (r: bv8)
    ensures r < 8
    ensures x < 8 ==> r == x
  {
    x & 0x07
  }

  /** A settings-array entry or EEPROM cell after its setter: the value `v` read back when it succeeded, else `was`. */
  function Kept(ok: bool, v: bv8, was: bv8): bv8
  {
    if ok then Low3(v) else was
  }

  /** The device structure `bme280` together with the sensor it talks to. */
  class Sensor {
    const rom: seq<bv8>
    var ctrlHum: bv8
    var ctrlMeas: bv8
    var config: bv8
    const nak: nat -> bool
    var transfers: nat

    var chipId: bv8
    var calib: CalibData
    var data: SensorData
    var uncomp: UncompData
    var settings: Settings

    ghost predicate Valid()
    {
      |rom| == REGISTERS
    }

    /** The sensor's status register says it is still copying its NVM data. */
    ghost predicate NvmCopying()
      requires Valid()
    {
      rom[STATUS_REG] & STATUS_IM_UPDATE != 0
    }

    /** Transfers `from` up to (not including) `to` all succeed. */
    ghost predicate NoNak(from: nat, to: nat)
    {
      forall k | from <= k < to :: !nak(k)
    }

    lemma NoNakWithin(from: nat, to: nat, from': nat, to': nat)
      requires NoNak(from, to) && from <= from' && to' <= to
      ensures NoNak(from', to')
    {
    }

    /** Transfers `from` up to (not including) `to` all fail. */
    ghost predicate AllNak(from: nat, to: nat)
    {
      forall k | from <= k < to :: nak(k)
    }

    /**
     * BME280_ReadData starting at transfer `t` answers Success: the status
     * read goes through, and so does the burst read if one is needed.
     */
    ghost predicate ReadAnswers(t: nat)
      requires Valid()
    {
      !nak(t) && (rom[STATUS_REG] & STATUS_MEASURING != 0 || !nak(t + 1))
    }

    /** BME280_ReadData starting at transfer `t` delivers a new measurement. */
    ghost predicate ReadFresh(t: nat)
      requires Valid()
    {
      !nak(t) && !nak(t + 1) && rom[STATUS_REG] & STATUS_MEASURING == 0
    }

    /** The control registers hold the stored settings. */
    ghost predicate SettingsApplied()
      reads this`ctrlHum, this`ctrlMeas, this`config, this`settings
    {
      Applied(ctrlHum, ctrlMeas, config, settings)
    }

    /** The settings are `s0` in sleep mode, and the three registers hold them. */
    ghost predicate RestoredFrom(s0: Settings)
      reads this`ctrlHum, this`ctrlMeas, this`config, this`settings
    {
      settings == s0.(mode := SLEEP_MODE) && SettingsApplied()
    }

    /** `bme280` is a zero-initialised global; the sensor's registers are a parameter. */
    constructor (registers: seq<bv8>, script: nat -> bool)
      requires |registers| == REGISTERS
      ensures Valid() && rom == registers && nak == script && transfers == 0
      ensures ctrlHum == registers[CTRL_HUM_REG] && ctrlMeas == registers[CTRL_MEAS_REG]
      ensures config == registers[CONFIG_REG]
      ensures chipId == 0 && calib == ZeroCalib && data == ZeroData
      ensures uncomp == ZeroUncomp && settings == ZeroSettings
    {
      rom := registers;
      ctrlHum := registers[CTRL_HUM_REG];
      ctrlMeas := registers[CTRL_MEAS_REG];
      config := registers[CONFIG_REG];
      nak := script;
      transfers := 0;
      chipId := 0;
      calib := ZeroCalib;
      data := ZeroData;
      uncomp := ZeroUncomp;
      settings := ZeroSettings;
    }

    /** The value a read of register `address` returns. */
    function Register(address: nat): bv8
      reads this
      requires Valid() && address < REGISTERS
    {
      if address == CTRL_HUM_REG then ctrlHum
      else if address == CTRL_MEAS_REG then ctrlMeas
      else if address == CONFIG_REG then config
      else rom[address]
    }

    /** The bytes a burst read of `n` registers from `address` returns. */
    function Burst(address: nat, n: nat): (r: seq<byte>)
      reads this
      requires Valid() && address + n <= REGISTERS
      ensures |r| == n
      ensures forall k | 0 <= k < n :: r[k] == Register(address + k) as int
    {
      seq(n, k reads this requires 0 <= k < n && address + n <= |rom| => Register(address + k) as int)
    }

    /** Away from the control registers a burst returns the fixed register contents. */
    lemma BurstFixed(address: nat, n: nat)
      requires Valid() && address + n <= REGISTERS
      requires address + n <= CTRL_HUM_REG || CONFIG_REG < address
      ensures Burst(address, n) == Bytes(rom, address, n)
    {
    }

    /** The humidity calibration registers 0xE1..0xE7 lie below the control registers. */
    lemma HumidityBurst(n: nat)
      requires Valid() && HUMIDITY_CALIB_DATA_LEN <= n && CALIB_HUM_REG + n <= REGISTERS
      ensures forall k | 0 <= k < HUMIDITY_CALIB_DATA_LEN ::
                Burst(CALIB_HUM_REG, n)[k] == Bytes(rom, CALIB_HUM_REG, HUMIDITY_CALIB_DATA_LEN)[k]
    {
    }

    /** BME280_I2C_Interface_ReadRegister: `dest` is the caller's buffer, kept when the transfer fails. */
    method ReadRegister(address: nat, dest: bv8) returns (err: ErrorCode, v: bv8)
      requires Valid() && address < REGISTERS
      modifies this`transfers
      ensures transfers == old(transfers) + 1
      ensures err == (if nak(old(transfers)) then CommFail else Success)
      ensures v == (if err == Success then Register(address) else dest)
    {
      if nak(transfers) {
        err, v := CommFail, dest;
      } else {
        err, v := Success, Register(address);
      }
      transfers := transfers + 1;
    }

    /**
     * BME280_I2C_Interface_WriteRegister.  Only the three control registers
     * keep what is written; the effect of the soft-reset command on the
     * device is not modelled.
     */
    method WriteRegister(address: nat, v: bv8) returns (err: ErrorCode)
      requires Valid() && address < REGISTERS
      modifies this`transfers, this`ctrlHum, this`ctrlMeas, this`config
      ensures transfers == old(transfers) + 1
      ensures err == (if nak(old(transfers)) then CommFail else Success)
      ensures ctrlHum == (if err == Success && address == CTRL_HUM_REG then v else old(ctrlHum))
      ensures ctrlMeas == (if err == Success && address == CTRL_MEAS_REG then v else old(ctrlMeas))
      ensures config == (if err == Success && address == CONFIG_REG then v else old(config))
    {
      if nak(transfers) {
        err := CommFail;
      } else {
        err := Success;
        if address == CTRL_HUM_REG {
          ctrlHum := v;
        } else if address == CTRL_MEAS_REG {
          ctrlMeas := v;
        } else if address == CONFIG_REG {
          config := v;
        }
      }
      transfers := transfers + 1;
    }

    /** BME280_I2C_Interface_ReadRegisterMulti: one burst of `n` registers. */
    method ReadRegisterMulti(address: nat, n: nat, dest: seq<byte>) returns (err: ErrorCode, vals: seq<byte>)
      requires Valid() && address + n <= REGISTERS && |dest| == n
      modifies this`transfers
      ensures transfers == old(transfers) + 1
      ensures err == (if nak(old(transfers)) then CommFail else Success)
      ensures vals == (if err == Success then Burst(address, n) else dest)
    {
      if nak(transfers) {
        err, vals := CommFail, dest;
      } else {
        err, vals := Success, Burst(address, n);
      }
      transfers := transfers + 1;
    }

    /** BME280_ReadWhoAmI: the chip id register; `dest` is kept when the read fails. */
    method ReadWhoAmI(dest: bv8) returns (err: ErrorCode, whoAmI: bv8)
      requires Valid()
      modifies this`transfers
      ensures transfers == old(transfers) + 1
      ensures err == (if nak(old(transfers)) then CommFail else Success)
      ensures whoAmI == (if err == Success then rom[CHIP_ID_REG] else dest)
    {
      err, whoAmI := ReadRegister(CHIP_ID_REG, dest);
    }

    /** BME280_ReadStatusRegister. */
    method ReadStatusRegister(dest: bv8) returns (err: ErrorCode, status: bv8)
      requires Valid()
      modifies this`transfers
      ensures transfers == old(transfers) + 1
      ensures err == (if nak(old(transfers)) then CommFail else Success)
      ensures status == (if err == Success then rom[STATUS_REG] else dest)
    {
      err, status := ReadRegister(STATUS_REG, dest);
    }

    /** BME280_GetSensorMode: records bits [1:0] of ctrl_meas. */
    method GetSensorMode() returns (err: ErrorCode)
      requires Valid()
      modifies this`transfers, this`settings
      ensures transfers == old(transfers) + 1
      ensures err == (if nak(old(transfers)) then CommFail else Success)
      ensures settings == (if err == Success then old(settings).(mode := ModeField(ctrlMeas)) else old(settings))
    {
      var reg: bv8;
      err, reg := ReadRegister(CTRL_MEAS_REG, 0);
      if err == Success {
        settings := settings.(mode := ModeField(reg));
      }
    }

    /** BME280_SetMode: read-modify-write of ctrl_meas [1:0]; the stored mode is the argument. */
    method SetMode(mode: bv8) returns (err: ErrorCode)
      requires Valid()
      modifies this`transfers, this`ctrlHum, this`ctrlMeas, this`config, this`settings
      ensures old(transfers) < transfers <= old(transfers) + 2
      ensures NoNak(old(transfers), old(transfers) + 2) ==> err == Success
      ensures err == Success || err == CommFail
      ensures ctrlHum == old(ctrlHum) && config == old(config)
      ensures ctrlMeas == (if err == Success then PutMode(old(ctrlMeas), mode) else old(ctrlMeas))
      ensures settings == (if err == Success then old(settings).(mode := mode) else old(settings))
    {
      var reg: bv8;
      err, reg := ReadRegister(CTRL_MEAS_REG, 0);
      if err == Success {
        reg := PutMode(reg, mode);
        err := WriteRegister(CTRL_MEAS_REG, reg);
        if err == Success {
          settings := settings.(mode := mode);
        }
      }
    }

    /** BME280_SetSleepMode. */
    method SetSleepMode() returns (err: ErrorCode)
      requires Valid()
      modifies this`transfers, this`ctrlHum, this`ctrlMeas, this`config, this`settings
      ensures old(transfers) < transfers <= old(transfers) + 2
      ensures NoNak(old(transfers), old(transfers) + 2) ==> err == Success
      ensures err == Success || err == CommFail
      ensures ctrlHum == old(ctrlHum) && config == old(config)
      ensures ctrlMeas == (if err == Success then Asleep(old(ctrlMeas)) else old(ctrlMeas))
      ensures settings == (if err == Success then old(settings).(mode := SLEEP_MODE) else old(settings))
    {
      err := SetMode(SLEEP_MODE);
    }

    /** BME280_SetForcedMode. */
    method SetForcedMode() returns (err: ErrorCode)
      requires Valid()
      modifies this`transfers, this`ctrlHum, this`ctrlMeas, this`config, this`settings
      ensures old(transfers) < transfers <= old(transfers) + 2
      ensures NoNak(old(transfers), old(transfers) + 2) ==> err == Success
      ensures err == Success || err == CommFail
      ensures ctrlHum == old(ctrlHum) && config == old(config)
      ensures ctrlMeas == (if err == Success then PutMode(old(ctrlMeas), FORCED_MODE) else old(ctrlMeas))
      ensures settings == (if err == Success then old(settings).(mode := FORCED_MODE) else old(settings))
    {
      err := SetMode(FORCED_MODE);
    }

    /** BME280_SetNormalMode. */
    method SetNormalMode() returns (err: ErrorCode)
      requires Valid()
      modifies this`transfers, this`ctrlHum, this`ctrlMeas, this`config, this`settings
      ensures old(transfers) < transfers <= old(transfers) + 2
      ensures NoNak(old(transfers), old(transfers) + 2) ==> err == Success
      ensures err == Success || err == CommFail
      ensures ctrlHum == old(ctrlHum) && config == old(config)
      ensures ctrlMeas == (if err == Success then PutMode(old(ctrlMeas), NORMAL_MODE) else old(ctrlMeas))
      ensures settings == (if err == Success then old(settings).(mode := NORMAL_MODE) else old(settings))
    {
      err := SetMode(NORMAL_MODE);
    }

    /**
     * The common prologue of the five setters: BME280_GetSensorMode, then
     * BME280_SetSleepMode unless the sensor already sleeps.
     */
    method EnsureSleeping() returns (err: ErrorCode)
      requires Valid()
      modifies this`transfers, this`ctrlHum, this`ctrlMeas, this`config, this`settings
      ensures old(transfers) < transfers <= old(transfers) + 3
      ensures NoNak(old(transfers), old(transfers) + 3) ==> err == Success
      ensures err == Success || err == CommFail
      ensures ctrlHum == old(ctrlHum) && config == old(config)
      ensures err == Success ==> ctrlMeas == Asleep(old(ctrlMeas)) && settings == old(settings).(mode := SLEEP_MODE)
      ensures err != Success ==> ctrlMeas == old(ctrlMeas) && settings.(mode := old(settings).mode) == old(settings)
    {
      err := GetSensorMode();
      if err == Success && settings.mode != SLEEP_MODE {
        err := SetSleepMode();
      }
    }

    /** BME280_SetHumidityOversampling: ctrl_hum [2:0], then a write of ctrl_meas to latch it. */
    method SetHumidityOversampling(hos: bv8) returns (err: ErrorCode)
      requires Valid()
      modifies this`transfers, this`ctrlHum, this`ctrlMeas, this`config, this`settings
      ensures old(transfers) < transfers <= old(transfers) + HUM_SETTER_TRANSFERS
      ensures NoNak(old(transfers), old(transfers) + HUM_SETTER_TRANSFERS) ==> err == Success
      ensures err == Success || err == CommFail
      ensures config == old(config)
      ensures err == Success ==>
                ctrlHum == PutHum(old(ctrlHum), hos) && ctrlMeas == Asleep(old(ctrlMeas)) &&
                settings == old(settings).(mode := SLEEP_MODE, osrH := hos & 0x07)
      ensures err != Success ==> settings.(mode := old(settings).mode) == old(settings)
    {
      err := EnsureSleeping();
      if err == Success {
        var reg: bv8;
        err, reg := ReadRegister(CTRL_HUM_REG, 0);
        if err == Success {
          reg := PutHum(reg, hos);
          err := WriteRegister(CTRL_HUM_REG, reg);
          if err == Success {
            err, reg := ReadRegister(CTRL_MEAS_REG, reg);
            if err == Success {
              err := WriteRegister(CTRL_MEAS_REG, reg);
              if err == Success {
                err, reg := ReadRegister(CTRL_HUM_REG, reg);
                if err == Success {
                  settings := settings.(osrH := HumField(reg));
                }
              }
            }
          }
        }
      }
    }

    /** BME280_SetTemperatureOversampling: ctrl_meas [7:5]. */
    method SetTemperatureOversampling(tos: bv8) returns (err: ErrorCode)
      requires Valid()
      modifies this`transfers, this`ctrlHum, this`ctrlMeas, this`config, this`settings
      ensures old(transfers) < transfers <= old(transfers) + SETTER_TRANSFERS
      ensures NoNak(old(transfers), old(transfers) + SETTER_TRANSFERS) ==> err == Success
      ensures err == Success || err == CommFail
      ensures ctrlHum == old(ctrlHum) && config == old(config)
      ensures err == Success ==>
                ctrlMeas == PutTemp(Asleep(old(ctrlMeas)), tos) &&
                settings == old(settings).(mode := SLEEP_MODE, osrT := tos & 0x07)
      ensures err != Success ==> settings.(mode := old(settings).mode) == old(settings)
    {
      err := EnsureSleeping();
      if err == Success {
        var reg: bv8;
        err, reg := ReadRegister(CTRL_MEAS_REG, 0);
        if err == Success {
          reg := PutTemp(reg, tos);
          err := WriteRegister(CTRL_MEAS_REG, reg);
          if err == Success {
            err, reg := ReadRegister(CTRL_MEAS_REG, reg);
            if err == Success {
              settings := settings.(osrT := TempField(reg));
            }
          }
        }
      }
    }

    /** BME280_SetPressureOversampling: ctrl_meas [4:2]. */
    method SetPressureOversampling(pos: bv8) returns (err: ErrorCode)
      requires Valid()
      modifies this`transfers, this`ctrlHum, this`ctrlMeas, this`config, this`settings
      ensures old(transfers) < transfers <= old(transfers) + SETTER_TRANSFERS
      ensures NoNak(old(transfers), old(transfers) + SETTER_TRANSFERS) ==> err == Success
      ensures err == Success || err == CommFail
      ensures ctrlHum == old(ctrlHum) && config == old(config)
      ensures err == Success ==>
                ctrlMeas == PutPress(Asleep(old(ctrlMeas)), pos) &&
                settings == old(settings).(mode := SLEEP_MODE, osrP := pos & 0x07)
      ensures err != Success ==> settings.(mode := old(settings).mode) == old(settings)
    {
      err := EnsureSleeping();
      if err == Success {
        var reg: bv8;
        err, reg := ReadRegister(CTRL_MEAS_REG, 0);
        if err == Success {
          reg := PutPress(reg, pos);
          err := WriteRegister(CTRL_MEAS_REG, reg);
          if err == Success {
            err, reg := ReadRegister(CTRL_MEAS_REG, reg);
            if err == Success {
              settings := settings.(osrP := PressField(reg));
            }
          }
        }
      }
    }

    /** BME280_SetStandbyTime: config [7:5]. */
    method SetStandbyTime(t: bv8) returns (err: ErrorCode)
      requires Valid()
      modifies this`transfers, this`ctrlHum, this`ctrlMeas, this`config, this`settings
      ensures old(transfers) < transfers <= old(transfers) + SETTER_TRANSFERS
      ensures NoNak(old(transfers), old(transfers) + SETTER_TRANSFERS) ==> err == Success
      ensures err == Success || err == CommFail
      ensures ctrlHum == old(ctrlHum)
      ensures err == Success ==>
                ctrlMeas == Asleep(old(ctrlMeas)) && config == PutStandby(old(config), t) &&
                settings == old(settings).(mode := SLEEP_MODE, standbyTime := t & 0x07)
      ensures err != Success ==> settings.(mode := old(settings).mode) == old(settings)
    {
      err := EnsureSleeping();
      if err == Success {
        var reg: bv8;
        err, reg := ReadRegister(CONFIG_REG, 0);
        if err == Success {
          reg := PutStandby(reg, t);
          err := WriteRegister(CONFIG_REG, reg);
          if err == Success {
            err, reg := ReadRegister(CONFIG_REG, reg);
            if err == Success {
              settings := settings.(standbyTime := StandbyField(reg));
            }
          }
        }
      }
    }

    /** BME280_SetIIRFilter: config [4:2]. */
    method SetIIRFilter(f: bv8) returns (err: ErrorCode)
      requires Valid()
      modifies this`transfers, this`ctrlHum, this`ctrlMeas, this`config, this`settings
      ensures old(transfers) < transfers <= old(transfers) + SETTER_TRANSFERS
      ensures NoNak(old(transfers), old(transfers) + SETTER_TRANSFERS) ==> err == Success
      ensures err == Success || err == CommFail
      ensures ctrlHum == old(ctrlHum)
      ensures err == Success ==>
                ctrlMeas == Asleep(old(ctrlMeas)) && config == PutFilter(old(config), f) &&
                settings == old(settings).(mode := SLEEP_MODE, filter := f & 0x07)
      ensures err != Success ==> settings.(mode := old(settings).mode) == old(settings)
    {
      err := EnsureSleeping();
      if err == Success {
        var reg: bv8;
        err, reg := ReadRegister(CONFIG_REG, 0);
        if err == Success {
          reg := PutFilter(reg, f);
          err := WriteRegister(CONFIG_REG, reg);
          if err == Success {
            err, reg := ReadRegister(CONFIG_REG, reg);
            if err == Success {
              settings := settings.(filter := FilterField(reg));
            }
          }
        }
      }
    }

    /**
     * The polling loop of BME280_Reset: `(error == OK) && (try_counts--) &&
     * (status & IM_UPDATE)` keeps it going, so it reads the status register
     * at most six times; the post-decrement past zero on the last evaluation
     * is never read again.  The status register does not change between
     * polls here, so a set im_update bit on the first good poll is still set
     * on the last one.
     */
    method PollNvmCopy() returns (err: ErrorCode, status: bv8)
      requires Valid()
      modifies this`transfers
      ensures old(transfers) < transfers <= old(transfers) + 6
      ensures err == Success || err == CommFail
      ensures status & STATUS_IM_UPDATE != 0 <==> !nak(old(transfers)) && NvmCopying()
      ensures status & STATUS_IM_UPDATE == 0 ==>
                transfers == old(transfers) + 1 && (err == Success <==> !nak(old(transfers)))
    {
      var tryCounts: nat := 5;
      var polling := true;
      status := 0;
      err := Success;
      while polling
        invariant tryCounts <= 5 && (err == Success || err == CommFail)
        invariant polling ==> transfers == old(transfers) + (5 - tryCounts) && NoNak(old(transfers), transfers)
        invariant polling && transfers > old(transfers) ==> status & STATUS_IM_UPDATE != 0
        invariant status == (if transfers > old(transfers) && !nak(old(transfers)) then rom[STATUS_REG] else 0)
        invariant !polling ==> old(transfers) < transfers <= old(transfers) + 6
        invariant !polling && status & STATUS_IM_UPDATE == 0 ==>
                    transfers == old(transfers) + 1 && (err == Success <==> !nak(old(transfers)))
        decreases tryCounts + (if polling then 1 else 0)
      {
        err, status := ReadStatusRegister(status);
        if err == Success && tryCounts != 0 && status & STATUS_IM_UPDATE != 0 {
          tryCounts := tryCounts - 1;
        } else {
          polling := false;
        }
      }
    }

    /** Part of the restore step of BME280_Reset: the temperature and pressure setters, errors ignored. */
    method RestoreMeasurement()
      requires Valid()
      modifies this`transfers, this`ctrlHum, this`ctrlMeas, this`config, this`settings
      ensures old(transfers) < transfers <= old(transfers) + 2 * SETTER_TRANSFERS
      ensures ctrlHum == old(ctrlHum) && config == old(config)
      ensures settings.osrH == old(settings).osrH && settings.filter == old(settings).filter
      ensures settings.standbyTime == old(settings).standbyTime
      ensures NoNak(old(transfers), old(transfers) + 2 * SETTER_TRANSFERS) ==>
                settings == old(settings).(mode := SLEEP_MODE, osrT := old(settings).osrT & 0x07,
                                           osrP := old(settings).osrP & 0x07) &&
                ctrlMeas == PutPress(Asleep(PutTemp(Asleep(old(ctrlMeas)), old(settings).osrT)), old(settings).osrP)
    {
      var ignored: ErrorCode;
      ghost var t0 := transfers;
      ghost var full := NoNak(t0, t0 + 2 * SETTER_TRANSFERS);
      if full {
        NoNakWithin(t0, t0 + 2 * SETTER_TRANSFERS, t0, t0 + SETTER_TRANSFERS);
      }
      ignored := SetTemperatureOversampling(settings.osrT);
      if full {
        NoNakWithin(t0, t0 + 2 * SETTER_TRANSFERS, transfers, transfers + SETTER_TRANSFERS);
      }
      ignored := SetPressureOversampling(settings.osrP);
    }

    /** Last part of the restore step of BME280_Reset: filter, standby time and mode, errors ignored. */
    method RestoreConfig()
      requires Valid()
      modifies this`transfers, this`ctrlHum, this`ctrlMeas, this`config, this`settings
      ensures old(transfers) < transfers <= old(transfers) + 2 * SETTER_TRANSFERS + 2
      ensures ctrlHum == old(ctrlHum)
      ensures NoNak(old(transfers), old(transfers) + 2 * SETTER_TRANSFERS + 2) ==>
                settings == old(settings).(mode := SLEEP_MODE, filter := old(settings).filter & 0x07,
                                           standbyTime := old(settings).standbyTime & 0x07) &&
                ctrlMeas == PutMode(Asleep(Asleep(old(ctrlMeas))), SLEEP_MODE) &&
                config == ConfigAfterSetters(old(config), old(settings).filter, old(settings).standbyTime)
    {
      var ignored: ErrorCode;
      ignored := SetIIRFilter(settings.filter);
      ignored := SetStandbyTime(settings.standbyTime);
      ignored := SetMode(settings.mode);
    }

    /** The restore step of BME280_Reset: each stored setting is written back, errors ignored. */
    method RestoreSettings()
      requires Valid()
      modifies this`transfers, this`ctrlHum, this`ctrlMeas, this`config, this`settings
      ensures old(transfers) < transfers <= old(transfers) + RESTORE_TRANSFERS
      ensures NoNak(old(transfers), old(transfers) + RESTORE_TRANSFERS) ==>
                settings == Masked(old(settings), SLEEP_MODE) &&
                ctrlHum == PutHum(old(ctrlHum), old(settings).osrH) &&
                ctrlMeas == PutMode(MeasAfterSetters(old(ctrlMeas), old(settings).osrT, old(settings).osrP), SLEEP_MODE) &&
                config == ConfigAfterSetters(old(config), old(settings).filter, old(settings).standbyTime)
    {
      var ignored: ErrorCode;
      ignored := SetHumidityOversampling(settings.osrH);
      RestoreMeasurement();
      RestoreConfig();
    }

    /**
     * BME280_Reset: the soft-reset command, the poll for the end of the NVM
     * copy, then the stored settings written back.  Restoring leaves the
     * sensor asleep: every setter sleeps it first, so the mode restored last
     * is the sleep mode they stored.
     */
    method Reset() returns (err: ErrorCode)
      requires Valid()
      modifies this`transfers, this`ctrlHum, this`ctrlMeas, this`config, this`settings
      ensures err == Success || err == CommFail || err == NvmCopyFailed
      ensures old(transfers) < transfers <= old(transfers) + 2 + RESTORE_TRANSFERS
      ensures nak(old(transfers)) ==>
                err == CommFail && settings == old(settings) &&
                ctrlHum == old(ctrlHum) && ctrlMeas == old(ctrlMeas) && config == old(config)
      ensures err == NvmCopyFailed <==>
                !nak(old(transfers)) && !nak(old(transfers) + 1) && NvmCopying()
      ensures err == Success <==>
                !nak(old(transfers)) && !nak(old(transfers) + 1) && !NvmCopying()
      ensures err == NvmCopyFailed ==>
                settings == old(settings) &&
                ctrlHum == old(ctrlHum) && ctrlMeas == old(ctrlMeas) && config == old(config)
      ensures (!NvmCopying() && SettingsFit(old(settings)) &&
               NoNak(old(transfers), old(transfers) + 2 + RESTORE_TRANSFERS)) ==>
                err == Success && RestoredFrom(old(settings))
    {
      err := WriteRegister(RESET_REG, RESET_COMMAND);
      if err == Success {
        var status: bv8;
        err, status := PollNvmCopy();
        if status & STATUS_IM_UPDATE != 0 {
          err := NvmCopyFailed;
        } else {
          ghost var s0, h0, m0, c0 := settings, ctrlHum, ctrlMeas, config;
          RestoreSettings();
          if SettingsFit(s0) && NoNak(old(transfers), old(transfers) + 2 + RESTORE_TRANSFERS) {
            AfterSettersApplied(h0, m0, c0, s0, SLEEP_MODE);
          }
        }
      }
    }

    /** BME280_ReadCalibrationData: two bursts into one zeroed 26-byte buffer. */
    method ReadCalibrationData() returns (err: ErrorCode)
      requires Valid()
      modifies this`transfers, this`calib
      ensures err == Success || err == CommFail
      ensures transfers == old(transfers) + (if nak(old(transfers)) then 1 else 2)
      ensures err == Success <==> !nak(old(transfers)) && !nak(old(transfers) + 1)
      ensures err == Success ==> calib == CalibrationFrom(old(calib), rom)
      ensures nak(old(transfers)) ==> calib == old(calib)
      ensures !nak(old(transfers)) && nak(old(transfers) + 1) ==>
                calib == ParseTempPressCalibData(old(calib), Bytes(rom, CALIB_TEMP_PRESS_REG, TEMP_PRESS_CALIB_DATA_LEN))
    {
      var buf: seq<byte> := seq(TEMP_PRESS_CALIB_DATA_LEN, _ => 0);
      err, buf := ReadRegisterMulti(CALIB_TEMP_PRESS_REG, TEMP_PRESS_CALIB_DATA_LEN, buf);
      if err == Success {
        BurstFixed(CALIB_TEMP_PRESS_REG, TEMP_PRESS_CALIB_DATA_LEN);
        calib := ParseTempPressCalibData(calib, buf);
        // The humidity burst also reads 26 registers; only the first 7 are parsed.
        err, buf := ReadRegisterMulti(CALIB_HUM_REG, TEMP_PRESS_CALIB_DATA_LEN, buf);
        if err == Success {
          HumidityBurst(TEMP_PRESS_CALIB_DATA_LEN);
          HumidityPrefix(calib, buf, Bytes(rom, CALIB_HUM_REG, HUMIDITY_CALIB_DATA_LEN));
          calib := ParseHumidityCalibData(calib, buf);
        }
      }
    }

    /** What BME280_Start does once the chip id matched: reset, then read the calibration. */
    method Identified() returns (err: ErrorCode)
      requires Valid()
      modifies this`transfers, this`ctrlHum, this`ctrlMeas, this`config, this`settings, this`chipId, this`calib
      ensures chipId == WHO_AM_I as bv8
      ensures err == Success || err == CommFail || err == NvmCopyFailed
      ensures NvmCopying() ==> err != Success
      ensures err == Success ==> calib == CalibrationFrom(old(calib), rom)
      ensures (!NvmCopying() && SettingsFit(old(settings)) &&
               NoNak(old(transfers), old(transfers) + 4 + RESTORE_TRANSFERS)) ==>
                err == Success && RestoredFrom(old(settings))
    {
      chipId := WHO_AM_I as bv8;
      err := Reset();
      if err == Success {
        err := ReadCalibrationData();
      }
    }

    /**
     * BME280_Start: up to five attempts to read the chip id 0x60; the first
     * match resets the sensor and reads its calibration.
     */
    method Start() returns (err: ErrorCode)
      requires Valid()
      modifies this`transfers, this`ctrlHum, this`ctrlMeas, this`config, this`settings, this`chipId, this`calib
      ensures err == Success || err == CommFail || err == NvmCopyFailed || err == DevNotFound
      ensures err == DevNotFound <==>
                rom[CHIP_ID_REG] != WHO_AM_I as bv8 || AllNak(old(transfers), old(transfers) + 5)
      ensures err == DevNotFound ==>
                settings == old(settings) && chipId == old(chipId) && calib == old(calib) &&
                ctrlHum == old(ctrlHum) && ctrlMeas == old(ctrlMeas) && config == old(config) &&
                transfers == old(transfers) + 5
      ensures err != DevNotFound ==> chipId == WHO_AM_I as bv8
      ensures NvmCopying() ==> err != Success
      ensures err == Success ==> calib == CalibrationFrom(old(calib), rom)
      ensures (rom[CHIP_ID_REG] == WHO_AM_I as bv8 && !NvmCopying() &&
               SettingsFit(old(settings)) && NoNak(old(transfers), old(transfers) + 5 + RESTORE_TRANSFERS)) ==>
                err == Success && RestoredFrom(old(settings))
    {
      var tryCounts: nat := 5;
      var whoAmI: bv8 := 0;
      err := Success;
      while tryCounts != 0
        invariant tryCounts <= 5 && transfers == old(transfers) + (5 - tryCounts)
        invariant settings == old(settings) && chipId == old(chipId) && calib == old(calib)
        invariant ctrlHum == old(ctrlHum) && ctrlMeas == old(ctrlMeas) && config == old(config)
        invariant forall k | old(transfers) <= k < transfers :: nak(k) || rom[CHIP_ID_REG] != WHO_AM_I as bv8
        decreases tryCounts
      {
        ghost var t1 := transfers;
        err, whoAmI := ReadWhoAmI(whoAmI);
        if err == Success && whoAmI == WHO_AM_I as bv8 {
          if NoNak(old(transfers), old(transfers) + 5 + RESTORE_TRANSFERS) {
            assert !nak(old(transfers));
            assert t1 == old(transfers);
            NoNakWithin(old(transfers), old(transfers) + 5 + RESTORE_TRANSFERS, transfers, transfers + 4 + RESTORE_TRANSFERS);
          }
          err := Identified();
          break;
        }
        tryCounts := tryCounts - 1;
      }
      if tryCounts == 0 {
        assert nak(old(transfers)) || rom[CHIP_ID_REG] != WHO_AM_I as bv8;
        err := DevNotFound;
      }
    }

    /**
     * BME280_ReadData: while the status register says a conversion is
     * running the call answers Success and leaves the previous readings.
     */
    method ReadData(comp: byte) returns (err: ErrorCode)
      requires Valid()
      modifies this`transfers, this`uncomp, this`data, this`calib
      ensures err == Success || err == CommFail
      ensures transfers == old(transfers) + (if nak(old(transfers)) || rom[STATUS_REG] & STATUS_MEASURING != 0 then 1 else 2)
      ensures err == Success <==> ReadAnswers(old(transfers))
      ensures if ReadFresh(old(transfers)) then
                uncomp == ParseSensorData(Bytes(rom, PRESS_MSB_REG, P_T_H_DATA_LEN)) &&
                Compensated(data, calib) == CompensateData(comp, uncomp, old(calib))
              else
                uncomp == old(uncomp) && data == old(data) && calib == old(calib)
    {
      var status: bv8;
      err, status := ReadStatusRegister(0);
      if err == Success && status & STATUS_MEASURING == 0 {
        var buf: seq<byte> := seq(P_T_H_DATA_LEN, _ => 0);
        err, buf := ReadRegisterMulti(PRESS_MSB_REG, P_T_H_DATA_LEN, buf);
        if err == Success {
          BurstFixed(PRESS_MSB_REG, P_T_H_DATA_LEN);
          uncomp := ParseSensorData(buf);
          var r := CompensateData(comp, uncomp, calib);
          data, calib := r.data, r.calib;
        }
      }
    }

    /** Step 1 of BME280_SetRegisters: the humidity oversampling `v`, stored into entry 1 and EEPROM when the setter succeeds. */
    method StoreHumidity(arr: seq<bv8>, eeprom: Eeprom, v: bv8) returns (r: seq<bv8>, ghost ok: bool)
      requires Valid() && eeprom.Valid() && |arr| >= 6
      modifies this`transfers, this`ctrlHum, this`ctrlMeas, this`config, this`settings, eeprom
      ensures eeprom.Valid()
      ensures old(transfers) < transfers <= old(transfers) + HUM_SETTER_TRANSFERS
      ensures NoNak(old(transfers), old(transfers) + HUM_SETTER_TRANSFERS) ==> ok
      ensures r == (if ok then arr[1 := Low3(v)] else arr)
      ensures eeprom.cells == (if ok then old(eeprom.cells)[EEPROM_H_OSR := Low3(v)] else old(eeprom.cells))
      ensures ok ==> settings == old(settings).(mode := SLEEP_MODE, osrH := Low3(v))
    {
      var error := SetHumidityOversampling(v);
      ok := error == Success;
      r := arr;
      if error == Success {
        r := r[1 := settings.osrH];
        eeprom.WriteByte(r[1], EEPROM_H_OSR);
      }
    }

    /** Step 2 of BME280_SetRegisters: the temperature oversampling `v`, stored into entry 2 and EEPROM when the setter succeeds. */
    method StoreTemperature(arr: seq<bv8>, eeprom: Eeprom, v: bv8) returns (r: seq<bv8>, ghost ok: bool)
      requires Valid() && eeprom.Valid() && |arr| >= 6
      modifies this`transfers, this`ctrlHum, this`ctrlMeas, this`config, this`settings, eeprom
      ensures eeprom.Valid()
      ensures old(transfers) < transfers <= old(transfers) + SETTER_TRANSFERS
      ensures NoNak(old(transfers), old(transfers) + SETTER_TRANSFERS) ==> ok
      ensures r == (if ok then arr[2 := Low3(v)] else arr)
      ensures eeprom.cells == (if ok then old(eeprom.cells)[EEPROM_T_OSR := Low3(v)] else old(eeprom.cells))
      ensures ok ==> settings == old(settings).(mode := SLEEP_MODE, osrT := Low3(v))
    {
      var error := SetTemperatureOversampling(v);
      ok := error == Success;
      r := arr;
      if error == Success {
        r := r[2 := settings.osrT];
        eeprom.WriteByte(r[2], EEPROM_T_OSR);
      }
    }

    /** Step 3 of BME280_SetRegisters: the pressure oversampling `v`, stored into entry 3 and EEPROM when the setter succeeds. */
    method StorePressure(arr: seq<bv8>, eeprom: Eeprom, v: bv8) returns (r: seq<bv8>, ghost ok: bool)
      requires Valid() && eeprom.Valid() && |arr| >= 6
      modifies this`transfers, this`ctrlHum, this`ctrlMeas, this`config, this`settings, eeprom
      ensures eeprom.Valid()
      ensures old(transfers) < transfers <= old(transfers) + SETTER_TRANSFERS
      ensures NoNak(old(transfers), old(transfers) + SETTER_TRANSFERS) ==> ok
      ensures r == (if ok then arr[3 := Low3(v)] else arr)
      ensures eeprom.cells == (if ok then old(eeprom.cells)[EEPROM_P_OSR := Low3(v)] else old(eeprom.cells))
      ensures ok ==> settings == old(settings).(mode := SLEEP_MODE, osrP := Low3(v))
    {
      var error := SetPressureOversampling(v);
      ok := error == Success;
      r := arr;
      if error == Success {
        r := r[3 := settings.osrP];
        eeprom.WriteByte(r[3], EEPROM_P_OSR);
      }
    }

    /** Step 4 of BME280_SetRegisters: the standby time `v`, stored into entry 4 and EEPROM when the setter succeeds. */
    method StoreStandby(arr: seq<bv8>, eeprom: Eeprom, v: bv8) returns (r: seq<bv8>, ghost ok: bool)
      requires Valid() && eeprom.Valid() && |arr| >= 6
      modifies this`transfers, this`ctrlHum, this`ctrlMeas, this`config, this`settings, eeprom
      ensures eeprom.Valid()
      ensures old(transfers) < transfers <= old(transfers) + SETTER_TRANSFERS
      ensures NoNak(old(transfers), old(transfers) + SETTER_TRANSFERS) ==> ok
      ensures r == (if ok then arr[4 := Low3(v)] else arr)
      ensures eeprom.cells == (if ok then old(eeprom.cells)[EEPROM_SB_TIME := Low3(v)] else old(eeprom.cells))
      ensures ok ==> settings == old(settings).(mode := SLEEP_MODE, standbyTime := Low3(v))
    {
      var error := SetStandbyTime(v);
      ok := error == Success;
      r := arr;
      if error == Success {
        r := r[4 := settings.standbyTime];
        eeprom.WriteByte(r[4], EEPROM_SB_TIME);
      }
    }

    /** Step 5 of BME280_SetRegisters: the IIR filter coefficient `v`, stored into entry 5 and EEPROM when the setter succeeds. */
    method StoreFilter(arr: seq<bv8>, eeprom: Eeprom, v: bv8) returns (r: seq<bv8>, ghost ok: bool)
      requires Valid() && eeprom.Valid() && |arr| >= 6
      modifies this`transfers, this`ctrlHum, this`ctrlMeas, this`config, this`settings, eeprom
      ensures eeprom.Valid()
      ensures old(transfers) < transfers <= old(transfers) + SETTER_TRANSFERS
      ensures NoNak(old(transfers), old(transfers) + SETTER_TRANSFERS) ==> ok
      ensures r == (if ok then arr[5 := Low3(v)] else arr)
      ensures eeprom.cells == (if ok then old(eeprom.cells)[EEPROM_FILT := Low3(v)] else old(eeprom.cells))
      ensures ok ==> settings == old(settings).(mode := SLEEP_MODE, filter := Low3(v)) && ModeField(ctrlMeas) == SLEEP_MODE
    {
      var error := SetIIRFilter(v);
      ok := error == Success;
      r := arr;
      if error == Success {
        r := r[5 := settings.filter];
        eeprom.WriteByte(r[5], EEPROM_FILT);
      }
    }

    /** Steps 1 to 3 of BME280_SetRegisters. */
    method StoreOversampling(arr: seq<bv8>, eeprom: Eeprom, h: bv8, t: bv8, p: bv8)
      returns (r: seq<bv8>, ghost okH: bool, ghost okT: bool, ghost okP: bool)
      requires Valid() && eeprom.Valid() && |arr| >= 6
      modifies this`transfers, this`ctrlHum, this`ctrlMeas, this`config, this`settings, eeprom
      ensures eeprom.Valid()
      ensures old(transfers) < transfers <= old(transfers) + HUM_SETTER_TRANSFERS + 2 * SETTER_TRANSFERS
      ensures NoNak(old(transfers), old(transfers) + HUM_SETTER_TRANSFERS + 2 * SETTER_TRANSFERS) ==>
                okH && okT && okP &&
                settings == old(settings).(mode := SLEEP_MODE, osrH := Low3(h), osrT := Low3(t), osrP := Low3(p))
      ensures r == arr[1 := Kept(okH, h, arr[1])][2 := Kept(okT, t, arr[2])][3 := Kept(okP, p, arr[3])]
      ensures eeprom.cells == old(eeprom.cells)[EEPROM_H_OSR := Kept(okH, h, old(eeprom.cells)[EEPROM_H_OSR])]
                [EEPROM_T_OSR := Kept(okT, t, old(eeprom.cells)[EEPROM_T_OSR])]
                [EEPROM_P_OSR := Kept(okP, p, old(eeprom.cells)[EEPROM_P_OSR])]
    {
      ghost var t0 := transfers;
      ghost var full := NoNak(t0, t0 + HUM_SETTER_TRANSFERS + 2 * SETTER_TRANSFERS);
      if full {
        NoNakWithin(t0, t0 + HUM_SETTER_TRANSFERS + 2 * SETTER_TRANSFERS, transfers, transfers + HUM_SETTER_TRANSFERS);
      }
      r, okH := StoreHumidity(arr, eeprom, h);
      if full {
        NoNakWithin(t0, t0 + HUM_SETTER_TRANSFERS + 2 * SETTER_TRANSFERS, transfers, transfers + SETTER_TRANSFERS);
      }
      r, okT := StoreTemperature(r, eeprom, t);
      if full {
        NoNakWithin(t0, t0 + HUM_SETTER_TRANSFERS + 2 * SETTER_TRANSFERS, transfers, transfers + SETTER_TRANSFERS);
      }
      r, okP := StorePressure(r, eeprom, p);
    }

    /** Steps 4 and 5 of BME280_SetRegisters. */
    method StoreTiming(arr: seq<bv8>, eeprom: Eeprom, sb: bv8, f: bv8) returns (r: seq<bv8>, ghost okS: bool, ghost okF: bool)
      requires Valid() && eeprom.Valid() && |arr| >= 6
      modifies this`transfers, this`ctrlHum, this`ctrlMeas, this`config, this`settings, eeprom
      ensures eeprom.Valid()
      ensures old(transfers) < transfers <= old(transfers) + 2 * SETTER_TRANSFERS
      ensures NoNak(old(transfers), old(transfers) + 2 * SETTER_TRANSFERS) ==>
                okS && okF && settings == old(settings).(mode := SLEEP_MODE, standbyTime := Low3(sb), filter := Low3(f))
      ensures okF ==> ModeField(ctrlMeas) == SLEEP_MODE
      ensures r == arr[4 := Kept(okS, sb, arr[4])][5 := Kept(okF, f, arr[5])]
      ensures eeprom.cells == old(eeprom.cells)[EEPROM_SB_TIME := Kept(okS, sb, old(eeprom.cells)[EEPROM_SB_TIME])]
                [EEPROM_FILT := Kept(okF, f, old(eeprom.cells)[EEPROM_FILT])]
    {
      ghost var t0 := transfers;
      ghost var full := NoNak(t0, t0 + 2 * SETTER_TRANSFERS);
      if full {
        NoNakWithin(t0, t0 + 2 * SETTER_TRANSFERS, transfers, transfers + SETTER_TRANSFERS);
      }
      r, okS := StoreStandby(arr, eeprom, sb);
      if full {
        NoNakWithin(t0, t0 + 2 * SETTER_TRANSFERS, transfers, transfers + SETTER_TRANSFERS);
      }
      r, okF := StoreFilter(r, eeprom, f);
    }

    /** Steps 1 to 5 of BME280_SetRegisters: the five setters and the stores that follow them. */
    method StoreAll(arr: seq<bv8>, eeprom: Eeprom, h: bv8, t: bv8, p: bv8, sb: bv8, f: bv8)
      returns (r: seq<bv8>, ghost okH: bool, ghost okT: bool, ghost okP: bool, ghost okS: bool, ghost okF: bool)
      requires Valid() && eeprom.Valid() && |arr| >= 6
      modifies this`transfers, this`ctrlHum, this`ctrlMeas, this`config, this`settings, eeprom
      ensures eeprom.Valid()
      ensures old(transfers) < transfers <= old(transfers) + RESTORE_TRANSFERS - 2
      ensures NoNak(old(transfers), old(transfers) + RESTORE_TRANSFERS - 2) ==>
                okH && okT && okP && okS && okF && ModeField(ctrlMeas) == SLEEP_MODE &&
                settings == Settings(SLEEP_MODE, Low3(p), Low3(t), Low3(h), Low3(f), Low3(sb))
      ensures r == arr[1 := Kept(okH, h, arr[1])][2 := Kept(okT, t, arr[2])][3 := Kept(okP, p, arr[3])]
                      [4 := Kept(okS, sb, arr[4])][5 := Kept(okF, f, arr[5])]
      ensures eeprom.cells == old(eeprom.cells)[EEPROM_H_OSR := Kept(okH, h, old(eeprom.cells)[EEPROM_H_OSR])]
                [EEPROM_T_OSR := Kept(okT, t, old(eeprom.cells)[EEPROM_T_OSR])]
                [EEPROM_P_OSR := Kept(okP, p, old(eeprom.cells)[EEPROM_P_OSR])]
                [EEPROM_SB_TIME := Kept(okS, sb, old(eeprom.cells)[EEPROM_SB_TIME])]
                [EEPROM_FILT := Kept(okF, f, old(eeprom.cells)[EEPROM_FILT])]
    {
      ghost var t0 := transfers;
      ghost var full := NoNak(t0, t0 + RESTORE_TRANSFERS - 2);
      if full {
        NoNakWithin(t0, t0 + RESTORE_TRANSFERS - 2, transfers, transfers + HUM_SETTER_TRANSFERS + 2 * SETTER_TRANSFERS);
      }
      r, okH, okT, okP := StoreOversampling(arr, eeprom, h, t, p);
      if full {
        NoNakWithin(t0, t0 + RESTORE_TRANSFERS - 2, transfers, transfers + 2 * SETTER_TRANSFERS);
      }
      r, okS, okF := StoreTiming(r, eeprom, sb, f);
    }

    /**
     * BME280_SetRegisters: settings array entries 1..5 go to the five
     * setters; each one that succeeds stores the value it read back into
     * the array and into EEPROM.  The sensor is then put in normal mode.
     * The array is `arr` on entry and `r` on return; `okH` .. `okF` say
     * whether entries 1 .. 5 were stored.
     */
    method SetRegisters(arr: seq<bv8>, eeprom: Eeprom)
      returns (r: seq<bv8>, ghost okH: bool, ghost okT: bool, ghost okP: bool, ghost okS: bool, ghost okF: bool)
      requires Valid() && eeprom.Valid() && |arr| >= 6
      modifies this`transfers, this`ctrlHum, this`ctrlMeas, this`config, this`settings, eeprom
      ensures eeprom.Valid()
      ensures old(transfers) < transfers <= old(transfers) + RESTORE_TRANSFERS
      ensures r == arr[1 := Kept(okH, arr[1], arr[1])][2 := Kept(okT, arr[2], arr[2])]
                      [3 := Kept(okP, arr[3], arr[3])][4 := Kept(okS, arr[4], arr[4])]
                      [5 := Kept(okF, arr[5], arr[5])]
      ensures eeprom.cells == old(eeprom.cells)[EEPROM_H_OSR := Kept(okH, arr[1], old(eeprom.cells)[EEPROM_H_OSR])]
                [EEPROM_T_OSR := Kept(okT, arr[2], old(eeprom.cells)[EEPROM_T_OSR])]
                [EEPROM_P_OSR := Kept(okP, arr[3], old(eeprom.cells)[EEPROM_P_OSR])]
                [EEPROM_SB_TIME := Kept(okS, arr[4], old(eeprom.cells)[EEPROM_SB_TIME])]
                [EEPROM_FILT := Kept(okF, arr[5], old(eeprom.cells)[EEPROM_FILT])]
      ensures NoNak(old(transfers), old(transfers) + RESTORE_TRANSFERS) ==>
                okH && okT && okP && okS && okF && ModeField(ctrlMeas) == NORMAL_MODE &&
                settings == Settings(NORMAL_MODE, Low3(arr[3]), Low3(arr[2]), Low3(arr[1]), Low3(arr[5]), Low3(arr[4]))
    {
      ghost var t0 := transfers;
      ghost var full := NoNak(t0, t0 + RESTORE_TRANSFERS);
      var h, t, p, sb, filt := arr[1], arr[2], arr[3], arr[4], arr[5];
      if full {
        NoNakWithin(t0, t0 + RESTORE_TRANSFERS, transfers, transfers + RESTORE_TRANSFERS - 2);
      }
      r, okH, okT, okP, okS, okF := StoreAll(arr, eeprom, h, t, p, sb, filt);
      if full {
        NoNakWithin(t0, t0 + RESTORE_TRANSFERS, transfers, transfers + 2);
      }
      var error := SetNormalMode();
    }
  }
}
