# MIP gas-sensing board: serial protocol, firmware state machines and BME280 arithmetic

This project models the core of a gas-sensing board and its desktop GUI. The board runs a PSoC firmware that:
- heats metal-oxide gas sensors with PWM patterns;
- samples them through an analog multiplexer;
- reads a Bosch BME280 temperature, humidity and pressure sensor over I2C;
- streams data frames over UART.

The GUI module `mserial.py` sends the board one-byte commands and a settings packet, then parses the frames and settings replies the board returns.

Modules, one per source file:

- `CInt`: the C integer semantics the firmware relies on:
  - truncating division `Quot`;
  - the wrap-around casts `U8`, `U32`, `I32`, `I16` and `I8`;
  - big-endian 4-byte words.
- `Hardware`: the peripherals as classes that record what they are given:
  - `Pwm`: eight compare registers and the kill line;
  - `Eeprom`: five cells;
  - `Uart`: the bytes sent;
  - `Adc`: a sample sequence;
  - `Hydraulics` and `MuxLines`: the pump, valve and multiplexer lines.
- `Bme280` (`BME280.c`, pure part): calibration and raw-data parsing, and the 32-bit integer compensation. Each parser has an encoder partner; the round trips prove that parsing recovers what the registers hold.
- `Bme280Driver` (`BME280.c`, imperative part): class `Sensor`, the `bme280` device structure together with the sensor it talks to as a register map.
  - Every I2C transfer can fail, as given by a script over the transfer count.
  - Register read-modify-write is proved against the bit-field functions `PutMode`, `PutHum`, `PutTemp`, `PutPress`, `PutStandby` and `PutFilter`.
  - `Start`, `Reset` and `SetRegisters` are proved against the state they leave, including every failure path.
- `ModulationPatterns`: the ramp, sine, triangle and square-triangle steps, each as a pure step function. Class `Modulation` holds the pattern globals, and its methods apply the steps to the PWM.
- `Interrupts`: class `IsrState`, the flags and counters shared with the interrupt handlers. Each handler body is one atomic method.
- `MuxFunctions`: the channel-to-select-line mapping, and the four-slot sweep that fills all eight sensor voltages.
- `Utils`: `BundleData`, which packs the 47-byte data frame, and the `GasSensor_VoltRead` clamp.
- `Firmware` (`main.c`): class `Board`, holding `main.c`'s globals and the peripherals.
  - The per-byte command switch is proved against `CommandEffect`.
  - The settings-packet state machine is proved against `SettingsStep`.
  - Also modelled: the watchdog discard, applying new settings with their defaults, the settings reply, the pattern blocks and the data send.
- `MSerialCodec`, `MSerialReader`, `MSerial` (`mserial.py`):
  - the name/code tables and their decoders;
  - the integer part of the `convert_*` decoders;
  - the five-state framer of `read_data` as the pure `Step`/`Run`;
  - class `MipSerial`, whose methods are proved against those functions.
- `Protocol`: lemmas joining the two ends:
  - a frame packed by `BundleData` is read by `read_data` as exactly one packet holding the frame's values;
  - every settings packet the GUI builds is accepted whole by the firmware's receiver;
  - the firmware's settings reply is decoded back to the names the GUI sent;
  - the GUI's command bytes have the effects the firmware gives them.

Notes on the modelled behaviour:

- The byte 't' is used twice. It is the settings packet's header and also the triangle command, and the firmware's command switch and settings switch both see every byte. Both effects are modelled: `Board.ProcessByte` applies `CommandEffect` and `SettingsStep` to the same byte.
- The GUI decodes every data word as unsigned. A negative temperature therefore arrives as its value plus 2^32 (`Protocol.WordValues`).
- `set_bme280_settings` with an unknown name still writes the header 't', then raises. `MipSerial.SetBme280Settings` models exactly that.
- C's `/` truncates toward zero, and every signed division of the compensation uses `CInt.Quot`. The int32_t arithmetic wraps modulo 2^32, as the target compiler does.

## Model

| member | source | states |
|---|---|---|
| Interrupts.Toggled | FW/firmware.cydsn/Interrupts.c:72-93 | the square pattern's kill-register toggle: the result is always ENABLE_PWM or DISABLE_PWM, and it is ENABLE_PWM exactly when the previous value was not |
| Interrupts.TickCounter | FW/firmware.cydsn/Interrupts.c:40-41 | the 200 ms counter update with its reset at 1500 ticks (lines 60-61): from any value in -1 .. 1499 the counter stays in 0 .. 1499, is 0 exactly after -1 or 1499, and otherwise counts up by one |
| Interrupts.IsrState.constructor | FW/firmware.cydsn/Interrupts.h:29-49 | every flag of Interrupts.h starts cleared and both counters at 0, as C zero-initialises the globals |
| Interrupts.IsrState.RxIsr | FW/firmware.cydsn/Interrupts.c:20-28 | the UART receive interrupt raises flag_rx when the receive FIFO holds a byte and never clears it |
| Interrupts.IsrState.Timer200msIsr | FW/firmware.cydsn/Interrupts.c:35-98 | flag_200ms is set; the counter follows TickCounter with int16_t wrap-around; every 5th tick while streaming raises the step flag of exactly one of sine, triangle, square+triangle (in that priority); every 150th tick raises the ramp flag, or else runs the square pattern (all compares 0 and output enabled at the 1500-tick reset, otherwise the kill register toggled); nothing is raised when not streaming |
| Interrupts.IsrState.StepTick | FW/firmware.cydsn/Interrupts.c:44-56 | the every-5th-tick block sets the increment flag of the first enabled pattern among sine, triangle, square+triangle, and only while streaming |
| Interrupts.IsrState.SlowTick | FW/firmware.cydsn/Interrupts.c:59-96 | the every-150th-tick block: the counter goes back to 0 at 1500; while streaming the ramp flag is raised, or else the square pattern restarts high at the reset and toggles the output otherwise |
| Interrupts.IsrState.WatchdogIsr | FW/firmware.cydsn/Interrupts.c:105-119 | the watchdog counter counts 250 ms ticks with int16_t wrap-around and, on reaching 20 ticks (5 s), raises flag_five_sec and restarts from 0; from 0 .. 19 it stays in 0 .. 19 |
| Interrupts.IsrState.AdcIsr | FW/firmware.cydsn/Interrupts.c:126-165 | the end-of-conversion interrupt sweeps channels 0, 2, 4, 6 so every gas field and its copy hold the conversion SweepVolts names; flag_read_gas is set; flag_read_bme is set exactly when the BME280 read succeeded, and flag_read_data once both are; a successful read stores the parsed raw sample and its compensated values, a failed one changes none of the sensor data |
| Interrupts.IsrState.ResetTimer | FW/firmware.cydsn/Interrupts.c:175-201 | the counter restarts at -1, the 200 ms and all pattern and data flags are cleared, and the sine, triangle and square+triangle patterns restart from their first step |
| Interrupts.IsrState.ResetWatchdogTimer | FW/firmware.cydsn/Interrupts.c:205-214 | the watchdog counter is 0 and flag_five_sec cleared |
| Interrupts.SweepChannels | FW/firmware.cydsn/Interrupts.c:135-144 | the four-channel sweep takes 16 conversions, leaves the select lines on channel 6 with the enable line high, and fills every field and every copy with the values SweepVolts gives |
| Interrupts.SweepReadsBoth | FW/firmware.cydsn/Interrupts.c:135-144 | the four stages of the sweep, applied to the struct fields and to the global copies from any starting values, give SweepVolts at offsets t and t + 1 |
| Interrupts.SweepLow | FW/firmware.cydsn/Interrupts.c:135-139 | the first two sweep stages (channels 0 and 2) take eight conversions and apply the channel-0 then channel-2 updates to fields and copies |
| Interrupts.SweepHigh | FW/firmware.cydsn/Interrupts.c:141-144 | the last two sweep stages (channels 4 and 6) take eight conversions and apply the channel-4 then channel-6 updates to fields and copies |
| MuxFunctions.ChannelSensors | FW/firmware.cydsn/mux_functions.c:14-125 | exactly the even channels 0 .. 6 read two sensors, and they are two distinct fields of Gas_Sens_Voltage |
| MuxFunctions.Select | FW/firmware.cydsn/mux_functions.c:24-26 | the three select lines take the given levels |
| MuxFunctions.ReadSensor | FW/firmware.cydsn/mux_functions.c:30-31 | one sensor: the struct field takes one ADC conversion and its global copy the next one, and nothing else changes |
| MuxFunctions.ReadPair | FW/firmware.cydsn/mux_functions.c:29-35 | an even channel: the first sensor is read with the enable line low, the second with it high, four conversions in that order |
| MuxFunctions.MuxSelection | FW/firmware.cydsn/mux_functions.c:14-125 | for a channel up to 7 the select lines are its three low bits; an even channel samples its two sensors (four conversions), an odd one none; a channel above 7 changes nothing |
| MuxFunctions.SelectChannel | FW/firmware.cydsn/mux_functions.c:20-120 | the eight cases of the switch put bit 0, 1, 2 of the channel on A0, A1, A2 |
| MuxFunctions.SweepSlot | FW/firmware.cydsn/Interrupts.c:135-144 | every field has a slot in the sweep order |
| MuxFunctions.SweepIsPermutation | FW/firmware.cydsn/Interrupts.c:135-144 | the sweep over channels 0, 2, 4, 6 reads each of the eight sensors exactly once |
| MuxFunctions.SweepFollowsChannels | FW/firmware.cydsn/mux_functions.c:22-120 | the sensors of channels 0, 2, 4, 6 are, pair by pair, the sweep order |
| MuxFunctions.SweepVoltsBySlot | FW/firmware.cydsn/Interrupts.c:135-144 | the field read k-th in the sweep holds conversion t + 2k |
| MuxFunctions.SweepReadsAll | FW/firmware.cydsn/Interrupts.c:135-144 | the four sweep stages overwrite every field, so the result does not depend on the values before the sweep |
| ModulationPatterns.TableLengths | FW/firmware.cydsn/ModulationPatterns.h:29-54 | the sine table has 50 entries and the square+triangle table 100, the moduli of the index updates |
| ModulationPatterns.RampStep | FW/firmware.cydsn/ModulationPatterns.c:21-65 | Mod_Ramp: compare 0 restarts at PWM_PERIOD with the output disabled; otherwise the output is enabled and the compare drops by 11 modulo 256 |
| ModulationPatterns.RampStaysOnLadder | FW/firmware.cydsn/ModulationPatterns.c:21-65 | from PWM_PERIOD the ramp stays on the ladder 99, 88, ..., 0 and a nonzero step lowers the compare by exactly 11 |
| ModulationPatterns.RampWrapsBelowEleven | FW/firmware.cydsn/ModulationPatterns.c:26-28 | a compare between 1 and 10 wraps around in uint8_t to a value above PWM_PERIOD |
| ModulationPatterns.DutyCompare | FW/firmware.cydsn/ModulationPatterns.c:85-91 | the compare for a duty cycle is at most PWM_PERIOD, compare plus duty is PWM_PERIOD up to 99 %, and 100 % gives compare 0 |
| ModulationPatterns.TableComparesInRange | FW/firmware.cydsn/ModulationPatterns.h:29-54 | every entry of both tables gives a compare within the period, and the 100 % entries compare 0 |
| ModulationPatterns.TriangleStep | FW/firmware.cydsn/ModulationPatterns.c:126-252 | Mod_Triangle's five cases: rising at 0 restarts at PWM_PERIOD disabled, rising at 1 turns to 3 falling, rising otherwise drops by 2; falling at 97 disables at PWM_PERIOD, falling at PWM_PERIOD turns to 97 rising, falling otherwise climbs by 2 |
| ModulationPatterns.TriangleStaysOdd | FW/firmware.cydsn/ModulationPatterns.c:126-252 | started at compare 0 the pattern keeps odd compares within the period |
| ModulationPatterns.TriangleTurns | FW/firmware.cydsn/ModulationPatterns.c:132-134 | on the odd ladder the direction changes exactly at compare 1 rising and compare PWM_PERIOD falling |
| ModulationPatterns.Modulation.constructor | FW/firmware.cydsn/ModulationPatterns.h:36-57 | every pattern global starts at 0, with the triangle rising |
| ModulationPatterns.Modulation.Ramp | FW/firmware.cydsn/ModulationPatterns.c:21-65 | all eight compare registers and the kill register take RampStep of the compare read back from PWM_AS_HC |
| ModulationPatterns.Modulation.Sine | FW/firmware.cydsn/ModulationPatterns.c:75-116 | sine_dc is the table entry at lut_idx, which advances modulo 50; duty 0 disables the output and leaves the compares, any other duty enables it and writes DutyCompare to all eight registers |
| ModulationPatterns.Modulation.TriangleWave | FW/firmware.cydsn/ModulationPatterns.c:126-252 | all eight compares, the kill register and trng_state take TriangleStep of the compare read back and the state |
| ModulationPatterns.Modulation.SquareTriangle | FW/firmware.cydsn/ModulationPatterns.c:262-303 | sqtr_dc is the table entry at lut_sqtr_idx, which advances modulo 100; duty 0 disables the output, any other duty enables it and writes DutyCompare to all eight registers |
| Utils.GasSensor.constructor | FW/firmware.cydsn/Gas_Sensor.h:21-62 | the eight sensor voltages of gas_sensor and their global copies start at 0 |
| Utils.Conversion | FW/firmware.cydsn/Utils.c:140-156 | GasSensor_VoltRead's clamp: a conversion within 0 .. 65535 is kept, a larger one saturates at 65535, a negative one reads 0, so the result is always in 0 .. 65535 |
| Utils.GasSensorVoltRead | FW/firmware.cydsn/Utils.c:140-156 | consumes exactly one ADC conversion and returns its clamped value |
| Utils.FrameFields | FW/firmware.cydsn/Utils.c:67-126 | the eleven words of a data frame: the eight gas voltages in Gas_Sens_Voltage order, then pressure, temperature, humidity |
| Utils.WriteWord | FW/firmware.cydsn/Utils.c:76-79 | word i is written big-endian at bytes 2 + 4i .. 5 + 4i, keeping the words already written and every byte outside those four |
| Utils.WriteChannels | FW/firmware.cydsn/Utils.c:76-107 | bytes 2 .. 33 hold the eight channel words big-endian; no other byte changes |
| Utils.WriteEnvironment | FW/firmware.cydsn/Utils.c:111-124 | bytes 34 .. 45 hold pressure, temperature, humidity big-endian (uint32 casts of the int32 values), keeping the channel words; no other byte changes |
| Utils.BundleData | FW/firmware.cydsn/Utils.c:67-126 | header and tail bytes are untouched, the packet counter at byte 1 advances modulo 256, and all eleven words hold FrameFields of the sensors big-endian |
| Bme280.Concat | FW/firmware.cydsn/BME280_Macros.h:197 | BME280_CONCAT_BYTES of two register bytes is an unsigned 16-bit value |
| Bme280.Le16Pattern | FW/firmware.cydsn/BME280.c:483 | the two little-endian register bytes of a coefficient concatenate back to its value modulo 2^16 |
| Bme280.SignedPattern | FW/firmware.cydsn/BME280.c:484 | the `(int16_t)` cast recovers every int16_t value from its 16-bit pattern |
| Bme280.Le16Signed | FW/firmware.cydsn/BME280.c:484-494 | a signed coefficient written into two registers is parsed back unchanged |
| Bme280.Word | FW/firmware.cydsn/BME280.c:483-494 | word i of the calibration burst, `reg[2i+1] << 8 \| reg[2i]`, is a 16-bit value |
| Bme280.ParseTempPressCalibData | FW/firmware.cydsn/BME280.c:478-496 | every parsed temperature and pressure coefficient and dig_H1 fits its C type (dig_T1, dig_P1 uint16_t, the others int16_t, dig_H1 uint8_t) and no other calibration field changes |
| Bme280.TempPressCalibRoundTrip | FW/firmware.cydsn/BME280.c:478-496 | whatever the previous calibration, parsing the register image of a calibration recovers all twelve temperature and pressure coefficients and dig_H1 |
| Bme280.ParsedCoefficient | FW/firmware.cydsn/BME280.c:483-494 | coefficient i parsed from the register image of a calibration is that calibration's coefficient i |
| Bme280.CoefficientFits | FW/firmware.cydsn/BME280.c:483-494 | coefficient 0 and 3 (dig_T1, dig_P1) are unsigned 16-bit, the others signed 16-bit |
| Bme280.WordBack | FW/firmware.cydsn/BME280.c:483-494 | a 16-bit word read back with the right signedness is the value that was written |
| Bme280.ParsedWord | FW/firmware.cydsn/BME280.c:483-494 | coefficient i of a parsed burst is word i, taken as signed except for dig_T1 and dig_P1 |
| Bme280.CoefficientRoundTrip | FW/firmware.cydsn/BME280.c:483-494 | word i of a calibration's register image is coefficient i modulo 2^16 |
| Bme280.ParseHumidityCalibData | FW/firmware.cydsn/BME280.c:498-517 | the parsed dig_H2 .. dig_H6 fit the widths the register packing gives them and no other calibration field changes |
| Bme280.TwelveBitRoundTrip | FW/firmware.cydsn/BME280.c:510-515 | a 12-bit signed value split into a signed high byte times 16 and a low nibble is rebuilt exactly by `(int8_t)msb * 16 \| lsb` |
| Bme280.HumidityCalibRoundTrip | FW/firmware.cydsn/BME280.c:498-517 | parsing the register image of a humidity calibration recovers dig_H2 .. dig_H6, including the nibble-shared dig_H4 and dig_H5 |
| Bme280.ParseSensorData | FW/firmware.cydsn/BME280.c:519-544 | raw pressure and temperature are 20-bit values and raw humidity a 16-bit value |
| Bme280.Decode20 | FW/firmware.cydsn/BME280.c:529-532 | msb << 12 \| lsb << 4 \| xlsb >> 4 rebuilds a 20-bit reading from its three registers |
| Bme280.SensorDataRoundTrip | FW/firmware.cydsn/BME280.c:519-544 | parsing the register image of any raw reading gives that reading back |
| Bme280.Clamp | FW/firmware.cydsn/BME280.c:596-599 | a clamped value lies within the bounds and a value already inside is kept |
| Bme280.FineTemperature | FW/firmware.cydsn/BME280.c:590-594 | t_fine = var1 + var2 in int32_t arithmetic with truncating division, an int32_t value |
| Bme280.TemperatureFromFine | FW/firmware.cydsn/BME280.c:595-599 | the temperature is always within the clamp [-4000, 8500] (0.01 degC) |
| Bme280.CompensateTemperature | FW/firmware.cydsn/BME280.c:576-601 | returns a temperature in [-4000, 8500] and the t_fine it stores, an int32_t value from which the temperature follows |
| Bme280.TemperatureMonotone | FW/firmware.cydsn/BME280.c:595-599 | for t_fine from 0 to 0x19000000, where t_fine * 5 stays within int32_t, a larger t_fine never gives a lower temperature |
| Bme280.TemperatureRounding | FW/firmware.cydsn/BME280.c:595 | below the upper clamp, `(t_fine * 5 + 128) / 256` is within half a unit of t_fine * 5 / 256 |
| Bme280.PressureDivisor | FW/firmware.cydsn/BME280.c:620-627 | the divisor var1 is computed in int32_t arithmetic with truncating division |
| Bme280.PressureOffset | FW/firmware.cydsn/BME280.c:620-623 | var2 is computed in int32_t arithmetic with truncating division |
| Bme280.U32OfNonZero | FW/firmware.cydsn/BME280.c:630-642 | a nonzero int32_t divisor stays nonzero when cast to uint32_t, so the divisions never divide by zero |
| Bme280.CompensatePressure | FW/firmware.cydsn/BME280.c:603-660 | the pressure is always within [30000, 110000] Pa, and a zero divisor gives exactly 30000 with no division |
| Bme280.HumidityVar5 | FW/firmware.cydsn/BME280.c:678-691 | var5 after its clamp lies in [0, 419430400] |
| Bme280.CompensateHumidity | FW/firmware.cydsn/BME280.c:662-699 | the humidity is always within [0, 102400] (1/1024 %RH) |
| Bme280.HumidityCapRedundant | FW/firmware.cydsn/BME280.c:690-696 | the cap at 102400 never fires: the humidity is var5 / 4096 with var5 already clamped |
| Bme280.CompensateData | FW/firmware.cydsn/BME280.c:546-574 | with none of the three selection bits all outputs are 0; otherwise temperature is compensated first and its t_fine kept, pressure only with bit 0 and humidity only with bit 2, each within its range, the others 0 |
| Bme280.SelectionBits | FW/firmware.cydsn/BME280.c:556-567 | with none of the three low bits set neither the pressure bit nor the humidity bit is set |
| Bme280.TemperatureSample | FW/firmware.cydsn/BME280.c:576-601 | the calibration dig_T1 27504, dig_T2 26435, dig_T3 -1000 and raw temperature 519888 give t_fine 128423 and 2508 (25.08 degC) |
| Bme280Driver.PutMode | FW/firmware.cydsn/BME280.c:303-304 | the mode bits [1:0] take the mode; a mode below 4 leaves bits [7:2] unchanged |
| Bme280Driver.PutHum | FW/firmware.cydsn/BME280.c:170-171 | ctrl_hum bits [2:0] take the oversampling; a value below 8 leaves the other bits unchanged |
| Bme280Driver.PutTemp | FW/firmware.cydsn/BME280.c:223-224 | ctrl_meas bits [7:5] take the oversampling and bits [4:0], mode and pressure field, are unchanged |
| Bme280Driver.PutPress | FW/firmware.cydsn/BME280.c:267-268 | ctrl_meas bits [4:2] take the oversampling and the mode is kept; a value below 8 leaves the temperature field unchanged too |
| Bme280Driver.PutStandby | FW/firmware.cydsn/BME280.c:353-354 | config bits [7:5] take the standby code and bits [4:0] are unchanged |
| Bme280Driver.PutFilter | FW/firmware.cydsn/BME280.c:393-394 | config bits [4:2] take the filter code and bits [1:0] are kept; a code below 8 leaves the standby field unchanged too |
| Bme280Driver.Asleep | FW/firmware.cydsn/BME280.c:316-320 | sleep mode clears bits [1:0] only and changes nothing when already asleep |
| Bme280Driver.Bytes | FW/firmware.cydsn/BME280.c:456-459 | a register burst is the registers from the start address on, in order |
| Bme280Driver.CalibrationFrom | FW/firmware.cydsn/BME280.c:414-442 | the calibration parsed from the two bursts fits every coefficient type and keeps t_fine |
| Bme280Driver.HumidityPrefix | FW/firmware.cydsn/BME280.c:431-437 | the humidity parse depends only on the first seven bytes of its (26-byte) burst |
| Bme280Driver.Masked | FW/firmware.cydsn/BME280.c:106-111 | settings whose fields fit three bits come back unchanged but for the new mode |
| Bme280Driver.MeasTempAfterSetters | FW/firmware.cydsn/BME280.c:106-111 | after the temperature, pressure and mode setters ctrl_meas holds the requested temperature oversampling |
| Bme280Driver.MeasPressAfterSetters | FW/firmware.cydsn/BME280.c:106-111 | after the pressure and mode setters ctrl_meas holds the requested pressure oversampling |
| Bme280Driver.ConfigFieldsAfterSetters | FW/firmware.cydsn/BME280.c:109-110 | after the filter and standby setters config holds both requested codes |
| Bme280Driver.AfterSettersApplied | FW/firmware.cydsn/BME280.c:106-111 | the setter sequence of BME280_Reset leaves every requested field in its register bits |
| Bme280Driver.Low3 | FW/firmware.cydsn/BME280.c:189-190 | the three-bit field read back is below 8 and equals any value below 8 that was written |
| Bme280Driver.Sensor.NoNakWithin | FW/firmware.cydsn/BME280.c:148-412 | a bus without failures over a span of transfers is without failures over every sub-span |
| Bme280Driver.Sensor.constructor | FW/firmware.cydsn/BME280.h:135-141 | a device with the given register image and bus-failure script: no transfer made, the control registers as in the image, and chip id, calibration, data and settings zeroed |
| Bme280Driver.Sensor.Burst | FW/firmware.cydsn/BME280.c:456-459 | a burst read returns the current registers from the address on, control registers included |
| Bme280Driver.Sensor.BurstFixed | FW/firmware.cydsn/BME280.c:422-434 | a burst that avoids the three control registers reads the fixed register image |
| Bme280Driver.Sensor.HumidityBurst | FW/firmware.cydsn/BME280.c:431-434 | the first seven bytes of the humidity burst come from the fixed calibration registers |
| Bme280Driver.Sensor.ReadRegister | FW/firmware.cydsn/BME280.c:716-723 | one transfer: on success the register's value, on a failed transfer the caller's buffer unchanged and BME280_E_COM_FAIL |
| Bme280Driver.Sensor.WriteRegister | FW/firmware.cydsn/BME280.c:87-88 | one transfer: on success the addressed control register takes the value, on failure nothing changes |
| Bme280Driver.Sensor.ReadRegisterMulti | FW/firmware.cydsn/BME280.c:422-425 | one transfer: on success the burst, on failure the caller's buffer |
| Bme280Driver.Sensor.ReadWhoAmI | FW/firmware.cydsn/BME280.c:69-74 | one transfer reading the chip-id register |
| Bme280Driver.Sensor.ReadStatusRegister | FW/firmware.cydsn/BME280.c:122-128 | one transfer reading the status register |
| Bme280Driver.Sensor.GetSensorMode | FW/firmware.cydsn/BME280.c:130-146 | on success settings.mode is bits [1:0] of ctrl_meas; on failure the settings are unchanged |
| Bme280Driver.Sensor.SetMode | FW/firmware.cydsn/BME280.c:290-314 | read-modify-write of ctrl_meas in one or two transfers: on success ctrl_meas is PutMode of the old value and settings.mode the mode, on failure nothing changes; ctrl_hum and config never change; a healthy bus always succeeds |
| Bme280Driver.Sensor.SetSleepMode | FW/firmware.cydsn/BME280.c:316-320 | on success only the mode bits of ctrl_meas are cleared and settings.mode is sleep; on failure nothing changes |
| Bme280Driver.Sensor.SetForcedMode | FW/firmware.cydsn/BME280.c:322-326 | on success the mode bits of ctrl_meas and settings.mode are forced mode; on failure nothing changes |
| Bme280Driver.Sensor.SetNormalMode | FW/firmware.cydsn/BME280.c:328-332 | on success the mode bits of ctrl_meas and settings.mode are normal mode; on failure nothing changes |
| Bme280Driver.Sensor.EnsureSleeping | FW/firmware.cydsn/BME280.c:158-161 | the setters' prologue: on success ctrl_meas is the old value put to sleep and settings.mode is sleep; on failure ctrl_meas and every setting but the mode are unchanged; ctrl_hum and config never change |
| Bme280Driver.Sensor.SetHumidityOversampling | FW/firmware.cydsn/BME280.c:148-199 | on success the sensor is asleep, ctrl_hum bits [2:0] hold the value (other bits kept) and settings.osr_h is the three-bit field read back; config never changes; on failure only settings.mode may change; a healthy bus always succeeds |
| Bme280Driver.Sensor.SetTemperatureOversampling | FW/firmware.cydsn/BME280.c:202-243 | on success ctrl_meas is the old value asleep with bits [7:5] replaced and settings.osr_t the field read back; ctrl_hum and config never change; on failure only settings.mode may change |
| Bme280Driver.Sensor.SetPressureOversampling | FW/firmware.cydsn/BME280.c:246-287 | on success ctrl_meas is the old value asleep with bits [4:2] replaced and settings.osr_p the field read back; ctrl_hum and config never change; on failure only settings.mode may change |
| Bme280Driver.Sensor.SetStandbyTime | FW/firmware.cydsn/BME280.c:335-372 | on success the sensor is asleep, config bits [7:5] hold the code and settings.stanby_time is the field read back; ctrl_hum never changes; on failure only settings.mode may change |
| Bme280Driver.Sensor.SetIIRFilter | FW/firmware.cydsn/BME280.c:375-412 | on success the sensor is asleep, config bits [4:2] hold the code and settings.filter is the field read back; ctrl_hum never changes; on failure only settings.mode may change |
| Bme280Driver.Sensor.PollNvmCopy | FW/firmware.cydsn/BME280.c:92-97 | the status poll makes one to six reads and ends with im_update set exactly when the first read succeeded and the device keeps copying its NVM; a clear bit means a single read |
| Bme280Driver.Sensor.RestoreMeasurement | FW/firmware.cydsn/BME280.c:107-108 | the temperature and pressure setters of BME280_Reset reapply the stored oversampling to ctrl_meas |
| Bme280Driver.Sensor.RestoreConfig | FW/firmware.cydsn/BME280.c:109-111 | the filter, standby and mode setters reapply the stored codes to config and the stored mode |
| Bme280Driver.Sensor.RestoreSettings | FW/firmware.cydsn/BME280.c:106-111 | without bus failure the six setters leave every register holding the stored settings |
| Bme280Driver.Sensor.Reset | FW/firmware.cydsn/BME280.c:76-120 | a failed reset write gives BME280_E_COM_FAIL and changes nothing; an NVM copy that never ends gives BME280_E_NVM_COPY_FAILED and changes nothing; otherwise the stored settings are reapplied, and on a healthy bus the registers hold them |
| Bme280Driver.Sensor.ReadCalibrationData | FW/firmware.cydsn/BME280.c:414-442 | two bursts: success exactly when both transfers succeed, giving CalibrationFrom; a failed first burst changes nothing; a failed second one keeps the temperature and pressure half |
| Bme280Driver.Sensor.Identified | FW/firmware.cydsn/BME280.c:44-50 | after a matching who-am-i chip_id is 0x60; an unending NVM copy never succeeds; success means the calibration was read; on a healthy bus with a finished NVM copy it succeeds with the stored settings reapplied |
| Bme280Driver.Sensor.Start | FW/firmware.cydsn/BME280.c:26-68 | BME280_E_DEV_NOT_FOUND exactly when the chip id is wrong or all five who-am-i reads fail, after exactly five transfers and with nothing changed; otherwise chip_id is set, and on a healthy bus the start succeeds with the calibration read and the stored settings reapplied |
| Bme280Driver.Sensor.ReadData | FW/firmware.cydsn/BME280.c:444-476 | success exactly when the status read succeeds and either a conversion is running (no burst, raw data and data unchanged) or the burst succeeds; after a successful burst the raw reading is parsed and compensated by CompensateData; on a failure raw data, data and calibration are unchanged |
| Bme280Driver.Sensor.StoreHumidity | FW/firmware.cydsn/BME280.c:814-819 | on a successful setter array[1] and the EEPROM cell take the read-back field; otherwise neither changes |
| Bme280Driver.Sensor.StoreTemperature | FW/firmware.cydsn/BME280.c:821-825 | the same for array[2] and the temperature cell |
| Bme280Driver.Sensor.StorePressure | FW/firmware.cydsn/BME280.c:827-831 | the same for array[3] and the pressure cell |
| Bme280Driver.Sensor.StoreStandby | FW/firmware.cydsn/BME280.c:833-837 | the same for array[4] and the standby cell |
| Bme280Driver.Sensor.StoreFilter | FW/firmware.cydsn/BME280.c:839-843 | the same for array[5] and the filter cell |
| Bme280Driver.Sensor.StoreOversampling | FW/firmware.cydsn/BME280.c:814-831 | the three oversampling fields each follow their own setter's outcome |
| Bme280Driver.Sensor.StoreTiming | FW/firmware.cydsn/BME280.c:833-843 | standby and filter each follow their own setter's outcome |
| Bme280Driver.Sensor.StoreAll | FW/firmware.cydsn/BME280.c:814-843 | each of the five fields of array and EEPROM changes only when its setter succeeded; on a healthy bus all five are applied |
| Bme280Driver.Sensor.SetRegisters | FW/firmware.cydsn/BME280.c:803-846 | array[i] and its EEPROM cell are overwritten with the read-back field only when that setter returned OK, and the sensor ends in normal mode on a healthy bus with all five settings applied |
| Firmware.Enabled | FW/firmware.cydsn/main.c:123-127 | counts the enabled patterns, at most five, and is 0 exactly when no pattern is enabled |
| Firmware.CommandModes | FW/firmware.cydsn/main.c:117-300 | the command switch keeps at most one pattern enabled; a pattern command switches on exactly its own pattern when none was running and changes nothing otherwise; 'a' starts and 's' stops streaming; every other byte leaves the modes unchanged |
| Firmware.ValveCommand | FW/firmware.cydsn/main.c:305-354 | exactly 'h', 'y', 'e' and 'i' drive the hydraulics; each pump follows its valve; the inlet side is high exactly for 'h' and 'e', the outlet side exactly for 'y' and 'e', and both are low for 'i' |
| Firmware.CommandEffect | FW/firmware.cydsn/main.c:117-357 | one received byte: the modes follow CommandModes, the timers are either reset or unchanged, UART output is only appended, a settings request is raised only by 'g', and the PWM kill line changes only for 's', 'O' and 'o' |
| Firmware.PatternCommandEffect | FW/firmware.cydsn/main.c:122-201 | a pattern command changes only the modes, and resets the timers exactly when no pattern was running |
| Firmware.PatternsOff | FW/firmware.cydsn/main.c:209-213 | disables all five patterns and keeps streaming |
| Firmware.HeatersOnEffect | FW/firmware.cydsn/main.c:219-280 | 's' (which also stops streaming) and 'O' disable the patterns, reset the timers, enable PWM and put all compare values to 0 (heater fully on) |
| Firmware.HeatersOffEffect | FW/firmware.cydsn/main.c:281-300 | 'o' disables the patterns, resets the timers and disables PWM |
| Firmware.StartEffect | FW/firmware.cydsn/main.c:202-218 | 'a' does nothing while streaming; otherwise it starts streaming with all patterns off and the timers reset |
| Firmware.NotACommand | FW/firmware.cydsn/main.c:355-356 | any byte outside the command set leaves the board's controls unchanged |
| Firmware.OneStepAtATime | FW/firmware.cydsn/Interrupts.c:44-56 | while at most one pattern is enabled the 200 ms interrupt raises at most one pattern step flag, so at most one pattern drives the PWM |
| Firmware.Next | FW/firmware.cydsn/main.c:113 | the uint8_t receiver state wraps from 255 to 0 on `state++` |
| Firmware.Dispatch | FW/firmware.cydsn/main.c:361-484 | the settings state switch keeps the packet buffer seven bytes long and the state at most SET_F |
| Firmware.SettingsStep | FW/firmware.cydsn/main.c:113-484 | one received byte: HEAD is entered exactly from IDLE on the header byte, other bytes in IDLE change nothing, a packet is completed only by the tail byte after the five fields, and any other byte after the fields discards the packet |
| Firmware.Feed | FW/firmware.cydsn/main.c:105-486 | feeding a byte sequence keeps the buffer seven bytes long |
| Firmware.FeedOne | FW/firmware.cydsn/main.c:105-486 | feeding bytes is feeding the first byte, then the rest |
| Firmware.FieldStep | FW/firmware.cydsn/main.c:371-446 | in field state k a byte is stored when it is a valid code for that field and the stored value is kept otherwise; field k's flag records validity and the state advances |
| Firmware.Rebuilt | FW/firmware.cydsn/main.c:361-449 | the seven stores of a whole packet, header to tail, leave the packet buffer holding exactly those seven bytes |
| Firmware.FieldSteps | FW/firmware.cydsn/main.c:371-446 | five bytes after the header store the valid oversampling, standby and filter codes, keep the old values for the invalid ones, set the five flags accordingly and end in SET_F |
| Firmware.HeaderStep | FW/firmware.cydsn/main.c:362-370 | in IDLE the header byte starts a packet and is stored at position 0 |
| Firmware.TailStep | FW/firmware.cydsn/main.c:447-454 | in SET_F the tail byte ends the packet: stored at position 6, new-settings flag raised, back to IDLE |
| Firmware.PacketSteps | FW/firmware.cydsn/main.c:361-469 | a header, five fields and a tail give the packet of the header, the accepted fields and the tail, with the validity flags set and the ready flag raised |
| Firmware.PacketReceived | FW/firmware.cydsn/main.c:105-484 | fed a whole settings packet from IDLE, the receiver ends idle with the new-settings flag raised, the five validity flags, and exactly the accepted fields in its buffer |
| Firmware.ActualReply | FW/firmware.cydsn/main.c:647-653 | the settings reply is seven bytes: its header, the five EEPROM cells in order, and its tail |
| Firmware.StoredCells | FW/firmware.cydsn/main.c:556-645 | each of the five EEPROM cells takes the requested value when its setter succeeded and is kept otherwise |
| Firmware.WriteBackMirrors | FW/firmware.cydsn/BME280.c:814-843 | writing back the reply's own fields keeps the reply equal to the reply built from the cells, and every cell stays within its field's range |
| Firmware.ReplyEntries | FW/firmware.cydsn/main.c:71-77 | the reply lists header, five cells, tail |
| Firmware.CellsUpdated | FW/firmware.cydsn/main.c:647-653 | writing five values into the five cells gives those five values |
| Firmware.ReplyUpdated | FW/firmware.cydsn/main.c:647-653 | rewriting the reply's five fields is the reply of the rewritten cells |
| Firmware.InitIsr | FW/firmware.cydsn/main.c:33-67 | all flags shared with the interrupts start cleared and the counters at their initial values |
| Firmware.InitModes | FW/firmware.cydsn/main.c:33-39 | no byte pending, no streaming and no pattern enabled |
| Firmware.InitSteps | FW/firmware.cydsn/main.c:41-52 | no 200 ms tick and no pattern step pending |
| Firmware.InitCounters | FW/firmware.cydsn/main.c:53-67 | the 200 ms counter starts at -1, the watchdog counter at 0, and no read flag is set |
| Firmware.InitModulation | FW/firmware.cydsn/main.c:44-52 | the pattern state starts at its initial values |
| Firmware.Board.constructor | FW/firmware.cydsn/main.c:28 | a board in a consistent state with the settings receiver idle |
| Firmware.Board.ReceiveByte | FW/firmware.cydsn/main.c:107-486 | handling a received byte clears the rx flag, resets the watchdog, gives the controls CommandEffect and the receiver SettingsStep, and keeps the step flags in line with the enabled patterns |
| Firmware.Board.ProcessByte | FW/firmware.cydsn/main.c:113-484 | the command switch and the settings switch of one byte, as CommandEffect and SettingsStep |
| Firmware.Board.CountAndHandle | FW/firmware.cydsn/main.c:113-357 | the receiver state steps by Next and the command switch acts as CommandEffect |
| Firmware.Board.HandleCommand | FW/firmware.cydsn/main.c:117-357 | the command switch acts on the controls as CommandEffect and keeps the step flags in line with the enabled patterns |
| Firmware.Board.Connect | FW/firmware.cydsn/main.c:118-121 | 'v' sends the connection string and changes nothing else |
| Firmware.Board.RequestSettings | FW/firmware.cydsn/main.c:301-304 | 'g' raises the settings request only |
| Firmware.Board.StartStream | FW/firmware.cydsn/main.c:202-218 | 'a' as StartEffect |
| Firmware.Board.StopPatterns | FW/firmware.cydsn/main.c:209-216 | disables the patterns and resets the timers, nothing else |
| Firmware.Board.HeatersOn | FW/firmware.cydsn/main.c:219-280 | 's' and 'O' as HeatersOnEffect |
| Firmware.Board.FullPower | FW/firmware.cydsn/main.c:250-280 | patterns off, timers reset, PWM enabled and every compare value 0 |
| Firmware.Board.HeatersOff | FW/firmware.cydsn/main.c:281-300 | 'o' as HeatersOffEffect |
| Firmware.Board.EnablePattern | FW/firmware.cydsn/main.c:122-201 | a pattern command as PatternCommandEffect |
| Firmware.Board.SwitchOnPattern | FW/firmware.cydsn/main.c:123-136 | with no pattern running, a pattern command enables exactly its pattern and resets the timers |
| Firmware.Board.SelectPattern | FW/firmware.cydsn/main.c:128-132 | the five enable flags become those of CommandModes |
| Firmware.Board.ResetTiming | FW/firmware.cydsn/Interrupts.c:175-201 | Reset_TIMER brings every counter, step flag and table index back to its reset value |
| Firmware.Board.DisablePatterns | FW/firmware.cydsn/main.c:223-230 | clears the five enable flags |
| Firmware.Board.SetValves | FW/firmware.cydsn/main.c:305-354 | the hydraulics commands as CommandEffect: pumps and valves driven per ValveCommand |
| Firmware.Board.SettingsSwitch | FW/firmware.cydsn/main.c:361-484 | the settings state switch acts on the receiver as Dispatch |
| Firmware.Board.ReadHeader | FW/firmware.cydsn/main.c:362-370 | the HEAD case as Dispatch |
| Firmware.Board.ReadOversampling | FW/firmware.cydsn/main.c:371-415 | the SET_H, SET_T and SET_P cases as Dispatch |
| Firmware.Board.ReadTiming | FW/firmware.cydsn/main.c:416-446 | the SET_S and SET_F cases as Dispatch |
| Firmware.Board.Store | FW/firmware.cydsn/main.c:379 | stores one byte of the packet buffer, the others kept |
| Firmware.Board.Discard | FW/firmware.cydsn/main.c:455-468 | a wrong tail clears the packet buffer, the flags and the state |
| Firmware.Board.ClearPacket | FW/firmware.cydsn/main.c:456-458 | the packet buffer is all zeros |
| Firmware.Board.CheckWatchdog | FW/firmware.cydsn/main.c:490-501 | a packet in progress when the five-second flag fires is dropped: state IDLE, buffer zeroed, flag cleared and the watchdog message sent; otherwise nothing changes |
| Firmware.Board.RunPatterns | FW/firmware.cydsn/main.c:504-536 | with one pending step the PWM follows that pattern's step function (ramp, sine table, triangle, square-triangle table); with none it is unchanged; the tick flag is cleared exactly when a step ran, and equal compare values stay equal |
| Firmware.Board.RampAndSine | FW/firmware.cydsn/main.c:504-520 | the ramp and sine blocks as RampStep and the sine table |
| Firmware.Board.TriangleAndSquareTriangle | FW/firmware.cydsn/main.c:523-536 | the triangle and square-triangle blocks as TriangleStep and the square-triangle table |
| Firmware.Board.RampBlock | FW/firmware.cydsn/main.c:505-509 | a pending ramp step drives all compares to RampStep of the current value |
| Firmware.Board.SineBlock | FW/firmware.cydsn/main.c:516-520 | a pending sine step takes the next table entry, advances the index modulo the table length and disables PWM on a 0 entry |
| Firmware.Board.TriangleBlock | FW/firmware.cydsn/main.c:524-528 | a pending triangle step applies TriangleStep to the compare value and direction |
| Firmware.Board.SquareTriangleBlock | FW/firmware.cydsn/main.c:532-536 | a pending square-triangle step takes the next table entry, advances the index modulo the table length and disables PWM on a 0 entry |
| Firmware.Board.ServeSettingsRequest | FW/firmware.cydsn/main.c:540-547 | a pending request is answered with the seven reply bytes when not streaming, and cleared in any case |
| Firmware.Board.RebuildActualSettings | FW/firmware.cydsn/main.c:647-653 | the reply array again mirrors the EEPROM cells |
| Firmware.Board.ApplyNewSettings | FW/firmware.cydsn/main.c:551-659 | a ready packet is applied only when not streaming: each cell takes its requested value when that setter succeeded, the flags are cleared, the reply is sent, and on a healthy bus all five settings reach the sensor, which is left in sleep mode; otherwise only the ready flag is cleared, and the sensor, its transfers, EEPROM, the reply array and the UART are untouched |
| Firmware.Board.ApplyNewSettingsAwake | FW/firmware.cydsn/main.c:551-659 | the same packet handling followed by BME280_SetNormalMode, as BME280_SetRegisters ends (BME280.c:845): on a healthy bus all five settings reach the sensor and it is back in normal mode; otherwise only the ready flag is cleared |
| Firmware.Board.StorePacket | FW/firmware.cydsn/main.c:554-655 | the requested values (the packet field when its flag is set, else the field's default) go through the driver setters into the EEPROM and the reply is sent |
| Firmware.Board.StoreRequested | FW/firmware.cydsn/main.c:557-655 | the five values go through the setters, each cell kept on failure, and the reply so built is sent |
| Firmware.Requested | FW/firmware.cydsn/main.c:556-639 | each setter gets the received byte when its field's flag is up and the field's default when it is not, with the value unchanged by the cast |
| Firmware.Board.Startup | FW/firmware.cydsn/main.c:20-95 | after initialisation every flag is in its initial state, the reply mirrors the EEPROM and the data frame is framed with counter 0; a failed sensor start sends the failure message and leaves the EEPROM alone; a successful one sends nothing and keeps every cell within its range |
| Firmware.Board.InitFlags | FW/firmware.cydsn/main.c:26-67 | every flag and counter in its initial state |
| Firmware.Board.PrepareBuffers | FW/firmware.cydsn/main.c:70-84 | the reply mirrors the EEPROM, the data frame has its header and tail and counter 0, and the packet buffer is zeroed |
| Firmware.Board.StartSensor | FW/firmware.cydsn/main.c:88-95 | a failed start sends the failure message and leaves the EEPROM alone; a successful one sends nothing |
| Firmware.Board.StartDriver | FW/firmware.cydsn/main.c:88 | BME280_Start's outcome is one of its four codes |
| Firmware.Board.ConfigureSensor | FW/firmware.cydsn/main.c:91 | BME280_SetRegisters keeps every EEPROM cell within its field's range |
| Firmware.Board.WriteBack | FW/firmware.cydsn/BME280.c:817-841 | array entries 1 .. 5 take the given values, the others are kept |
| Firmware.Board.SendData | FW/firmware.cydsn/main.c:663-679 | while streaming: the frame counter steps modulo 256, the frame holds the eight channel voltages and the three BME280 values, the whole frame is sent and the read flags are cleared; otherwise nothing changes |
| Hardware.Pwm.WriteCompares | FW/firmware.cydsn/ModulationPatterns.c:30-39 | all compare registers take the value |
| Hardware.Eeprom.WriteByte | FW/firmware.cydsn/main.c:563 | one cell takes the value, the others are kept; afterwards ReadByte (EEPROM_ReadByte, as main.c:647-653 uses it) gives the value at that address and the old byte everywhere else |
| Hardware.Uart.PutArray | FW/firmware.cydsn/main.c:672 | the bytes are appended to what was sent |
| Hardware.Uart.PutString | FW/firmware.cydsn/main.c:94 | the string's bytes are appended to what was sent |
| Hardware.Adc.Read32 | FW/firmware.cydsn/Utils.c:145 | each conversion is the next sample of the ADC's sample sequence |
| Hardware.Hydraulics.constructor | FW/firmware.cydsn/Utils.c:40-43 | pumps and valves start low |
| Hardware.MuxLines.constructor | FW/firmware.cydsn/Utils.c:34-38 | the mux address and enable lines start low |
| CInt.Quot | FW/firmware.cydsn/BME280.c:590-593 | C's `/`: truncates toward zero, so the quotient's magnitude is |a| / |b| and its sign is that of a times b |
| CInt.U8 | FW/firmware.cydsn/Utils.c:73 | a uint8_t result wraps modulo 256 and keeps values in range |
| CInt.U32 | FW/firmware.cydsn/BME280.c:633-634 | a uint32_t cast wraps modulo 2^32 and keeps values in range |
| CInt.I32 | FW/firmware.cydsn/BME280.c:590-594 | int32_t arithmetic wraps modulo 2^32 into the signed range and keeps values in range |
| CInt.I16 | FW/firmware.cydsn/BME280.c:484 | an int16_t cast wraps modulo 2^16 into the signed range and keeps values in range |
| CInt.I8 | FW/firmware.cydsn/BME280.c:510-515 | an int8_t cast of a byte is in the signed range and congruent modulo 256 |
| CInt.BigEndian32 | FW/firmware.cydsn/Utils.c:76-79 | the four big-endian bytes of a word, shifted and or-ed together, give back the word modulo 2^32 |
| CInt.FromBigEndian32 | GUI/mip/communication/mserial.py:685-752 | the integer part of `convert_temperature`, `convert_humidity`, `convert_pressure` and `convert_voltage`: four bytes joined most significant first give an unsigned 32-bit value |
| CInt.FromBigEndianRoundTrip | GUI/mip/communication/mserial.py:696-701 | splitting the joined value of four bytes into its big-endian bytes gives the four bytes back |
| CInt.SignedFromUnsigned | FW/firmware.cydsn/BME280.c:645 | reading an int32_t's uint32_t pattern back as int32_t gives the value |
| MSerialCodec.OversamplingCode | GUI/mip/communication/mserial.py:523-530 | defined exactly on the six oversampling names of the dialog, each giving a code 0 .. 5 |
| MSerialCodec.StandbyCode | GUI/mip/communication/mserial.py:531-540 | defined exactly on the eight standby names, each giving a code 0 .. 7 |
| MSerialCodec.FilterCode | GUI/mip/communication/mserial.py:541-547 | defined exactly on the five filter names, each giving a code 0 .. 4 |
| MSerialCodec.OversamplingName | GUI/mip/communication/mserial.py:589-598 | get_bme280_oversampling_conf_value is defined exactly on the codes 0 .. 5 |
| MSerialCodec.StandbyName | GUI/mip/communication/mserial.py:600-611 | get_bme280_standby_time_conf_value is defined exactly on the codes 0 .. 7 |
| MSerialCodec.FilterName | GUI/mip/communication/mserial.py:578-587 | get_bme280_iir_filter_conf_value is defined exactly on the codes 0 .. 4 |
| MSerialCodec.OversamplingRoundTrip | GUI/mip/communication/mserial.py:523-598 | the oversampling name and code tables are inverse to each other in both directions |
| MSerialCodec.StandbyRoundTrip | GUI/mip/communication/mserial.py:531-611 | the standby tables are inverse to each other in both directions |
| MSerialCodec.FilterRoundTrip | GUI/mip/communication/mserial.py:541-587 | the filter tables are inverse to each other in both directions |
| MSerialCodec.GetBme280ConfCmds | GUI/mip/communication/mserial.py:498-556 | five codes in the order humidity, temperature, pressure, standby, filter, each decoding back to the name it came from; defined exactly when every name is in its table (KeyError otherwise) |
| MSerialCodec.GetResistanceAsWritten | GUI/mip/communication/mserial.py:791-798 | get_resistance as written: no channel gives the list, 0 .. 7 the value, a number below 0 or above 8 gives 0 |
| MSerialCodec.GetResistanceChannel8 | GUI/mip/communication/mserial.py:791-798 | channel 8 passes the guard and raises IndexError |
| MSerialCodec.GetResistance | GUI/mip/communication/mserial.py:791-798 | with the guard corrected to 7: never an IndexError; a channel 0 .. 7 gives its value, any other number 0 |
| MSerialCodec.GetResistanceAgrees | GUI/mip/communication/mserial.py:791-798 | the corrected guard differs from the code as written only at channel 8 |
| MSerialReader.Need | GUI/mip/communication/mserial.py:346-455 | the bytes each read takes: 32 channel bytes in state 2 of a data packet, 12 environment bytes in state 3 |
| MSerialReader.Dispatch | GUI/mip/communication/mserial.py:451-452 | every registered callback is called once with the packet, in registration order |
| MSerialReader.Channels | GUI/mip/communication/mserial.py:386-406 | the 32 channel bytes as eight unsigned 32-bit words, in order |
| MSerialReader.IdleStep | GUI/mip/communication/mserial.py:346-355 | read state 0: the data header opens a data frame and the settings header a settings reply, both in state 1; any other byte is dropped; nothing else changes |
| MSerialReader.HeadStep | GUI/mip/communication/mserial.py:357-381 | read state 1: a data frame's byte becomes the packet counter; a settings reply's five bytes are decoded into the settings properties, reaching state 2 when all five decode and raising otherwise |
| MSerialReader.BodyStep | GUI/mip/communication/mserial.py:383-412 | read state 2: a data frame's 32 bytes become the eight channel words, in state 3; a settings reply returns to state 0 on its tail and otherwise waits |
| MSerialReader.EnvironmentStep | GUI/mip/communication/mserial.py:413-427 | read state 3: pressure, temperature and humidity, four bytes each in that order, in state 4; counter and channels kept |
| MSerialReader.Packet | GUI/mip/communication/mserial.py:437-450 | a packet exists exactly when counter, channels and environment words have all been read, and it holds them in the matching fields |
| MSerialReader.TailStep | GUI/mip/communication/mserial.py:428-455 | read state 4 always returns to 0; the data tail counts one sample and calls every callback with the packet, raising when a local was never assigned; any other byte drops the frame |
| MSerialReader.DecodeSettings | GUI/mip/communication/mserial.py:362-380 | the five settings bytes decode exactly when each is in its table, giving the five names; an unknown humidity code raises before any name is stored |
| MSerialReader.Step | GUI/mip/communication/mserial.py:346-455 | one pass of the read loop keeps the reader's state in 0 .. 4 with its packet kind |
| MSerialReader.Run | GUI/mip/communication/mserial.py:342-456 | the read loop ends with a raised exception or fewer bytes waiting than the next read needs, and consumes only input |
| MSerialReader.RunStep | GUI/mip/communication/mserial.py:343-456 | reading is one step on the first bytes, then reading the rest |
| MSerialReader.RunBlock | GUI/mip/communication/mserial.py:343-456 | reading a block and what follows is one step on the block, then reading the rest |
| MSerialReader.IdleHeader | GUI/mip/communication/mserial.py:346-355 | in state 0 exactly the data and settings headers start a packet, recording its kind; any other byte is dropped |
| MSerialReader.IdleDiscards | GUI/mip/communication/mserial.py:346-355 | in state 0 bytes that are neither header are all discarded and nothing else changes |
| MSerialReader.TailDelivers | GUI/mip/communication/mserial.py:428-455 | in state 4 the reader returns to state 0; the data tail counts the sample and calls every callback with the packet, any other byte skips the packet |
| MSerialReader.FramePacket | GUI/mip/communication/mserial.py:437-450 | the packet built from a frame: counter byte 1, channels from bytes 2 .. 33, then pressure, temperature and humidity words |
| MSerialReader.FrameHead | GUI/mip/communication/mserial.py:346-361 | a data frame's header and counter bring the reader to state 2 with the counter stored |
| MSerialReader.FrameChannels | GUI/mip/communication/mserial.py:383-407 | the 32 channel bytes bring the reader to state 3 with the channels stored |
| MSerialReader.EnvironmentPass | GUI/mip/communication/mserial.py:413-427 | twelve bytes bring the reader to state 4 with pressure, temperature and humidity words stored, in that order |
| MSerialReader.FrameEnvironment | GUI/mip/communication/mserial.py:413-427 | the environment bytes of a frame are read as its pressure, temperature and humidity words |
| MSerialReader.FrameUpToTail | GUI/mip/communication/mserial.py:346-427 | a frame up to its tail leaves the reader in state 4 holding exactly the frame's packet fields |
| MSerialReader.DataFrameRead | GUI/mip/communication/mserial.py:342-456 | a whole data frame from state 0 delivers its packet to every callback, counts one sample and returns to state 0 |
| MSerialReader.SettingsRead | GUI/mip/communication/mserial.py:346-381 | a settings header and five decodable bytes store the five names and wait in state 2 for the tail |
| MSerialReader.ConfTailAwaited | GUI/mip/communication/mserial.py:408-412 | while waiting for the settings tail every other byte is consumed with no change |
| MSerialReader.ConfTailEnds | GUI/mip/communication/mserial.py:408-412 | the settings tail, after any other bytes, returns the reader to state 0 |
| MSerial.ModulationCommand | GUI/mip/communication/mserial.py:655-679 | defined exactly on the seven pattern names of the dialog |
| MSerial.ModulationCommandInjective | GUI/mip/communication/mserial.py:68-74 | distinct pattern names send distinct command bytes |
| MSerial.HydraulicsCommand | GUI/mip/communication/mserial.py:643-653 | each of the four switch pairs sends its own command byte, one byte per pair in both directions |
| MSerial.HydraulicsCommandInjective | GUI/mip/communication/mserial.py:643-653 | the four switch settings send four distinct command bytes |
| MSerial.MipSerial.constructor | GUI/mip/communication/mserial.py:171-183 | a disconnected, not streaming port in read state 0 with no samples, the exporter as the only callback, and nothing sent or received |
| MSerial.MipSerial.AddCallback | GUI/mip/communication/mserial.py:214-224 | a callback is appended only when not already registered |
| MSerial.MipSerial.StartStreaming | GUI/mip/communication/mserial.py:299-322 | when connected, marks streaming and zeroes the sample count, and sends 'a' when the write succeeds (a failed write is only logged); otherwise changes nothing |
| MSerial.MipSerial.StopStreaming | GUI/mip/communication/mserial.py:324-340 | when connected and the write succeeds, sends 's', clears streaming and resets the read state; when not connected or the write fails, changes nothing |
| MSerial.MipSerial.SetHydraulics | GUI/mip/communication/mserial.py:643-653 | sends exactly the one byte for the switch pair |
| MSerial.MipSerial.SetTemperatureModulationPattern | GUI/mip/communication/mserial.py:655-679 | a known pattern name sends its byte and becomes the current pattern; an unknown one sends nothing and changes nothing |
| MSerial.MipSerial.RetrieveBme280Configuration | GUI/mip/communication/mserial.py:481-493 | sends 'g' exactly when the port is open and the board connected |
| MSerial.MipSerial.SetBme280Settings | GUI/mip/communication/mserial.py:613-641 | when connected sends the header, and then the five codes and the tail when all names are known; an unknown name raises after the header; when not connected sends nothing |
| MSerial.MipSerial.ReadBytes | GUI/mip/communication/mserial.py:347 | takes the first n waiting bytes, in order |
| MSerial.MipSerial.StoreSettings | GUI/mip/communication/mserial.py:362-380 | the five names as DecodeSettings gives them, raising exactly when a code is unknown |
| MSerial.MipSerial.Deliver | GUI/mip/communication/mserial.py:451-452 | records one call per registered callback with the packet |
| MSerial.MipSerial.IdlePass | GUI/mip/communication/mserial.py:346-355 | the state-0 branch as the reader's idle step |
| MSerial.MipSerial.HeadPass | GUI/mip/communication/mserial.py:357-381 | the state-1 branch as the reader's head step |
| MSerial.MipSerial.BodyPass | GUI/mip/communication/mserial.py:383-412 | the state-2 branch as the reader's body step |
| MSerial.MipSerial.EnvironmentPass | GUI/mip/communication/mserial.py:413-427 | the state-3 branch as the reader's environment step |
| MSerial.MipSerial.TailPass | GUI/mip/communication/mserial.py:428-455 | the state-4 branch as the reader's tail step |
| MSerial.MipSerial.ReadPass | GUI/mip/communication/mserial.py:344-455 | one pass of the loop acts on the interface state exactly as Step |
| MSerial.MipSerial.ReadData | GUI/mip/communication/mserial.py:342-456 | when connected, the loop leaves the interface in the state Run gives for the waiting bytes; when not, nothing changes |
| Protocol.SentPacket | FW/firmware.cydsn/Utils.c:67-126 | the packet the GUI should build from a frame has eight channel values |
| Protocol.WordDecodes | FW/firmware.cydsn/Utils.c:76-79 | every word BundleData packs is read back by the GUI's decoders as the unsigned value of its 32-bit pattern |
| Protocol.ChannelDecodes | GUI/mip/communication/mserial.py:386-406 | channel i is the word at frame bytes 2 + 4i .. 5 + 4i |
| Protocol.ChannelsDecode | FW/firmware.cydsn/Utils.c:76-107 | the eight channel voltages packed by BundleData are the GUI's eight channel values, as unsigned 32-bit values |
| Protocol.FramePacketFields | FW/firmware.cydsn/Utils.c:67-126 | the GUI's packet from a BundleData frame holds the frame's counter, channel voltages, pressure, temperature and humidity |
| Protocol.FrameReceived | FW/firmware.cydsn/main.c:663-679 | a frame sent by the firmware is read by the GUI as exactly one packet, delivered to every callback, counted once, with the reader back in state 0 |
| Protocol.WordValues | GUI/mip/communication/mserial.py:685-701 | a non-negative reading is decoded as itself; a negative temperature is decoded as itself plus 2^32, and the firmware's int32_t value is its signed reading |
| Protocol.SettingsPacket | GUI/mip/communication/mserial.py:632-637 | the settings packet is the header 't', the five codes and the tail 'T' |
| Protocol.SettingsAccepted | FW/firmware.cydsn/main.c:361-469 | every packet the GUI can send is accepted whole by the firmware's receiver, all five fields valid |
| Protocol.ReplyBytes | FW/firmware.cydsn/main.c:647-653 | the settings reply is the GUI's settings header, the five cells and the settings tail |
| Protocol.ReplyShape | FW/firmware.cydsn/main.c:647-653 | the reply is header, five bytes, tail |
| Protocol.CellsDecode | GUI/mip/communication/mserial.py:362-380 | cells within the tables decode to their names |
| Protocol.ReplyDecodes | GUI/mip/communication/mserial.py:346-412 | the firmware's reply, cells within the tables, is read by the GUI as those cells' names and the reader returns to state 0 |
| Protocol.ReplyOutOfTable | GUI/mip/communication/mserial.py:366-368 | a humidity cell above 5 makes the GUI's decoder raise before any name is stored |
| Protocol.CodeKept | FW/firmware.cydsn/BME280.c:189-190 | a code below 8 is read back from the register field unchanged |
| Protocol.CodesStored | FW/firmware.cydsn/main.c:556-645 | five codes within range, all setters successful, are stored in the five cells unchanged |
| Protocol.ReceivedPassedOn | FW/firmware.cydsn/main.c:557-645 | the settings with their flags set pass the packet's five fields to the setters |
| Protocol.SettingsRoundTrip | GUI/mip/communication/mserial.py:613-641 | five names the GUI sends, received and stored by the firmware with the setters succeeding, come back as the same five names when the GUI reads the reply |
| Protocol.HydraulicsReachValves | FW/firmware.cydsn/main.c:305-354 | each switch pair of set_hydraulics drives the firmware's inlet pump and valve to the inlet switch and the outlet pair to the outlet switch |
| Protocol.ModulationReachesPatterns | FW/firmware.cydsn/main.c:122-300 | "5V" reaches the firmware's full-on command, "0V" its heaters-off command, and each other name with no pattern running enables exactly that pattern |
| Protocol.StreamingCommands | FW/firmware.cydsn/main.c:202-249 | the GUI's start and stop bytes are the firmware's: start turns streaming on, stop turns it off with every pattern disabled |

## Left out

- Port discovery and connection (`find_port`, `check_mip_port`, `connect`), threads and sleeps are serial I/O. The connection state `connected` is a field that no other thread changes.
- The GUI's floating-point scaling (temperature and pressure divided by 100, humidity by 1000, voltages multiplied by 5 / 2^16) and `update_computed_sample_rate` (datetime) are left out. Only the integer decode is modelled: humidity divided by 1000 against the firmware's 1/1024 %RH is therefore not captured.
- Kivy property bindings, the CSV exporter and the widgets are UI glue. A callback is an opaque identity, and what it does is outside the model.
- MSerial.MipSerial.ReadData: a `port.read` that would wait for bytes not yet received ends the model's loop instead. `Run` stops when fewer bytes are pending than the next read needs.
- MSerial.MipSerial.StartStreaming: the sample-rate strings and packet times it resets are not modelled. A failed write is modelled as sending nothing; a write that sends some bytes and then fails is not modelled.
- MSerial.MipSerial.StopStreaming: a failed write is modelled as sending nothing; a write that sends some bytes and then fails is not modelled.
- The Python exception types (KeyError, IndexError, NameError) are collapsed into one `raised` flag.
- Firmware concurrency is left out: the busy-wait at `main.c:666` and the interleaving of interrupt handlers with the main loop. Each handler body is one atomic method, and `SendData` requires the read flag that the busy-wait waits for.
- Hardware drivers are abstracted as recorded outputs:
  - I2C: a register map;
  - ADC: a sample sequence;
  - UART: the bytes sent;
  - PWM, EEPROM and the pins.
  - `CyDelay` is left out.
  - Interrupts.IsrState.AdcIsr: the `TimerADC_ReadStatusRegister` call that clears the interrupt line and `Internal_MUX_Select(A_OUT)` (`Interrupts.c:128-132`) are left out; the internal multiplexer has one input in use.
  - Interrupts.IsrState.ResetTimer and Interrupts.IsrState.ResetWatchdogTimer: the `Stop`, `WriteCounter` and `Enable` calls that reload Timer200ms, TimerADC and Watchdog (`Interrupts.c:178-180, 194-196, 208-210`) are left out; only the counters and flags these functions reset are modelled.
- The BME280's status, calibration and data registers are a fixed image, so a measurement or NVM copy never finishes during a run. Bme280Driver.Sensor.PollNvmCopy: on a healthy bus the six-read poll therefore ends after the first read or after all six; a failed status read ends it early.
- `BME280_NullPtrCheck` is not modelled: every driver call receives the address of the global `bme280` structure, so the check always succeeds.
- `Utils_StartComponents` is modelled only for its pin levels: Hardware.MuxLines.constructor and Hardware.Hydraulics.constructor start the mux address and enable lines and the pumps and valves low (`Utils.c:34-43`). Its `Start` calls of the peripherals are left out.
- `BME280_DefaultInitRegisters`, `BME280_SendDefaultSettings` and `BME280_SendNewSettings` are not modelled: they are never called, and `main.c` sends the settings reply with its own `UART_PutArray`.
- The `DataPacket` getters other than `get_resistance` return a field and are not modelled separately.

## Findings

| source | as written | input that shows it | evidently intended | confidence | as-written member | corrected member |
|---|---|---|---|---|---|---|
| GUI/mip/communication/mserial.py:791-798 | `get_resistance` rejects channel numbers `> 8`, but there are only eight channels, 0 .. 7 | `get_resistance(8)` passes the guard and indexes `resistance_values[8]`, raising IndexError | the guard `> 7`, returning 0 like any other out-of-range channel | not executed | MSerialCodec.GetResistanceAsWritten (MSerialCodec.GetResistanceChannel8) | MSerialCodec.GetResistance (MSerialCodec.GetResistanceAgrees) |
| FW/firmware.cydsn/main.c:551-659 | each of the five setters puts the BME280 to sleep first (BME280.c:158-161), and this block never calls BME280_SetNormalMode afterwards, unlike BME280_SetRegisters (BME280.c:845) | any settings packet received while not streaming, on a bus where no transfer fails: the sensor is left in sleep mode, so it makes no new conversion and every later BME280_ReadData reads the data registers of the last one | BME280_SetNormalMode after the five setters, as BME280_SetRegisters does at start-up | not executed | Firmware.Board.ApplyNewSettings (its healthy-bus clause gives `ModeField(sensor.ctrlMeas) == SLEEP_MODE`) | Firmware.Board.ApplyNewSettingsAwake |
