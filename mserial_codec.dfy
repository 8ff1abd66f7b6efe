/**
 * The value side of the GUI's serial module (mserial.py): the tables that
 * turn the BME280 settings dialog's names into the register codes the
 * firmware accepts and back, the integer part of the `convert_*`
 * decoders, and the DataPacket handed to the callbacks.
 */
module MSerialCodec {
  import opened CInt

  /** The dictionaries of get_bme280_conf_cmds: dialog name to register code. */
  const OVERSAMPLING_CODES: map<string, byte> :=
    map["Skipped" := 0x00, "x1" := 0x01, "x2" := 0x02, "x4" := 0x03, "x8" := 0x04, "x16" := 0x05]
  const STANDBY_CODES: map<string, byte> :=
    map["0.5" := 0x00, "62.5" := 0x01, "125" := 0x02, "250" := 0x03, "500" := 0x04, "1000" := 0x05,
        "10" := 0x06, "20" := 0x07]
  const FILTER_CODES: map<string, byte> :=
    map["Filter off" := 0x00, "2" := 0x01, "4" := 0x02, "8" := 0x03, "16" := 0x04]

  /** The dictionaries of the get_bme280_*_conf_value decoders: register code to dialog name. */
  const OVERSAMPLING_NAMES: map<int, string> :=
    map[0x00 := "Skipped", 0x01 := "x1", 0x02 := "x2", 0x03 := "x4", 0x04 := "x8", 0x05 := "x16"]
  const STANDBY_NAMES: map<int, string> :=
    map[0x00 := "0.5", 0x01 := "62.5", 0x02 := "125", 0x03 := "250", 0x04 := "500", 0x05 := "1000",
        0x06 := "10", 0x07 := "20"]
  const FILTER_NAMES: map<int, string> :=
    map[0x00 := "Filter off", 0x01 := "2", 0x02 := "4", 0x03 := "8", 0x04 := "16"]

  /** A dictionary lookup: None stands for the KeyError Python raises on a missing key. */
  function Lookup<K, V>(m: map<K, V>, k: K): (r: Option<V>)
    ensures r.Some? <==> k in m
    ensures r.Some? ==> r.value == m[k]
  {
    if k in m then Some(m[k]) else None
  }

  /** Oversampling name to code: the six names of the dialog, "Skipped" to "x16", give 0 .. 5. */
  function OversamplingCode(name: string): (r: Option<byte>)
    ensures r.Some? <==> name in {"Skipped", "x1", "x2", "x4", "x8", "x16"}
    ensures r.Some? ==> r.value <= 5
  {
    Lookup(OVERSAMPLING_CODES, name)
  }

  /** Standby name to code: the eight names give 0 .. 7. */
  function StandbyCode(name: string): (r: Option<byte>)
    ensures r.Some? <==> name in {"0.5", "62.5", "125", "250", "500", "1000", "10", "20"}
    ensures r.Some? ==> r.value <= 7
  {
    Lookup(STANDBY_CODES, name)
  }

  /** IIR filter name to code: the five names give 0 .. 4. */
  function FilterCode(name: string): (r: Option<byte>)
    ensures r.Some? <==> name in {"Filter off", "2", "4", "8", "16"}
    ensures r.Some? ==> r.value <= 4
  {
    Lookup(FILTER_CODES, name)
  }

  /** get_bme280_oversampling_conf_value: defined exactly on the codes 0 .. 5. */
  function OversamplingName(v: int): (r: Option<string>)
    ensures r.Some? <==> 0 <= v <= 5
  {
    Lookup(OVERSAMPLING_NAMES, v)
  }

  /** get_bme280_standby_time_conf_value: defined exactly on the codes 0 .. 7. */
  function StandbyName(v: int): (r: Option<string>)
    ensures r.Some? <==> 0 <= v <= 7
  {
    Lookup(STANDBY_NAMES, v)
  }

  /** get_bme280_iir_filter_conf_value: defined exactly on the codes 0 .. 4. */
  function FilterName(v: int): (r: Option<string>)
    ensures r.Some? <==> 0 <= v <= 4
  {
    Lookup(FILTER_NAMES, v)
  }

  /** Every accepted oversampling name comes back from its code, and every code from its name. */
  lemma OversamplingRoundTrip(name: string, v: int)
    ensures OversamplingCode(name).Some? ==> OversamplingName(OversamplingCode(name).value) == Some(name)
    ensures OversamplingName(v).Some? ==> OversamplingCode(OversamplingName(v).value) == Some(v as byte)
  {
  }

  /** The same two round trips for the standby table. */
  lemma StandbyRoundTrip(name: string, v: int)
    ensures StandbyCode(name).Some? ==> StandbyName(StandbyCode(name).value) == Some(name)
    ensures StandbyName(v).Some? ==> StandbyCode(StandbyName(v).value) == Some(v as byte)
  {
  }

  /** The same two round trips for the filter table. */
  lemma FilterRoundTrip(name: string, v: int)
    ensures FilterCode(name).Some? ==> FilterName(FilterCode(name).value) == Some(name)
    ensures FilterName(v).Some? ==> FilterCode(FilterName(v).value) == Some(v as byte)
  {
  }

  /**
   * get_bme280_conf_cmds: the five codes in the order humidity,
   * temperature, pressure, standby, filter, as the firmware's settings
   * packet carries them (the arguments come temperature first).  Any
   * name missing from its table raises KeyError, here None.  Each byte
   * decodes to the name it came from.
   */
  function GetBme280ConfCmds(temperature: string, humidity: string, pressure: string,
                             standby: string, filter: string): (r: Option<seq<byte>>)
    ensures r.Some? <==> OversamplingCode(humidity).Some? && OversamplingCode(temperature).Some? &&
                         OversamplingCode(pressure).Some? && StandbyCode(standby).Some? && FilterCode(filter).Some?
    ensures r.Some? ==>
              |r.value| == 5 &&
              OversamplingName(r.value[0]) == Some(humidity) && OversamplingName(r.value[1]) == Some(temperature) &&
              OversamplingName(r.value[2]) == Some(pressure) && StandbyName(r.value[3]) == Some(standby) &&
              FilterName(r.value[4]) == Some(filter)
  {
    var h := OversamplingCode(humidity);
    var t := OversamplingCode(temperature);
    var p := OversamplingCode(pressure);
    var s := StandbyCode(standby);
    var f := FilterCode(filter);
    if h.Some? && t.Some? && p.Some? && s.Some? && f.Some? then
      OversamplingRoundTrip(humidity, 0);
      OversamplingRoundTrip(temperature, 0);
      OversamplingRoundTrip(pressure, 0);
      StandbyRoundTrip(standby, 0);
      FilterRoundTrip(filter, 0);
      Some([h.value, t.value, p.value, s.value, f.value])
    else
      None
  }

  /** Identity of a registered callback; what the callback then does is outside the model. */
  type Callback = nat

  /**
   * DataPacket, with the integer words the GUI decoded; the GUI stores
   * them divided by 100 (temperature, pressure) and 1000 (humidity), and
   * the channels multiplied by 5 / 2^16.
   */
  datatype DataPacket = DataPacket(counter: byte, temperature: int, humidity: int, pressure: int,
                                   resistance: seq<int>)

  /** What get_resistance hands back: the whole list, one entry, or the IndexError of a bad index. */
  datatype Resistance = AllValues(values: seq<int>) | OneValue(value: int) | IndexError

  /**
   * DataPacket.get_resistance as written: the guard lets channel 8
   * through, and `resistance_values[8]` is out of range for the eight
   * channels.
   */
  function GetResistanceAsWritten(p: DataPacket, channel: Option<int>): (r: Resistance)
    requires |p.resistance| == 8
    ensures channel.None? ==> r == AllValues(p.resistance)
    ensures channel.Some? && 0 <= channel.value < 8 ==> r == OneValue(p.resistance[channel.value])
    ensures channel.Some? && (channel.value < 0 || channel.value > 8) ==> r == OneValue(0)
  {
    if channel.None? then AllValues(p.resistance)
    else if channel.value < 0 || channel.value > 8 then OneValue(0)
    else if channel.value < |p.resistance| then OneValue(p.resistance[channel.value])
    else IndexError
  }

  /** Channel 8 passes the guard of get_resistance and indexes past the end of the list. */
  lemma GetResistanceChannel8(p: DataPacket)
    requires |p.resistance| == 8
    ensures GetResistanceAsWritten(p, Some(8)) == IndexError
  {
  }

  /**
   * get_resistance with the guard `channel_number > 7` the eight channels
   * call for: never an IndexError; a channel 0 .. 7 gives its value, any
   * other number 0.
   */
  function GetResistance(p: DataPacket, channel: Option<int>): (r: Resistance)
    requires |p.resistance| == 8
    ensures r != IndexError
    ensures channel.None? ==> r == AllValues(p.resistance)
    ensures channel.Some? ==>
              r == OneValue(if 0 <= channel.value < 8 then p.resistance[channel.value] else 0)
  {
    if channel.None? then AllValues(p.resistance)
    else if channel.value < 0 || channel.value > 7 then OneValue(0)
    else OneValue(p.resistance[channel.value])
  }

  /** The corrected guard agrees with the code as written everywhere but at channel 8. */
  lemma GetResistanceAgrees(p: DataPacket, channel: Option<int>)
    requires |p.resistance| == 8
    ensures channel != Some(8) ==> GetResistance(p, channel) == GetResistanceAsWritten(p, channel)
  {
  }
}
