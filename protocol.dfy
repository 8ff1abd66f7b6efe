/**
 * The serial protocol seen from both ends: the data frame the firmware's
 * BundleData packs against the packet the GUI's read_data builds from it,
 * the GUI's settings packet against the firmware's settings receiver, the
 * firmware's settings reply against the GUI's decoders, and the one-byte
 * GUI commands against the firmware's command switch.
 */
module Protocol {
  import opened CInt
  import opened Hardware
  import opened Bme280
  import opened Bme280Driver
  import opened Utils
  import opened Firmware
  import opened MSerialCodec
  import opened MSerialReader
  import opened MSerial

  /**
   * The packet the GUI ought to build from a frame with counter
   * `counter`, channels `volt` and readings `data`: every word read back
   * as the unsigned value of its 32-bit pattern.
   */
  function SentPacket(counter: byte, volt: seq<int>, data: SensorData): (p: DataPacket)
    requires |volt| == CHANNELS
    ensures |p.resistance| == CHANNELS
  {
    DataPacket(counter, U32(data.temperature), U32(data.humidity), U32(data.pressure),
               seq(CHANNELS, i requires 0 <= i < CHANNELS => U32(volt[i])))
  }

  /** A word packed by the firmware and read by the GUI comes back as the unsigned value of its pattern. */
  lemma WordDecodes(frame: seq<byte>, fields: seq<int>, i: nat)
    requires |frame| == DATA_BUFFER_SIZE && |fields| == FRAME_WORDS && i < FRAME_WORDS
    requires WordsHold(frame, fields, 0, FRAME_WORDS)
    ensures FromBigEndian32(frame[2 + 4 * i..6 + 4 * i]) == U32(fields[i])
  {
    assert FrameWord(frame, i) == BigEndian32(fields[i]);
  }

  /** Channel word `i` of a frame is word `i` of the frame. */
  lemma ChannelDecodes(f: seq<byte>, i: nat)
    requires |f| == DATA_BUFFER_SIZE && i < CHANNELS
    ensures Channels(f[2..34])[i] == FromBigEndian32(f[2 + 4 * i..6 + 4 * i])
  {
    var b := f[2..34];
    assert Channels(b)[i] == FromBigEndian32(b[4 * i..4 * i + 4]);
    assert b[4 * i..4 * i + 4] == f[2 + 4 * i..6 + 4 * i];
  }

  /** The channel words of a frame BundleData filled. */
  lemma ChannelsDecode(f: seq<byte>, fields: seq<int>)
    requires |f| == DATA_BUFFER_SIZE && |fields| == FRAME_WORDS
    requires WordsHold(f, fields, 0, FRAME_WORDS)
    ensures forall i | 0 <= i < CHANNELS :: Channels(f[2..34])[i] == U32(fields[i])
  {
    forall i | 0 <= i < CHANNELS
      ensures Channels(f[2..34])[i] == U32(fields[i])
    {
      ChannelDecodes(f, i);
      WordDecodes(f, fields, i);
    }
  }

  /** The packet the GUI builds from a frame BundleData filled. */
  lemma FramePacketFields(f: seq<byte>, volt: seq<int>, data: SensorData)
    requires |f| == DATA_BUFFER_SIZE && |volt| == CHANNELS
    requires WordsHold(f, FrameFields(volt, data), 0, FRAME_WORDS)
    ensures FramePacket(f) == SentPacket(f[1], volt, data)
  {
    var fields := FrameFields(volt, data);
    ChannelsDecode(f, fields);
    assert Channels(f[2..34]) == SentPacket(f[1], volt, data).resistance;
    WordDecodes(f, fields, 8);
    WordDecodes(f, fields, 9);
    WordDecodes(f, fields, 10);
  }

  /**
   * A frame sent by the firmware, read by the GUI from read state 0: the
   * two ends agree on its length (47 bytes), header (0xAA) and tail
   * (0xF0); every callback receives, in list order, the packet with the
   * frame's counter and the unsigned value of every word the firmware
   * packed; and reading goes on with the bytes after the frame.
   */
  lemma FrameReceived(r: Reader, cbs: seq<Callback>, f: seq<byte>, rest: seq<byte>, volt: seq<int>, data: SensorData)
    requires ReaderValid(r) && r.state == 0 && !r.raised
    requires |f| == DATA_BUFFER_SIZE && f[0] == DATA_HEADER && f[DATA_BUFFER_SIZE - 1] == DATA_TAIL
    requires |volt| == CHANNELS && WordsHold(f, FrameFields(volt, data), 0, FRAME_WORDS)
    ensures DATA_FRAME == DATA_BUFFER_SIZE
    ensures var n := AfterFrame(r, cbs, f);
            Run(r, cbs, f + rest) == Run(n, cbs, rest) &&
            n.state == 0 && n.samplesRead == r.samplesRead + 1 &&
            n.calls == r.calls + MSerialReader.Dispatch(cbs, SentPacket(f[1], volt, data))
  {
    DataFrameRead(r, cbs, f, rest);
    FramePacketFields(f, volt, data);
  }

  /**
   * What the GUI makes of the words: a value in [0, 2^32), such as a
   * clamped channel, comes back unchanged; a negative int32 temperature
   * comes back as v + 2^32, and only reading the pattern as signed would
   * give it back.
   */
  lemma WordValues(v: int)
    ensures 0 <= v < TWO32 ==> U32(v) == v
    ensures -TWO31 <= v < 0 ==> U32(v) == v + TWO32 && U32(v) != v && I32(U32(v)) == v
  {
    if -TWO31 <= v < 0 {
      SignedFromUnsigned(v);
    }
  }

  /** The settings packet the GUI writes when every name is in its table. */
  function SettingsPacket(cmds: seq<byte>): (s: seq<byte>)
    requires |cmds| == 5
    ensures |s| == SETTING_PACKET && s[0] == SET_HEADER && s[SETTING_PACKET - 1] == SET_TAIL && s[1..6] == cmds
  {
    [BME_SET_CONF_PACKET_HEADER] + cmds + [BME_SET_CONF_PACKET_TAIL]
  }

  /**
   * The settings packet of any accepted names, fed to the firmware's
   * receiver at IDLE: every field is in its range, so every flag is up,
   * the ready flag too, and `temp_settings` holds the packet as sent.
   */
  lemma SettingsAccepted(temperature: string, humidity: string, pressure: string, standby: string, filter: string,
                         r: Receiver)
    requires GetBme280ConfCmds(temperature, humidity, pressure, standby, filter).Some?
    requires |r.temp| == SETTING_PACKET && r.state == IDLE
    ensures var c := GetBme280ConfCmds(temperature, humidity, pressure, standby, filter).value;
            var n := Feed(r, SettingsPacket(c));
            n.state == IDLE && n.ready && n.hum && n.tmp && n.press && n.standby && n.filter &&
            n.temp == SettingsPacket(c)
  {
    var c := GetBme280ConfCmds(temperature, humidity, pressure, standby, filter).value;
    PacketReceived(r, c[0], c[1], c[2], c[3], c[4]);
    assert SettingsPacket(c) == [SET_HEADER, c[0], c[1], c[2], c[3], c[4], SET_TAIL];
  }

  /** The reply to 'g' as the bytes on the wire. */
  function ReplyBytes(cells: seq<bv8>): (b: seq<byte>)
    requires |cells| == EEPROM_CELLS
    ensures |b| == SETTING_PACKET && b[0] == BME_CONF_PACKET_HEADER && b[SETTING_PACKET - 1] == BME_CONF_PACKET_TAIL
    ensures forall k | 0 <= k < EEPROM_CELLS :: b[1 + k] == cells[k] as int
  {
    Bytes(ActualReply(cells), 0, SETTING_PACKET)
  }

  /** Every EEPROM setting is a code of its table. */
  predicate CellsInTables(cells: seq<bv8>)
    requires |cells| == EEPROM_CELLS
  {
    cells[EEPROM_H_OSR] as int <= 5 && cells[EEPROM_T_OSR] as int <= 5 && cells[EEPROM_P_OSR] as int <= 5 &&
    cells[EEPROM_SB_TIME] as int <= 7 && cells[EEPROM_FILT] as int <= 4
  }

  /** The dialog names of five in-table settings. */
  function CellNames(cells: seq<bv8>): (n: ConfNames)
    requires |cells| == EEPROM_CELLS && CellsInTables(cells)
  {
    ConfNames(OversamplingName(cells[EEPROM_H_OSR] as int).value, OversamplingName(cells[EEPROM_T_OSR] as int).value,
              OversamplingName(cells[EEPROM_P_OSR] as int).value, StandbyName(cells[EEPROM_SB_TIME] as int).value,
              FilterName(cells[EEPROM_FILT] as int).value)
  }

  /** The reply on the wire: 0xBB, the five cells, 0xB0. */
  lemma ReplyShape(cells: seq<bv8>)
    requires |cells| == EEPROM_CELLS
    ensures var b := ReplyBytes(cells);
            b == [BME_CONF_PACKET_HEADER] + b[1..6] + [BME_CONF_PACKET_TAIL]
  {
  }

  /** The five cells of an in-table reply decode, in the GUI's order, to their names. */
  lemma CellsDecode(names: ConfNames, cells: seq<bv8>)
    requires |cells| == EEPROM_CELLS && CellsInTables(cells)
    ensures DecodeSettings(names, ReplyBytes(cells)[1..6]) == (CellNames(cells), true)
  {
    var s := ReplyBytes(cells)[1..6];
    assert s[0] == cells[EEPROM_H_OSR] as int && s[1] == cells[EEPROM_T_OSR] as int;
    assert s[2] == cells[EEPROM_P_OSR] as int && s[3] == cells[EEPROM_SB_TIME] as int && s[4] == cells[EEPROM_FILT] as int;
  }

  /**
   * The firmware's settings reply read by the GUI from read state 0: when
   * every cell is a code of its table, the five properties take their
   * names and the framer is back at read state 0 after the seven bytes.
   */
  lemma ReplyDecodes(cells: seq<bv8>, r: Reader, cbs: seq<Callback>, rest: seq<byte>)
    requires |cells| == EEPROM_CELLS && CellsInTables(cells)
    requires ReaderValid(r) && r.state == 0 && !r.raised
    ensures Run(r, cbs, ReplyBytes(cells) + rest) == Run(r.(kind := Conf, names := CellNames(cells)), cbs, rest)
  {
    var s := ReplyBytes(cells)[1..6];
    ReplyShape(cells);
    CellsDecode(r.names, cells);
    assert ReplyBytes(cells) + rest == [BME_CONF_PACKET_HEADER] + s + ([BME_CONF_PACKET_TAIL] + rest);
    SettingsRead(r, cbs, s, [BME_CONF_PACKET_TAIL] + rest);
    assert [] + [BME_CONF_PACKET_TAIL] + rest == [BME_CONF_PACKET_TAIL] + rest;
    ConfTailEnds(r.(state := 2, kind := Conf, names := CellNames(cells)), cbs, [], rest);
  }

  /**
   * A humidity oversampling cell outside its table (6 or 7, as three
   * stored bits can be): the GUI's decoder raises and the read loop ends
   * at read state 1 with the properties unchanged.
   */
  lemma ReplyOutOfTable(cells: seq<bv8>, r: Reader, cbs: seq<Callback>, rest: seq<byte>)
    requires |cells| == EEPROM_CELLS && cells[EEPROM_H_OSR] as int > 5
    requires ReaderValid(r) && r.state == 0 && !r.raised
    ensures var out := Run(r, cbs, ReplyBytes(cells) + rest);
            out.0.raised && out.0.state == 1 && out.0.names == r.names
  {
    var s := ReplyBytes(cells)[1..6];
    ReplyShape(cells);
    assert ReplyBytes(cells) + rest == [BME_CONF_PACKET_HEADER] + (s + ([BME_CONF_PACKET_TAIL] + rest));
    RunBlock(r, cbs, [BME_CONF_PACKET_HEADER], s + ([BME_CONF_PACKET_TAIL] + rest));
    var r1 := r.(state := 1, kind := Conf);
    RunBlock(r1, cbs, s, [BME_CONF_PACKET_TAIL] + rest);
    assert s[0] == cells[EEPROM_H_OSR] as int;
  }

  /** A code below 8 survives the three bits a setter stores. */
  lemma CodeKept(x: byte)
    requires x < 8
    ensures Kept(true, x as bv8, 0) as int == x
  {
    assert x as bv8 < 8;
  }

  /** Five in-table codes stored by setters that all succeeded: each cell holds its code. */
  lemma CodesStored(cells: seq<bv8>, c: seq<byte>)
    requires |cells| == EEPROM_CELLS && |c| == 5
    requires c[0] <= 5 && c[1] <= 5 && c[2] <= 5 && c[3] <= 7 && c[4] <= 4
    ensures var stored := StoredCells(cells, c[0] as bv8, c[1] as bv8, c[2] as bv8, c[3] as bv8, c[4] as bv8,
                                      true, true, true, true, true);
            forall k | 0 <= k < EEPROM_CELLS :: stored[k] as int == c[k]
  {
    CodeKept(c[0]);
    CodeKept(c[1]);
    CodeKept(c[2]);
    CodeKept(c[3]);
    CodeKept(c[4]);
  }

  /** With every flag up, ApplyNewSettings passes on the five received bytes. */
  lemma ReceivedPassedOn(temp: seq<byte>, c: seq<byte>)
    requires |temp| == SETTING_PACKET && |c| == 5 && temp[1..6] == c
    ensures Requested(true, temp[1], DEFAULT_HUM) == c[0] as bv8 && Requested(true, temp[2], DEFAULT_TEMP) == c[1] as bv8
    ensures Requested(true, temp[3], DEFAULT_PRESS) == c[2] as bv8 && Requested(true, temp[4], DEFAULT_STANDBY) == c[3] as bv8
    ensures Requested(true, temp[5], DEFAULT_FILTER) == c[4] as bv8
  {
    assert temp[1] == c[0] && temp[2] == c[1] && temp[3] == c[2] && temp[4] == c[3] && temp[5] == c[4];
  }

  /**
   * GUI to firmware and back: the settings packet of accepted names is
   * received, ApplyNewSettings passes the five received codes on, every
   * setter stores the three bits it wrote, and the reply to 'g' built
   * from those cells decodes in the GUI to exactly the names it sent.
   */
  lemma SettingsRoundTrip(temperature: string, humidity: string, pressure: string, standby: string, filter: string,
                          r: Receiver, cells: seq<bv8>)
    requires GetBme280ConfCmds(temperature, humidity, pressure, standby, filter).Some?
    requires |r.temp| == SETTING_PACKET && r.state == IDLE && |cells| == EEPROM_CELLS
    ensures var n := Feed(r, SettingsPacket(GetBme280ConfCmds(temperature, humidity, pressure, standby, filter).value));
            var stored := StoredCells(cells, Requested(n.hum, n.temp[1], DEFAULT_HUM), Requested(n.tmp, n.temp[2], DEFAULT_TEMP),
                                      Requested(n.press, n.temp[3], DEFAULT_PRESS), Requested(n.standby, n.temp[4], DEFAULT_STANDBY),
                                      Requested(n.filter, n.temp[5], DEFAULT_FILTER), true, true, true, true, true);
            CellsInTables(stored) && CellNames(stored) == ConfNames(humidity, temperature, pressure, standby, filter)
  {
    var c := GetBme280ConfCmds(temperature, humidity, pressure, standby, filter).value;
    SettingsAccepted(temperature, humidity, pressure, standby, filter, r);
    var n := Feed(r, SettingsPacket(c));
    assert n.temp[1..6] == c;
    ReceivedPassedOn(n.temp, c);
    CodesStored(cells, c);
  }

  /** The pin level of a switch. */
  function Level(on: bool): byte
  {
    if on then HIGH else LOW
  }

  /** set_hydraulics reaches the pumps and valves: each side's pump and valve follow that side's switch. */
  lemma HydraulicsReachValves(inOn: bool, outOn: bool)
    ensures ValveCommand(HydraulicsCommand(inOn, outOn)) ==
            Some(Valves(Level(inOn), Level(inOn), Level(outOn), Level(outOn)))
  {
  }

  /**
   * set_temperature_modulation_pattern reaches the command switch: "5V"
   * and "0V" are the heater-on and heater-off commands, the other five
   * names are the five pattern commands, and with no pattern running each
   * of them enables its own pattern and no other.
   */
  lemma ModulationReachesPatterns(value: string, m: Modes)
    requires value in MODULATION_NAMES
    ensures var rx := ModulationCommand(value).value;
            (value == "5V" <==> rx == CMD_FULL_ON) && (value == "0V" <==> rx == CMD_OFF) &&
            (IsPatternCommand(rx) <==> value !in {"5V", "0V"}) &&
            (IsPatternCommand(rx) && Enabled(m) == 0 ==>
               var n := CommandModes(m, rx);
               n.ramp == (value == "Ramp") && n.square == (value == "Square") && n.sine == (value == "Sine") &&
               n.triangle == (value == "Triangle") && n.sqtr == (value == "Sq+Tr"))
  {
  }

  /** 'a' and 's' of the GUI are the firmware's start and stop commands: stop switches streaming and every pattern off. */
  lemma StreamingCommands(m: Modes)
    ensures START_STREAMING_CMD == CMD_START && STOP_STREAMING_CMD == CMD_STOP
    ensures CommandModes(m, START_STREAMING_CMD).stream
    ensures !CommandModes(m, STOP_STREAMING_CMD).stream && Enabled(CommandModes(m, STOP_STREAMING_CMD)) == 0
  {
  }
}
