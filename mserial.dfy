/**
 * The state-changing side of MIPSerial (mserial.py): the callback list,
 * the streaming switches, the commands that write one byte to the board,
 * and read_data's polling loop, proved against the framer of
 * MSerialReader.  The serial port is the bytes written to it (`tx`) and
 * the bytes waiting to be read (`pending`); the callbacks are recorded
 * as the calls made to them (`calls`).
 */
module MSerial {
  import opened CInt
  import opened MSerialCodec
  import opened MSerialReader

  /** Values of `connected`. */
  const BOARD_DISCONNECTED: int := 0
  const BOARD_FOUND: int := 1
  const BOARD_CONNECTED: int := 2

  /** Command bytes the GUI writes. */
  const START_STREAMING_CMD: byte := 'a' as byte
  const STOP_STREAMING_CMD: byte := 's' as byte
  const IN_VALVE_AND_PUMP_ON_OUT_VALVE_AND_PUMP_OFF_CMD: byte := 'h' as byte
  const IN_VALVE_AND_PUMP_OFF_OUT_VALVE_AND_PUMP_ON_CMD: byte := 'y' as byte
  const IN_AND_OUT_VALVE_AND_PUMP_ON_CMD: byte := 'e' as byte
  const IN_AND_OUT_VALVE_AND_PUMP_OFF_CMD: byte := 'i' as byte
  const TM_RAMP_CMD: byte := 'r' as byte
  const TM_SQUARE_CMD: byte := 'q' as byte
  const TM_SINE_CMD: byte := 'w' as byte
  const TM_TRIANGLE_CMD: byte := 't' as byte
  const TM_SQ_TR_CMD: byte := 'c' as byte
  const TM_5V_CMD: byte := 'O' as byte
  const TM_0V_CMD: byte := 'o' as byte
  const RETRIEVE_BME280_CONF_CMD: byte := 'g' as byte
  const BME_SET_CONF_PACKET_HEADER: byte := 't' as byte
  const BME_SET_CONF_PACKET_TAIL: byte := 'T' as byte

  /** The seven temperature modulation names the GUI offers. */
  const MODULATION_NAMES: set<string> := {"5V", "0V", "Ramp", "Square", "Sine", "Triangle", "Sq+Tr"}

  /** The command byte of each temperature modulation name; None for any other value. */
  function ModulationCommand(value: string): (r: Option<byte>)
    ensures r.Some? <==> value in MODULATION_NAMES
  {
    if value == "5V" then Some(TM_5V_CMD)
    else if value == "0V" then Some(TM_0V_CMD)
    else if value == "Ramp" then Some(TM_RAMP_CMD)
    else if value == "Square" then Some(TM_SQUARE_CMD)
    else if value == "Sine" then Some(TM_SINE_CMD)
    else if value == "Triangle" then Some(TM_TRIANGLE_CMD)
    else if value == "Sq+Tr" then Some(TM_SQ_TR_CMD)
    else None
  }

  /** Distinct names get distinct command bytes, so the board can tell every choice apart. */
  lemma ModulationCommandInjective(a: string, b: string)
    requires ModulationCommand(a).Some? && ModulationCommand(a) == ModulationCommand(b)
    ensures a == b
  {
  }

  /** The byte set_hydraulics writes for the (in, out) pair of switches. */
  function HydraulicsCommand(inOn: bool, outOn: bool): (r: byte)
    ensures r == IN_AND_OUT_VALVE_AND_PUMP_OFF_CMD <==> !inOn && !outOn
    ensures r == IN_VALVE_AND_PUMP_ON_OUT_VALVE_AND_PUMP_OFF_CMD <==> inOn && !outOn
    ensures r == IN_VALVE_AND_PUMP_OFF_OUT_VALVE_AND_PUMP_ON_CMD <==> !inOn && outOn
    ensures r == IN_AND_OUT_VALVE_AND_PUMP_ON_CMD <==> inOn && outOn
  {
    if !inOn && !outOn then IN_AND_OUT_VALVE_AND_PUMP_OFF_CMD
    else if inOn && !outOn then IN_VALVE_AND_PUMP_ON_OUT_VALVE_AND_PUMP_OFF_CMD
    else if !inOn && outOn then IN_VALVE_AND_PUMP_OFF_OUT_VALVE_AND_PUMP_ON_CMD
    else IN_AND_OUT_VALVE_AND_PUMP_ON_CMD
  }

  /** The four switch settings give four distinct bytes. */
  lemma HydraulicsCommandInjective(i1: bool, o1: bool, i2: bool, o2: bool)
    ensures HydraulicsCommand(i1, o1) == HydraulicsCommand(i2, o2) <==> i1 == i2 && o1 == o2
  {
  }

  /** A list none of whose entries appears twice. */
  predicate NoDuplicates<T(==)>(s: seq<T>)
  {
    forall i, j | 0 <= i < j < |s| :: s[i] != s[j]
  }

  class MipSerial {
    var connected: int
    var portOpen: bool
    var isStreaming: bool
    var readState: int
    var packetType: Kind
    var samplesRead: nat
    var callbacks: seq<Callback>
    var humidityOversampling: string
    var temperatureOversampling: string
    var pressureOversampling: string
    var standbyTime: string
    var iirFilter: string
    var currentTemperatureModulation: string
    /** Bytes written to the port. */
    var tx: seq<byte>
    /** Bytes the board has sent that are not yet read. */
    var pending: seq<byte>
    /** Every callback invocation made so far, in order. */
    var calls: seq<(Callback, DataPacket)>

    /** The framer is in one of its states and no callback is registered twice. */
    ghost predicate Valid()
      reads this`readState, this`packetType, this`callbacks
    {
      ReaderValid(Reader(readState, packetType, 0, ConfNames("", "", "", "", ""), UNBOUND, [], false)) &&
      NoDuplicates(callbacks)
    }

    /** The five BME280 settings properties. */
    function Names(): (n: ConfNames)
      reads this`humidityOversampling, this`temperatureOversampling, this`pressureOversampling,
            this`standbyTime, this`iirFilter
    {
      ConfNames(humidityOversampling, temperatureOversampling, pressureOversampling, standbyTime, iirFilter)
    }

    /** The framer's view of this object, with read_data's locals `loc`. */
    function Snapshot(loc: Locals, raised: bool): (r: Reader)
      reads this
    {
      Reader(readState, packetType, samplesRead, Names(), loc, calls, raised)
    }

    /**
     * __init__ with configure_exporter: nothing read yet, no packet type,
     * the exporter's add_packet as the one callback, the "5V" pattern, and
     * the board not yet found (find_port runs on its own thread).
     */
    constructor (exporter: Callback)
      ensures Valid()
      ensures connected == BOARD_DISCONNECTED && !portOpen && !isStreaming
      ensures readState == 0 && packetType == Unset && samplesRead == 0 && callbacks == [exporter]
      ensures Names() == ConfNames("", "", "", "", "") && currentTemperatureModulation == "5V"
      ensures tx == [] && pending == [] && calls == []
    {
      connected := BOARD_DISCONNECTED;
      portOpen := false;
      isStreaming := false;
      readState := 0;
      packetType := Unset;
      samplesRead := 0;
      callbacks := [exporter];
      humidityOversampling, temperatureOversampling, pressureOversampling := "", "", "";
      standbyTime, iirFilter := "", "";
      currentTemperatureModulation := "5V";
      tx, pending, calls := [], [], [];
    }

    /** add_callback: appended only when not yet in the list, so the list never holds a duplicate. */
    method AddCallback(cb: Callback)
      requires Valid()
      modifies this`callbacks
      ensures Valid()
      ensures callbacks == if cb in old(callbacks) then old(callbacks) else old(callbacks) + [cb]
    {
      if cb !in callbacks {
        callbacks := callbacks + [cb];
      }
    }

    /**
     * start_streaming: only when connected, streaming on and the sample
     * count reset before the `try`; `written` says whether the write of
     * 'a' succeeds, and a failed one is only logged.
     */
    method StartStreaming(written: bool)
      modifies this`isStreaming, this`samplesRead, this`tx
      ensures connected == BOARD_CONNECTED ==>
                isStreaming && samplesRead == 0 && tx == old(tx) + (if written then [START_STREAMING_CMD] else [])
      ensures connected != BOARD_CONNECTED ==>
                isStreaming == old(isStreaming) && samplesRead == old(samplesRead) && tx == old(tx)
    {
      if connected == BOARD_CONNECTED {
        isStreaming := true;
        samplesRead := 0;
        if written {
          tx := tx + [START_STREAMING_CMD];
        }
      }
    }

    /**
     * stop_streaming: only when connected and only when the write of 's'
     * succeeds (`written`), streaming off and the framer back at read
     * state 0, dropping any partial frame.  A failed write is only logged,
     * so streaming goes on and the read state is kept.
     */
    method StopStreaming(written: bool)
      requires Valid()
      modifies this`isStreaming, this`readState, this`tx
      ensures Valid()
      ensures connected == BOARD_CONNECTED && written ==>
                !isStreaming && readState == 0 && tx == old(tx) + [STOP_STREAMING_CMD]
      ensures connected != BOARD_CONNECTED || !written ==>
                isStreaming == old(isStreaming) && readState == old(readState) && tx == old(tx)
    {
      if connected == BOARD_CONNECTED && written {
        tx := tx + [STOP_STREAMING_CMD];
        isStreaming := false;
        readState := 0;
      }
    }

    /** set_hydraulics: one byte, whatever the connection state. */
    method SetHydraulics(inOn: bool, outOn: bool)
      modifies this`tx
      ensures tx == old(tx) + [HydraulicsCommand(inOn, outOn)]
    {
      if !inOn && !outOn {
        tx := tx + [IN_AND_OUT_VALVE_AND_PUMP_OFF_CMD];
      } else if inOn && !outOn {
        tx := tx + [IN_VALVE_AND_PUMP_ON_OUT_VALVE_AND_PUMP_OFF_CMD];
      } else if !inOn && outOn {
        tx := tx + [IN_VALVE_AND_PUMP_OFF_OUT_VALVE_AND_PUMP_ON_CMD];
      } else {
        tx := tx + [IN_AND_OUT_VALVE_AND_PUMP_ON_CMD];
      }
    }

    /**
     * set_temperature_modulation_pattern: for the seven known names one
     * byte is written and the name becomes the current pattern; any other
     * value changes nothing.
     */
    method SetTemperatureModulationPattern(value: string)
      modifies this`tx, this`currentTemperatureModulation
      ensures value in MODULATION_NAMES ==>
                tx == old(tx) + [ModulationCommand(value).value] && currentTemperatureModulation == value
      ensures value !in MODULATION_NAMES ==>
                tx == old(tx) && currentTemperatureModulation == old(currentTemperatureModulation)
    {
      if value == "5V" {
        tx := tx + [TM_5V_CMD];
        currentTemperatureModulation := "5V";
      } else if value == "0V" {
        tx := tx + [TM_0V_CMD];
        currentTemperatureModulation := "0V";
      } else if value == "Ramp" {
        tx := tx + [TM_RAMP_CMD];
        currentTemperatureModulation := "Ramp";
      } else if value == "Square" {
        tx := tx + [TM_SQUARE_CMD];
        currentTemperatureModulation := "Square";
      } else if value == "Sine" {
        tx := tx + [TM_SINE_CMD];
        currentTemperatureModulation := "Sine";
      } else if value == "Triangle" {
        tx := tx + [TM_TRIANGLE_CMD];
        currentTemperatureModulation := "Triangle";
      } else if value == "Sq+Tr" {
        tx := tx + [TM_SQ_TR_CMD];
        currentTemperatureModulation := "Sq+Tr";
      }
    }

    /** retrieve_bme280_configuration: 'g' is written only with the port open and the board connected. */
    method RetrieveBme280Configuration()
      modifies this`tx
      ensures tx == if portOpen && connected == BOARD_CONNECTED then old(tx) + [RETRIEVE_BME280_CONF_CMD] else old(tx)
    {
      if portOpen && connected == BOARD_CONNECTED {
        tx := tx + [RETRIEVE_BME280_CONF_CMD];
      }
    }

    /**
     * set_bme280_settings: with the port open and the board connected, the
     * header 't', the five codes of get_bme280_conf_cmds and the tail 'T'.
     * A name missing from its table is swallowed when the codes are
     * looked up, so `cmds` stays unbound: the header still goes out and
     * writing `cmds` then raises, before the tail.  Not connected, nothing
     * is written.
     */
    method SetBme280Settings(temperature: string, humidity: string, pressure: string, standby: string, filter: string)
      returns (raised: bool)
      modifies this`tx
      ensures var cmds := GetBme280ConfCmds(temperature, humidity, pressure, standby, filter);
              if portOpen && connected == BOARD_CONNECTED then
                raised == cmds.None? &&
                tx == old(tx) + [BME_SET_CONF_PACKET_HEADER] + (if cmds.Some? then cmds.value + [BME_SET_CONF_PACKET_TAIL] else [])
              else !raised && tx == old(tx)
    {
      var cmds := GetBme280ConfCmds(temperature, humidity, pressure, standby, filter);
      raised := false;
      if portOpen && connected == BOARD_CONNECTED {
        tx := tx + [BME_SET_CONF_PACKET_HEADER];
        if cmds.None? {
          raised := true;
        } else {
          tx := tx + cmds.value;
          tx := tx + [BME_SET_CONF_PACKET_TAIL];
        }
      }
    }

    /** port.read(n), with n bytes waiting. */
    method ReadBytes(n: nat) returns (b: seq<byte>)
      requires n <= |pending|
      modifies this`pending
      ensures b == old(pending)[..n] && pending == old(pending)[n..]
    {
      b := pending[..n];
      pending := pending[n..];
    }

    /**
     * The five settings of a reply stored one property after the other;
     * a code missing from its table ends the sequence with KeyError,
     * leaving the properties already stored.
     */
    method StoreSettings(b: seq<byte>) returns (raised: bool)
      requires |b| == 5
      modifies this`humidityOversampling, this`temperatureOversampling, this`pressureOversampling,
               this`standbyTime, this`iirFilter
      ensures Names() == DecodeSettings(old(Names()), b).0 && raised == !DecodeSettings(old(Names()), b).1
    {
      var h := OversamplingName(b[0]);
      if h.None? { return true; }
      humidityOversampling := h.value;
      var t := OversamplingName(b[1]);
      if t.None? { return true; }
      temperatureOversampling := t.value;
      var p := OversamplingName(b[2]);
      if p.None? { return true; }
      pressureOversampling := p.value;
      var s := StandbyName(b[3]);
      if s.None? { return true; }
      standbyTime := s.value;
      var f := FilterName(b[4]);
      if f.None? { return true; }
      iirFilter := f.value;
      return false;
    }

    /** `for callback in self.callbacks: callback(packet)`. */
    method Deliver(p: DataPacket)
      modifies this`calls
      ensures calls == old(calls) + Dispatch(callbacks, p)
    {
      var i := 0;
      while i < |callbacks|
        invariant 0 <= i <= |callbacks|
        invariant calls == old(calls) + Dispatch(callbacks[..i], p)
      {
        assert Dispatch(callbacks[..i + 1], p) == Dispatch(callbacks[..i], p) + [(callbacks[i], p)];
        calls := calls + [(callbacks[i], p)];
        i := i + 1;
      }
      assert callbacks[..i] == callbacks;
    }

    /** Read state 0. */
    method IdlePass()
      requires readState == 0 && 1 <= |pending|
      modifies this`readState, this`packetType, this`pending
      ensures Reader(readState, packetType, 0, ConfNames("", "", "", "", ""), UNBOUND, [], false) ==
              IdleStep(Reader(0, old(packetType), 0, ConfNames("", "", "", "", ""), UNBOUND, [], false), old(pending)[0])
      ensures pending == old(pending)[1..]
    {
      var b := ReadBytes(1);
      if b[0] == DATA_PACKET_HEADER || b[0] == BME_CONF_PACKET_HEADER {
        readState := 1;
        if b[0] == BME_CONF_PACKET_HEADER {
          packetType := Conf;
        } else {
          packetType := Data;
        }
      }
    }

    /** Read state 1. */
    method HeadPass(loc: Locals) returns (loc': Locals, raised: bool)
      requires readState == 1 && packetType != Unset && Need(1, packetType) <= |pending|
      modifies this`readState, this`humidityOversampling, this`temperatureOversampling,
               this`pressureOversampling, this`standbyTime, this`iirFilter, this`pending
      ensures var k := Need(1, packetType);
              var r := Reader(1, packetType, samplesRead, old(Names()), loc, calls, false);
              Reader(readState, packetType, samplesRead, Names(), loc', calls, raised) == HeadStep(r, old(pending)[..k]) &&
              pending == old(pending)[k..]
    {
      if packetType == Data {
        var b := ReadBytes(1);
        loc' := loc.(counter := Some(b[0]));
        raised := false;
      } else {
        var b := ReadBytes(5);
        raised := StoreSettings(b);
        loc' := loc;
      }
      if !raised {
        readState := 2;
      }
    }

    /** Read state 2. */
    method BodyPass(loc: Locals) returns (loc': Locals)
      requires readState == 2 && packetType != Unset && Need(2, packetType) <= |pending|
      modifies this`readState, this`pending
      ensures var k := Need(2, packetType);
              var r := Reader(2, packetType, samplesRead, Names(), loc, calls, false);
              Reader(readState, packetType, samplesRead, Names(), loc', calls, false) == BodyStep(r, old(pending)[..k]) &&
              pending == old(pending)[k..]
    {
      loc' := loc;
      if packetType == Data {
        var b := ReadBytes(32);
        loc' := loc.(channels := Some(Channels(b)));
        readState := 3;
      } else {
        var b := ReadBytes(1);
        if b[0] == BME_CONF_PACKET_TAIL {
          readState := 0;
        }
      }
    }

    /** Read state 3: pressure, temperature and humidity, four bytes each. */
    method EnvironmentPass(loc: Locals) returns (loc': Locals)
      requires readState == 3 && 12 <= |pending|
      modifies this`readState, this`pending
      ensures readState == 4 && loc' == EnvironmentStep(Reader(3, packetType, 0, Names(), loc, [], false), old(pending)[..12]).locals
      ensures pending == old(pending)[12..]
    {
      var pressureRaw := ReadBytes(4);
      var temperatureRaw := ReadBytes(4);
      var humidityRaw := ReadBytes(4);
      assert old(pending)[..12][0..4] == pressureRaw;
      assert old(pending)[..12][4..8] == temperatureRaw;
      assert old(pending)[..12][8..12] == humidityRaw;
      assert pending == old(pending)[12..];
      loc' := loc.(env := Some((FromBigEndian32(pressureRaw), FromBigEndian32(temperatureRaw), FromBigEndian32(humidityRaw))));
      readState := 4;
    }

    /** Read state 4: the tail; without a packet counter, channels or words the packet cannot be built. */
    method TailPass(loc: Locals) returns (raised: bool)
      requires readState == 4 && 1 <= |pending|
      modifies this`readState, this`samplesRead, this`calls, this`pending
      ensures var r := Reader(4, packetType, old(samplesRead), Names(), loc, old(calls), false);
              Reader(readState, packetType, samplesRead, Names(), loc, calls, raised) == TailStep(r, callbacks, old(pending)[0])
      ensures pending == old(pending)[1..]
    {
      var b := ReadBytes(1);
      raised := false;
      if b[0] == DATA_PACKET_TAIL {
        readState := 0;
        samplesRead := samplesRead + 1;
        var p := Packet(loc);
        if p.None? {
          raised := true;
        } else {
          Deliver(p.value);
        }
      } else {
        readState := 0;
      }
    }

    /** One pass of the polling loop, with bytes waiting for its read. */
    method ReadPass(loc: Locals) returns (loc': Locals, raised: bool)
      requires Valid() && Need(readState, packetType) <= |pending|
      modifies this`readState, this`packetType, this`samplesRead, this`humidityOversampling,
               this`temperatureOversampling, this`pressureOversampling, this`standbyTime, this`iirFilter,
               this`pending, this`calls
      ensures Valid()
      ensures var k := Need(old(readState), old(packetType));
              Snapshot(loc', raised) == Step(old(Snapshot(loc, false)), callbacks, old(pending)[..k]) &&
              pending == old(pending)[k..]
    {
      if readState == 0 {
        IdlePass();
        loc', raised := loc, false;
      } else if readState == 1 {
        loc', raised := HeadPass(loc);
      } else if readState == 2 {
        loc' := BodyPass(loc);
        raised := false;
      } else if readState == 3 {
        loc' := EnvironmentPass(loc);
        raised := false;
      } else {
        raised := TailPass(loc);
        loc' := loc;
      }
    }

    /**
     * read_data while the board stays connected: the loop reads as long
     * as no exception has ended it and the bytes of the next read are
     * waiting.  When connected, the object ends as the framer's `Run`
     * over the waiting bytes says, from read state as it was and with
     * every local unbound, and the bytes left are those Run leaves.
     * When not connected nothing happens.
     */
    method ReadData() returns (raised: bool)
      requires Valid()
      modifies this`readState, this`packetType, this`samplesRead, this`humidityOversampling,
               this`temperatureOversampling, this`pressureOversampling, this`standbyTime, this`iirFilter,
               this`pending, this`calls
      ensures Valid()
      ensures connected == BOARD_CONNECTED ==>
                var out := Run(old(Snapshot(UNBOUND, false)), callbacks, old(pending));
                Snapshot(out.0.locals, raised) == out.0 && pending == out.1
      ensures connected != BOARD_CONNECTED ==>
                !raised && Snapshot(UNBOUND, false) == old(Snapshot(UNBOUND, false)) && pending == old(pending)
    {
      var loc := UNBOUND;
      raised := false;
      while connected == BOARD_CONNECTED && !raised && Need(readState, packetType) <= |pending|
        invariant Valid()
        invariant connected == BOARD_CONNECTED ==>
                    Run(Snapshot(loc, raised), callbacks, pending) == Run(old(Snapshot(UNBOUND, false)), callbacks, old(pending))
        invariant connected != BOARD_CONNECTED ==>
                    !raised && loc == UNBOUND && Snapshot(UNBOUND, false) == old(Snapshot(UNBOUND, false)) && pending == old(pending)
        decreases |pending|
      {
        ghost var before := Snapshot(loc, false);
        ghost var input := pending;
        loc, raised := ReadPass(loc);
        RunStep(before, callbacks, input);
      }
    }
  }
}
