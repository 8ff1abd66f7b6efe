/**
 * The framer of MIPSerial.read_data (mserial.py:342-456) as a value:
 * one pass of its polling loop is `Step`, and `Run` is the loop over the
 * bytes waiting at the port.  Read state 0 waits for a header, 0xAA
 * opening a data frame and 0xBB a settings reply; a data frame then
 * takes the counter byte, the 32 channel bytes, the 12 environment bytes
 * and the tail, a settings reply its five settings and then its tail.
 */
module MSerialReader {
  import opened CInt
  import opened MSerialCodec

  const DATA_PACKET_HEADER: byte := 0xAA
  const DATA_PACKET_TAIL: byte := 0xF0
  const BME_CONF_PACKET_HEADER: byte := 0xBB
  const BME_CONF_PACKET_TAIL: byte := 0xB0

  /** Bytes of a data frame: header, counter, 8 * 4 channel bytes, 3 * 4 environment bytes, tail. */
  const DATA_FRAME: nat := 1 + 1 + 32 + 12 + 1
  /** Bytes of a settings reply: header, five settings, tail. */
  const CONF_FRAME: nat := 7

  /** `packet_type`: "" until the first header, then "data" or "bme conf". */
  datatype Kind = Unset | Data | Conf

  /** The five BME280 settings properties the settings reply sets, as dialog names. */
  datatype ConfNames = ConfNames(hum: string, temp: string, press: string, standby: string, filter: string)

  /**
   * The locals of read_data that keep their values from one pass of the
   * loop to the next: the packet counter, the eight channel words and
   * the pressure, temperature and humidity words.  None until assigned.
   */
  datatype Locals = Locals(counter: Option<byte>, channels: Option<seq<int>>, env: Option<(int, int, int)>)

  const UNBOUND: Locals := Locals(None, None, None)

  /**
   * What read_data works on: `read_state`, `packet_type`,
   * `samples_read`, the settings properties, its own locals, the
   * callback invocations so far, and whether an exception has ended it.
   */
  datatype Reader = Reader(state: int, kind: Kind, samplesRead: nat, names: ConfNames, locals: Locals,
                           calls: seq<(Callback, DataPacket)>, raised: bool)

  /** The states the framer reaches: 0 .. 4, a packet type once past state 0, a data frame past state 2. */
  predicate ReaderValid(r: Reader)
  {
    0 <= r.state <= 4 && (r.state != 0 ==> r.kind != Unset) && (r.state >= 3 ==> r.kind == Data)
  }

  /** Bytes the next pass reads with `port.read`. */
  function Need(state: int, kind: Kind): (n: nat)
    ensures n >= 1
    ensures state == 2 && kind == Data ==> n == 32
    ensures state == 3 ==> n == 12
  {
    if state == 1 && kind == Conf then 5
    else if state == 2 && kind == Data then 32
    else if state == 3 then 12
    else 1
  }

  /** Every callback in list order, each with the same packet. */
  function Dispatch(cbs: seq<Callback>, p: DataPacket): (r: seq<(Callback, DataPacket)>)
    ensures |r| == |cbs|
    ensures forall i | 0 <= i < |cbs| :: r[i] == (cbs[i], p)
  {
    seq(|cbs|, i requires 0 <= i < |cbs| => (cbs[i], p))
  }

  /** The eight channel words of the 32 channel bytes, four consecutive bytes each. */
  function Channels(b: seq<byte>): (r: seq<int>)
    requires |b| == 32
    ensures |r| == 8
    ensures forall i | 0 <= i < 8 :: r[i] == FromBigEndian32(b[4 * i..4 * i + 4])
  {
    seq(8, i requires 0 <= i < 8 => FromBigEndian32(b[4 * i..4 * i + 4]))
  }

  /** Read state 0: a header byte opens a packet of its type, any other byte is dropped. */
  function IdleStep(r: Reader, x: byte): (n: Reader)
    ensures x == DATA_PACKET_HEADER ==> n.state == 1 && n.kind == Data
    ensures x == BME_CONF_PACKET_HEADER ==> n.state == 1 && n.kind == Conf
    ensures x != DATA_PACKET_HEADER && x != BME_CONF_PACKET_HEADER ==> n == r
    ensures n.(state := r.state, kind := r.kind) == r
  {
    if x == DATA_PACKET_HEADER || x == BME_CONF_PACKET_HEADER then
      r.(state := 1, kind := if x == BME_CONF_PACKET_HEADER then Conf else Data)
    else r
  }

  /**
   * The five settings of a reply, decoded and stored one property at a
   * time; a code missing from its table raises KeyError, and the
   * properties before it keep their new names.  The flag says all five
   * decoded.
   */
  function DecodeSettings(n: ConfNames, b: seq<byte>): (r: (ConfNames, bool))
    requires |b| == 5
    ensures r.1 <==> OversamplingName(b[0]).Some? && OversamplingName(b[1]).Some? &&
                     OversamplingName(b[2]).Some? && StandbyName(b[3]).Some? && FilterName(b[4]).Some?
    ensures r.1 ==> r.0 == ConfNames(OversamplingName(b[0]).value, OversamplingName(b[1]).value,
                                     OversamplingName(b[2]).value, StandbyName(b[3]).value, FilterName(b[4]).value)
    ensures OversamplingName(b[0]).None? ==> r.0 == n
  {
    var h := OversamplingName(b[0]);
    if h.None? then (n, false) else
    var n1 := n.(hum := h.value);
    var t := OversamplingName(b[1]);
    if t.None? then (n1, false) else
    var n2 := n1.(temp := t.value);
    var p := OversamplingName(b[2]);
    if p.None? then (n2, false) else
    var n3 := n2.(press := p.value);
    var s := StandbyName(b[3]);
    if s.None? then (n3, false) else
    var n4 := n3.(standby := s.value);
    var f := FilterName(b[4]);
    if f.None? then (n4, false) else
    (n4.(filter := f.value), true)
  }

  /** Read state 1: a data frame's counter byte, or a settings reply's five settings. */
  function HeadStep(r: Reader, b: seq<byte>): (n: Reader)
    requires r.kind != Unset && |b| == Need(1, r.kind)
    ensures n.kind == r.kind && n.samplesRead == r.samplesRead && n.calls == r.calls
    ensures r.kind == Data ==>
              n.state == 2 && n.locals == r.locals.(counter := Some(b[0])) && n.names == r.names && n.raised == r.raised
    ensures r.kind == Conf ==>
              var d := DecodeSettings(r.names, b);
              n.locals == r.locals && n.names == d.0 &&
              (d.1 ==> n.state == 2 && n.raised == r.raised) && (!d.1 ==> n.state == r.state && n.raised)
  {
    if r.kind == Data then r.(state := 2, locals := r.locals.(counter := Some(b[0])))
    else
      var d := DecodeSettings(r.names, b);
      if d.1 then r.(state := 2, names := d.0) else r.(names := d.0, raised := true)
  }

  /** Read state 2: a data frame's channel bytes, or a settings reply's tail, awaited until it is 0xB0. */
  function BodyStep(r: Reader, b: seq<byte>): (n: Reader)
    requires r.kind != Unset && |b| == Need(2, r.kind)
    ensures n.kind == r.kind && n.samplesRead == r.samplesRead && n.calls == r.calls && n.names == r.names
    ensures n.raised == r.raised
    ensures r.kind == Data ==> n.state == 3 && n.locals == r.locals.(channels := Some(Channels(b)))
    ensures r.kind == Conf && b[0] == BME_CONF_PACKET_TAIL ==> n == r.(state := 0)
    ensures r.kind == Conf && b[0] != BME_CONF_PACKET_TAIL ==> n == r
  {
    if r.kind == Data then r.(state := 3, locals := r.locals.(channels := Some(Channels(b))))
    else if b[0] == BME_CONF_PACKET_TAIL then r.(state := 0)
    else r
  }

  /** Read state 3: pressure, temperature and humidity, four bytes each in that order. */
  function EnvironmentStep(r: Reader, b: seq<byte>): (n: Reader)
    requires |b| == 12
    ensures n.state == 4 && n.locals.counter == r.locals.counter && n.locals.channels == r.locals.channels
    ensures n.locals.env == Some((FromBigEndian32(b[0..4]), FromBigEndian32(b[4..8]), FromBigEndian32(b[8..12])))
    ensures n.(state := r.state, locals := r.locals) == r
  {
    r.(state := 4, locals := r.locals.(env := Some((FromBigEndian32(b[0..4]), FromBigEndian32(b[4..8]), FromBigEndian32(b[8..12])))))
  }

  /** The packet built from the locals, None when one of them was never assigned. */
  function Packet(l: Locals): (p: Option<DataPacket>)
    ensures p.Some? <==> l.counter.Some? && l.channels.Some? && l.env.Some?
    ensures p.Some? ==> p.value.counter == l.counter.value && p.value.resistance == l.channels.value &&
                        p.value.pressure == l.env.value.0 && p.value.temperature == l.env.value.1 &&
                        p.value.humidity == l.env.value.2
  {
    if l.counter.Some? && l.channels.Some? && l.env.Some? then
      Some(DataPacket(l.counter.value, l.env.value.1, l.env.value.2, l.env.value.0, l.channels.value))
    else None
  }

  /**
   * Read state 4: the tail.  On 0xF0 `samples_read` goes up by one and
   * every callback is called with the packet, in list order; on any
   * other byte the frame is dropped.  Either way the framer is back at
   * state 0.
   */
  function TailStep(r: Reader, cbs: seq<Callback>, x: byte): (n: Reader)
    ensures n.state == 0 && n.kind == r.kind && n.names == r.names && n.locals == r.locals
    ensures x == DATA_PACKET_TAIL ==>
              n.samplesRead == r.samplesRead + 1 &&
              (Packet(r.locals).Some? ==> n.calls == r.calls + Dispatch(cbs, Packet(r.locals).value) && n.raised == r.raised) &&
              (Packet(r.locals).None? ==> n.calls == r.calls && n.raised)
    ensures x != DATA_PACKET_TAIL ==> n == r.(state := 0)
  {
    if x == DATA_PACKET_TAIL then
      var r1 := r.(state := 0, samplesRead := r.samplesRead + 1);
      var p := Packet(r.locals);
      if p.Some? then r1.(calls := r.calls + Dispatch(cbs, p.value)) else r1.(raised := true)
    else r.(state := 0)
  }

  /** One pass of the loop of read_data on the `Need` bytes it reads. */
  function Step(r: Reader, cbs: seq<Callback>, b: seq<byte>): (n: Reader)
    requires ReaderValid(r) && |b| == Need(r.state, r.kind)
    ensures ReaderValid(n)
  {
    if r.state == 0 then IdleStep(r, b[0])
    else if r.state == 1 then HeadStep(r, b)
    else if r.state == 2 then BodyStep(r, b)
    else if r.state == 3 then EnvironmentStep(r, b)
    else TailStep(r, cbs, b[0])
  }

  /**
   * The loop of read_data over the bytes `input` waiting at the port:
   * it goes on while no exception has ended it and the next read finds
   * its bytes (with fewer, `port.read` waits for more); the bytes not yet
   * read are handed back.
   */
  function Run(r: Reader, cbs: seq<Callback>, input: seq<byte>): (out: (Reader, seq<byte>))
    requires ReaderValid(r)
    ensures ReaderValid(out.0)
    ensures out.0.raised || |out.1| < Need(out.0.state, out.0.kind)
    ensures |out.1| <= |input|
    decreases |input|
  {
    if r.raised || |input| < Need(r.state, r.kind) then (r, input)
    else
      var k := Need(r.state, r.kind);
      Run(Step(r, cbs, input[..k]), cbs, input[k..])
  }

  /** Unfolds Run by one pass. */
  lemma RunStep(r: Reader, cbs: seq<Callback>, input: seq<byte>)
    requires ReaderValid(r) && !r.raised && Need(r.state, r.kind) <= |input|
    ensures var k := Need(r.state, r.kind);
            Run(r, cbs, input) == Run(Step(r, cbs, input[..k]), cbs, input[k..])
  {
  }

  /** A pass that reads exactly the bytes `b` waiting in front of `rest`. */
  lemma RunBlock(r: Reader, cbs: seq<Callback>, b: seq<byte>, rest: seq<byte>)
    requires ReaderValid(r) && !r.raised && |b| == Need(r.state, r.kind)
    ensures Run(r, cbs, b + rest) == Run(Step(r, cbs, b), cbs, rest)
  {
    RunStep(r, cbs, b + rest);
    assert (b + rest)[..|b|] == b;
    assert (b + rest)[|b|..] == rest;
  }

  /** In read state 0 exactly the two header bytes move on, to state 1, and they set the packet type. */
  lemma IdleHeader(r: Reader, x: byte)
    requires ReaderValid(r) && r.state == 0
    ensures var n := Step(r, [], [x]);
            (n.state == 1 <==> x == DATA_PACKET_HEADER || x == BME_CONF_PACKET_HEADER) &&
            (n.state != 1 ==> n == r) &&
            (x == DATA_PACKET_HEADER ==> n.kind == Data) && (x == BME_CONF_PACKET_HEADER ==> n.kind == Conf)
  {
  }

  /** No header byte in the input: in read state 0 the loop reads all of it and changes nothing. */
  lemma {:induction false} IdleDiscards(r: Reader, cbs: seq<Callback>, input: seq<byte>)
    requires ReaderValid(r) && r.state == 0 && !r.raised
    requires forall i | 0 <= i < |input| :: input[i] != DATA_PACKET_HEADER && input[i] != BME_CONF_PACKET_HEADER
    ensures Run(r, cbs, input) == (r, [])
    decreases |input|
  {
    if |input| > 0 {
      RunStep(r, cbs, input);
      IdleDiscards(r, cbs, input[1..]);
    }
  }

  /**
   * The tail pass: the callbacks run, each once in list order with the
   * packet of the frame's locals, and `samples_read` goes up by one
   * exactly when the byte is 0xF0; on any other byte nothing is
   * delivered; in both cases the framer is back at read state 0.
   */
  lemma TailDelivers(r: Reader, cbs: seq<Callback>, x: byte)
    requires ReaderValid(r) && r.state == 4 && !r.raised && Packet(r.locals).Some?
    ensures var n := Step(r, cbs, [x]);
            n.state == 0 && !n.raised &&
            (x == DATA_PACKET_TAIL ==> n.calls == r.calls + Dispatch(cbs, Packet(r.locals).value) &&
                                       n.samplesRead == r.samplesRead + 1) &&
            (x != DATA_PACKET_TAIL ==> n.calls == r.calls && n.samplesRead == r.samplesRead)
  {
  }

  /** The packet a data frame carries: counter at byte 1, channels at 2 .. 33, then pressure, temperature, humidity. */
  function FramePacket(f: seq<byte>): (p: DataPacket)
    requires |f| == DATA_FRAME
    ensures p.counter == f[1] && p.resistance == Channels(f[2..34])
    ensures p.pressure == FromBigEndian32(f[34..38]) && p.temperature == FromBigEndian32(f[38..42]) && p.humidity == FromBigEndian32(f[42..46])
  {
    DataPacket(f[1], FromBigEndian32(f[38..42]), FromBigEndian32(f[42..46]), FromBigEndian32(f[34..38]), Channels(f[2..34]))
  }

  /** The state read_data is in after a whole data frame. */
  function AfterFrame(r: Reader, cbs: seq<Callback>, f: seq<byte>): (n: Reader)
    requires |f| == DATA_FRAME
  {
    var p := FramePacket(f);
    r.(state := 0, kind := Data, samplesRead := r.samplesRead + 1,
       locals := Locals(Some(p.counter), Some(p.resistance), Some((p.pressure, p.temperature, p.humidity))),
       calls := r.calls + Dispatch(cbs, p))
  }

  /** The header and counter passes of a data frame. */
  lemma FrameHead(r: Reader, cbs: seq<Callback>, f: seq<byte>, rest: seq<byte>)
    requires ReaderValid(r) && r.state == 0 && !r.raised
    requires |f| == DATA_FRAME && f[0] == DATA_PACKET_HEADER
    ensures Run(r, cbs, f + rest) ==
            Run(r.(state := 2, kind := Data, locals := r.locals.(counter := Some(f[1]))), cbs, f[2..] + rest)
  {
    assert f + rest == [f[0]] + ([f[1]] + (f[2..] + rest));
    RunBlock(r, cbs, [f[0]], [f[1]] + (f[2..] + rest));
    RunBlock(r.(state := 1, kind := Data), cbs, [f[1]], f[2..] + rest);
  }

  /** The channel pass of a data frame. */
  lemma FrameChannels(r2: Reader, cbs: seq<Callback>, f: seq<byte>, rest: seq<byte>)
    requires ReaderValid(r2) && r2.state == 2 && r2.kind == Data && !r2.raised && |f| == DATA_FRAME
    ensures Run(r2, cbs, f[2..] + rest) ==
            Run(r2.(state := 3, locals := r2.locals.(channels := Some(Channels(f[2..34])))), cbs, f[34..] + rest)
  {
    assert f[2..] + rest == f[2..34] + (f[34..] + rest);
    RunBlock(r2, cbs, f[2..34], f[34..] + rest);
  }

  /** The environment pass on its twelve bytes `e`. */
  lemma EnvironmentPass(r3: Reader, cbs: seq<Callback>, e: seq<byte>, rest: seq<byte>)
    requires ReaderValid(r3) && r3.state == 3 && !r3.raised && |e| == 12
    ensures Run(r3, cbs, e + rest) ==
            Run(r3.(state := 4, locals := r3.locals.(env := Some((FromBigEndian32(e[0..4]), FromBigEndian32(e[4..8]), FromBigEndian32(e[8..12]))))),
                cbs, rest)
  {
    RunBlock(r3, cbs, e, rest);
  }

  /** The environment pass of a data frame. */
  lemma FrameEnvironment(r3: Reader, cbs: seq<Callback>, f: seq<byte>, rest: seq<byte>)
    requires ReaderValid(r3) && r3.state == 3 && !r3.raised && |f| == DATA_FRAME
    ensures Run(r3, cbs, f[34..] + rest) ==
            Run(r3.(state := 4, locals := r3.locals.(env := Some((FromBigEndian32(f[34..38]), FromBigEndian32(f[38..42]), FromBigEndian32(f[42..46]))))),
                cbs, f[46..] + rest)
  {
    var e := f[34..46];
    assert f[34..] + rest == e + (f[46..] + rest);
    EnvironmentPass(r3, cbs, e, f[46..] + rest);
    assert e[0..4] == f[34..38] && e[4..8] == f[38..42] && e[8..12] == f[42..46];
  }

  /** The first four passes over a data frame, header to environment. */
  lemma FrameUpToTail(r: Reader, cbs: seq<Callback>, f: seq<byte>, rest: seq<byte>)
    requires ReaderValid(r) && r.state == 0 && !r.raised
    requires |f| == DATA_FRAME && f[0] == DATA_PACKET_HEADER
    ensures var p := FramePacket(f);
            var r4 := r.(state := 4, kind := Data,
                         locals := Locals(Some(p.counter), Some(p.resistance), Some((p.pressure, p.temperature, p.humidity))));
            Run(r, cbs, f + rest) == Run(r4, cbs, f[46..] + rest)
  {
    FrameHead(r, cbs, f, rest);
    var r2 := r.(state := 2, kind := Data, locals := r.locals.(counter := Some(f[1])));
    FrameChannels(r2, cbs, f, rest);
    FrameEnvironment(r2.(state := 3, locals := r2.locals.(channels := Some(Channels(f[2..34])))), cbs, f, rest);
  }

  /**
   * A data frame read from read state 0: all 47 bytes are consumed, the
   * callbacks get, in list order, the packet whose counter is byte 1,
   * whose channels are the eight words of bytes 2 .. 33 and whose
   * pressure, temperature and humidity are the words of bytes 34 .. 45,
   * `samples_read` goes up by one, and the loop goes on with what
   * follows the frame.
   */
  lemma {:induction false} DataFrameRead(r: Reader, cbs: seq<Callback>, f: seq<byte>, rest: seq<byte>)
    requires ReaderValid(r) && r.state == 0 && !r.raised
    requires |f| == DATA_FRAME && f[0] == DATA_PACKET_HEADER && f[DATA_FRAME - 1] == DATA_PACKET_TAIL
    ensures Run(r, cbs, f + rest) == Run(AfterFrame(r, cbs, f), cbs, rest)
  {
    FrameUpToTail(r, cbs, f, rest);
    var p := FramePacket(f);
    var r4 := r.(state := 4, kind := Data,
                 locals := Locals(Some(p.counter), Some(p.resistance), Some((p.pressure, p.temperature, p.humidity))));
    assert f[46..] + rest == [DATA_PACKET_TAIL] + rest;
    RunBlock(r4, cbs, [DATA_PACKET_TAIL], rest);
    assert Packet(r4.locals) == Some(p);
    assert Step(r4, cbs, [DATA_PACKET_TAIL]) == TailStep(r4, cbs, DATA_PACKET_TAIL) == AfterFrame(r, cbs, f);
  }

  /**
   * A settings reply read from read state 0 whose five codes are all in
   * their tables: the five properties are set at read state 1, before
   * the tail is seen, and the framer then waits at read state 2 for the
   * tail.
   */
  lemma SettingsRead(r: Reader, cbs: seq<Callback>, b: seq<byte>, rest: seq<byte>)
    requires ReaderValid(r) && r.state == 0 && !r.raised && |b| == 5
    requires DecodeSettings(r.names, b).1
    ensures Run(r, cbs, [BME_CONF_PACKET_HEADER] + b + rest) ==
            Run(r.(state := 2, kind := Conf, names := DecodeSettings(r.names, b).0), cbs, rest)
  {
    assert [BME_CONF_PACKET_HEADER] + b + rest == [BME_CONF_PACKET_HEADER] + (b + rest);
    RunBlock(r, cbs, [BME_CONF_PACKET_HEADER], b + rest);
    RunBlock(r.(state := 1, kind := Conf), cbs, b, rest);
  }

  /**
   * Waiting for a settings reply's tail at read state 2: every byte
   * other than 0xB0 is read and dropped and the framer stays at state 2,
   * so the bytes of whatever follows are compared with the tail.
   */
  lemma {:induction false} ConfTailAwaited(r: Reader, cbs: seq<Callback>, input: seq<byte>)
    requires ReaderValid(r) && r.state == 2 && r.kind == Conf && !r.raised
    requires forall i | 0 <= i < |input| :: input[i] != BME_CONF_PACKET_TAIL
    ensures Run(r, cbs, input) == (r, [])
    decreases |input|
  {
    if |input| > 0 {
      RunStep(r, cbs, input);
      ConfTailAwaited(r, cbs, input[1..]);
    }
  }

  /** After any run of other bytes, 0xB0 takes the framer from read state 2 back to state 0. */
  lemma {:induction false} ConfTailEnds(r: Reader, cbs: seq<Callback>, input: seq<byte>, rest: seq<byte>)
    requires ReaderValid(r) && r.state == 2 && r.kind == Conf && !r.raised
    requires forall i | 0 <= i < |input| :: input[i] != BME_CONF_PACKET_TAIL
    ensures Run(r, cbs, input + [BME_CONF_PACKET_TAIL] + rest) == Run(r.(state := 0), cbs, rest)
    decreases |input|
  {
    if |input| > 0 {
      assert input + [BME_CONF_PACKET_TAIL] + rest == [input[0]] + (input[1..] + [BME_CONF_PACKET_TAIL] + rest);
      RunBlock(r, cbs, [input[0]], input[1..] + [BME_CONF_PACKET_TAIL] + rest);
      ConfTailEnds(r, cbs, input[1..], rest);
    } else {
      assert input + [BME_CONF_PACKET_TAIL] + rest == [BME_CONF_PACKET_TAIL] + rest;
      RunBlock(r, cbs, [BME_CONF_PACKET_TAIL], rest);
    }
  }
}
