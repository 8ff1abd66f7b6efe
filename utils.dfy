/**
 * Utils.c: the clamp on one gas-sensor conversion and the packing of the
 * 47-byte data frame the firmware streams to the GUI.
 *
 * The frame is `DATA_HEADER`, a packet counter, eleven 32-bit words
 * (eight gas channels, then pressure, temperature and humidity), each
 * most significant byte first, and `DATA_TAIL`.
 */
module Utils {
  import opened CInt
  import opened Hardware
  import opened Bme280

  /** Positions of the Gas_Sens_Voltage fields, in declaration order (Gas_Sensor.h). */
  const S4_1: nat := 0
  const S4_2: nat := 1
  const S4_3: nat := 2
  const S4_4: nat := 3
  const S6_1: nat := 4
  const S6_2: nat := 5
  const AS_1: nat := 6
  const AS_2: nat := 7
  const CHANNELS: nat := 8

  /** MACROS.h framing constants. */
  const DATA_HEADER: byte := 0xAA
  const DATA_TAIL: byte := 0xF0
  /** Eight channels plus pressure, temperature and humidity. */
  const FRAME_WORDS: nat := 11
  /** 1 + 1 + DATA_GAS_ENV_SIZE + 1 with DATA_GAS_ENV_SIZE = 4 * FRAME_WORDS. */
  const DATA_BUFFER_SIZE: nat := 47
  /** Largest value GasSensor_VoltRead passes through. */
  const VOLT_MAX: int := 65535

  /**
   * The `gas_sensor` global: the Gas_Volt_Data struct, and the eight
   * int32 globals S4_1_v .. AS_2_v that MuxSelection fills from a second
   * conversion.  Both are zero at start-up, as all C globals are.
   */
  class GasSensor {
    var volt: seq<int>
    var copies: seq<int>

    ghost predicate Valid()
      reads this
    {
      |volt| == CHANNELS && |copies| == CHANNELS
    }

    constructor ()
      ensures Valid()
      ensures forall i | 0 <= i < CHANNELS :: volt[i] == 0 && copies[i] == 0
    {
      volt := seq(CHANNELS, _ => 0);
      copies := seq(CHANNELS, _ => 0);
    }
  }

  /**
   * The value GasSensor_VoltRead makes of conversion number `k` of the
   * script: always in [0, 65535], the int32 reading itself inside that
   * range, 65535 above it and 0 below it.
   */
  function Conversion(sample: nat -> int32, k: nat): (v: int)
    ensures 0 <= v <= VOLT_MAX
    ensures var raw := sample(k);
            (0 <= raw <= VOLT_MAX ==> v == raw) &&
            (raw > VOLT_MAX ==> v == VOLT_MAX) &&
            (raw < 0 ==> v == 0)
  {
    Clamp(0, VOLT_MAX, sample(k))
  }

  /**
   * GasSensor_VoltRead: one ADC conversion, limited to [0, 65535].
   */
  method GasSensorVoltRead(adc: Adc) returns (v: int)
    modifies adc
    ensures adc.taken == old(adc.taken) + 1
    ensures v == Conversion(adc.sample, old(adc.taken))
  {
    v := adc.Read32();
    if v > VOLT_MAX {
      v := VOLT_MAX;
    } else if v <= 0 {
      v := 0;
    }
  }

  /** The eleven values a frame carries, in wire order. */
  function FrameFields(volt: seq<int>, data: SensorData): (r: seq<int>)
    requires |volt| == CHANNELS
    ensures |r| == FRAME_WORDS
    ensures r[..CHANNELS] == volt
    ensures r[8] == data.pressure && r[9] == data.temperature && r[10] == data.humidity
  {
    volt + [data.pressure, data.temperature, data.humidity]
  }

  /** Offset in the frame of word `i`: two leading bytes, then four bytes per word. */
  function WordOffset(i: nat): nat
  {
    2 + 4 * i
  }

  /** The four frame bytes of word `i`. */
  function FrameWord(frame: seq<byte>, i: nat): (r: seq<byte>)
    requires i < FRAME_WORDS && |frame| == DATA_BUFFER_SIZE
    ensures |r| == 4
  {
    frame[WordOffset(i)..WordOffset(i) + 4]
  }

  /** Words `lo` up to `hi` of `frame` are the big-endian patterns of `fields`. */
  ghost predicate WordsHold(frame: seq<byte>, fields: seq<int>, lo: nat, hi: nat)
    requires |frame| == DATA_BUFFER_SIZE && |fields| == FRAME_WORDS && hi <= FRAME_WORDS
  {
    forall i | lo <= i < hi :: FrameWord(frame, i) == BigEndian32(fields[i])
  }

  /** Every byte of `b` outside positions `lo` up to `hi` is the one of `a`. */
  ghost predicate SameOutside(a: seq<byte>, b: seq<byte>, lo: nat, hi: nat)
  {
    |a| == |b| && forall j | 0 <= j < |a| && !(lo <= j < hi) :: b[j] == a[j]
  }

  /**
   * Writes word `i` of the frame: `(x & MSB) >> 24` .. `x & LSB` on an
   * int32 and `(uint8_t)(x >> 24)` .. `(uint8_t)x` on the BME280 fields
   * both give byte k of the 32-bit pattern of `x`, most significant first.
   */
  method WriteWord(buffer: array<byte>, fields: seq<int>, i: nat)
    requires buffer.Length == DATA_BUFFER_SIZE && |fields| == FRAME_WORDS && i < FRAME_WORDS
    requires WordsHold(buffer[..], fields, 0, i)
    modifies buffer
    ensures WordsHold(buffer[..], fields, 0, i + 1)
    ensures SameOutside(old(buffer[..]), buffer[..], WordOffset(i), WordOffset(i) + 4)
  {
    ghost var before := buffer[..];
    var x := fields[i];
    var o := WordOffset(i);
    var b := BigEndian32(x);
    buffer[o] := b[0];
    buffer[o + 1] := b[1];
    buffer[o + 2] := b[2];
    buffer[o + 3] := b[3];
    assert FrameWord(buffer[..], i) == BigEndian32(x);
    forall k | 0 <= k < i
      ensures FrameWord(buffer[..], k) == BigEndian32(fields[k])
    {
      assert FrameWord(buffer[..], k) == FrameWord(before, k);
    }
  }

  /** The eight channel words, in Gas_Sens_Voltage order (Utils.c:76-107). */
  method WriteChannels(buffer: array<byte>, fields: seq<int>)
    requires buffer.Length == DATA_BUFFER_SIZE && |fields| == FRAME_WORDS
    modifies buffer
    ensures WordsHold(buffer[..], fields, 0, CHANNELS)
    ensures SameOutside(old(buffer[..]), buffer[..], WordOffset(0), WordOffset(CHANNELS))
  {
    WriteWord(buffer, fields, S4_1);
    WriteWord(buffer, fields, S4_2);
    WriteWord(buffer, fields, S4_3);
    WriteWord(buffer, fields, S4_4);
    WriteWord(buffer, fields, S6_1);
    WriteWord(buffer, fields, S6_2);
    WriteWord(buffer, fields, AS_1);
    WriteWord(buffer, fields, AS_2);
  }

  /** Pressure, temperature and humidity words (Utils.c:111-124). */
  method WriteEnvironment(buffer: array<byte>, fields: seq<int>)
    requires buffer.Length == DATA_BUFFER_SIZE && |fields| == FRAME_WORDS
    requires WordsHold(buffer[..], fields, 0, CHANNELS)
    modifies buffer
    ensures WordsHold(buffer[..], fields, 0, FRAME_WORDS)
    ensures SameOutside(old(buffer[..]), buffer[..], WordOffset(CHANNELS), WordOffset(FRAME_WORDS))
  {
    WriteWord(buffer, fields, 8);
    WriteWord(buffer, fields, 9);
    WriteWord(buffer, fields, 10);
  }

  /**
   * BundleData: the packet counter at byte 1 goes up by one modulo 256,
   * bytes 2 .. 45 become the eleven big-endian words of the gas channels
   * and the BME280 readings, and header and tail are left as they were.
   */
  method BundleData(buffer: array<byte>, gas: GasSensor, data: SensorData)
    requires buffer.Length == DATA_BUFFER_SIZE && gas.Valid()
    modifies buffer
    ensures buffer[0] == old(buffer[0]) && buffer[DATA_BUFFER_SIZE - 1] == old(buffer[DATA_BUFFER_SIZE - 1])
    ensures buffer[1] == U8(old(buffer[1]) as int + 1)
    ensures WordsHold(buffer[..], FrameFields(gas.volt, data), 0, FRAME_WORDS)
  {
    buffer[1] := U8(buffer[1] as int + 1);
    ghost var counted := buffer[..];
    var fields := FrameFields(gas.volt, data);
    WriteChannels(buffer, fields);
    ghost var channels := buffer[..];
    WriteEnvironment(buffer, fields);
    assert buffer[..][1] == channels[1] == counted[1];
    assert buffer[..][0] == channels[0] == counted[0];
    assert buffer[..][46] == channels[46] == counted[46];
  }
}
