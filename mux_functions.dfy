/**
 * mux_functions.c: selecting one of the eight channels of the external
 * analog multiplexer and sampling the two gas sensors behind an even
 * channel, first with the enable line low and then with it high.
 */
module MuxFunctions {
  import opened CInt
  import opened Hardware
  import opened Utils

  /**
   * The Gas_Sens_Voltage fields behind channel `ch`: the one read with
   * the enable line low, then the one read with it high.  Odd channels
   * and channels above 7 read nothing.
   */
  function ChannelSensors(ch: byte): (r: Option<(nat, nat)>)
    ensures r.Some? <==> ch <= 6 && ch % 2 == 0
    ensures r.Some? ==> r.value.0 < CHANNELS && r.value.1 < CHANNELS && r.value.0 != r.value.1
  {
    if ch == 0 then Some((S4_1, S4_3))
    else if ch == 2 then Some((AS_1, S6_2))
    else if ch == 4 then Some((S6_1, S4_4))
    else if ch == 6 then Some((S4_2, AS_2))
    else None
  }

  /** ADC conversions MuxSelection takes for channel `ch`: two per sensor. */
  function Conversions(ch: byte): nat
  {
    if ChannelSensors(ch).Some? then 4 else 0
  }

  /**
   * Field values after channel `ch` sampled them: an even channel's first
   * sensor takes conversion `t` and its second conversion `t + 2`, any
   * other channel leaves them.  With `t + 1` and `t + 3` the same update
   * describes the global copies.
   */
  function Sampled(vals: seq<int>, ch: byte, sample: nat -> int32, t: nat): (r: seq<int>)
    requires |vals| == CHANNELS
    ensures |r| == CHANNELS
  {
    match ChannelSensors(ch)
    case Some(p) => vals[p.0 := Conversion(sample, t)][p.1 := Conversion(sample, t + 2)]
    case None => vals
  }

  /** Drives the select lines A0..A2. */
  method Select(lines: MuxLines, a0: byte, a1: byte, a2: byte)
    modifies lines`a0, lines`a1, lines`a2
    ensures lines.a0 == a0 && lines.a1 == a1 && lines.a2 == a2
  {
    lines.a0 := a0;
    lines.a1 := a1;
    lines.a2 := a2;
  }

  /**
   * One sensor: the field `f` of the struct and then its global copy each
   * take a conversion of their own.
   */
  method ReadSensor(gas: GasSensor, adc: Adc, f: nat)
    requires gas.Valid() && f < CHANNELS
    modifies gas, adc
    ensures gas.Valid()
    ensures adc.taken == old(adc.taken) + 2
    ensures gas.volt == old(gas.volt)[f := Conversion(adc.sample, old(adc.taken))]
    ensures gas.copies == old(gas.copies)[f := Conversion(adc.sample, old(adc.taken) + 1)]
  {
    var v := GasSensorVoltRead(adc);
    gas.volt := gas.volt[f := v];
    var c := GasSensorVoltRead(adc);
    gas.copies := gas.copies[f := c];
  }

  /** The two sensors of an even channel: enable low for `first`, high for `second`. */
  method ReadPair(gas: GasSensor, adc: Adc, lines: MuxLines, first: nat, second: nat)
    requires gas.Valid() && first < CHANNELS && second < CHANNELS
    modifies gas, adc, lines`en
    ensures gas.Valid() && lines.en == HIGH
    ensures adc.taken == old(adc.taken) + 4
    ensures gas.volt == old(gas.volt)[first := Conversion(adc.sample, old(adc.taken))]
                                     [second := Conversion(adc.sample, old(adc.taken) + 2)]
    ensures gas.copies == old(gas.copies)[first := Conversion(adc.sample, old(adc.taken) + 1)]
                                         [second := Conversion(adc.sample, old(adc.taken) + 3)]
  {
    lines.en := LOW;
    ReadSensor(gas, adc, first);
    lines.en := HIGH;
    ReadSensor(gas, adc, second);
  }

  /**
   * MuxSelection: for a channel up to 7 the select lines take the three
   * low bits of the channel number; an even channel then samples its two
   * sensors; a channel above 7 changes nothing.
   */
  method MuxSelection(gas: GasSensor, ch: byte, adc: Adc, lines: MuxLines)
    requires gas.Valid()
    modifies gas, adc, lines
    ensures gas.Valid()
    ensures ch <= 7 ==> lines.a0 == ch % 2 && lines.a1 == ch / 2 % 2 && lines.a2 == ch / 4 % 2
    ensures ch > 7 ==> lines.a0 == old(lines.a0) && lines.a1 == old(lines.a1) && lines.a2 == old(lines.a2)
    ensures adc.taken == old(adc.taken) + Conversions(ch)
    ensures lines.en == if ChannelSensors(ch).Some? then HIGH else old(lines.en)
    ensures gas.volt == Sampled(old(gas.volt), ch, adc.sample, old(adc.taken))
    ensures gas.copies == Sampled(old(gas.copies), ch, adc.sample, old(adc.taken) + 1)
  {
    if ch <= 7 {
      SelectChannel(lines, ch);
      match ch
      case 0 => ReadPair(gas, adc, lines, S4_1, S4_3);
      case 2 => ReadPair(gas, adc, lines, AS_1, S6_2);
      case 4 => ReadPair(gas, adc, lines, S6_1, S4_4);
      case 6 => ReadPair(gas, adc, lines, S4_2, AS_2);
      case _ =>
    }
  }

  /** The select-line half of MuxSelection's switch: A0, A1, A2 are bits 0, 1, 2 of `ch`. */
  method SelectChannel(lines: MuxLines, ch: byte)
    requires ch <= 7
    modifies lines`a0, lines`a1, lines`a2
    ensures lines.a0 == ch % 2 && lines.a1 == ch / 2 % 2 && lines.a2 == ch / 4 % 2
  {
    match ch
    case 0 => Select(lines, LOW, LOW, LOW);
    case 1 => Select(lines, HIGH, LOW, LOW);
    case 2 => Select(lines, LOW, HIGH, LOW);
    case 3 => Select(lines, HIGH, HIGH, LOW);
    case 4 => Select(lines, LOW, LOW, HIGH);
    case 5 => Select(lines, HIGH, LOW, HIGH);
    case 6 => Select(lines, LOW, HIGH, HIGH);
    case 7 => Select(lines, HIGH, HIGH, HIGH);
  }

  /** The order in which Custom_ISR_ADC's sweep over channels 0, 2, 4, 6 reads the fields. */
  const SWEEP: seq<nat> := [S4_1, S4_3, AS_1, S6_2, S6_1, S4_4, S4_2, AS_2]

  /** Position of field `f` in the sweep. */
  function SweepSlot(f: nat): (k: nat)
    requires f < CHANNELS
    ensures k < CHANNELS && SWEEP[k] == f
  {
    if f == S4_1 then 0 else if f == S4_3 then 1 else if f == AS_1 then 2 else if f == S6_2 then 3
    else if f == S6_1 then 4 else if f == S4_4 then 5 else if f == S4_2 then 6 else 7
  }

  /** The sweep reads every one of the eight fields exactly once. */
  lemma SweepIsPermutation()
    ensures |SWEEP| == CHANNELS
    ensures forall k | 0 <= k < CHANNELS :: SWEEP[k] < CHANNELS && SweepSlot(SWEEP[k]) == k
    ensures forall j, k | 0 <= j < k < CHANNELS :: SWEEP[j] != SWEEP[k]
  {
  }

  /** The sweep's channels name, two at a time, the fields of SWEEP. */
  lemma SweepFollowsChannels()
    ensures forall m | 0 <= m < 4 ::
              ChannelSensors(2 * m as byte) == Some((SWEEP[2 * m], SWEEP[2 * m + 1]))
  {
  }

  /**
   * Field values after Custom_ISR_ADC's sweep over channels 0, 2, 4 and 6
   * from conversion `t` on: the field at slot k of SWEEP holds conversion
   * `t + 2k`.
   */
  function SweepVolts(sample: nat -> int32, t: nat): (r: seq<int>)
    ensures |r| == CHANNELS
  {
    [Conversion(sample, t), Conversion(sample, t + 12), Conversion(sample, t + 2), Conversion(sample, t + 10),
     Conversion(sample, t + 8), Conversion(sample, t + 6), Conversion(sample, t + 4), Conversion(sample, t + 14)]
  }

  /** SweepVolts puts conversion `t + 2k` into the field at slot k of SWEEP. */
  lemma SweepVoltsBySlot(sample: nat -> int32, t: nat)
    ensures forall k | 0 <= k < CHANNELS :: SweepVolts(sample, t)[SWEEP[k]] == Conversion(sample, t + 2 * k)
  {
  }

  /**
   * The sweep, stage by stage, overwrites every field: whatever `v0`
   * held, the result is SweepVolts.
   */
  lemma {:induction false} SweepReadsAll(v0: seq<int>, v1: seq<int>, v2: seq<int>, v3: seq<int>, v4: seq<int>,
                                         sample: nat -> int32, t: nat)
    requires |v0| == CHANNELS
    requires v1 == Sampled(v0, 0, sample, t) && v2 == Sampled(v1, 2, sample, t + 4)
    requires v3 == Sampled(v2, 4, sample, t + 8) && v4 == Sampled(v3, 6, sample, t + 12)
    ensures v4 == SweepVolts(sample, t)
  {
    var c := (k: nat) => Conversion(sample, t + k);
    assert v1 == v0[S4_1 := c(0)][S4_3 := c(2)];
    assert v2 == v1[AS_1 := c(4)][S6_2 := c(6)];
    assert v3 == v2[S6_1 := c(8)][S4_4 := c(10)];
    assert v4 == v3[S4_2 := c(12)][AS_2 := c(14)];
  }
}
