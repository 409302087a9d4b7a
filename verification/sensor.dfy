/**
 * Derivations of the PetTracer sensor entities
 * (custom_components/pettracer/sensor.py): the battery percentage curve and
 * the signal-level icon.
 */
module Sensor {
  import opened Rounding
  import opened Signal
  import DeviceData

  /** The battery input is clamped to this millivolt range. */
  const MinMillivolts: int := 3000
  const MaxMillivolts: int := 4150

  /** `max(3000, min(voltage, 4150))` */
  function ClampVoltage(voltage: int): (v: int)
    ensures MinMillivolts <= v <= MaxMillivolts
    ensures MinMillivolts <= voltage <= MaxMillivolts ==> v == voltage
    ensures voltage > MaxMillivolts ==> v == MaxMillivolts
    ensures voltage < MinMillivolts ==> v == MinMillivolts
  {
    if voltage > MaxMillivolts then MaxMillivolts
    else if voltage < MinMillivolts then MinMillivolts
    else voltage
  }

  /** The exact, unrounded value of the curve as written, for a clamped voltage. */
  function BatteryCurve(v: int): (p: real)
    requires MinMillivolts <= v <= MaxMillivolts
    ensures v < 3600 ==> p == 0.0
    ensures 3600 <= v < 3760 ==> 17.0 <= p < 34.0
    ensures 3760 <= v < 3840 ==> 34.0 <= p < 50.0
    ensures 3840 <= v < 3900 ==> 50.0 <= p < 67.0
    ensures 3900 <= v < 4000 ==> 67.0 <= p <= 92.74
    ensures 4000 <= v ==> 66.0 <= p <= 83.0
  {
    if v >= 4000 then (v - 4150) as real / 150.0 * 17.0 + 83.0
    else if v >= 3900 then (v - 3900) as real / 100.0 * 26.0 + 67.0
    else if v >= 3840 then (v - 3840) as real / 60.0 * 17.0 + 50.0
    else if v >= 3760 then (v - 3760) as real / 80.0 * 16.0 + 34.0
    else if v >= 3600 then (v - 3600) as real / 160.0 * 17.0 + 17.0
    else 0.0
  }

  /**
   * `calculate_battery_percentage` as written: clamp, apply the curve, round
   * half to even. Every value lies in [0, 100]; the largest is 93.
   */
  function BatteryPercentage(voltage: int): (percent: int)
    ensures 0 <= percent <= 93
    ensures ClampVoltage(voltage) < 3600 ==> percent == 0
  {
    RoundHalfEven(BatteryCurve(ClampVoltage(voltage)))
  }

  /** Voltages outside the range read like its nearest end. */
  lemma BatteryClamped(voltage: int)
    ensures voltage >= MaxMillivolts ==> BatteryPercentage(voltage) == BatteryPercentage(MaxMillivolts)
    ensures voltage <= MinMillivolts ==> BatteryPercentage(voltage) == BatteryPercentage(MinMillivolts)
  {
  }

  /** Each segment's lower bound, and the two ends of the top segment. */
  lemma BatterySegmentStarts()
    ensures BatteryPercentage(3599) == 0
    ensures BatteryPercentage(3600) == 17
    ensures BatteryPercentage(3760) == 34
    ensures BatteryPercentage(3840) == 50
    ensures BatteryPercentage(3900) == 67
    ensures BatteryPercentage(4000) == 66
    ensures BatteryPercentage(4150) == 83
    ensures BatteryPercentage(3999) == 93
  {
    RoundHalfEvenUnique(BatteryCurve(3999), 93);
  }

  /** Exact halves round to the even neighbour. */
  lemma BatteryTiesToEven()
    ensures BatteryCurve(3680) == 25.5 && BatteryPercentage(3680) == 26
    ensures BatteryCurve(3870) == 58.5 && BatteryPercentage(3870) == 58
    ensures BatteryCurve(3925) == 73.5 && BatteryPercentage(3925) == 74
    ensures BatteryCurve(3975) == 86.5 && BatteryPercentage(3975) == 86
    ensures BatteryCurve(4075) == 74.5 && BatteryPercentage(4075) == 74
  {
    RoundHalfEvenUnique(25.5, 26);
    RoundHalfEvenUnique(58.5, 58);
    RoundHalfEvenUnique(73.5, 74);
    RoundHalfEvenUnique(86.5, 86);
    RoundHalfEvenUnique(74.5, 74);
  }

  /** The segment a clamped voltage falls into, 0 for the flat part below 3600. */
  function Segment(v: int): nat {
    if v >= 4000 then 5 else if v >= 3900 then 4 else if v >= 3840 then 3
    else if v >= 3760 then 2 else if v >= 3600 then 1 else 0
  }

  /** Within one segment a higher voltage never reads lower. */
  lemma BatteryMonotoneWithinSegment(voltage: int, voltage': int)
    requires voltage <= voltage'
    requires Segment(ClampVoltage(voltage)) == Segment(ClampVoltage(voltage'))
    ensures BatteryPercentage(voltage) <= BatteryPercentage(voltage')
  {
    var v, v' := ClampVoltage(voltage), ClampVoltage(voltage');
    assert BatteryCurve(v) <= BatteryCurve(v');
    RoundHalfEvenMonotone(BatteryCurve(v), BatteryCurve(v'));
  }

  /** Across segments the curve is not monotone: it falls at 4000. */
  lemma BatteryNotMonotone()
    ensures 3999 < 4000 && BatteryPercentage(3999) > BatteryPercentage(4000)
  {
    BatterySegmentStarts();
  }

  /**
   * The curve with its top two segments corrected so that consecutive
   * segments meet: 67 to 83 over [3900, 4000) and 83 to 100 over [4000, 4150].
   */
  function IntendedBatteryCurve(v: int): (p: real)
    requires MinMillivolts <= v <= MaxMillivolts
    ensures v < 3600 ==> p == 0.0
    ensures 3600 <= v < 3760 ==> 17.0 <= p < 34.0
    ensures 3760 <= v < 3840 ==> 34.0 <= p < 50.0
    ensures 3840 <= v < 3900 ==> 50.0 <= p < 67.0
    ensures 3900 <= v < 4000 ==> 67.0 <= p < 83.0
    ensures 4000 <= v ==> 83.0 <= p <= 100.0
    ensures v == 3600 ==> p == 17.0
    ensures v == 3760 ==> p == 34.0
    ensures v == 3840 ==> p == 50.0
    ensures v == 3900 ==> p == 67.0
    ensures v == 4000 ==> p == 83.0
    ensures v == MaxMillivolts ==> p == 100.0
  {
    if v >= 4000 then (v - 4000) as real / 150.0 * 17.0 + 83.0
    else if v >= 3900 then (v - 3900) as real / 100.0 * 16.0 + 67.0
    else BatteryCurve(v)
  }

  /**
   * From 3600 mV on, the corrected curve has no jump: one more millivolt adds
   * between 0 and 17/60 percent, across segment boundaries too.
   */
  lemma IntendedBatteryCurveMeets(v: int)
    requires 3600 <= v < MaxMillivolts
    ensures 0.0 <= IntendedBatteryCurve(v + 1) - IntendedBatteryCurve(v) <= 17.0 / 60.0
  {
  }

  /** The curve as written breaks that bound at 4000 mV, where it falls. */
  lemma BatteryCurveJumps()
    ensures BatteryCurve(4000) - BatteryCurve(3999) < 0.0
  {
  }

  /** The corrected battery percentage. */
  function IntendedBatteryPercentage(voltage: int): (percent: int)
    ensures 0 <= percent <= 100
    ensures ClampVoltage(voltage) < 3900 ==> percent == BatteryPercentage(voltage)
  {
    RoundHalfEvenMonotone(0.0, IntendedBatteryCurve(ClampVoltage(voltage)));
    RoundHalfEvenMonotone(IntendedBatteryCurve(ClampVoltage(voltage)), 100.0);
    RoundHalfEven(IntendedBatteryCurve(ClampVoltage(voltage)))
  }

  /** The corrected curve reaches 100 at 4150 and 83 at 4000, and never falls. */
  lemma IntendedBatteryMonotone(voltage: int, voltage': int)
    requires voltage <= voltage'
    ensures IntendedBatteryPercentage(voltage) <= IntendedBatteryPercentage(voltage')
    ensures IntendedBatteryPercentage(MaxMillivolts) == 100
    ensures IntendedBatteryPercentage(4000) == 83
  {
    var v, v' := ClampVoltage(voltage), ClampVoltage(voltage');
    assert IntendedBatteryCurve(v) <= IntendedBatteryCurve(v');
    RoundHalfEvenMonotone(IntendedBatteryCurve(v), IntendedBatteryCurve(v'));
    RoundHalfEvenOfInt(100);
    RoundHalfEvenOfInt(83);
  }

  /** The data a signal-level sensor finds for its device. */
  datatype LevelData =
    | NoData                  // the coordinator has no (or an empty) record for the device
    | LevelMissing            // a record without a `signal_level` key: read as "none"
    | LevelNull               // `signal_level` is null
    | LevelText(text: string)

  /** The icon for each level name. */
  const LevelIcons: map<string, string> := map[
    "excellent" := "mdi:signal-cellular-3",
    "good" := "mdi:signal-cellular-2",
    "fair" := "mdi:signal-cellular-1",
    "poor" := "mdi:signal-cellular-outline",
    "none" := "mdi:signal-off"]

  /** The icon shown when no level applies. */
  const FallbackIcon: string := "mdi:signal"

  /** The signal-level sensor's icon. */
  function LevelIcon(data: LevelData): (icon: string)
    ensures data.NoData? || data.LevelNull? ==> icon == FallbackIcon
    ensures data.LevelMissing? ==> icon == "mdi:signal-off"
    ensures data.LevelText? && data.text in LevelIcons ==> icon == LevelIcons[data.text]
    ensures data.LevelText? && data.text !in LevelIcons ==> icon == FallbackIcon
    ensures icon == FallbackIcon || icon in LevelIcons.Values
  {
    match data
    case NoData => FallbackIcon
    case LevelNull => FallbackIcon
    case LevelMissing => LevelIcons["none"]
    case LevelText(text) => if text in LevelIcons then LevelIcons[text] else FallbackIcon
  }

  /** Each level the API client can store gets its own icon, never the fallback. */
  lemma LevelIconPerLevel(level: Level)
    ensures LevelIcon(LevelText(level.Name())) != FallbackIcon
    ensures level == Excellent ==> LevelIcon(LevelText(level.Name())) == "mdi:signal-cellular-3"
    ensures level == Good ==> LevelIcon(LevelText(level.Name())) == "mdi:signal-cellular-2"
    ensures level == Fair ==> LevelIcon(LevelText(level.Name())) == "mdi:signal-cellular-1"
    ensures level == Poor ==> LevelIcon(LevelText(level.Name())) == "mdi:signal-cellular-outline"
    ensures level == NoSignal ==> LevelIcon(LevelText(level.Name())) == "mdi:signal-off"
  {
  }

  /** Distinct levels get distinct icons. */
  lemma LevelIconInjective(a: Level, b: Level)
    requires LevelIcon(LevelText(a.Name())) == LevelIcon(LevelText(b.Name()))
    ensures a == b
  {
  }

  /** The icon for an assembled device record follows its signal percentage through the level. */
  lemma LevelIconOfDeviceData(deviceId: string, device: DeviceData.Device, fifo: DeviceData.FifoOutcome)
    ensures var r := DeviceData.GetDeviceData(deviceId, device, fifo);
            LevelIcon(LevelText(r.signalLevel.Name())) == LevelIcons[SignalLevel(r.signalPercent).Name()]
  {
    var r := DeviceData.GetDeviceData(deviceId, device, fifo);
    LevelIconPerLevel(r.signalLevel);
  }
}
