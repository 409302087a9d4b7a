/**
 * Signal derivation of the PetTracer API client: the raw RSSI byte reported
 * by a receiver becomes a dBm value, a clamped percentage and a qualitative
 * level (custom_components/pettracer/api.py, format_rssi, rssi_to_percent,
 * get_signal_level).
 */
module Signal {
  import opened Rounding

  /**
   * `255 & raw` on a Python int. Python's `&` on a negative int works on the
   * infinite two's-complement form, so the result is the remainder modulo 256,
   * which Dafny's Euclidean `%` computes for every sign of `raw`.
   */
  function MaskByte(raw: int): (h: int)
    ensures 0 <= h < 256
    ensures 0 <= raw < 256 ==> h == raw
    ensures (raw - h) % 256 == 0
  {
    raw % 256
  }

  /** The dBm value of a raw RSSI reading: half a dBm per step of the masked byte. */
  function FormatRssi(raw: int): (dbm: real)
    ensures 2.0 * dbm == (MaskByte(raw) - 260) as real
    ensures -130.0 <= dbm <= -2.5
  {
    (MaskByte(raw) as real) / 2.0 - 130.0
  }

  /** Only the low byte of the reading matters. */
  lemma FormatRssiOnlyLowByte(raw: int, raw': int)
    requires MaskByte(raw) == MaskByte(raw')
    ensures FormatRssi(raw) == FormatRssi(raw')
  {
  }

  /** A larger masked byte never gives a weaker dBm value. */
  lemma FormatRssiMonotone(raw: int, raw': int)
    requires MaskByte(raw) <= MaskByte(raw')
    ensures FormatRssi(raw) <= FormatRssi(raw')
  {
  }

  /** `max(0, min(1, x))` */
  function ClampUnit(x: real): (c: real)
    ensures 0.0 <= c <= 1.0
    ensures 0.0 <= x <= 1.0 ==> c == x
    ensures x < 0.0 ==> c == 0.0
    ensures x > 1.0 ==> c == 1.0
  {
    if x < 0.0 then 0.0 else if x > 1.0 then 1.0 else x
  }

  /** The strongest-signal cut-off: readings at or above it are 100 percent. */
  const FullSignalDbm: real := -1.5

  /** The scale factor of the vendor's formula, 1.35, as an exact fraction. */
  const SignalScale: real := 135.0 / 100.0

  /**
   * Percentage of a dBm value: 100 at or above -1.5 dBm, otherwise
   * round(100 * clamp(1.35 * (1 - dbm / -130), 0, 1)) with half-to-even rounding.
   */
  function RssiToPercent(dbm: real): (percent: int)
    ensures 0 <= percent <= 100
    ensures dbm >= FullSignalDbm ==> percent == 100
  {
    if dbm >= FullSignalDbm then 100
    else RoundHalfEven(100.0 * ClampUnit(SignalScale * (1.0 - dbm / -130.0)))
  }

  /** A stronger reading never gives a smaller percentage. */
  lemma RssiToPercentMonotone(dbm: real, dbm': real)
    requires dbm <= dbm'
    ensures RssiToPercent(dbm) <= RssiToPercent(dbm')
  {
    if dbm' < FullSignalDbm {
      var x := SignalScale * (1.0 - dbm / -130.0);
      var x' := SignalScale * (1.0 - dbm' / -130.0);
      assert x <= x';
      RoundHalfEvenMonotone(100.0 * ClampUnit(x), 100.0 * ClampUnit(x'));
    }
  }

  /**
   * For a reading that came through FormatRssi, with masked byte h, the
   * percentage is round(min(100, 27h/52)): the -1.5 dBm branch is never taken
   * and the lower clamp never applies.
   */
  lemma PercentOfReading(raw: int)
    ensures FormatRssi(raw) < FullSignalDbm
    ensures RssiToPercent(FormatRssi(raw))
            == RoundHalfEven(if 27 * MaskByte(raw) >= 5200 then 100.0 else (27 * MaskByte(raw)) as real / 52.0)
  {
    var h := MaskByte(raw);
    var dbm := FormatRssi(raw);
    assert 1.0 - dbm / -130.0 == (h as real) / 260.0;
    assert SignalScale * (1.0 - dbm / -130.0) == (27 * h) as real / 5200.0;
  }

  /** A reading is reported as full signal exactly when its masked byte is at least 192. */
  lemma FullPercentOfReading(raw: int)
    ensures RssiToPercent(FormatRssi(raw)) == 100 <==> MaskByte(raw) >= 192
  {
    PercentOfReading(raw);
    var h := MaskByte(raw);
    if h <= 191 {
      assert (27 * h) as real / 52.0 <= 5157.0 / 52.0;
    } else {
      assert 27 * h >= 5184;
    }
  }

  /** The weakest reading, a zero byte, is -130 dBm and 0 percent. */
  lemma ZeroReading()
    ensures FormatRssi(0) == -130.0
    ensures RssiToPercent(-130.0) == 0
  {
  }

  /** Qualitative signal level, from strongest to absent. */
  datatype Level = Excellent | Good | Fair | Poor | NoSignal {

    /** The text the API client stores for the level. */
    function Name(): string {
      match this
      case Excellent => "excellent"
      case Good => "good"
      case Fair => "fair"
      case Poor => "poor"
      case NoSignal => "none"
    }

    /** 4 for Excellent down to 0 for NoSignal. */
    function Rank(): nat {
      match this
      case Excellent => 4
      case Good => 3
      case Fair => 2
      case Poor => 1
      case NoSignal => 0
    }
  }

  /** Level thresholds (custom_components/pettracer/const.py): a level needs strictly more than its threshold. */
  const LevelExcellent: int := 70
  const LevelGood: int := 50
  const LevelFair: int := 30
  const LevelPoor: int := 5

  /** The level of a percentage; every threshold is strict. */
  function SignalLevel(percent: int): (level: Level)
    ensures level == Excellent <==> percent > LevelExcellent
    ensures level == Good <==> LevelGood < percent <= LevelExcellent
    ensures level == Fair <==> LevelFair < percent <= LevelGood
    ensures level == Poor <==> LevelPoor < percent <= LevelFair
    ensures level == NoSignal <==> percent <= LevelPoor
  {
    if percent > 70 then Excellent
    else if percent > 50 then Good
    else if percent > 30 then Fair
    else if percent > 5 then Poor
    else NoSignal
  }

  /** A larger percentage never gives a lower level. */
  lemma SignalLevelMonotone(percent: int, percent': int)
    requires percent <= percent'
    ensures SignalLevel(percent).Rank() <= SignalLevel(percent').Rank()
  {
  }

  /** Level names are distinct, so the stored text identifies the level. */
  lemma LevelNameInjective(a: Level, b: Level)
    requires a.Name() == b.Name()
    ensures a == b
  {
  }

  /** The threshold values themselves fall into the level below. */
  lemma SignalLevelBoundaries()
    ensures SignalLevel(70) == Good && SignalLevel(71) == Excellent
    ensures SignalLevel(50) == Fair && SignalLevel(30) == Poor
    ensures SignalLevel(5) == NoSignal && SignalLevel(6) == Poor
  {
  }
}
