/**
 * Assembly of one device's result record in the PetTracer API client
 * (custom_components/pettracer/api.py, get_device_data). The device record
 * and the outcome of the FIFO request are inputs; the result starts from
 * defaults, then takes the device's `accuWarn` and `lastPos`, then the first
 * FIFO telegram, with the device's `lastRssi` as a fallback when the FIFO
 * request fails.
 */
module DeviceData {
  import opened Wrappers
  import opened Signal

  /** A device's `lastPos`; each field is missing when its key is absent. */
  datatype Position = Position(lat: Option<real>, lng: Option<real>, timeDb: Option<string>)

  /**
   * The fields of a collar record the assembly reads. `lastPos` is None when
   * it is absent or falsy (null, an empty dict); `lastRssi` is 0 when absent.
   */
  datatype Device = Device(
    name: Option<string>,            // details.name
    accuWarn: Option<int>,
    lastPos: Option<Position>,
    lastRssi: int)

  /** A FIFO entry's `telegram`, when present and non-empty. */
  datatype Telegram = Telegram(latitude: Option<real>, longitude: Option<real>, timeDb: Option<string>)

  /** One FIFO entry: the RSSI of each receiver (0 when a receiver has none) and its telegram. */
  datatype FifoEntry = FifoEntry(receivedBy: seq<int>, telegram: Option<Telegram>)

  /**
   * The FIFO request's outcome. `fifo` is None when the reply is empty, has no
   * `fifo` key, or its `fifo` is not a list.
   */
  datatype FifoOutcome =
    | FifoFailed                              // get_device_fifo raised
    | FifoReply(fifo: Option<seq<FifoEntry>>)

  /** The result record. */
  datatype DeviceResult = DeviceResult(
    deviceId: string,
    name: string,
    rssiRaw: int,
    rssiDbm: real,
    signalPercent: int,
    signalLevel: Level,
    latitude: Option<real>,
    longitude: Option<real>,
    batteryLevel: Option<int>,
    lastUpdate: Option<string>)

  /** The three derived signal fields agree with the raw reading. */
  predicate SignalConsistent(r: DeviceResult) {
    && r.rssiDbm == FormatRssi(r.rssiRaw)
    && r.signalPercent == RssiToPercent(r.rssiDbm)
    && r.signalLevel == SignalLevel(r.signalPercent)
  }

  /** The display name: `details.name`, or "Tracker <id>". */
  function DisplayName(deviceId: string, device: Device): string {
    device.name.GetOr("Tracker " + deviceId)
  }

  /** The record before any device or FIFO data is applied. */
  function Defaults(deviceId: string, name: string): (r: DeviceResult)
    ensures SignalConsistent(r)
    ensures r.rssiRaw == 0 && r.signalLevel == NoSignal
    ensures r.latitude.None? && r.longitude.None? && r.batteryLevel.None? && r.lastUpdate.None?
  {
    ZeroReading();
    DeviceResult(deviceId, name, 0, -130.0, 0, NoSignal, None, None, None, None)
  }

  /** Overwrite the four signal fields from a raw reading. */
  function WithSignal(r: DeviceResult, raw: int): (r': DeviceResult)
    ensures SignalConsistent(r') && r'.rssiRaw == raw
    ensures r'.(rssiRaw := r.rssiRaw, rssiDbm := r.rssiDbm, signalPercent := r.signalPercent, signalLevel := r.signalLevel) == r
  {
    var dbm := FormatRssi(raw);
    var percent := RssiToPercent(dbm);
    r.(rssiRaw := raw, rssiDbm := dbm, signalPercent := percent, signalLevel := SignalLevel(percent))
  }

  /** The first FIFO entry, when the request succeeded with a non-empty list. */
  function Latest(fifo: FifoOutcome): Option<FifoEntry> {
    if fifo.FifoReply? && fifo.fifo.Some? && |fifo.fifo.value| > 0 then Some(fifo.fifo.value[0]) else None
  }

  /** Apply the first FIFO entry: its first receiver's RSSI, then its telegram. */
  function ApplyLatest(r: DeviceResult, latest: FifoEntry): DeviceResult {
    var withSignal := if |latest.receivedBy| > 0 then WithSignal(r, latest.receivedBy[0]) else r;
    match latest.telegram
    case None => withSignal
    case Some(t) =>
      var moved := withSignal.(latitude := t.latitude, longitude := t.longitude);
      if Truthy(t.timeDb) then moved.(lastUpdate := t.timeDb) else moved
  }

  /** The telegram of the first FIFO entry, if any. */
  function LatestTelegram(fifo: FifoOutcome): Option<Telegram> {
    if Latest(fifo).Some? then Latest(fifo).value.telegram else None
  }

  /** The result record for `deviceId`, built in the order the client builds it. */
  function GetDeviceData(deviceId: string, device: Device, fifo: FifoOutcome): (r: DeviceResult)
    ensures SignalConsistent(r)
    ensures r.deviceId == deviceId && r.name == DisplayName(deviceId, device)
    ensures r.batteryLevel == device.accuWarn
    // signal: first receiver of the first entry; on a failed request, lastRssi (0 leaves the default 0)
    ensures Latest(fifo).Some? && |Latest(fifo).value.receivedBy| > 0 ==> r.rssiRaw == Latest(fifo).value.receivedBy[0]
    ensures fifo.FifoFailed? ==> r.rssiRaw == device.lastRssi
    ensures fifo.FifoReply? && (Latest(fifo).None? || |Latest(fifo).value.receivedBy| == 0) ==> r.rssiRaw == 0
    // position: the telegram wins over lastPos
    ensures LatestTelegram(fifo).Some? ==>
              r.latitude == LatestTelegram(fifo).value.latitude && r.longitude == LatestTelegram(fifo).value.longitude
    ensures LatestTelegram(fifo).None? && device.lastPos.Some? ==>
              r.latitude == device.lastPos.value.lat && r.longitude == device.lastPos.value.lng
    ensures LatestTelegram(fifo).None? && device.lastPos.None? ==> r.latitude.None? && r.longitude.None?
    // timestamp: a truthy telegram timeDb wins; otherwise lastPos's, if any
    ensures LatestTelegram(fifo).Some? && Truthy(LatestTelegram(fifo).value.timeDb) ==>
              r.lastUpdate == LatestTelegram(fifo).value.timeDb
    ensures !(LatestTelegram(fifo).Some? && Truthy(LatestTelegram(fifo).value.timeDb)) ==>
              r.lastUpdate == (if device.lastPos.Some? then device.lastPos.value.timeDb else None)
  {
    var base := Defaults(deviceId, DisplayName(deviceId, device));
    var withBattery := if device.accuWarn.Some? then base.(batteryLevel := device.accuWarn) else base;
    var withPos :=
      match device.lastPos
      case Some(p) => withBattery.(latitude := p.lat, longitude := p.lng, lastUpdate := p.timeDb)
      case None => withBattery;
    match fifo
    case FifoFailed => if device.lastRssi != 0 then WithSignal(withPos, device.lastRssi) else withPos
    case FifoReply(_) =>
      match Latest(fifo)
      case Some(latest) => ApplyLatest(withPos, latest)
      case None => withPos
  }

  /** A failed FIFO request changes only the signal fields, and only when lastRssi is non-zero. */
  lemma FailedFifoKeepsDeviceFields(deviceId: string, device: Device, reply: Option<seq<FifoEntry>>)
    requires reply.None? || |reply.value| == 0
    ensures var failed := GetDeviceData(deviceId, device, FifoFailed);
            var empty := GetDeviceData(deviceId, device, FifoReply(reply));
            && failed.(rssiRaw := 0, rssiDbm := -130.0, signalPercent := 0, signalLevel := NoSignal) == empty
            && (device.lastRssi == 0 ==> failed == empty)
  {
    ZeroReading();
  }
}
