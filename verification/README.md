# PetTracer integration core, modelled in Dafny

This project models the computational core of the PetTracer Home Assistant integration
(`custom_components/pettracer`): the pure derivations and small state rules of the API
client (`api.py`), the sensor entities (`sensor.py`) and the switch entities (`switch.py`).

- **Signal derivation** (`signal.dfy`, module `Signal`): the raw RSSI byte becomes a dBm
  value (`(raw & 255)/2 - 130`), a clamped, rounded percentage, and one of five qualitative
  levels with strict thresholds 70 / 50 / 30 / 5.
- **Token handling** (`auth.dfy`, module `Auth`): the `{token, expiry}` pair with its
  five-minute buffer, the outcomes of a login reply, and "log in only when the token is not
  valid". Times are whole seconds on a single clock.
- **Per-device record assembly** (`device_data.dfy`, module `DeviceData`): a pure function
  from a device record and the outcome of the FIFO request to the result record. Defaults
  are overridden by `accuWarn` and `lastPos`, then by the first FIFO entry, with `lastRssi`
  as a fallback when the request fails.
- **Callback registry** (`callbacks.dfy`, module `Callbacks`): append, remove the first
  occurrence, and notify every callback in order with per-callback failure isolation.
- **Sensors** (`sensor.py` → `sensor.dfy`, module `Sensor`): the battery millivolt curve and
  the signal-level icon table.
- **Switches** (`switch.dfy`, module `Switch`): the LED and buzzer switches' initial state,
  the mode value each action sends, and `is_on` changing only after a successful command.
- Shared helpers: `Wrappers` (`Option`, `Result`) and `Rounding` (Python's `round`,
  half to even, on exact rationals).

Modelling choices:
- Python's `255 & raw` is `raw % 256`. Dafny's `%` is Euclidean, which agrees with Python's
  two's-complement AND for negative integers too.
- dBm values are exact `real`s, since they are always multiples of one half.
- The battery curve is computed on exact rationals and rounded half to even. For integer
  input this agrees with the float code. Every exact tie (3680, 3870, 3925, 3975, 4075) is
  computed exactly in binary floating point. Every other value is at least 1/160 away
  from a half.
- The `dbm >= -1.5` branch (`api.py:30`) is never taken for a reading
  that comes through `format_rssi`, whose largest value is -2.5 dBm. A reading shows 100 percent
  from masked byte 192 (-34 dBm) on, which Signal.FullPercentOfReading states.
- Exceptions become `Result` values or error constructors. HTTP replies and command
  successes are inputs.

## Model

| member | source | states |
|---|---|---|
| Rounding.RoundHalfEven | custom_components/pettracer/sensor.py:205 | The result is within one half of the input, and is even whenever the input is exactly halfway between two integers |
| Rounding.RoundHalfEvenUnique | custom_components/pettracer/sensor.py:205 | Any integer that is a nearest, ties-to-even rounding of x is the rounding of x |
| Rounding.RoundHalfEvenMonotone | custom_components/pettracer/api.py:34 | Rounding preserves order: x <= y implies round(x) <= round(y) |
| Signal.MaskByte | custom_components/pettracer/api.py:25 | `255 & raw` lies in [0, 255], is the identity on bytes, and differs from raw by a multiple of 256 |
| Signal.FormatRssi | custom_components/pettracer/api.py:23-25 | Twice the dBm value equals the masked byte minus 260, and the value lies in [-130, -2.5] |
| Signal.FormatRssiOnlyLowByte | custom_components/pettracer/api.py:25 | Two readings with the same low byte give the same dBm |
| Signal.FormatRssiMonotone | custom_components/pettracer/api.py:23-25 | dBm is non-decreasing in the masked byte |
| Signal.RssiToPercent | custom_components/pettracer/api.py:28-34 | The percentage lies in [0, 100], and is 100 whenever dBm >= -1.5 |
| Signal.RssiToPercentMonotone | custom_components/pettracer/api.py:28-34 | A stronger dBm never gives a smaller percentage, across both branches |
| Signal.PercentOfReading | custom_components/pettracer/api.py:23-34 | For a reading with masked byte h, the -1.5 dBm branch is never taken and the percentage is round(min(100, 27h/52)) |
| Signal.FullPercentOfReading | custom_components/pettracer/api.py:23-34 | A reading shows 100 percent exactly when its masked byte is at least 192 |
| Signal.ZeroReading | custom_components/pettracer/api.py:199-202 | The default raw value 0 gives -130 dBm and 0 percent |
| Signal.SignalLevel | custom_components/pettracer/api.py:37-47 | Each level holds exactly on its half-open band: >70 excellent, (50,70] good, (30,50] fair, (5,30] poor, <=5 none |
| Signal.SignalLevelMonotone | custom_components/pettracer/api.py:37-47 | A larger percentage never gives a lower level |
| Signal.LevelNameInjective | custom_components/pettracer/api.py:39-47 | The five level strings are distinct |
| Signal.SignalLevelBoundaries | custom_components/pettracer/const.py:26-29 | The thresholds are strict: 70 is good, 71 excellent, 50 fair, 30 poor, 6 poor, 5 none |
| Auth.IsTokenValid | custom_components/pettracer/api.py:90-95 | Valid iff a non-empty token and an expiry are present and now + 300 s < expiry |
| Auth.InitialNeverValid | custom_components/pettracer/api.py:72-73 | A new client has no usable token, so its first ensure always logs in |
| Auth.ValidEarlier | custom_components/pettracer/api.py:95 | A token valid at time t is valid at every earlier time |
| Auth.Authenticate | custom_components/pettracer/api.py:107-120 | Succeeds iff status is 200 and the expiry parses or is absent; a malformed expiry raises the parser's error. 401 raises the auth error and any other non-200 raises an API error, both with the state unchanged. On 200 the token is always overwritten, even with a missing one, and the expiry only when one is given |
| Auth.BadExpiryEscapes | custom_components/pettracer/api.py:114-120 | A 200 reply with a malformed `expires` raises the parser's error, which is not an API error, with the new token already stored |
| Auth.AuthErrorIsApiError | custom_components/pettracer/api.py:50-54 | Every error from a non-200 or failed request is caught as an API error, including the auth error |
| Auth.LoginMakesValid | custom_components/pettracer/api.py:113-120 | A 200 reply with a non-empty token and an expiry more than 300 s away leaves a valid token |
| Auth.MissingTokenNeverValid | custom_components/pettracer/api.py:114 | A 200 reply without `access_token` leaves a token that is invalid at every time |
| Auth.EnsureAuthenticated | custom_components/pettracer/api.py:129-132 | Logs in exactly when the token is not valid now, and otherwise leaves the state untouched |
| Auth.EnsureTwiceLogsInOnce | custom_components/pettracer/api.py:129-132 | After an ensure whose login returned a usable token, a second ensure at the same moment sends no login |
| DeviceData.Defaults | custom_components/pettracer/api.py:196-207 | The default record has raw 0 and level "none", empty position, battery and timestamp, and consistent signal fields |
| DeviceData.WithSignal | custom_components/pettracer/api.py:236-242 | Setting a reading makes dBm, percent and level the derivations of that raw value and changes no other field |
| DeviceData.GetDeviceData | custom_components/pettracer/api.py:191-267 | Signal fields stay consistent in every outcome. Battery is `accuWarn`. Raw RSSI is the first receiver's value, or `lastRssi` on failure, or 0. The telegram's lat/lon beat `lastPos`. A truthy telegram `timeDb` beats `lastPos.timeDb` |
| DeviceData.FailedFifoKeepsDeviceFields | custom_components/pettracer/api.py:254-265 | A failed FIFO request differs from an empty FIFO reply only in the signal fields, and not at all when `lastRssi` is 0 |
| Callbacks.Register | custom_components/pettracer/api.py:284-286 | Appends the callback at the end, keeping earlier entries and duplicates |
| Callbacks.Unregister | custom_components/pettracer/api.py:288-291 | No-op for an unknown callback. Otherwise removes exactly its first occurrence, keeping the order of the rest |
| Callbacks.RegisterUnregisterFresh | custom_components/pettracer/api.py:284-291 | Registering a new callback and unregistering it restores the registry exactly |
| Callbacks.RegisterUnregisterMultiset | custom_components/pettracer/api.py:284-291 | Registering then unregistering any callback leaves the same callbacks with the same multiplicities |
| Callbacks.RaisingCounts | custom_components/pettracer/api.py:295-299 | The error log has one entry per raising call. Each callback appears as often as it is registered if it raises, and never otherwise |
| Callbacks.NotifyCallbacks | custom_components/pettracer/api.py:293-299 | Every registered callback is called once, in list order, even after one raises. The log holds one entry per raising call, in call order, and nothing else |
| Sensor.ClampVoltage | custom_components/pettracer/sensor.py:181 | The clamped voltage lies in [3000, 4150], equals the input inside that range, and equals the nearest end outside it |
| Sensor.BatteryCurve | custom_components/pettracer/sensor.py:184-201 | Each segment's unrounded value lies in its band. Below 3600 it is 0. The top segment gives only 66..83 |
| Sensor.BatteryPercentage | custom_components/pettracer/sensor.py:175-205 | The result is an integer in [0, 100], in fact at most 93, and is 0 for every clamped voltage below 3600 |
| Sensor.BatteryClamped | custom_components/pettracer/sensor.py:181 | Any voltage at or above 4150 reads like 4150, and any at or below 3000 reads like 3000 |
| Sensor.BatterySegmentStarts | custom_components/pettracer/sensor.py:184-201 | 3599 gives 0, 3600 gives 17, 3760 gives 34, 3840 gives 50, 3900 gives 67, 4000 gives 66, 4150 gives 83, and the maximum 93 is at 3999 |
| Sensor.BatteryTiesToEven | custom_components/pettracer/sensor.py:205 | Exact halves round to even: 3680 gives 26, 3870 gives 58, 3925 gives 74, 3975 gives 86, 4075 gives 74 |
| Sensor.BatteryMonotoneWithinSegment | custom_components/pettracer/sensor.py:184-198 | Within one segment a higher voltage never gives a lower percentage |
| Sensor.BatteryNotMonotone | custom_components/pettracer/sensor.py:184-189 | The curve as written falls from 93 at 3999 to 66 at 4000 |
| Sensor.IntendedBatteryCurve | custom_components/pettracer/sensor.py:176-178 | The corrected curve is 17, 34, 50, 67 and 83 at the segment starts 3600, 3760, 3840, 3900 and 4000, reaches 100 at 4150, and each segment's value lies in its band |
| Sensor.IntendedBatteryCurveMeets | custom_components/pettracer/sensor.py:176-178 | From 3600 mV on, one more millivolt raises the corrected curve by between 0 and 17/60, across segment boundaries too |
| Sensor.BatteryCurveJumps | custom_components/pettracer/sensor.py:184-189 | The curve as written falls between 3999 and 4000 mV, which breaks that step bound |
| Sensor.IntendedBatteryPercentage | custom_components/pettracer/sensor.py:175-205 | The corrected percentage lies in [0, 100] and agrees with the code below 3900 mV |
| Sensor.IntendedBatteryMonotone | custom_components/pettracer/sensor.py:176-178 | The corrected percentage is non-decreasing in the voltage, with 83 at 4000 and 100 at 4150 |
| Sensor.LevelIcon | custom_components/pettracer/sensor.py:239-253 | No data or a null level gives "mdi:signal". A missing level reads as "none". A known level text gives its table icon, and an unknown string gives the fallback. The icon is always the fallback or a table entry |
| Sensor.LevelIconPerLevel | custom_components/pettracer/sensor.py:245-251 | Each of the five level names maps to its own table icon, never the fallback |
| Sensor.LevelIconInjective | custom_components/pettracer/sensor.py:245-251 | Distinct levels get distinct icons |
| Sensor.LevelIconOfDeviceData | custom_components/pettracer/sensor.py:239-253 | For any assembled device record, the icon is the table entry for the level of its signal percentage |
| Switch.NewSwitch | custom_components/pettracer/switch.py:104-141 | The LED switch starts on iff `led_status` is truthy, and the buzzer switch iff `buzzer` is truthy |
| Switch.CommandMode | custom_components/pettracer/switch.py:113-155 | The LED sends 1 exactly for turn-on and 0 for turn-off. The buzzer sends 1 for both |
| Switch.CommandFor | custom_components/pettracer/switch.py:113-155 | The request goes to the switch's own device and endpoint, with that mode |
| Switch.BuzzerCommandIgnoresAction | custom_components/pettracer/switch.py:143-155 | The buzzer's turn-on and turn-off send the identical request |
| Switch.LedCommandDistinguishesAction | custom_components/pettracer/switch.py:113-125 | The LED's turn-on and turn-off send different requests |
| Switch.Perform | custom_components/pettracer/switch.py:113-125 | A successful command sets `is_on` to the action's target. A failed one leaves the switch unchanged |
| Switch.RunFollowsLastSuccess | custom_components/pettracer/switch.py:80-83 | After any sequence of actions, `is_on` reflects the last successful action, or the initial flag if none succeeded. Nothing else moves it |

## Left out

- Signal.RssiToPercent: computed on exact rationals with 1.35 = 135/100. The code uses binary
  floating point, where 1.35 is inexact. At the exact ties (masked bytes 26, 78, 130, 182)
  the float result may round the other way, so the model does not promise the code's output there.
- Real-time transport: no SockJS/STOMP framing, websocket loop or reconnect backoff exists
  in the code. `__init__.py` calls `start_websocket`/`stop_websocket`, which
  `coordinator.py` does not define.
- As written, `api.py` does not load. Its import at `api.py:12-18` names `ENDPOINT_CAT_COLLARS` and
  `ENDPOINT_CC_INFO`, which `const.py` does not define, so the import raises ImportError.
  The model covers the logic of the module as if it loaded.
- HTTP and session I/O (`_ensure_session`, `close`, `get_cat_collars`, `get_devices`,
  `get_device_fifo`, `get_all_device_data`, `_get_auth_headers`). Their replies are inputs.
- The device cache stores the id string, not the collar record (`api.py:171`).
  `get_device_data` then calls `.get` on that string (`api.py:194`), which would raise.
  `get_all_device_data` catches the error and skips the device. The assembly is modelled over an
  explicit device record instead. The error path is not reproduced.
- Timestamps: `datetime.now()` is naive, while the parsed expiry is offset-aware. The model uses
  integer seconds on one clock. ISO-8601 parsing is reduced to "parses to a time" or "does not".
- Auth.IsTokenValid: as written, `datetime.now() < self._token_expires - timedelta(minutes=5)`
  (`api.py:95`) compares a naive time with the offset-aware expiry that `api.py:118-119` builds
  from an `expires` ending in "Z" or carrying an offset. That comparison raises TypeError, so
  after such a login `_is_token_valid` and `_ensure_authenticated` (`api.py:129-132`) raise
  instead of returning a bool. The raise also escapes from `get_cat_collars`, which calls
  `_ensure_authenticated` outside its try (`api.py:145`). The model does not reproduce this
  error. It gives the comparison the code evidently intends: both times on one clock.
- Auth.Authenticate: a reply body that is not a JSON object, or that fails to decode with a
  non-aiohttp error, is not modelled.
- DeviceData.GetDeviceData: takes well-formed FIFO entries. A malformed entry makes the code
  fall into the `lastRssi` fallback after partial updates, and that path is not modelled.
  A receiver without `rssi` reads as 0. A `details.name` key holding null is treated as absent.
- Callbacks.NotifyCallbacks: assumes each callback is pure. Whether a call raises depends only
  on the callback and the data, and "raises" means raises an `Exception`. A `BaseException`
  such as KeyboardInterrupt or SystemExit escapes `except Exception` (`api.py:298`) and ends
  the loop before later callbacks run; that is not modelled. The code passes the same mutable dict to every callback in
  turn (`api.py:295-297`). A callback that changes that dict before later callbacks run is not
  modelled. Neither is a stateful callback that raises on only one of its registrations.
  Callbacks.RaisingCounts holds under the same assumption.
- Callbacks: logging, thread safety of the list, and callbacks that change the registry
  while it is being notified.
- Sensor: a `None` battery level, which makes `max`/`min` raise (`sensor.py:212`).
- Switch: `set_led_mode` and `set_buzzer_mode` are not defined in `api.py`, and neither is
  `coordinator.get_api()` in `coordinator.py`, which the base switch calls (`switch.py:58`).
  So as written no switch entity can be constructed, and a command's success is an input. Also left out: `async_write_ha_state`, `device_info`,
  `extra_state_attributes` and the coordinator's data layout.
- Host-framework glue: `async_setup_entry`, config flow, coordinator polling,
  `device_tracker.py`, `select.py` and `button.py`. The last two use `COLLAR_MODES`, which
  `const.py` does not define.

## Findings

| source | as written | input that shows it | evidently intended | confidence | as-written member | corrected member |
|---|---|---|---|---|---|---|
| custom_components/pettracer/sensor.py:184-189 | top segment `(v-4150)/150*17+83`, and `[3900,4000)` slope 26 | 3999 mV gives 93 but 4000 mV gives 66; 4150 mV gives 83, not the docstring's 100 | `(v-4000)/150*17+83` and `(v-3900)/100*16+67`, a non-decreasing curve, continuous from 3600 mV on, through 17/34/50/67/83/100 (0 below 3600) | medium; not executed | Sensor.BatteryNotMonotone | Sensor.IntendedBatteryMonotone |
