# Tilt-controlled car: control-signal pipeline in Dafny

This project models the control path of a React Native app. The app drives a
toy car over Bluetooth Classic by tilting the phone. It covers five parts:

- **Tilt maths** (`gyroscope.dfy`, module `Gyroscope`): clamp, lerp, the
  orientation remap from device beta/gamma to vehicle pitch/roll, the throttle
  curve (range -100..100) and the steering curve (range 0..180, 90 is centre).
  Both curves have dead zones. The module also has the two display helpers:
  the throttle colour band and the arrow rotation.
- **Controller** (`controller.dfy`, module `GyroscopeController`): a class
  holding the state kept between motion samples. Its methods model one motion
  sample, activate, deactivate, calibrate and the configuration merge.
  `Math.round` is modelled as `Floor(x + 1/2)`.
- **Wire encoding** (`encoding.dfy`, module `CommandEncoding`): the line
  `"T<throttle>:S<steering>\n"`. A reference decoder gives the round trip.
- **Link** (`bluetooth.dfy`, module `Bluetooth`): a class for the Bluetooth
  hook's state. It models `sendCommand` (no device, de-duplication, write,
  bookkeeping after a successful write), `connect`, `disconnect`, the scan
  outcome and the device-disconnected event. Ghost logs record every string
  handed to the device and every status set. The class invariant says that two
  successive successful writes never carry the same command, unless
  `disconnect` came in between.
- **Dispatcher** (`commander.dfy`, module `BluetoothCommander`): a class for the
  100 ms interval. It sends only changed commands while connected and active.
  On deactivation it passes a neutral command through `sendCommand`.

`types.dfy` holds the shared `CarCommand`, `ConnectionStatus` and `Option`.
`scenarios.dfy` holds client scenarios checked against the contracts alone.

`Math.pow(|n|, 1.3)` and `Math.pow(|n|, 1.5)` cannot be computed here. Each
curve takes its power function as a parameter `shape: real -> real` that
satisfies `IsShapingCurve`: it maps 0 to 0 and 1 to 1, keeps [0, 1] in
[0, 1] and is monotone. The controller keeps the two shapes as constants.

Behaviour of the code that is easy to misread (the model follows the code):

- `calculateThrottle` returns the unrounded value. The rounding happens in the
  motion listener.
- The curves do not guard against `maxPitch`/`maxRoll` being 0. The model
  requires both to be positive instead.
- The stop effect goes through `sendCommand`'s de-duplication. It does not
  clear the dispatcher's `commandRef`. `Scenarios.StaleCommandRefAfterStop`
  shows the consequence: after reactivation the same driving command is not
  resent, although the car was last told to stop.
- A tick moves `commandRef` on even when the write fails. So ticks never retry
  a failed command while the latest command stays the same
  (`Scenarios.FailedWriteIsNotRetriedByTicks`).
- `lerp(old, new, smooth)` gives weight `smooth` to the new sample. A larger
  `smooth` therefore means less smoothing, although the code comment says the
  opposite.
- Activation does not reset the filter.
- An orientation that was never reported (`null`) falls back to landscape-left.
  A reported `UNKNOWN` orientation is not nullish, so it takes the portrait
  branch of the remap.

## Model

| member | source | states |
|---|---|---|
| `Gyroscope.Clamp` | utils/gyroscope.ts:13-15 | result lies in [min, max] when min ≤ max; v is returned unchanged when already in range; below/above saturate to min/max; min wins when min > max |
| `Gyroscope.Lerp` | utils/gyroscope.ts:20-22 | t = 0 gives a, t = 1 gives b, t in [0,1] gives a value between a and b |
| `Gyroscope.MapToLandscape` | utils/gyroscope.ts:33-50 | the remap only swaps and negates: abs(pitch) + abs(roll) equals abs(beta) + abs(gamma) |
| `Gyroscope.MapToLandscapeInvertible` | utils/gyroscope.ts:33-50 | for every orientation the device angles are recovered from the vehicle angles (reference inverse `DeviceAngles`) |
| `Gyroscope.LandscapeLeftMirrorsRight` | utils/gyroscope.ts:33-50 | LEFT gives exactly the negation of RIGHT; RIGHT gives (gamma, beta); every other orientation gives (beta, gamma) |
| `Gyroscope.SmoothingCommutesWithRemap` | hooks/use-gyroscope-controller.ts:97-108 | for a fixed orientation, smoothing then remapping equals remapping both samples then smoothing |
| `Gyroscope.Normalize` | utils/gyroscope.ts:64-65 | the normalised adjustment is exactly adj / max within [-max, max], and ±1 beyond ±max; it lies in [-1,1] and keeps the sign of the adjustment |
| `Gyroscope.CurvedBounds` | utils/gyroscope.ts:67-68 | sign(n)·shape(abs(n)) stays in [-1,1], keeps the sign of n and is ±1 at n = ±1 |
| `Gyroscope.CalculateThrottle` | utils/gyroscope.ts:57-71 | result in [-100,100]; 0 when abs(pitchAdj) < threshold; sign follows pitchAdj; outside the dead zone it is exactly 100·shape(pitchAdj / maxPitch) for 0 ≤ pitchAdj ≤ maxPitch, -100·shape(-pitchAdj / maxPitch) for -maxPitch ≤ pitchAdj ≤ 0, and ±100 beyond ±maxPitch |
| `Gyroscope.ThrottleOdd` | utils/gyroscope.ts:57-71 | throttle(-x) = -throttle(x) |
| `Gyroscope.ThrottleMonotone` | utils/gyroscope.ts:57-71 | more forward tilt never gives less throttle, across the dead zone too |
| `Gyroscope.CalculateSteeringAngle` | utils/gyroscope.ts:79-95 | result in [0,180]; 90 when abs(rollAdj) < threshold; ≥ 90 for rightward roll and ≤ 90 for leftward; outside the dead zone it is exactly 90 + 90·shape(rollAdj / maxRoll) for 0 ≤ rollAdj ≤ maxRoll, 90 - 90·shape(-rollAdj / maxRoll) for -maxRoll ≤ rollAdj ≤ 0, and 180 / 0 beyond ±maxRoll |
| `Gyroscope.SteeringMirror` | utils/gyroscope.ts:79-95 | steer(-x) = 180 - steer(x) |
| `Gyroscope.SteeringMonotone` | utils/gyroscope.ts:79-95 | more rightward roll never gives a smaller angle |
| `Gyroscope.NeutralAtZero` | utils/gyroscope.ts:62-70 | a zero adjustment gives throttle 0 and steering 90 for any threshold |
| `Gyroscope.CurveExamples` | utils/gyroscope.ts:57-95 | roll 25 with maxRoll 25 gives 180 and -25 gives 0; pitch 2 inside threshold 4 gives 0; pitch 40 with maxPitch 35 gives 100; pitch ±17.5 with maxPitch 35 gives ±100·shape(0.5); roll 12.5 with maxRoll 25 gives 90 + 90·shape(0.5) |
| `Gyroscope.ThrottleColor` | utils/gyroscope.ts:100-108 | each of the five colours is returned exactly on its band of abs(throttle), split at 10, 30, 60 and 80 |
| `Gyroscope.ThrottleColorSymmetric` | utils/gyroscope.ts:100-108 | the colour depends only on abs(throttle) |
| `Gyroscope.ArrowRotation` | utils/gyroscope.ts:113-123 | steering - 90 going forward, steering + 90 in reverse; for steering in [0,180] the result is in [-90,90] forward and [90,270] in reverse |
| `Gyroscope.ReverseArrowIsHalfTurn` | utils/gyroscope.ts:113-123 | any reverse throttle turns the arrow exactly 180° from any forward throttle |
| `GyroscopeController.RoundHalfUp` | hooks/use-gyroscope-controller.ts:119-120 | the result is the integer n with n - 1/2 ≤ x < n + 1/2 |
| `GyroscopeController.RoundWithin` | hooks/use-gyroscope-controller.ts:119-120 | rounding a value between two integers stays between them |
| `GyroscopeController.RoundOddExceptTies` | hooks/use-gyroscope-controller.ts:119-120 | round(-x) = -round(x) unless x is an exact half |
| `GyroscopeController.RoundTieAsymmetry` | hooks/use-gyroscope-controller.ts:119-120 | 0.5 rounds to 1 but -0.5 to 0 |
| `GyroscopeController.PublishedThrottleOdd` | hooks/use-gyroscope-controller.ts:116-119 | the published throttle for -x is minus the one for x, except on exact halves |
| `GyroscopeController.MergeConfig` | hooks/use-gyroscope-controller.ts:140-142 | every supplied field overrides, every other field is kept |
| `GyroscopeController.MergeLaws` | hooks/use-gyroscope-controller.ts:140-142 | an empty patch is the identity, a full patch replaces everything, the same patch twice equals once |
| `GyroscopeController.MergeComposes` | hooks/use-gyroscope-controller.ts:140-142 | two successive updates equal one update with the combined patch (later fields win) |
| `GyroscopeController.EffectiveOrientation` | hooks/use-gyroscope-controller.ts:103 | a missing orientation falls back to LANDSCAPE_LEFT, a reported one is used as it is |
| `GyroscopeController.PublishedCommand` | hooks/use-gyroscope-controller.ts:111-120 | published throttle in [-100,100] and steering in [0,180]; neutral inside each dead zone; 100 / 180 at full tilt |
| `GyroscopeController.CalibratedAnglesAreNeutral` | hooks/use-gyroscope-controller.ts:136-138 | with the zero point set to the current (pitch, roll), the published command is {0, 90} whatever the thresholds |
| `GyroscopeController.Controller.constructor` | hooks/use-gyroscope-controller.ts:47-67 | default config 35 / 25 / 0.3 / 4 / 2 / 50; inactive; throttle 0, steering 90; zero point, filter, raw and pitch/roll all 0; no orientation yet |
| `GyroscopeController.Controller.OrientationChanged` | hooks/use-gyroscope-controller.ts:76-78 | only the orientation changes |
| `GyroscopeController.Controller.Activate` | hooks/use-gyroscope-controller.ts:123-124 | becomes active and subscribed; filter, zero point and outputs are kept |
| `GyroscopeController.Controller.Sample` | hooks/use-gyroscope-controller.ts:91-121 | filtered beta/gamma become lerp(old, new, smooth); pitch/roll are the remap of the filtered angles under the effective orientation; the published command is PublishedCommand of (pitch - zeroPitch, roll - zeroRoll); config, orientation, activity and zero point unchanged; outputs stay in range |
| `GyroscopeController.Controller.Deactivate` | hooks/use-gyroscope-controller.ts:127-134 | inactive and unsubscribed, command {0, 90}; filtered angles, pitch/roll, zero point and config kept |
| `GyroscopeController.Controller.CalibrateNeutral` | hooks/use-gyroscope-controller.ts:136-138 | the zero point becomes the last published (pitch, roll), nothing else changes, and that (pitch, roll) now publishes neutral |
| `GyroscopeController.Controller.UpdateConfig` | hooks/use-gyroscope-controller.ts:140-142 | config becomes MergeConfig(old config, patch); nothing else changes |
| `CommandEncoding.IntToString` | hooks/use-bluetooth.ts:258 | the rendering of an integer is non-empty and contains neither ':' nor a newline |
| `CommandEncoding.Encode` | hooks/use-bluetooth.ts:256-258 | the line starts with 'T', ends with the only newline it contains |
| `CommandEncoding.EncodeDecodeRoundTrip` | hooks/use-bluetooth.ts:256-258 | decoding the encoded line gives back the command |
| `CommandEncoding.EncodeInjective` | hooks/use-bluetooth.ts:256-258 | two commands have the same wire string iff they are equal |
| `CommandEncoding.EncodeExample` | hooks/use-bluetooth.ts:256-258 | {75, 90} gives "T75:S90\n", neutral gives "T0:S90\n", {-100, 180} gives "T-100:S180\n" |
| `Bluetooth.FirstWithAddress` | hooks/use-bluetooth.ts:195 | the index of the first device with the address, or the length when there is none |
| `Bluetooth.FindByAddress` | hooks/use-bluetooth.ts:195-198 | a found device is the first in the list with that address; none is found iff no device has it |
| `Bluetooth.Link.constructor` | hooks/use-bluetooth.ts:19-35 | disconnected, no devices, no device, initial stats, no last command, nothing written |
| `Bluetooth.Link.SendCommand` | hooks/use-bluetooth.ts:239-276 | no device: false and nothing changes; same as lastCommand: true and nothing written; otherwise Encode(command) is written, and on success lastCommand becomes the command, commandsSent +1, bytesSent + count; a failed write returns false and leaves lastCommand and stats; status and device never change; invariant: no two successive successful writes carry the same command |
| `Bluetooth.Link.Scan` | hooks/use-bluetooth.ts:135-187 | an early return changes nothing; a throw before scanning sets only 'disconnected'; a scan that runs goes through 'scanning' to 'disconnected' and, on success, replaces the device list; the device list is otherwise kept |
| `Bluetooth.Link.Connect` | hooks/use-bluetooth.ts:189-218 | status goes to 'connecting', then 'connected' with the first listed device of that address when it accepts, else 'disconnected'; lastCommand untouched |
| `Bluetooth.Link.Disconnect` | hooks/use-bluetooth.ts:220-237 | with a device whose disconnection completes: no device, 'disconnected', no devices, initial stats, no last command; otherwise nothing changes |
| `Bluetooth.Link.DeviceDisconnected` | hooks/use-bluetooth.ts:94-101 | no device, 'disconnected', no devices, initial stats; lastCommand kept |
| `BluetoothCommander.Commander.constructor` | hooks/use-bluetooth-commander.ts:15-16 | commandRef starts at {0, 90}, no interval |
| `BluetoothCommander.Commander.Sync` | hooks/use-bluetooth-commander.ts:18-26 | the interval is installed exactly when status is 'connected' and the controller is active |
| `BluetoothCommander.Commander.Tick` | hooks/use-bluetooth-commander.ts:29-43 | without an interval nothing happens; otherwise sendCommand's effect happens only when the latest command differs from commandRef, commandRef becomes the latest command whatever the outcome, and at most one string is written |
| `BluetoothCommander.Commander.StopEffect` | hooks/use-bluetooth-commander.ts:53-58 | inactive on a connected link: sendCommand's effect with {0, 90}, so nothing is written when the last command was already neutral; otherwise nothing changes; commandRef untouched |

## Left out

- Converting radians to degrees (`radToDeg`) is not modelled. Its floating-point
  multiply by 180/π is left out; samples enter the model already in degrees.
- The numeric value of `Math.pow(x, 1.3)` and `Math.pow(x, 1.5)` is not
  modelled. Only the properties in `IsShapingCurve` are used. Half tilt is
  stated as `100·shape(0.5)`, but the number 0.5^1.3 ≈ 0.41 is not.
- Floating point is not modelled. Values are exact reals, so there is no NaN,
  no infinity and no -0. With `maxPitch` or `maxRoll` at 0, JavaScript would
  divide by zero; the model instead requires both to be positive wherever the
  curves run.
- `GyroscopeController.Controller.Sample` requires `config.maxPitch > 0` and
  `config.maxRoll > 0`, because of that division. `updateConfig` may still
  store other values.
- `CommandEncoding.IntToString` covers integers only. JavaScript switches to
  exponent notation from 10^21 upward, which the encoder never meets for
  commands in range.
- React plumbing is not modelled: `useEffect` re-runs, re-subscription when the
  config or orientation changes, stale closures, and the async orientation
  query. Samples, ticks, status changes and effects are explicit method calls
  that read the current state.
- Asynchrony is not modelled. `sendCommand`, `connect` and `disconnect` are
  atomic, so a second tick cannot run while a write is pending.
- The device library (`RNBluetoothClassic`, its write, connect and disconnect)
  is external. Its results are parameters: `WriteResult`, `accepted`,
  `completes`, `ScanResult`. `Date.now()` is the parameter `now`.
- The byte count a write reports is taken as given. The model does not
  check it against the string's length.
- Parts of `startScan` are not modelled: the Bluetooth-enabled check, the
  permission request, bonded and unpaired discovery, and its alerts. Only its
  status transitions and the resulting device list are kept. An early return
  before scanning is `NotStarted`; a throw from enabling Bluetooth or from the
  permission request is `FailedBeforeScan`.
- Several library event handlers are not modelled: Bluetooth enabled/disabled,
  device-connected and error. So are `isReady`, `isScanning`, alerts and
  console logging.
- The screen-orientation lock, `DeviceMotion.setUpdateInterval` and the
  `updateInterval` side effect of `updateConfig` are platform calls and are not
  modelled. `updateInterval` is kept as a configuration field only.
- `GyroscopeController.PartialConfig` does not cover a field explicitly set to
  `undefined`, which the object spread would copy. Only absent fields are
  modelled.
- UI screens, theme constants, the React context and Android permission helpers
  are not modelled. They hold no control logic.
