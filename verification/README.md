# Horizontal blinds accessory — Dafny model

This project models the BlindsHTTP accessory of the `homebridge-horizontalblinds`
plugin (`index.js`). The accessory drives horizontal blinds by tilting them.
Its position (`lastPosition`) rests at 0, 50 or 100 percent. A position
request commands the matching tilt angle: -90, 0 or +90 degrees. The tilt
handler, however, sends and records any raw angle, and the properties poll
records any reported angle. So the recorded angle need not be one of those
three.

- `quantization.dfy` (module `Quantization`) models the state machine of
  `setTargetPosition`. A requested percentage is snapped to 0, 50 or 100 with
  hysteresis on the last position reached. Two requests toggle instead: asking
  for 0 at 50 goes to 100, and asking for 100 at 0 goes to 50. The snapped
  target then becomes the tilt angle `(target - 50) * 1.8`. The model writes
  this angle as the exact integer `(target - 50) * 9 / 5`.
- `blinds.dfy` (module `Blinds`) models the rest of the accessory:
  - the configuration and the state record set up by the constructor;
  - the read handlers, which answer from the record;
  - the shared `tiltBlinds` helper and the two write handlers built on it;
  - the properties poll behind `getCurrentHorizontalTiltAngle`.

  Each write handler returns the tilt request it sends, the state afterwards,
  the values it pushes to the platform, and whether it acknowledges the
  platform's callback.
- `session.dfy` (module `Session`) runs sequences of handler invocations. It
  proves what the accessory keeps across any such sequence.
- `wrappers.dfy` holds the `Maybe` type, for values that may be absent.

The model follows the code as written:

- `httpRequest` passes its error argument to its continuation on both paths:
  null after a 200 response (index.js:238) and `err` otherwise (index.js:242).
  The continuation that `tiltBlinds` hands it takes no parameters
  (index.js:221). So a non-200 response updates the state exactly as a 200
  response does (`Blinds.StatusIsIgnored`). `Completion.Outstanding` stands for
  a request whose helper never calls back; only then does the state stay as it
  was.
- `currentPositionState` is never assigned after construction. The write
  handler only pushes the value 2 to the PositionState characteristic. So the
  read handler always answers 2.
- `currentTargetPosition` and `targetHorizontalTiltAngle` are never written.
  The TargetHorizontalTiltAngle read handler answers with
  `currentHorizontalTiltAngle`.
- `setTargetHorizontalTiltAngle` changes the tilt angle but not `lastPosition`.

## Model

| member | source | states |
|---|---|---|
| Quantization.Quantize | index.js:162-185 | every request, from any last position, is snapped to 0, 50 or 100 |
| Quantization.EveryPathAssigns | index.js:162-185 | the chain of branches is exhaustive: for integer requests some branch always assigns the target, so the initial 0 is never kept by default |
| Quantization.QuantizeTable | index.js:163-185 | the two toggles (50 asking 0 gives 100, 0 asking 100 gives 50); otherwise, at or below 50, the result is 50 exactly when the request is at least 50 and 0 exactly when it is below; above 50, the result is 100 exactly when the request exceeds 50 and 50 exactly when it does not |
| Quantization.QuantizeIsBandSnap | index.js:163-185 | apart from the two toggles, the chain agrees with an independent band rule: move to the end of the 50-wide band on the blinds' side of the middle that lies in the request's direction from the middle |
| Quantization.RequestingCurrentIsFixed | index.js:163-185 | at 0, 50 or 100, requesting the current position leaves it unchanged |
| Quantization.MovesAtMostOneBand | index.js:163-185 | from any resting position one request moves the blinds by at most 50 |
| Quantization.ReachesUpOnlyBy | index.js:163-185 | the target is 100 if and only if 0 is asked for at 50, or more than 50 is asked for when already above 50 |
| Quantization.MovesAgainstRequestOnlyOnToggle | index.js:163-185 | from a resting position the blinds move opposite to the request's direction exactly when 0 is asked for at 50 |
| Quantization.RepeatedRequestSettles | index.js:163-185 | a request other than 0, repeated, reaches a fixed point by its second application |
| Quantization.RepeatedDownAlternates | index.js:163-185 | asking for 0 sends 50 to 100 and 100 to 50, and leaves 0 at 0 |
| Quantization.TiltAngle | index.js:188 | the angle equals the target's offset from 50 times 1.8 exactly and lies in [-90, 90] |
| Quantization.TiltAngleValues | index.js:188 | 0, 50 and 100 map to -90, 0 and 90; the map is strictly increasing and inverted by `PositionOfAngle` |
| Blinds.ConfigOf | index.js:36-41 | a missing or empty `http_method` falls back to "GET", and the method is never empty; a given method and the tilt URL are kept as given; the name and each of the four URLs are absent exactly when their keys are |
| Blinds.GetCurrentPosition | index.js:120-123 | answers with the last position reached |
| Blinds.GetBatteryLevel | index.js:125-128 | answers with the stored battery level |
| Blinds.GetPositionState | index.js:150-153 | answers with the stored motion state's code, which lies in 0..2 and is 2 exactly when stopped |
| Blinds.GetTargetPosition | index.js:155-158 | answers with the stored target position |
| Blinds.GetTargetHorizontalTiltAngle | index.js:199-202 | answers with the current tilt angle, not the stored target tilt |
| Blinds.New | index.js:31-49 | the constructed accessory rests at position 0, is stopped (code 2), has target position 0, both tilt angles 0 and battery 0 |
| Blinds.TiltBlinds | index.js:220-229 | sends the given angle to the configured tilt URL with the configured method; on callback it records and pushes that angle and changes no other field; without a callback nothing changes and nothing is acknowledged |
| Blinds.SetTargetPosition | index.js:160-197 | the commanded angle is -90, 0 or 90, namely the angle of the snapped request, sent to the tilt URL with the configured method; on completion the last position is the snapped request, the recorded angle is that position's angle, only those two fields change, and the angle, position and stopped state are pushed in that order; without completion the state is unchanged |
| Blinds.SetTargetHorizontalTiltAngle | index.js:204-209 | sends the raw angle to the tilt URL with the configured method; on completion only the current tilt angle changes and that angle is pushed; the last position never changes |
| Blinds.GetCurrentHorizontalTiltAngle | index.js:130-147 | on status 200 records the reported angle and battery level and answers with the angle; on any other status answers without a value and changes nothing |
| Blinds.ReadBackAfterRefresh | index.js:130-148 | after a successful poll both tilt reads agree with the reported angle and the battery read with the reported level; after any other status every read is unchanged; position reads never change |
| Blinds.ReadBackAfterSetTargetPosition | index.js:120-201 | after a completed position request the reads return the snapped target and its angle; position state, target position and battery read back as before |
| Blinds.ReadBackAfterSetTilt | index.js:199-229 | after a completed tilt request the tilt read returns the angle asked for; every other read is unchanged |
| Blinds.StatusIsIgnored | index.js:220-245 | both write handlers give the same outcome for every HTTP status that reaches the continuation |
| Session.StepKeepsSteady | index.js:120-229 | any one handler keeps the last position in {0, 50, 100}, the state stopped, and the unwritten target fields at their initial values; it also keeps the configuration |
| Session.RunKeepsSteady | index.js:160-229 | the same holds across any sequence of handler invocations |
| Session.ReadsAfterAnyRun | index.js:43-158 | after construction and any sequence of invocations, current position reads back as 0, 50 or 100, position state as 2, and target position as 0 |
| Session.QueriesChangeNothing | index.js:120-128 | removing every call of the five getters that only read a field (index.js:120-128, 150-158 and 199-202; not the properties poll) from a sequence leaves its final state unchanged |
| Session.PositionRequestsKeepCoupling | index.js:188-196 | while only position requests are made, a recorded angle that matches the recorded position keeps matching it |
| Session.PositionRequestsTrackAngle | index.js:188-196 | under position requests alone, the state is either untouched or its angle matches its position; so an angle within [-90, 90] stays within it |
| Session.RepeatedDownKeepsAlternating | index.js:163-196 | requesting 0 over and over at 50 or 100, each time completed, alternates between 100 and 50 forever |
| Session.RepeatedFixedRequestStays | index.js:160-196 | repeating a request that maps the current position to itself keeps the blinds where they are |
| Session.RepeatedPositionRequestSettles | index.js:160-196 | repeating a request other than 0, each time completed, ends where two applications of the snapping put it |

## Left out

- The HTTP transport (`request` and `httpRequest`, index.js:231-245) is not modelled. A write handler's exchange is reduced to `Completion`: the continuation is called after a response with some status, or it is never called.
- The transport-error branches (index.js:143-145, index.js:240-242) read the status of a response that may be undefined. That runtime failure is not modelled. A request whose continuation never runs is `Outstanding`.
- JSON parsing of the properties body (index.js:137) is not modelled. The response arrives with its two numeric fields already parsed. A malformed body, or one that lacks a field, is not represented.
- Platform registration is not modelled: the custom Battery characteristic, the `setProps` ranges and steps, handler wiring, and `getServices` (index.js:8-28, index.js:53-116, index.js:247-249). The handlers therefore accept any integer. The platform's [-90, 90] range for TargetPosition is not imposed.
- Logging and the text of the tilt URL (`tilt_url + "?targetangle=" + angle`) are not modelled. `TiltRequest` carries the URL, method and angle separately.
- JavaScript numbers are modelled as integers. Fractional or NaN requests and the floating-point product with 1.8 are not modelled. With integer requests every branch comparison is decided.
- Quantization.TiltAngle: defined only for the three snapped targets. Those are the only values the source passes, and for them `(target - 50) * 1.8` is an integer.
- Overlapping write requests are not modelled. Handlers run one at a time and each completes before the next starts. The source does not define interleavings.
- `up_url` and `down_url` are read into the configuration but no handler of this accessory uses them.
