/**
 * The BlindsHTTP accessory of the horizontal-blinds plugin: its configuration,
 * its in-memory state record, the read handlers that answer from that record,
 * and the write handlers that command a tilt over HTTP and record the new
 * state when the HTTP helper calls back.
 *
 * The HTTP transport is not modelled. A write handler issues one tilt request
 * (`TiltRequest`) and the model is told how it ended (`Completion`): either the
 * helper called its continuation after some HTTP response, whatever the
 * status, or it never did.
 */
module Blinds {
  import opened Optional
  import opened Quantization

  /** Motion reported through the PositionState characteristic. */
  datatype MotionState = Decreasing | Increasing | Stopped {
    /** The number the platform sees: 0, 1 and 2. */
    function Code(): int {
      match this
      case Decreasing => 0
      case Increasing => 1
      case Stopped => 2
    }
  }

  /** The accessory's configuration, read once at construction. */
  datatype Config = Config(
    name: Maybe<string>,
    upURL: Maybe<string>,
    downURL: Maybe<string>,
    tiltURL: Maybe<string>,
    propertiesURL: Maybe<string>,
    httpMethod: string)

  function Lookup(raw: map<string, string>, key: string): Maybe<string> {
    if key in raw then Just(raw[key]) else Nothing
  }

  /**
   * Reads the configuration keys. A missing or empty `http_method` falls back
   * to "GET"; every other key is kept as given, or absent.
   */
  function ConfigOf(raw: map<string, string>): (c: Config)
    ensures c.httpMethod != ""
    ensures "http_method" in raw && raw["http_method"] != "" ==> c.httpMethod == raw["http_method"]
    ensures ("http_method" !in raw || raw["http_method"] == "") ==> c.httpMethod == "GET"
    ensures c.tiltURL.Just? <==> "tilt_url" in raw
    ensures c.tiltURL.Just? ==> c.tiltURL.value == raw["tilt_url"]
    ensures c.propertiesURL.Just? <==> "properties_url" in raw
    ensures c.upURL.Just? <==> "up_url" in raw
    ensures c.downURL.Just? <==> "down_url" in raw
    ensures c.name.Just? <==> "name" in raw
  {
    Config(
      Lookup(raw, "name"),
      Lookup(raw, "up_url"),
      Lookup(raw, "down_url"),
      Lookup(raw, "tilt_url"),
      Lookup(raw, "properties_url"),
      if "http_method" in raw && raw["http_method"] != "" then raw["http_method"] else "GET")
  }

  /** The accessory: its configuration and the mutable state fields of the source. */
  datatype Accessory = Accessory(
    config: Config,
    lastPosition: int,
    currentPositionState: MotionState,
    currentTargetPosition: int,
    targetHorizontalTiltAngle: int,
    currentHorizontalTiltAngle: int,
    battery: int)

  /** Construction: the blinds start down, stopped, with tilt 0 and battery 0. */
  function New(raw: map<string, string>): (a: Accessory)
    ensures a.config == ConfigOf(raw)
    ensures IsSnapped(a.lastPosition) && a.lastPosition == Down
    ensures a.currentPositionState == Stopped && a.currentPositionState.Code() == 2
    ensures a.currentTargetPosition == Down
    ensures a.targetHorizontalTiltAngle == 0 && a.currentHorizontalTiltAngle == 0
    ensures a.battery == 0
  {
    Accessory(ConfigOf(raw), Down, Stopped, Down, 0, 0, 0)
  }

  // Read handlers: each answers from one stored field and returns no new state.

  /** Answers with the last position reached. */
  function GetCurrentPosition(a: Accessory): (v: int)
    ensures v == a.lastPosition
  {
    a.lastPosition
  }

  /** Answers with the battery level last reported by the properties endpoint. */
  function GetBatteryLevel(a: Accessory): (v: int)
    ensures v == a.battery
  {
    a.battery
  }

  /** Answers with the code of the stored motion state: 0, 1 or 2, and 2 exactly when stopped. */
  function GetPositionState(a: Accessory): (v: int)
    ensures 0 <= v <= 2
    ensures v == 2 <==> a.currentPositionState == Stopped
  {
    a.currentPositionState.Code()
  }

  /** Answers with the stored target position, which no handler writes. */
  function GetTargetPosition(a: Accessory): (v: int)
    ensures v == a.currentTargetPosition
  {
    a.currentTargetPosition
  }

  /** Answers with the current tilt angle; the stored target tilt is never read. */
  function GetTargetHorizontalTiltAngle(a: Accessory): (v: int)
    ensures v == a.currentHorizontalTiltAngle
  {
    a.currentHorizontalTiltAngle
  }

  /** Characteristics whose value the accessory pushes to the platform. */
  datatype Characteristic =
    | CurrentPosition
    | PositionState
    | CurrentHorizontalTiltAngle

  datatype Update = Update(characteristic: Characteristic, value: int)

  /** How the one HTTP request of a write ended, as far as the handler can see. */
  datatype Completion =
    | Responded(status: int)   // the helper called back after a response with this status
    | Outstanding              // the helper never called back

  /** The tilt command sent: `targetangle=angle` appended to the tilt URL. */
  datatype TiltRequest = TiltRequest(verb: string, url: Maybe<string>, angle: int)

  /**
   * Result of a write handler: the request sent, the state afterwards, the
   * values pushed to the platform in order, and whether the platform's
   * callback was acknowledged (always without an error).
   */
  datatype Outcome = Outcome(
    sent: TiltRequest,
    after: Accessory,
    pushed: seq<Update>,
    acknowledged: bool)

  /**
   * The shared tilt helper: sends the angle to the tilt URL and, once the HTTP
   * helper calls back, pushes and records the angle. The status of the
   * response is not inspected.
   */
  function TiltBlinds(a: Accessory, angle: int, http: Completion): (o: Outcome)
    ensures o.sent.angle == angle
    ensures o.sent.url == a.config.tiltURL && o.sent.verb == a.config.httpMethod
    ensures o.acknowledged <==> http.Responded?
    ensures http.Responded? ==>
              o.after == a.(currentHorizontalTiltAngle := angle) &&
              o.pushed == [Update(CurrentHorizontalTiltAngle, angle)]
    ensures http.Outstanding? ==> o.after == a && o.pushed == []
  {
    var sent := TiltRequest(a.config.httpMethod, a.config.tiltURL, angle);
    match http
    case Responded(_) =>
      Outcome(sent, a.(currentHorizontalTiltAngle := angle), [Update(CurrentHorizontalTiltAngle, angle)], true)
    case Outstanding =>
      Outcome(sent, a, [], false)
  }

  /**
   * Write handler of TargetPosition: snaps the request, tilts to the matching
   * angle and, on completion, pushes the new position and the stopped state and
   * records the position as the last one reached.
   */
  function SetTargetPosition(a: Accessory, pos: int, http: Completion): (o: Outcome)
    ensures o.sent.angle == -90 || o.sent.angle == 0 || o.sent.angle == 90
    ensures o.sent.angle == TiltAngle(Quantize(a.lastPosition, pos))
    ensures o.sent.url == a.config.tiltURL && o.sent.verb == a.config.httpMethod
    ensures o.acknowledged <==> http.Responded?
    ensures http.Responded? ==> o.after.lastPosition == Quantize(a.lastPosition, pos)
    ensures http.Responded? ==>
              IsSnapped(o.after.lastPosition) &&
              o.after.currentHorizontalTiltAngle == o.sent.angle == TiltAngle(o.after.lastPosition) &&
              o.after == a.(lastPosition := o.after.lastPosition,
                            currentHorizontalTiltAngle := o.after.currentHorizontalTiltAngle)
    ensures http.Responded? ==>
              o.pushed == [Update(CurrentHorizontalTiltAngle, o.sent.angle),
                           Update(CurrentPosition, o.after.lastPosition),
                           Update(PositionState, Stopped.Code())]
    ensures http.Outstanding? ==> o.after == a && o.pushed == []
  {
    var target := Quantize(a.lastPosition, pos);
    var tilted := TiltBlinds(a, TiltAngle(target), http);
    if tilted.acknowledged then
      tilted.(after := tilted.after.(lastPosition := target),
              pushed := tilted.pushed + [Update(CurrentPosition, target), Update(PositionState, Stopped.Code())])
    else
      tilted
  }

  /** Write handler of TargetHorizontalTiltAngle: tilts to the raw angle requested. */
  function SetTargetHorizontalTiltAngle(a: Accessory, angle: int, http: Completion): (o: Outcome)
    ensures o.sent.angle == angle
    ensures o.sent.url == a.config.tiltURL && o.sent.verb == a.config.httpMethod
    ensures o.after.lastPosition == a.lastPosition
    ensures http.Responded? ==> o.pushed == [Update(CurrentHorizontalTiltAngle, angle)]
    ensures o.acknowledged <==> http.Responded?
    ensures http.Responded? ==> o.after == a.(currentHorizontalTiltAngle := angle)
    ensures http.Outstanding? ==> o.after == a && o.pushed == []
  {
    TiltBlinds(a, angle, http)
  }

  /**
   * A response of the properties endpoint. The body is taken as already parsed
   * into its two numeric fields; it is only looked at when the status is 200.
   */
  datatype PropertiesResponse = PropertiesResponse(status: int, currentangle: int, batterylevel: int)

  /** What the read handler passes to the platform's callback. */
  datatype Reply = Value(v: int) | NoValue

  datatype ReadOutcome = ReadOutcome(after: Accessory, reply: Reply)

  /**
   * Read handler of CurrentHorizontalTiltAngle: polls the properties endpoint;
   * on status 200 records the reported angle and battery level and answers
   * with the angle, otherwise answers without a value and changes nothing.
   */
  function GetCurrentHorizontalTiltAngle(a: Accessory, response: PropertiesResponse): (r: ReadOutcome)
    ensures response.status == 200 ==>
              r.reply == Value(response.currentangle) &&
              r.after == a.(currentHorizontalTiltAngle := response.currentangle,
                            battery := response.batterylevel)
    ensures response.status != 200 ==> r.after == a && r.reply == NoValue
  {
    if response.status == 200 then
      var after := a.(currentHorizontalTiltAngle := response.currentangle, battery := response.batterylevel);
      ReadOutcome(after, Value(after.currentHorizontalTiltAngle))
    else
      ReadOutcome(a, NoValue)
  }

  /**
   * After a completed position request the read handlers report the snapped
   * position and its angle, a stopped blind, and the same target position and
   * battery as before.
   */
  lemma ReadBackAfterSetTargetPosition(a: Accessory, pos: int, status: int)
    ensures var after := SetTargetPosition(a, pos, Responded(status)).after;
            GetCurrentPosition(after) == Quantize(a.lastPosition, pos) &&
            GetTargetHorizontalTiltAngle(after) == TiltAngle(Quantize(a.lastPosition, pos)) &&
            GetPositionState(after) == GetPositionState(a) &&
            GetTargetPosition(after) == GetTargetPosition(a) &&
            GetBatteryLevel(after) == GetBatteryLevel(a)
  {
  }

  /**
   * After a completed tilt request the tilt read handler reports the angle
   * asked for, and every other read handler answers as before.
   */
  lemma ReadBackAfterSetTilt(a: Accessory, angle: int, status: int)
    ensures var after := SetTargetHorizontalTiltAngle(a, angle, Responded(status)).after;
            GetTargetHorizontalTiltAngle(after) == angle &&
            GetCurrentPosition(after) == GetCurrentPosition(a) &&
            GetPositionState(after) == GetPositionState(a) &&
            GetTargetPosition(after) == GetTargetPosition(a) &&
            GetBatteryLevel(after) == GetBatteryLevel(a)
  {
  }

  /**
   * After a successful properties poll both tilt reads agree with the reported
   * angle, the battery read returns the reported level, and the position reads
   * are unchanged; after any other status every read is unchanged.
   */
  lemma ReadBackAfterRefresh(a: Accessory, response: PropertiesResponse)
    ensures var r := GetCurrentHorizontalTiltAngle(a, response);
            (response.status == 200 ==>
               r.reply == Value(GetTargetHorizontalTiltAngle(r.after)) &&
               GetTargetHorizontalTiltAngle(r.after) == response.currentangle &&
               GetBatteryLevel(r.after) == response.batterylevel) &&
            (response.status != 200 ==>
               GetTargetHorizontalTiltAngle(r.after) == GetTargetHorizontalTiltAngle(a) &&
               GetBatteryLevel(r.after) == GetBatteryLevel(a)) &&
            GetCurrentPosition(r.after) == GetCurrentPosition(a) &&
            GetPositionState(r.after) == GetPositionState(a) &&
            GetTargetPosition(r.after) == GetTargetPosition(a)
  {
  }

  /** The write handlers do not depend on the HTTP status: any response completes them alike. */
  lemma StatusIsIgnored(a: Accessory, pos: int, angle: int, s1: int, s2: int)
    ensures SetTargetPosition(a, pos, Responded(s1)) == SetTargetPosition(a, pos, Responded(s2))
    ensures SetTargetHorizontalTiltAngle(a, angle, Responded(s1)) ==
            SetTargetHorizontalTiltAngle(a, angle, Responded(s2))
  {
  }
}
