/**
 * Sequences of handler invocations on one accessory, one at a time, and the
 * invariants the accessory keeps across them.
 */
module Session {
  import opened Quantization
  import opened Blinds

  /** The read handlers that answer from a stored field without touching the network. */
  datatype Query =
    | CurrentPositionQuery
    | PositionStateQuery
    | TargetPositionQuery
    | BatteryLevelQuery
    | TargetTiltQuery

  function Answer(a: Accessory, q: Query): int {
    match q
    case CurrentPositionQuery => GetCurrentPosition(a)
    case PositionStateQuery => GetPositionState(a)
    case TargetPositionQuery => GetTargetPosition(a)
    case BatteryLevelQuery => GetBatteryLevel(a)
    case TargetTiltQuery => GetTargetHorizontalTiltAngle(a)
  }

  /** One invocation of a handler by the platform, with how its HTTP exchange ended. */
  datatype Event =
    | SetPosition(pos: int, http: Completion)
    | SetTilt(angle: int, http: Completion)
    | RefreshTilt(response: PropertiesResponse)
    | Ask(query: Query)

  function Step(a: Accessory, e: Event): Accessory {
    match e
    case SetPosition(pos, http) => SetTargetPosition(a, pos, http).after
    case SetTilt(angle, http) => SetTargetHorizontalTiltAngle(a, angle, http).after
    case RefreshTilt(response) => GetCurrentHorizontalTiltAngle(a, response).after
    case Ask(_) => a
  }

  /** The state after handling `events` in order, starting from `a`. */
  function Run(a: Accessory, events: seq<Event>): Accessory
    decreases |events|
  {
    if events == [] then a else Run(Step(a, events[0]), events[1..])
  }

  /**
   * What holds of the accessory at every point after construction: the last
   * position is one of the three resting positions, the blinds report
   * themselves stopped, and the fields no handler writes keep their initial
   * values.
   */
  predicate Steady(a: Accessory) {
    IsSnapped(a.lastPosition) &&
    a.currentPositionState == Stopped &&
    a.currentTargetPosition == Down &&
    a.targetHorizontalTiltAngle == 0
  }

  /** One handler invocation keeps the accessory steady and its configuration fixed. */
  lemma StepKeepsSteady(a: Accessory, e: Event)
    requires Steady(a)
    ensures Steady(Step(a, e))
    ensures Step(a, e).config == a.config
  {
  }

  lemma {:induction false} RunKeepsSteady(a: Accessory, events: seq<Event>)
    requires Steady(a)
    ensures Steady(Run(a, events))
    ensures Run(a, events).config == a.config
    decreases |events|
  {
    if events != [] {
      StepKeepsSteady(a, events[0]);
      RunKeepsSteady(Step(a, events[0]), events[1..]);
    }
  }

  /**
   * Whatever the platform invokes after construction, the current position
   * read back is 0, 50 or 100, the position state read back is 2 (stopped) and
   * the target position read back is the initial 0.
   */
  lemma ReadsAfterAnyRun(raw: map<string, string>, events: seq<Event>)
    ensures var a := Run(New(raw), events);
            IsSnapped(Answer(a, CurrentPositionQuery)) &&
            Answer(a, PositionStateQuery) == 2 &&
            Answer(a, TargetPositionQuery) == 0
  {
    RunKeepsSteady(New(raw), events);
  }

  function WithoutQueries(events: seq<Event>): seq<Event>
    decreases |events|
  {
    if events == [] then []
    else if events[0].Ask? then WithoutQueries(events[1..])
    else [events[0]] + WithoutQueries(events[1..])
  }

  /**
   * The five getters that only read a field change nothing: dropping every
   * query from a run leaves its end state as it was. The properties poll
   * (`RefreshTilt`) is not a query and is kept.
   */
  lemma {:induction false} QueriesChangeNothing(a: Accessory, events: seq<Event>)
    ensures Run(a, events) == Run(a, WithoutQueries(events))
    decreases |events|
  {
    if events != [] {
      QueriesChangeNothing(Step(a, events[0]), events[1..]);
      if !events[0].Ask? {
        var rest := WithoutQueries(events[1..]);
        assert ([events[0]] + rest)[1..] == rest;
      }
    }
  }

  predicate PositionRequestsOnly(events: seq<Event>) {
    forall i :: 0 <= i < |events| ==> events[i].SetPosition?
  }

  /** The recorded tilt angle is the one that belongs to the recorded position. */
  predicate Coupled(a: Accessory) {
    IsSnapped(a.lastPosition) && a.currentHorizontalTiltAngle == TiltAngle(a.lastPosition)
  }

  lemma {:induction false} PositionRequestsKeepCoupling(a: Accessory, events: seq<Event>)
    requires Coupled(a)
    requires PositionRequestsOnly(events)
    ensures Coupled(Run(a, events))
    decreases |events|
  {
    if events != [] {
      PositionRequestsKeepCoupling(Step(a, events[0]), events[1..]);
    }
  }

  /**
   * Under position requests alone, the tilt angle either is untouched or is the
   * angle of the recorded position; so an angle in [-90, 90] stays there.
   */
  lemma {:induction false} PositionRequestsTrackAngle(a: Accessory, events: seq<Event>)
    requires PositionRequestsOnly(events)
    ensures Run(a, events) == a || Coupled(Run(a, events))
    ensures -90 <= a.currentHorizontalTiltAngle <= 90 ==>
              -90 <= Run(a, events).currentHorizontalTiltAngle <= 90
    decreases |events|
  {
    if events != [] {
      var next := Step(a, events[0]);
      if events[0].http.Responded? {
        PositionRequestsKeepCoupling(next, events[1..]);
      } else {
        PositionRequestsTrackAngle(next, events[1..]);
      }
    }
  }

  function Repeat(e: Event, n: nat): (events: seq<Event>) {
    if n == 0 then [] else [e] + Repeat(e, n - 1)
  }

  /**
   * Asking again and again for Down while the blinds are at Middle or Up, and
   * every request completing, moves them back and forth between Middle and Up
   * without ever settling.
   */
  lemma {:induction false} RepeatedDownKeepsAlternating(a: Accessory, status: int, n: nat)
    requires a.lastPosition == Middle || a.lastPosition == Up
    ensures var other := if a.lastPosition == Middle then Up else Middle;
            Run(a, Repeat(SetPosition(Down, Responded(status)), n)).lastPosition ==
              if n % 2 == 0 then a.lastPosition else other
    decreases n
  {
    if n > 0 {
      var e := SetPosition(Down, Responded(status));
      assert ([e] + Repeat(e, n - 1))[1..] == Repeat(e, n - 1);
      Quantization.RepeatedDownAlternates();
      RepeatedDownKeepsAlternating(Step(a, e), status, n - 1);
    }
  }

  /** Once a request maps the position to itself, repeating it keeps the blinds there. */
  lemma {:induction false} RepeatedFixedRequestStays(a: Accessory, pos: int, status: int, n: nat)
    requires Quantize(a.lastPosition, pos) == a.lastPosition
    ensures Run(a, Repeat(SetPosition(pos, Responded(status)), n)).lastPosition == a.lastPosition
    decreases n
  {
    if n > 0 {
      var e := SetPosition(pos, Responded(status));
      assert ([e] + Repeat(e, n - 1))[1..] == Repeat(e, n - 1);
      RepeatedFixedRequestStays(Step(a, e), pos, status, n - 1);
    }
  }

  /**
   * Repeating any request other than Down, every one completing, leaves the
   * blinds after the second where they stay for good.
   */
  lemma RepeatedPositionRequestSettles(a: Accessory, pos: int, status: int, n: nat)
    requires pos != Down
    requires n >= 2
    ensures Run(a, Repeat(SetPosition(pos, Responded(status)), n)).lastPosition ==
            Quantize(Quantize(a.lastPosition, pos), pos)
  {
    var e := SetPosition(pos, Responded(status));
    var rest := Repeat(e, n - 2);
    assert Repeat(e, n) == [e] + ([e] + rest);
    assert ([e] + ([e] + rest))[1..] == [e] + rest;
    assert ([e] + rest)[1..] == rest;
    var second := Step(Step(a, e), e);
    Quantization.RepeatedRequestSettles(a.lastPosition, pos);
    RepeatedFixedRequestStays(second, pos, status, n - 2);
  }
}
