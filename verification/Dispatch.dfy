/** What one parsed reply does to the ship: voice_agent/actions/dispatch.py. */
module Dispatch {
  import opened Prelude
  import opened Text

  datatype EngineOrder =
    | FullAstern | HalfAstern | SlowAstern | DeadSlowAstern | Stop
    | DeadSlowAhead | SlowAhead | HalfAhead | FullAhead

  datatype Query = Heading | Speed | Position

  /** A throttle action names a telegraph order, a speed in knots, or both. */
  datatype Demand = Named(order: EngineOrder, alsoKnots: Option<real>) | Knots(speed: real)

  datatype Action =
    | Rudder(starboard: bool, degrees: real)
    | Throttle(demand: Demand)
    | Navigation(course: nat)
    | Autopilot(engaged: bool)
    | Anchor(operation: string)
    | StatusQuery(query: Query)
    | Refusal(errorType: string, reason: string, suggestion: string)
    | Answer

  /** A reply of the language model, parsed and validated. */
  datatype Response = Response(action: Action, response: string)

  /** The ship as the simulator reports it; heading and speed as they are read out. */
  datatype ShipState = ShipState(heading: string, speed: string, rudder: real, telegraph: EngineOrder)

  datatype Call = SetRudder(angle: real) | SetTelegraph(order: EngineOrder) | GetState

  /** How a call to the simulator ends: with a state, or with SimulatorError. */
  datatype Reading = Returned(state: ShipState) | Raised

  /** What is spoken: a text, or one of the fixed lines of dispatch.py and processor.py. */
  datatype Line = Say(text: string) | BridgeLost | CourseOrderRefusal | Unparseable

  datatype DispatchResult = DispatchResult(spoken: Line, ok: bool, state: Option<ShipState>)

  // -- the telegraph ------------------------------------------------------------------------

  function KnotsToTelegraph(speed: real): EngineOrder {
    if speed >= 13.0 then FullAhead
    else if speed >= 8.0 then HalfAhead
    else if speed >= 4.0 then SlowAhead
    else if speed >= 1.0 then DeadSlowAhead
    else if speed > -1.0 then Stop
    else if speed > -4.0 then DeadSlowAstern
    else if speed > -8.0 then SlowAstern
    else if speed > -13.0 then HalfAstern
    else FullAstern
  }

  /** The speed that the mock simulator makes at each order (mock.py). */
  function SpeedAt(order: EngineOrder): real {
    match order
    case FullAstern => -20.0
    case HalfAstern => -12.0
    case SlowAstern => -6.0
    case DeadSlowAstern => -3.0
    case Stop => 0.0
    case DeadSlowAhead => 3.0
    case SlowAhead => 6.0
    case HalfAhead => 12.0
    case FullAhead => 20.0
  }

  /** The speed of an order asks for that order, more speed never asks for less, and astern mirrors ahead. */
  lemma TelegraphFollowsSpeed(order: EngineOrder, s: real, t: real)
    requires s <= t
    ensures KnotsToTelegraph(SpeedAt(order)) == order
    ensures SpeedAt(KnotsToTelegraph(s)) <= SpeedAt(KnotsToTelegraph(t))
    ensures SpeedAt(KnotsToTelegraph(-s)) == -SpeedAt(KnotsToTelegraph(s))
    ensures KnotsToTelegraph(s) == FullAhead <==> 13.0 <= s
    ensures KnotsToTelegraph(s) == HalfAhead <==> 8.0 <= s < 13.0
    ensures KnotsToTelegraph(s) == SlowAhead <==> 4.0 <= s < 8.0
    ensures KnotsToTelegraph(s) == DeadSlowAhead <==> 1.0 <= s < 4.0
  {
    assert KnotsToTelegraph(SpeedAt(order)) == order by {
      match order
      case FullAstern =>
      case HalfAstern =>
      case SlowAstern =>
      case DeadSlowAstern =>
      case Stop =>
      case DeadSlowAhead =>
      case SlowAhead =>
      case HalfAhead =>
      case FullAhead =>
    }
  }

  // -- dispatch --------------------------------------------------------------------------------

  const NO_POSITION: string := "Position is not available from the helm."

  function FormatStatus(query: Query, base: string, state: ShipState): string {
    match query
    case Heading => Strip(Strip(base) + " Heading " + state.heading + " degrees.")
    case Speed => Strip(Strip(base) + " Speed " + state.speed + " knots.")
    case Position => Strip(Strip(base) + " " + NO_POSITION)
  }

  /** The call that an action makes, if it makes one: starboard is positive, and a named order wins over knots. */
  function CallFor(action: Action): Option<Call> {
    match action
    case Rudder(starboard, degrees) => Some(SetRudder(if starboard then degrees else -degrees))
    case Throttle(Named(order, _)) => Some(SetTelegraph(order))
    case Throttle(Knots(speed)) => Some(SetTelegraph(KnotsToTelegraph(speed)))
    case StatusQuery(_) => Some(GetState)
    case _ => None
  }

  /** dispatch_action, where `reading` is how the call to the simulator ends if there is one. */
  function DispatchAction(parsed: Response, reading: Reading): DispatchResult {
    match parsed.action
    case Refusal(_, _, _) => DispatchResult(Say(parsed.response), true, None)
    case Answer => DispatchResult(Say(parsed.response), true, None)
    case Navigation(_) => DispatchResult(CourseOrderRefusal, false, None)
    case Autopilot(_) => DispatchResult(Say(parsed.response), true, None)
    case Anchor(_) => DispatchResult(Say(parsed.response), true, None)
    case StatusQuery(query) =>
      (match reading
       case Returned(state) => DispatchResult(Say(FormatStatus(query, parsed.response, state)), true, Some(state))
       case Raised => DispatchResult(BridgeLost, false, None))
    case _ =>
      match reading
      case Returned(state) => DispatchResult(Say(parsed.response), true, Some(state))
      case Raised => DispatchResult(BridgeLost, false, None)
  }

  /** A result is ok unless the call raised or a course was ordered, and it has a state exactly if a call returned it. */
  lemma OkIff(parsed: Response, reading: Reading)
    ensures var r := DispatchAction(parsed, reading);
            && (r.ok <==> !parsed.action.Navigation? && (CallFor(parsed.action).Some? ==> reading.Returned?))
            && (r.state.Some? <==> CallFor(parsed.action).Some? && reading.Returned?)
            && (r.state.Some? ==> r.state.value == reading.state)
  {
  }

  /** What the helm reads off the ship for a question. */
  function Readout(query: Query, state: ShipState): string {
    match query
    case Heading => "Heading " + state.heading + " degrees."
    case Speed => "Speed " + state.speed + " knots."
    case Position => NO_POSITION
  }

  lemma StripOfReadout(base: string, readout: string)
    requires Stripped(base) && readout != "" && Stripped(readout)
    ensures Strip(base + " " + readout) == if base == "" then readout else base + " " + readout
  {
    var s := base + " " + readout;
    assert s[|s| - 1] == readout[|readout| - 1];
    if base == "" {
      assert s == " " + readout && s[0] == ' ' && s[1..] == readout;
      StripOfStripped(readout);
      assert LStrip(s) == LStrip(readout);
    } else {
      assert s[0] == base[0];
    }
  }

  lemma ReadoutIsStripped(query: Query, state: ShipState)
    ensures Readout(query, state) != "" && Stripped(Readout(query, state))
  {
  }

  lemma Appended(base: string, spaced: string, before: string, value: string, after: string)
    requires spaced == " " + before
    ensures base + spaced + value + after == base + " " + (before + value + after)
  {
    Regrouped(base, before, value, after);
  }

  lemma HeadingIsAppended(base: string, state: ShipState)
    ensures FormatStatus(Heading, base, state) == Strip(Strip(base) + " " + Readout(Heading, state))
  {
    Appended(Strip(base), " Heading ", "Heading ", state.heading, " degrees.");
  }

  lemma SpeedIsAppended(base: string, state: ShipState)
    ensures FormatStatus(Speed, base, state) == Strip(Strip(base) + " " + Readout(Speed, state))
  {
    Appended(Strip(base), " Speed ", "Speed ", state.speed, " knots.");
  }

  /** The answer to a question is what the model said, and the reading that was asked for behind it. */
  lemma AnswerHasTheReading(query: Query, base: string, state: ShipState)
    ensures FormatStatus(query, base, state)
         == if Strip(base) == "" then Readout(query, state) else Strip(base) + " " + Readout(query, state)
  {
    StripCuts(base);
    ReadoutIsStripped(query, state);
    match query {
      case Heading => HeadingIsAppended(base, state);
      case Speed => SpeedIsAppended(base, state);
      case Position =>
    }
    StripOfReadout(Strip(base), Readout(query, state));
  }

  lemma Regrouped(base: string, before: string, value: string, after: string)
    ensures base + (" " + before) + value + after == base + " " + (before + value + after)
  {
  }

  /** Helm, telegraph and questions call the simulator. */
  predicate Calls(action: Action) {
    action.Rudder? || action.Throttle? || action.StatusQuery?
  }

  /** What is said: the model's own words, but for a course, a lost bridge, and a reading that is added. */
  lemma SaidIs(parsed: Response, reading: Reading)
    ensures var said, a := DispatchAction(parsed, reading).spoken, parsed.action;
            if a.Navigation? then said == CourseOrderRefusal
            else if Calls(a) && reading.Raised? then said == BridgeLost
            else if a.StatusQuery? then
              said == Say(if Strip(parsed.response) == "" then Readout(a.query, reading.state)
                          else Strip(parsed.response) + " " + Readout(a.query, reading.state))
            else said == Say(parsed.response)
  {
    if parsed.action.StatusQuery? && reading.Returned? {
      AnswerHasTheReading(parsed.action.query, parsed.response, reading.state);
    }
  }

  /**
   The helm convention: starboard is positive and port negative, by the ordered degrees.  A
   named order goes to the telegraph as it is, whatever speed comes with it, and a speed
   never asks for the other direction.  Only helm, telegraph and questions make a call.
   */
  lemma CallsFollowTheOrder(action: Action)
    ensures action.Rudder? && action.degrees > 0.0 ==>
              && CallFor(action).Some? && CallFor(action).value.SetRudder?
              && (action.starboard <==> CallFor(action).value.angle > 0.0)
              && (CallFor(action).value.angle == action.degrees || CallFor(action).value.angle == -action.degrees)
    ensures action.Throttle? ==>
              && CallFor(action).Some? && CallFor(action).value.SetTelegraph?
              && (var order := CallFor(action).value.order;
                  match action.demand
                  case Named(named, _) => order == named
                  case Knots(speed) => speed * SpeedAt(order) >= 0.0)
    ensures CallFor(action) == Some(GetState) <==> action.StatusQuery?
    ensures CallFor(action).Some? <==> action.Rudder? || action.Throttle? || action.StatusQuery?
  {
    if action.Throttle? && action.demand.Knots? {
      var speed := action.demand.speed;
      TelegraphFollowsSpeed(Stop, if speed < 0.0 then speed else 0.0, if speed < 0.0 then 0.0 else speed);
      SameSign(speed, SpeedAt(KnotsToTelegraph(speed)));
    }
  }

  lemma SameSign(a: real, b: real)
    ensures (a >= 0.0 && b >= 0.0) || (a <= 0.0 && b <= 0.0) ==> a * b >= 0.0
  {
  }
}
