/** The processor between the language model and speech: voice_agent/actions/processor.py. */
module ActionProcessor {
  import opened Prelude
  import opened Text
  import opened Dispatch

  datatype Frame = Start | TextFrame(text: string) | End | OtherFrame(id: nat)

  /** A frame that goes out: one that came in, in its direction, or a text frame with a spoken line. */
  datatype Out = Passed(frame: Frame, downstream: bool) | NewStart | Spoke(line: Line) | NewEnd

  datatype Event =
    | AssistantReply(line: Line)
    | Refused(errorType: string, reason: Line, suggestion: string)
    | Dispatched(action: Action)
    | ShipStateIs(state: ShipState)

  /** A frame that comes in; `reading` is how a call to the simulator would end in this turn. */
  datatype Input = Input(frame: Frame, downstream: bool, reading: Reading)

  /** The fields, and all that has gone out: frames, events, and calls to the simulator. */
  datatype State = State(
    parts: seq<string>, capturing: bool,
    pushed: seq<Out>, events: seq<Event>, calls: seq<(Call, Reading)>)

  const INIT: State := State([], false, [], [], [])

  /** parse_response, None where it raises. */
  type Parser = string -> Option<Response>

  // -- one turn -----------------------------------------------------------------------------

  /** result.spoken.strip() or Unparseable; the fixed lines are stripped and not empty. */
  function SpokenLine(result: DispatchResult): Line {
    match result.spoken
    case Say(text) => if Strip(text) == "" then Unparseable else Say(Strip(text))
    case line => line
  }

  /** What is published after the reply. */
  function Verdict(action: Action, result: DispatchResult, spoken: Line): seq<Event> {
    if action.Refusal? then [Refused(action.errorType, Say(action.reason), action.suggestion)]
    else if action.Answer? then []
    else if !result.ok then [Refused("not_executed", spoken, "")]
    else if result.state.Some? then [Dispatched(action), ShipStateIs(result.state.value)]
    else [Dispatched(action)]
  }

  /** _publish_turn_events. */
  function TurnEvents(parsed: Response, result: DispatchResult, spoken: Line): seq<Event> {
    [AssistantReply(spoken)] + Verdict(parsed.action, result, spoken)
  }

  function CallsFor(parsed: Option<Response>, reading: Reading): seq<(Call, Reading)> {
    if parsed.Some? && CallFor(parsed.value.action).Some? then [(CallFor(parsed.value.action).value, reading)] else []
  }

  function Spoken(parsed: Option<Response>, reading: Reading): Line {
    if parsed.None? then Unparseable else SpokenLine(DispatchAction(parsed.value, reading))
  }

  function EventsOf(parsed: Option<Response>, reading: Reading): seq<Event> {
    if parsed.None? then [AssistantReply(Unparseable)]
    else TurnEvents(parsed.value, DispatchAction(parsed.value, reading), Spoken(parsed, reading))
  }

  // -- process_frame ----------------------------------------------------------------------------

  function Process(parse: Parser, s: State, i: Input): State {
    if i.downstream && i.frame.Start? then s.(parts := [], capturing := true)
    else if i.downstream && i.frame.TextFrame? && s.capturing then s.(parts := s.parts + [i.frame.text])
    else if i.downstream && i.frame.End? && s.capturing then
      var parsed := parse(Strip(Concat(s.parts)));
      s.(parts := [], capturing := false,
         pushed := s.pushed + [NewStart, Spoke(Spoken(parsed, i.reading)), NewEnd],
         events := s.events + EventsOf(parsed, i.reading),
         calls := s.calls + CallsFor(parsed, i.reading))
    else s.(pushed := s.pushed + [Passed(i.frame, i.downstream)])
  }

  function After(parse: Parser, inputs: seq<Input>): State {
    if inputs == [] then INIT
    else Process(parse, After(parse, inputs[..|inputs| - 1]), inputs[|inputs| - 1])
  }

  // -- the class -----------------------------------------------------------------------------------

  class JsonActionProcessor {
    const parse: Parser
    var parts: seq<string>
    var capturing: bool
    var pushed: seq<Out>
    var events: seq<Event>
    var calls: seq<(Call, Reading)>

    function Now(): State
      reads this
    {
      State(parts, capturing, pushed, events, calls)
    }

    constructor (parse: Parser)
      ensures this.parse == parse && Now() == INIT
    {
      this.parse := parse;
      parts, capturing, pushed, events, calls := [], false, [], [], [];
    }

    method ProcessFrame(i: Input)
      modifies this
      ensures Now() == Process(parse, old(Now()), i)
    {
      if !i.downstream {
        pushed := pushed + [Passed(i.frame, false)];
        return;
      }
      if i.frame.Start? {
        parts := [];
        capturing := true;
        return;
      }
      if i.frame.TextFrame? && capturing {
        parts := parts + [i.frame.text];
        return;
      }
      if i.frame.End? && capturing {
        capturing := false;
        var raw := Strip(Concat(parts));
        parts := [];
        var spoken := Resolve(raw, i.reading);
        pushed := pushed + [NewStart];
        pushed := pushed + [Spoke(spoken)];
        pushed := pushed + [NewEnd];
        return;
      }
      pushed := pushed + [Passed(i.frame, true)];
    }

    method Resolve(raw: string, reading: Reading) returns (spoken: Line)
      modifies this`events, this`calls
      ensures spoken == Spoken(parse(raw), reading)
      ensures events == old(events) + EventsOf(parse(raw), reading)
      ensures calls == old(calls) + CallsFor(parse(raw), reading)
    {
      var parsed := parse(raw);
      if parsed.None? {
        events := events + [AssistantReply(Unparseable)];
        return Unparseable;
      }
      var call := CallFor(parsed.value.action);
      if call.Some? {
        calls := calls + [(call.value, reading)];
      }
      var result := DispatchAction(parsed.value, reading);
      spoken := SpokenLine(result);
      PublishTurnEvents(parsed.value, result, spoken);
    }

    method PublishTurnEvents(parsed: Response, result: DispatchResult, spoken: Line)
      modifies this`events
      ensures events == old(events) + TurnEvents(parsed, result, spoken)
    {
      events := events + [AssistantReply(spoken)];
      var action := parsed.action;
      if action.Refusal? {
        events := events + [Refused(action.errorType, Say(action.reason), action.suggestion)];
        return;
      }
      if action.Answer? {
        return;
      }
      if !result.ok {
        events := events + [Refused("not_executed", spoken, "")];
        return;
      }
      events := events + [Dispatched(action)];
      if result.state.Some? {
        events := events + [ShipStateIs(result.state.value)];
      }
    }
  }

  // -- the audit trail and the ship ------------------------------------------------------------------

  /** What goes to the ship: rudder and telegraph orders, not questions. */
  function OrderIn(call: Option<Call>): seq<Call> {
    if call.Some? && !call.value.GetState? then [call.value] else []
  }

  /** The orders that the ship carried out. */
  function Executed(calls: seq<(Call, Reading)>): seq<Call> {
    if calls == [] then [] else
      var (call, reading) := calls[|calls| - 1];
      Executed(calls[..|calls| - 1]) + if reading.Returned? then OrderIn(Some(call)) else []
  }

  /** The orders that the audit trail reports as dispatched. */
  function Reported(events: seq<Event>): seq<Call> {
    if events == [] then [] else
      var e := events[|events| - 1];
      Reported(events[..|events| - 1]) + if e.Dispatched? then OrderIn(CallFor(e.action)) else []
  }

  lemma {:induction false} ReportedAppend(a: seq<Event>, b: seq<Event>)
    ensures Reported(a + b) == Reported(a) + Reported(b)
  {
    if b == [] {
      assert a + b == a;
    } else {
      assert (a + b)[..|a + b| - 1] == a + b[..|b| - 1];
      ReportedAppend(a, b[..|b| - 1]);
    }
  }

  lemma ExecutedOne(calls: seq<(Call, Reading)>, call: Call, reading: Reading)
    ensures Executed(calls + [(call, reading)])
         == Executed(calls) + if reading.Returned? then OrderIn(Some(call)) else []
  {
    assert (calls + [(call, reading)])[..|calls|] == calls;
  }

  lemma ReportedTurn(spoken: Line, action: Action, result: DispatchResult)
    ensures Reported([AssistantReply(spoken)]) == []
    ensures Reported([AssistantReply(spoken)] + Verdict(action, result, spoken))
         == if action.Refusal? || action.Answer? || !result.ok then [] else OrderIn(CallFor(action))
  {
    var verdict := Verdict(action, result, spoken);
    ReportedAppend([AssistantReply(spoken)], verdict);
    assert [AssistantReply(spoken)][..0] == [];
    assert |verdict| > 0 ==> verdict[..|verdict| - 1] == if |verdict| == 1 then [] else [verdict[0]];
    assert |verdict| > 0 ==> [verdict[0]][..0] == [];
  }

  /** In one turn the orders reported are those carried out. */
  lemma TurnReportsWhatWasDone(parsed: Option<Response>, reading: Reading, calls: seq<(Call, Reading)>)
    ensures Executed(calls + CallsFor(parsed, reading)) == Executed(calls) + Reported(EventsOf(parsed, reading))
  {
    if parsed.None? {
      ReportedTurn(Unparseable, Answer, DispatchResult(Unparseable, true, None));
      assert calls + [] == calls;
    } else {
      var action := parsed.value.action;
      OkIff(parsed.value, reading);
      ReportedTurn(Spoken(parsed, reading), action, DispatchAction(parsed.value, reading));
      if CallFor(action).Some? {
        ExecutedOne(calls, CallFor(action).value, reading);
      } else {
        assert calls + [] == calls;
      }
    }
  }

  /** Over any run the audit trail lists exactly the rudder and telegraph orders that the simulator carried out, in order. */
  lemma {:induction false} AuditTrailIsTheShipsLog(parse: Parser, inputs: seq<Input>)
    ensures Reported(After(parse, inputs).events) == Executed(After(parse, inputs).calls)
  {
    if inputs != [] {
      var s, i := After(parse, inputs[..|inputs| - 1]), inputs[|inputs| - 1];
      AuditTrailIsTheShipsLog(parse, inputs[..|inputs| - 1]);
      if i.downstream && i.frame.End? && s.capturing {
        var parsed := parse(Strip(Concat(s.parts)));
        TurnReportsWhatWasDone(parsed, i.reading, s.calls);
        ReportedAppend(s.events, EventsOf(parsed, i.reading));
      }
    }
  }

  /**
   A turn has one reply, first, which is what is spoken, and at most one verdict.  The
   verdict is a refusal with the spoken line for its reason exactly if a course was ordered
   or the call raised; the model's own refusal is passed on, and makes no call.
   */
  lemma TurnHasOneVerdict(parsed: Option<Response>, reading: Reading)
    ensures var events, spoken := EventsOf(parsed, reading), Spoken(parsed, reading);
            && (spoken.Say? ==> spoken.text != "" && Stripped(spoken.text))
            && events[0] == AssistantReply(spoken)
            && (forall k :: 1 <= k < |events| ==> !events[k].AssistantReply?)
            && (forall k :: 2 <= k < |events| ==> !events[k].Refused? && !events[k].Dispatched?)
            && (|events| > 1 && events[1] == Refused("not_executed", spoken, "") && !parsed.value.action.Refusal? <==>
                  parsed.Some? && (parsed.value.action.Navigation?
                                   || (CallFor(parsed.value.action).Some? && reading.Raised?)))
            && (parsed.Some? && parsed.value.action.Refusal? ==>
                  var a := parsed.value.action;
                  |events| == 2 && events[1] == Refused(a.errorType, Say(a.reason), a.suggestion)
                  && CallsFor(parsed, reading) == [])
            && (parsed.Some? && CallFor(parsed.value.action).Some? && reading.Raised? ==> spoken == BridgeLost)
  {
    if parsed.Some? {
      OkIff(parsed.value, reading);
      var line := DispatchAction(parsed.value, reading).spoken;
      if line.Say? {
        StripCuts(line.text);
      }
    }
  }

  /** What is spoken: the words of SaidIs, stripped, or the fixed line if nothing is left of them. */
  lemma SpokenIs(parsed: Response, reading: Reading)
    ensures var spoken, a, words := Spoken(Some(parsed), reading), parsed.action, Strip(parsed.response);
            if a.Navigation? then spoken == CourseOrderRefusal
            else if Calls(a) && reading.Raised? then spoken == BridgeLost
            else if a.StatusQuery? then
              spoken == Say(if words == "" then Readout(a.query, reading.state) else words + " " + Readout(a.query, reading.state))
            else spoken == if words == "" then Unparseable else Say(words)
  {
    SaidIs(parsed, reading);
    var a, words := parsed.action, Strip(parsed.response);
    if a.StatusQuery? && reading.Returned? {
      StripCuts(parsed.response);
      ReadoutIsStripped(a.query, reading.state);
      var text := if words == "" then Readout(a.query, reading.state) else words + " " + Readout(a.query, reading.state);
      assert text != "" && Stripped(text);
      StripOfStripped(text);
    }
  }

  /** All that a turn publishes, by what the model asked for and how the call ended. */
  lemma TurnPublishes(parsed: Option<Response>, reading: Reading)
    ensures var events, reply := EventsOf(parsed, reading), AssistantReply(Spoken(parsed, reading));
            if parsed.None? then events == [AssistantReply(Unparseable)] && CallsFor(parsed, reading) == []
            else
              var a := parsed.value.action;
              if a.Refusal? then events == [reply, Refused(a.errorType, Say(a.reason), a.suggestion)]
              else if a.Answer? then events == [reply]
              else if a.Navigation? || (Calls(a) && reading.Raised?) then
                events == [reply, Refused("not_executed", Spoken(parsed, reading), "")]
              else if Calls(a) then events == [reply, Dispatched(a), ShipStateIs(reading.state)]
              else events == [reply, Dispatched(a)]
    ensures parsed.Some? ==> (CallsFor(parsed, reading) != [] <==> Calls(parsed.value.action))
  {
    if parsed.Some? {
      OkIff(parsed.value, reading);
      CallsFollowTheOrder(parsed.value.action);
    }
  }

  // -- what is captured -----------------------------------------------------------------------------------

  /** One more than the position of the last downstream Start or End; 0 if there is none. */
  function LastMark(inputs: seq<Input>): (n: nat)
    ensures n <= |inputs|
    ensures n > 0 ==> inputs[n - 1].downstream && (inputs[n - 1].frame.Start? || inputs[n - 1].frame.End?)
    ensures forall k :: n <= k < |inputs| ==>
              !(inputs[k].downstream && (inputs[k].frame.Start? || inputs[k].frame.End?))
  {
    if inputs == [] then 0 else
      var i := inputs[|inputs| - 1];
      if i.downstream && (i.frame.Start? || i.frame.End?) then |inputs| else LastMark(inputs[..|inputs| - 1])
  }

  /** The texts among the downstream frames. */
  function Texts(inputs: seq<Input>): seq<string> {
    if inputs == [] then [] else
      var i := inputs[|inputs| - 1];
      Texts(inputs[..|inputs| - 1]) + if i.downstream && i.frame.TextFrame? then [i.frame.text] else []
  }

  predicate InReply(inputs: seq<Input>) {
    LastMark(inputs) > 0 && inputs[LastMark(inputs) - 1].frame.Start?
  }

  /** Capturing is from a Start to the next End, and what is captured are the texts since that Start, in order. */
  lemma {:induction false} CapturesTheReply(parse: Parser, inputs: seq<Input>)
    ensures var s := After(parse, inputs);
            && (s.capturing <==> InReply(inputs))
            && s.parts == if InReply(inputs) then Texts(inputs[LastMark(inputs)..]) else []
  {
    if inputs != [] {
      var front, i := inputs[..|inputs| - 1], inputs[|inputs| - 1];
      CapturesTheReply(parse, front);
      if i.downstream && (i.frame.Start? || i.frame.End?) {
        assert inputs[|inputs|..] == [];
      } else if InReply(front) {
        var since := inputs[LastMark(inputs)..];
        assert since[..|since| - 1] == front[LastMark(front)..];
      }
    }
  }

  /** The frames that are let through: all but the replies from Start to End. */
  function LetThrough(inputs: seq<Input>): seq<Out> {
    if inputs == [] then [] else
      var front, i := inputs[..|inputs| - 1], inputs[|inputs| - 1];
      LetThrough(front)
      + if i.downstream && (i.frame.Start? || (InReply(front) && (i.frame.TextFrame? || i.frame.End?))) then []
        else [Passed(i.frame, i.downstream)]
  }

  /** The lines spoken, one for each reply that ended. */
  function Lines(parse: Parser, inputs: seq<Input>): seq<Line> {
    if inputs == [] then [] else
      var front, i := inputs[..|inputs| - 1], inputs[|inputs| - 1];
      Lines(parse, front)
      + if i.downstream && i.frame.End? && InReply(front) then
          [Spoken(parse(Strip(Concat(Texts(front[LastMark(front)..])))), i.reading)]
        else []
  }

  /** `out` is made of the frames of `through`, in order, and in between a Start/Text/End triple for each line. */
  predicate Woven(out: seq<Out>, through: seq<Out>, lines: seq<Line>)
    decreases |out|
  {
    || (out == [] && through == [] && lines == [])
    || (out != [] && through != [] && out[|out| - 1] == through[|through| - 1]
        && Woven(out[..|out| - 1], through[..|through| - 1], lines))
    || (|out| >= 3 && lines != []
        && out[|out| - 3..] == [NewStart, Spoke(lines[|lines| - 1]), NewEnd]
        && Woven(out[..|out| - 3], through, lines[..|lines| - 1]))
  }

  lemma WeaveFrame(out: seq<Out>, through: seq<Out>, lines: seq<Line>, f: Out)
    requires Woven(out, through, lines)
    ensures Woven(out + [f], through + [f], lines)
  {
    assert (out + [f])[..|out|] == out && (through + [f])[..|through|] == through;
  }

  lemma WeaveLine(out: seq<Out>, through: seq<Out>, lines: seq<Line>, line: Line)
    requires Woven(out, through, lines)
    ensures Woven(out + [NewStart, Spoke(line), NewEnd], through, lines + [line])
  {
    var triple := [NewStart, Spoke(line), NewEnd];
    assert (out + triple)[..|out|] == out && (out + triple)[|out|..] == triple;
    assert (lines + [line])[..|lines|] == lines;
  }

  /** One more frame sends out a triple, nothing, or itself. */
  lemma GoesOut(parse: Parser, inputs: seq<Input>)
    requires inputs != []
    ensures var front, i := inputs[..|inputs| - 1], inputs[|inputs| - 1];
            var out, through, lines := After(parse, front).pushed, LetThrough(front), Lines(parse, front);
            var out', through', lines' := After(parse, inputs).pushed, LetThrough(inputs), Lines(parse, inputs);
            || (out' == out && through' == through && lines' == lines)
            || (out' == out + [Passed(i.frame, i.downstream)] && through' == through + [Passed(i.frame, i.downstream)]
                && lines' == lines)
            || (|lines'| == |lines| + 1 && lines' == lines + [lines'[|lines|]] && through' == through
                && out' == out + [NewStart, Spoke(lines'[|lines|]), NewEnd])
  {
    CapturesTheReply(parse, inputs[..|inputs| - 1]);
  }

  /**
   Whatever comes in, no text of a reply goes out as it came: out go the other frames, and
   one Start/Text/End triple for each reply that ended.
   */
  lemma {:induction false} OnlySpokenLinesGoOut(parse: Parser, inputs: seq<Input>)
    ensures Woven(After(parse, inputs).pushed, LetThrough(inputs), Lines(parse, inputs))
  {
    if inputs != [] {
      var front, i := inputs[..|inputs| - 1], inputs[|inputs| - 1];
      OnlySpokenLinesGoOut(parse, front);
      GoesOut(parse, inputs);
      var out, through, lines := After(parse, front).pushed, LetThrough(front), Lines(parse, front);
      var lines' := Lines(parse, inputs);
      WeaveFrame(out, through, lines, Passed(i.frame, i.downstream));
      if |lines'| > |lines| {
        WeaveLine(out, through, lines, lines'[|lines|]);
      }
    }
  }

  /** The replies among the events, in order. */
  function Replies(events: seq<Event>): seq<Line> {
    if events == [] then [] else
      var e := events[|events| - 1];
      Replies(events[..|events| - 1]) + if e.AssistantReply? then [e.line] else []
  }

  lemma {:induction false} RepliesAppend(a: seq<Event>, b: seq<Event>)
    ensures Replies(a + b) == Replies(a) + Replies(b)
  {
    if b == [] {
      assert a + b == a;
    } else {
      assert (a + b)[..|a + b| - 1] == a + b[..|b| - 1];
      RepliesAppend(a, b[..|b| - 1]);
    }
  }

  lemma TurnHasOneReply(parsed: Option<Response>, reading: Reading)
    ensures Replies(EventsOf(parsed, reading)) == [Spoken(parsed, reading)]
  {
    var reply := [AssistantReply(Spoken(parsed, reading))];
    assert reply[..0] == [];
    if parsed.Some? {
      var verdict := Verdict(parsed.value.action, DispatchAction(parsed.value, reading), Spoken(parsed, reading));
      RepliesAppend(reply, verdict);
      assert |verdict| > 0 ==> verdict[..|verdict| - 1] == if |verdict| == 1 then [] else [verdict[0]];
      assert |verdict| > 0 ==> [verdict[0]][..0] == [];
    }
  }

  /** A reply that ends publishes the events of its turn, and no other frame publishes any. */
  lemma EventsGrow(parse: Parser, inputs: seq<Input>)
    requires inputs != []
    ensures var front, i := inputs[..|inputs| - 1], inputs[|inputs| - 1];
            var events, lines := After(parse, front).events, Lines(parse, front);
            || (After(parse, inputs).events == events && Lines(parse, inputs) == lines)
            || exists parsed :: After(parse, inputs).events == events + EventsOf(parsed, i.reading)
                                && Lines(parse, inputs) == lines + [Spoken(parsed, i.reading)]
  {
    var front, i := inputs[..|inputs| - 1], inputs[|inputs| - 1];
    CapturesTheReply(parse, front);
    var parsed := parse(Strip(Concat(After(parse, front).parts)));
    if i.downstream && i.frame.End? && InReply(front) {
      assert After(parse, inputs).events == After(parse, front).events + EventsOf(parsed, i.reading);
    } else {
      assert Lines(parse, inputs) == Lines(parse, front);
    }
  }

  /** Each reply that ended is published once, as the line that is spoken. */
  lemma {:induction false} RepliesAreTheLines(parse: Parser, inputs: seq<Input>)
    ensures Replies(After(parse, inputs).events) == Lines(parse, inputs)
  {
    if inputs != [] {
      var front, i := inputs[..|inputs| - 1], inputs[|inputs| - 1];
      RepliesAreTheLines(parse, front);
      EventsGrow(parse, inputs);
      var events := After(parse, front).events;
      if After(parse, inputs).events != events || Lines(parse, inputs) != Lines(parse, front) {
        var parsed :| After(parse, inputs).events == events + EventsOf(parsed, i.reading)
                      && Lines(parse, inputs) == Lines(parse, front) + [Spoken(parsed, i.reading)];
        TurnHasOneReply(parsed, i.reading);
        RepliesAppend(events, EventsOf(parsed, i.reading));
      }
    }
  }

  /** The calls that the replies ask for, one reply after the other. */
  function Asked(parse: Parser, inputs: seq<Input>): seq<(Call, Reading)> {
    if inputs == [] then [] else
      var front, i := inputs[..|inputs| - 1], inputs[|inputs| - 1];
      Asked(parse, front)
      + if i.downstream && i.frame.End? && InReply(front) then
          CallsFor(parse(Strip(Concat(Texts(front[LastMark(front)..])))), i.reading)
        else []
  }

  /** The simulator is called for what the replies ask, once for each, in their order, and for nothing else. */
  lemma {:induction false} CallsComeFromReplies(parse: Parser, inputs: seq<Input>)
    ensures After(parse, inputs).calls == Asked(parse, inputs)
  {
    if inputs != [] {
      var front := inputs[..|inputs| - 1];
      CallsComeFromReplies(parse, front);
      CapturesTheReply(parse, front);
    }
  }
}
