/** The turn machine of LatencyTracker (voice_agent/metrics.py). */
module Latency {
  import opened Prelude
  import opened FrameDedup

  datatype Kind =
    | UserStopped | Finish | Interim | Transcription | LlmText | LlmEnd | TtsAudio | TtsStopped | Other

  /** One call of on_push_frame; `now` is what the monotonic clock shows in it. */
  datatype Pushed = Pushed(id: int, downstream: bool, kind: Kind, now: real)

  datatype Turn = Turn(
    index: nat, speechEnd: real,
    firstPartial: Option<real>, sttFinal: Option<real>, firstToken: Option<real>,
    lastToken: Option<real>, firstAudio: Option<real>, lastAudio: Option<real>)

  /** A line of the metrics file. */
  datatype Line = TurnLine(turn: Turn) | SummaryLine(turns: seq<Turn>)

  datatype Tracker = Tracker(
    turnIndex: nat, turn: Option<Turn>, completed: seq<Turn>, summaryWritten: bool,
    lines: seq<Line>, events: seq<Turn>)

  const FRESH: Tracker := Tracker(0, None, [], false, [], [])

  // -- the machine -------------------------------------------------------------------------------

  function Opened(index: nat, now: real): Turn {
    Turn(index, now, None, None, None, None, None, None)
  }

  function First(stamp: Option<real>, now: real): Option<real> {
    if stamp.None? then Some(now) else stamp
  }

  function Stamp(t: Turn, kind: Kind, now: real): Turn {
    match kind
    case Interim => t.(firstPartial := First(t.firstPartial, now))
    case Transcription => t.(sttFinal := First(t.sttFinal, now))
    case LlmText => t.(firstToken := First(t.firstToken, now))
    case LlmEnd => t.(lastToken := First(t.lastToken, now))
    case TtsAudio => t.(firstAudio := First(t.firstAudio, now))
    case TtsStopped => t.(lastAudio := Some(now))
    case _ => t
  }

  function Closed(s: Tracker, t: Turn): Tracker {
    s.(turn := None, turnIndex := s.turnIndex + 1, completed := s.completed + [t],
       lines := s.lines + [TurnLine(t)], events := s.events + [t])
  }

  /** What a frame does that is downstream and new. */
  function Track(s: Tracker, kind: Kind, now: real): Tracker {
    match kind
    case UserStopped => s.(turn := Some(Opened(s.turnIndex, now)))
    case Finish =>
      if s.summaryWritten then s
      else s.(summaryWritten := true, lines := s.lines + [SummaryLine(s.completed)])
    case TtsStopped => if s.turn.None? then s else Closed(s, Stamp(s.turn.value, kind, now))
    case _ => if s.turn.None? then s else s.(turn := Some(Stamp(s.turn.value, kind, now)))
  }

  /** The tracker after the frames that get through. */
  function After(frames: seq<Pushed>): Tracker {
    if frames == [] then FRESH
    else Track(After(frames[..|frames| - 1]), frames[|frames| - 1].kind, frames[|frames| - 1].now)
  }

  /** The ids of the downstream frames. */
  function Ids(pushes: seq<Pushed>): seq<int> {
    if pushes == [] then [] else
      var p := pushes[|pushes| - 1];
      Ids(pushes[..|pushes| - 1]) + if p.downstream then [p.id] else []
  }

  /** The frames that get through: downstream, and new to the dedup. */
  function Through(pushes: seq<Pushed>): seq<Pushed> {
    if pushes == [] then [] else
      var front, p := pushes[..|pushes| - 1], pushes[|pushes| - 1];
      Through(front) + if p.downstream && p.id !in Window(Ids(front)) then [p] else []
  }

  /** One call of on_push_frame: what it makes of the tracker and of the deque. */
  function Push(s: Tracker, order: seq<int>, p: Pushed): (Tracker, seq<int>) {
    if p.downstream && p.id !in order then (Track(s, p.kind, p.now), Remember(order, p.id)) else (s, order)
  }

  function AfterPushes(pushes: seq<Pushed>): (Tracker, seq<int>) {
    if pushes == [] then (FRESH, []) else
      var (s, order) := AfterPushes(pushes[..|pushes| - 1]);
      Push(s, order, pushes[|pushes| - 1])
  }

  /** What one more call makes of the history. */
  lemma PushOne(was: seq<Pushed>, p: Pushed)
    ensures !p.downstream ==> Ids(was + [p]) == Ids(was) && Through(was + [p]) == Through(was)
    ensures p.downstream && p.id in Window(Ids(was)) ==>
              Window(Ids(was + [p])) == Window(Ids(was)) && Through(was + [p]) == Through(was)
    ensures p.downstream && p.id !in Window(Ids(was)) ==>
              && Window(Ids(was + [p])) == Remember(Window(Ids(was)), p.id)
              && After(Through(was + [p])) == Track(After(Through(was)), p.kind, p.now)
  {
    assert (was + [p])[..|was|] == was;
    assert (Ids(was) + [p.id])[..|Ids(was)|] == Ids(was);
    assert (Through(was) + [p])[..|Through(was)|] == Through(was);
  }

  /** The tracker after some calls is what the frames that get through make of it. */
  lemma {:induction false} OnlyNewFramesCount(pushes: seq<Pushed>)
    ensures AfterPushes(pushes) == (After(Through(pushes)), Window(Ids(pushes)))
  {
    if pushes != [] {
      var front, p := pushes[..|pushes| - 1], pushes[|pushes| - 1];
      OnlyNewFramesCount(front);
      PushOne(front, p);
      assert pushes == front + [p];
    }
  }

  // -- the class ------------------------------------------------------------------------------------

  class LatencyTracker {
    var turnIndex: nat
    var turn: Option<Turn>
    var completed: seq<Turn>
    var summaryWritten: bool
    var lines: seq<Line>
    var events: seq<Turn>
    var seenOrder: seq<int>
    var seen: set<int>

    /** Set and deque hold the same ids. */
    ghost predicate Valid()
      reads this
    {
      Distinct(seenOrder) && |seenOrder| <= HISTORY && forall id :: id in seen <==> id in seenOrder
    }

    ghost function Now(): Tracker
      reads this
    {
      Tracker(turnIndex, turn, completed, summaryWritten, lines, events)
    }

    constructor ()
      ensures Valid() && (Now(), seenOrder) == AfterPushes([])
    {
      turnIndex, turn, completed, summaryWritten := 0, None, [], false;
      lines, events, seenOrder, seen := [], [], [], {};
    }

    method IsNew(id: int) returns (isNew: bool)
      requires Valid()
      modifies this`seenOrder, this`seen
      ensures Valid()
      ensures isNew <==> id !in old(seenOrder)
      ensures seenOrder == if isNew then Remember(old(seenOrder), id) else old(seenOrder)
    {
      if id in seen {
        return false;
      }
      ghost var before := seenOrder;
      if |seenOrder| == HISTORY {
        seen := seen - {seenOrder[0]};
        seenOrder := seenOrder[1..];
        assert before == [before[0]] + seenOrder;
      }
      seenOrder := seenOrder + [id];
      seen := seen + {id};
      return true;
    }

    method OnPushFrame(p: Pushed)
      requires Valid()
      modifies this
      ensures Valid() && (Now(), seenOrder) == Push(old(Now()), old(seenOrder), p)
    {
      if !p.downstream {
        return;
      }
      var isNew := IsNew(p.id);
      if !isNew {
        return;
      }
      StampFrame(p.kind, p.now);
    }

    /** The part of on_push_frame below the dedup. */
    method StampFrame(kind: Kind, now: real)
      modifies this`turn, this`turnIndex, this`completed, this`lines, this`events, this`summaryWritten
      ensures Now() == Track(old(Now()), kind, now)
    {
      match kind {
        case UserStopped =>
          turn := Some(Opened(turnIndex, now));
        case Finish =>
          FinalizeSession();
        case TtsStopped =>
          if turn.Some? {
            turn := Some(turn.value.(lastAudio := Some(now)));
            FinalizeTurn();
          }
        case _ =>
          if turn.Some? {
            turn := Some(Stamp(turn.value, kind, now));
          }
      }
    }

    method FinalizeTurn()
      modifies this`turn, this`turnIndex, this`completed, this`lines, this`events
      ensures Now() == if old(turn).None? then old(Now()) else Closed(old(Now()), old(turn).value)
    {
      if turn.None? {
        return;
      }
      var t := turn.value;
      completed := completed + [t];
      turn := None;
      turnIndex := turnIndex + 1;
      lines := lines + [TurnLine(t)];
      events := events + [t];
    }

    method FinalizeSession()
      modifies this`summaryWritten, this`lines
      ensures Now() == Track(old(Now()), Finish, 0.0)
    {
      if summaryWritten {
        return;
      }
      summaryWritten := true;
      lines := lines + [SummaryLine(completed)];
    }
  }

  // -- the open turn, from the frames alone -----------------------------------------------------------

  /** One more than the position of the last frame of the kind; 0 if there is none. */
  function LastOf(frames: seq<Pushed>, kind: Kind): (n: nat)
    ensures n <= |frames|
    ensures n > 0 ==> frames[n - 1].kind == kind
    ensures forall i :: n <= i < |frames| ==> frames[i].kind != kind
  {
    if frames == [] then 0
    else if frames[|frames| - 1].kind == kind then |frames|
    else LastOf(frames[..|frames| - 1], kind)
  }

  /** When the first frame of the kind came. */
  function FirstTime(frames: seq<Pushed>, kind: Kind): Option<real> {
    if frames == [] then None
    else if frames[0].kind == kind then Some(frames[0].now)
    else FirstTime(frames[1..], kind)
  }

  /** The turns closed so far: a TtsStopped closes what the last UserStopped opened, if it is not closed yet. */
  function TurnsClosed(frames: seq<Pushed>): nat {
    if frames == [] then 0 else
      var front := frames[..|frames| - 1];
      TurnsClosed(front) + if frames[|frames| - 1].kind == TtsStopped && IsOpen(front) then 1 else 0
  }

  predicate IsOpen(frames: seq<Pushed>) {
    LastOf(frames, UserStopped) > LastOf(frames, TtsStopped)
  }

  /** The stamps of the turn that began with the first of these frames. */
  function Observed(index: nat, frames: seq<Pushed>): Turn
    requires frames != []
  {
    Turn(index, frames[0].now, FirstTime(frames, Interim), FirstTime(frames, Transcription),
         FirstTime(frames, LlmText), FirstTime(frames, LlmEnd), FirstTime(frames, TtsAudio),
         FirstTime(frames, TtsStopped))
  }

  lemma {:induction false} FirstTimeAppend(frames: seq<Pushed>, p: Pushed, kind: Kind)
    ensures FirstTime(frames + [p], kind)
         == if FirstTime(frames, kind).Some? then FirstTime(frames, kind) else if p.kind == kind then Some(p.now) else None
  {
    if frames != [] {
      assert (frames + [p])[1..] == frames[1..] + [p];
      FirstTimeAppend(frames[1..], p, kind);
    }
  }

  /** Stamping first occurrences one by one gives the first occurrences. */
  lemma ObservedAppend(index: nat, frames: seq<Pushed>, p: Pushed)
    requires frames != [] && p.kind != UserStopped && FirstTime(frames, TtsStopped) == None
    ensures Observed(index, frames + [p]) == Stamp(Observed(index, frames), p.kind, p.now)
  {
    FirstTimeAppend(frames, p, Interim);
    FirstTimeAppend(frames, p, Transcription);
    FirstTimeAppend(frames, p, LlmText);
    FirstTimeAppend(frames, p, LlmEnd);
    FirstTimeAppend(frames, p, TtsAudio);
    FirstTimeAppend(frames, p, TtsStopped);
  }

  lemma ObservedOne(index: nat, p: Pushed)
    requires p.kind == UserStopped
    ensures Observed(index, [p]) == Opened(index, p.now)
  {
    assert forall kind :: kind != UserStopped ==> FirstTime([p], kind) == FirstTime([p][1..], kind) == None;
  }

  function Since(frames: seq<Pushed>): seq<Pushed>
    requires IsOpen(frames)
  {
    frames[LastOf(frames, UserStopped) - 1..]
  }

  lemma {:induction false} NoFirstTime(frames: seq<Pushed>, kind: Kind)
    requires forall i :: 0 <= i < |frames| ==> frames[i].kind != kind
    ensures FirstTime(frames, kind) == None
  {
    if frames != [] {
      NoFirstTime(frames[1..], kind);
    }
  }

  lemma SinceHasNoStop(frames: seq<Pushed>)
    requires IsOpen(frames)
    ensures FirstTime(Since(frames), TtsStopped) == None
  {
    var since := Since(frames);
    assert forall i :: 0 <= i < |since| ==> since[i] == frames[LastOf(frames, UserStopped) - 1 + i];
    NoFirstTime(since, TtsStopped);
  }

  lemma SinceAppend(front: seq<Pushed>, p: Pushed)
    ensures p.kind == UserStopped ==> IsOpen(front + [p]) && Since(front + [p]) == [p]
    ensures p.kind == TtsStopped ==> !IsOpen(front + [p])
    ensures p.kind != UserStopped && p.kind != TtsStopped ==>
              && IsOpen(front + [p]) == IsOpen(front)
              && (IsOpen(front) ==> Since(front + [p]) == Since(front) + [p])
  {
    assert (front + [p])[..|front|] == front;
  }

  /**
   A turn is open exactly if no TtsStopped has come since the last UserStopped; its index is
   the number of turns closed before, and each of its stamps is when the first frame of
   that kind came since.
   */
  lemma {:induction false} OpenTurnIs(frames: seq<Pushed>)
    ensures After(frames).turn == if IsOpen(frames) then Some(Observed(TurnsClosed(frames), Since(frames))) else None
    ensures |After(frames).completed| == After(frames).turnIndex == TurnsClosed(frames)
  {
    if frames != [] {
      var front, p := frames[..|frames| - 1], frames[|frames| - 1];
      OpenTurnIs(front);
      assert frames == front + [p];
      SinceAppend(front, p);
      if p.kind == UserStopped {
        ObservedOne(TurnsClosed(frames), p);
      } else if IsOpen(front) {
        SinceHasNoStop(front);
        ObservedAppend(TurnsClosed(front), Since(front), p);
      }
    }
  }

  /** And a closed one has the stamps of the frames from its UserStopped to its TtsStopped. */
  lemma {:induction false} ClosedTurnIs(frames: seq<Pushed>, p: Pushed)
    requires p.kind == TtsStopped
    ensures After(frames + [p]).completed
         == After(frames).completed
            + if IsOpen(frames) then [Observed(TurnsClosed(frames), Since(frames) + [p])] else []
  {
    OpenTurnIs(frames);
    assert (frames + [p])[..|frames|] == frames;
    if IsOpen(frames) {
      SinceHasNoStop(frames);
      ObservedAppend(TurnsClosed(frames), Since(frames), p);
    }
  }

  // -- times ----------------------------------------------------------------------------------------

  /** The clock never goes back. */
  predicate Monotone(frames: seq<Pushed>) {
    forall i, j :: 0 <= i < j < |frames| ==> frames[i].now <= frames[j].now
  }

  predicate Between(low: real, stamp: Option<real>, high: real) {
    stamp.Some? ==> low <= stamp.value <= high
  }

  predicate Within(t: Turn, high: real) {
    && t.speechEnd <= high
    && Between(t.speechEnd, t.firstPartial, high) && Between(t.speechEnd, t.sttFinal, high)
    && Between(t.speechEnd, t.firstToken, high) && Between(t.speechEnd, t.lastToken, high)
    && Between(t.speechEnd, t.firstAudio, high) && Between(t.speechEnd, t.lastAudio, high)
  }

  lemma StampKeepsWithin(t: Turn, kind: Kind, before: real, now: real)
    requires Within(t, before) && before <= now
    ensures Within(Stamp(t, kind, now), now)
  {
  }

  /** Turn k is the k-th completed, and its stamps lie within it; those of the open turn are not in the future. */
  predicate InOrder(s: Tracker, now: real) {
    && (forall k :: 0 <= k < |s.completed| ==>
          var t := s.completed[k]; t.index == k && t.lastAudio.Some? && Within(t, t.lastAudio.value))
    && |s.completed| == s.turnIndex
    && (s.turn.Some? ==> s.turn.value.index == |s.completed| && Within(s.turn.value, now))
  }

  lemma TrackKeepsOrder(s: Tracker, before: real, kind: Kind, now: real)
    requires InOrder(s, before) && before <= now
    ensures InOrder(Track(s, kind, now), now)
  {
    if s.turn.Some? {
      StampKeepsWithin(s.turn.value, kind, before, now);
    }
  }

  lemma {:induction false} FramesKeepOrder(frames: seq<Pushed>)
    requires Monotone(frames)
    ensures InOrder(After(frames), if frames == [] then 0.0 else frames[|frames| - 1].now)
  {
    if |frames| == 1 {
      TrackKeepsOrder(FRESH, frames[0].now, frames[0].kind, frames[0].now);
      assert frames[..0] == [];
    } else if |frames| > 1 {
      var front, p := frames[..|frames| - 1], frames[|frames| - 1];
      FramesKeepOrder(front);
      TrackKeepsOrder(After(front), front[|front| - 1].now, p.kind, p.now);
    }
  }

  /** A clock that never goes back over the calls never goes back over the frames let through. */
  lemma {:induction false} ThroughIsMonotone(pushes: seq<Pushed>)
    requires Monotone(pushes)
    ensures Monotone(Through(pushes))
    ensures forall p :: p in Through(pushes) ==> p in pushes
  {
    if pushes != [] {
      var front, p := pushes[..|pushes| - 1], pushes[|pushes| - 1];
      ThroughIsMonotone(front);
      forall i | 0 <= i < |Through(front)|
        ensures Through(front)[i].now <= p.now
      {
        assert Through(front)[i] in front;
      }
    }
  }

  /**
   After any calls, turn k is the k-th completed, and all its stamps lie between the end of
   the user's speech and the end of the reply; those of the open turn are not in the future.
   */
  lemma StampsLieWithinTheTurn(pushes: seq<Pushed>)
    requires Monotone(pushes)
    ensures InOrder(AfterPushes(pushes).0, if pushes == [] then 0.0 else pushes[|pushes| - 1].now)
  {
    var frames := Through(pushes);
    OnlyNewFramesCount(pushes);
    ThroughIsMonotone(pushes);
    FramesKeepOrder(frames);
    if frames != [] {
      var last := frames[|frames| - 1];
      assert last in pushes;
    }
  }

  // -- the file ---------------------------------------------------------------------------------------

  function TurnLines(turns: seq<Turn>): (lines: seq<Line>)
    ensures |lines| == |turns|
  {
    seq(|turns|, i requires 0 <= i < |turns| => TurnLine(turns[i]))
  }

  /** The position of the first End or Cancel frame. */
  function FinishAt(frames: seq<Pushed>): (n: nat)
    ensures n <= |frames|
    ensures n < |frames| ==> frames[n].kind == Finish
    ensures forall i :: 0 <= i < n ==> frames[i].kind != Finish
  {
    if frames == [] then 0 else
      var front := frames[..|frames| - 1];
      var n := FinishAt(front);
      if n < |front| || frames[|frames| - 1].kind == Finish then n else |frames|
  }

  /** A line for each turn in order, and, once the session is finished, one summary of the first n. */
  predicate Filed(s: Tracker, summary: Option<nat>) {
    && s.events == s.completed && s.summaryWritten == summary.Some?
    && match summary
       case None => s.lines == TurnLines(s.completed)
       case Some(n) =>
         && n <= |s.completed|
         && s.lines == TurnLines(s.completed[..n]) + [SummaryLine(s.completed[..n])] + TurnLines(s.completed[n..])
  }

  /** One more turn is one more line at the end. */
  lemma LaterLines(before: seq<Turn>, after: seq<Turn>, n: nat)
    requires n <= |before| <= |after| <= |before| + 1 && after[..|before|] == before
    ensures after[..n] == before[..n]
    ensures TurnLines(after[n..]) == TurnLines(before[n..]) + TurnLines(after[|before|..])
  {
    assert forall k :: 0 <= k < |before| ==> after[k] == before[k];
  }

  lemma TrackKeepsFile(s: Tracker, kind: Kind, now: real, summary: Option<nat>)
    requires Filed(s, summary)
    ensures Filed(Track(s, kind, now), if summary.None? && kind == Finish then Some(|s.completed|) else summary)
  {
    var after := Track(s, kind, now).completed;
    LaterLines(s.completed, after, if summary.Some? then summary.value else 0);
    assert s.completed[..|s.completed|] == s.completed && TurnLines(s.completed[|s.completed|..]) == [];
    assert s.completed[0..] == s.completed && after[0..] == after;
  }

  /** The summary is written once, and is of the turns completed before the first End or Cancel. */
  lemma {:induction false} FileIs(frames: seq<Pushed>)
    ensures var at := FinishAt(frames);
            Filed(After(frames), if at == |frames| then None else Some(TurnsClosed(frames[..at])))
  {
    if frames != [] {
      var front, p := frames[..|frames| - 1], frames[|frames| - 1];
      var at := FinishAt(front);
      FileIs(front);
      OpenTurnIs(front);
      TrackKeepsFile(After(front), p.kind, p.now, if at == |front| then None else Some(TurnsClosed(front[..at])));
      assert frames[..at] == front[..at] && front[..|front|] == front;
    }
  }

  // -- latencies -----------------------------------------------------------------------------------------

  function Millis(end: Option<real>, start: Option<real>): Option<real> {
    if end.Some? && start.Some? then Some((end.value - start.value) * 1000.0) else None
  }

  /** round(x, 1) for exact x; a tie may go either way. */
  predicate IsRounded(x: real, r: real) {
    -0.05 <= r - x <= 0.05 && (r * 10.0).Floor as real == r * 10.0
  }

  /**
   With all stamps there, the three parts add up to the voice-to-voice latency, and what is
   written for them, rounded to a tenth, differs from what is written for the whole by at
   most 0.2 ms.  The whole and the first part are never negative.
   */
  lemma PartsAddUp(pushes: seq<Pushed>, k: nat, stt: real, ttft: real, ttfa: real, v2v: real)
    requires Monotone(pushes) && k < |AfterPushes(pushes).0.completed|
    requires var t := AfterPushes(pushes).0.completed[k];
             && t.sttFinal.Some? && t.firstToken.Some? && t.firstAudio.Some?
             && IsRounded(Millis(t.sttFinal, Some(t.speechEnd)).value, stt)
             && IsRounded(Millis(t.firstToken, t.sttFinal).value, ttft)
             && IsRounded(Millis(t.firstAudio, t.firstToken).value, ttfa)
             && IsRounded(Millis(t.firstAudio, Some(t.speechEnd)).value, v2v)
    ensures var t := AfterPushes(pushes).0.completed[k];
            && Millis(t.sttFinal, Some(t.speechEnd)).value + Millis(t.firstToken, t.sttFinal).value
                 + Millis(t.firstAudio, t.firstToken).value == Millis(t.firstAudio, Some(t.speechEnd)).value
            && Millis(t.firstAudio, Some(t.speechEnd)) == Some(1000.0 * (t.firstAudio.value - t.speechEnd))
            && -0.2 <= stt + ttft + ttfa - v2v <= 0.2
            && Millis(t.sttFinal, Some(t.speechEnd)).value >= 0.0
            && Millis(t.firstAudio, Some(t.speechEnd)).value >= 0.0
  {
    StampsLieWithinTheTurn(pushes);
  }

  // -- what gets through -------------------------------------------------------------------------------------

  /** Each downstream frame at its first crossing. */
  function FirstCrossings(pushes: seq<Pushed>): seq<Pushed> {
    if pushes == [] then [] else
      var front, p := pushes[..|pushes| - 1], pushes[|pushes| - 1];
      FirstCrossings(front) + if p.downstream && p.id !in Ids(front) then [p] else []
  }

  /** Every frame is counted, and counted once exactly if all its crossings come in time. */
  lemma {:induction false} CountedOnceIff(pushes: seq<Pushed>)
    ensures |Through(pushes)| >= |FirstCrossings(pushes)|
    ensures |Through(pushes)| == |FirstCrossings(pushes)| <==> RepeatsInTime(Ids(pushes))
    ensures RepeatsInTime(Ids(pushes)) ==> Through(pushes) == FirstCrossings(pushes)
  {
    if pushes != [] {
      var front, p := pushes[..|pushes| - 1], pushes[|pushes| - 1];
      CountedOnceIff(front);
      if p.downstream {
        NextInTimeIff(Ids(front), p.id);
        InTimeAppend(Ids(front), p.id);
      } else {
        assert Ids(pushes) == Ids(front);
      }
    }
  }
}
