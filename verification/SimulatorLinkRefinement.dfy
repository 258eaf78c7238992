/**
 The steps of the simulator link that one command takes while it has the lock, in the form
 in which the client's own method goes through them.
 */
module SimulatorLinkRefinement {
  import opened Prelude
  import opened SimulatorLink
  import opened SimulatorLinkInvariant
  import opened SimulatorLinkSteps
  import opened SimulatorLinkSafety

  /** What happens during one await: time passes and frames arrive. */
  datatype Interval = Interval(dt: real, frames: nat)

  function Arrived(e: Session, i: Interval, now: real): Session {
    if i.frames == 0 then e else e.(frames := e.frames + i.frames, lastFrame := Some(now))
  }

  /** What the client itself can see: its connection state, the listener's record, the clock and its session. */
  datatype View = View(link: LinkState, heard: seq<LinkState>, now: real, session: Session)

  /** Command k has the lock and works on session s, and the client sees v. */
  predicate Shows(st: State, k: Id, s: Id, v: View) {
    && k < |st.commands| && s < |st.sessions| && st.lock == ByCommand(k) && st.wrapper == Some(s)
    && st.commands[k].session == s && v.session.live
    && v == View(st.link, st.heard, st.now, st.sessions[s])
  }

  /** The command is as it was, but for what was delivered meanwhile. */
  predicate SameCommand(a: Command, b: Command) {
    b == a.(delivered := b.delivered)
  }

  /** There is a run from one state to the other. */
  ghost predicate Leads(c: Config, from: State, to: State) {
    exists steps :: Exec(c, from, steps) == Some(to)
  }

  lemma Stays(c: Config, st: State)
    ensures Leads(c, st, st)
  {
    assert Exec(c, st, []) == Some(st);
  }

  lemma Onwards(c: Config, from: State, st: State, more: seq<Step>, to: State)
    requires Leads(c, from, st) && Exec(c, st, more) == Some(to)
    ensures Leads(c, from, to)
  {
    var steps :| Exec(c, from, steps) == Some(st);
    ExecAppend(c, from, steps, more);
  }

  lemma OneMove(c: Config, from: State, st: State, k: Id, move: CommandMove)
    requires Leads(c, from, st) && CommandEnabled(st, k, move)
    ensures Leads(c, from, CommandNext(c, st, k, move))
  {
    Exec1(c, st, CommandStep(k, move));
    Onwards(c, from, st, [CommandStep(k, move)], CommandNext(c, st, k, move));
  }

  /** What is proved of all reached states holds where the client leads to. */
  lemma ReachedByTheClient(c: Config, before: seq<Step>, from: State, later: State)
    requires Reaches(c, before, from) && Leads(c, from, later)
    ensures exists steps :: Reaches(c, steps, later)
    ensures Invariant(c, later)
  {
    var more :| Exec(c, from, more) == Some(later);
    ExecAppend(c, INIT, before, more);
    assert Reaches(c, before + more, later);
    ReachedIsInvariant(c, before + more, later);
  }

  // -- an await ---------------------------------------------------------------------------------

  lemma OneFrame(c: Config, st: State, k: Id, s: Id, v: View)
    requires Shows(st, k, s, v)
    ensures Enabled(st, FrameArrives(s, false))
    ensures var next := Next(c, st, FrameArrives(s, false));
            && Shows(next, k, s, v.(session := Arrived(v.session, Interval(0.0, 1), v.now)))
            && SameCommand(st.commands[k], next.commands[k])
  {
  }

  lemma {:induction false} SomeFrames(c: Config, st: State, k: Id, s: Id, v: View, n: nat)
    returns (steps: seq<Step>, next: State)
    requires Shows(st, k, s, v)
    ensures Exec(c, st, steps) == Some(next)
    ensures Shows(next, k, s, v.(session := Arrived(v.session, Interval(0.0, n), v.now)))
    ensures SameCommand(st.commands[k], next.commands[k])
    decreases n
  {
    if n == 0 {
      steps, next := [], st;
    } else {
      OneFrame(c, st, k, s, v);
      var one := Next(c, st, FrameArrives(s, false));
      var v' := v.(session := Arrived(v.session, Interval(0.0, 1), v.now));
      var rest: seq<Step>;
      rest, next := SomeFrames(c, one, k, s, v', n - 1);
      steps := [FrameArrives(s, false)] + rest;
      assert steps[1..] == rest;
    }
  }

  lemma SomeTime(c: Config, st: State, k: Id, s: Id, v: View, dt: real) returns (steps: seq<Step>, next: State)
    requires Shows(st, k, s, v) && dt >= 0.0
    ensures Exec(c, st, steps) == Some(next)
    ensures Shows(next, k, s, v.(now := v.now + dt)) && next.commands == st.commands
  {
    if dt == 0.0 {
      steps, next := [], st;
    } else {
      steps, next := [Time(dt)], Tick(st, dt);
      Exec1(c, st, Time(dt));
    }
  }

  function Awaited(v: View, i: Interval): View {
    v.(now := v.now + i.dt, session := Arrived(v.session, i, v.now + i.dt))
  }

  /** An await of the client is some time and then some frames. */
  lemma AwaitLeads(c: Config, from: State, st: State, k: Id, s: Id, v: View, i: Interval) returns (next: State)
    requires Leads(c, from, st) && Shows(st, k, s, v) && i.dt >= 0.0
    ensures Leads(c, from, next)
    ensures Shows(next, k, s, Awaited(v, i)) && SameCommand(st.commands[k], next.commands[k])
  {
    var first, later := SomeTime(c, st, k, s, v, i.dt);
    var second: seq<Step>;
    second, next := SomeFrames(c, later, k, s, v.(now := v.now + i.dt), i.frames);
    ExecAppend(c, st, first, second);
    Onwards(c, from, st, first + second, next);
  }

  // -- the moves of the command -------------------------------------------------------------------

  /** The command is through: it is at `pc`, the lock is free, and the client is left like this. */
  predicate Through(st: State, k: Id, pc: CommandPc, link: LinkState, heard: seq<LinkState>, wrapper: Option<Id>) {
    && k < |st.commands| && st.commands[k].pc == pc
    && st.lock.Free? && st.link == link && st.heard == heard && st.wrapper == wrapper
  }

  /** Command k is about to take the lock, and the client sees this. */
  predicate Ready(st: State, k: Id, link: LinkState, heard: seq<LinkState>, now: real, session: Option<Session>) {
    && k < |st.commands| && st.commands[k].pc.Waiting? && !st.commands[k].staged && st.commands[k].polls == 0
    && st.lock.Free? && st.link == link && st.heard == heard && st.now == now
    && (st.wrapper.Some? <==> session.Some?)
    && (st.wrapper.Some? ==> st.wrapper.value < |st.sessions| && st.sessions[st.wrapper.value] == session.value)
  }

  lemma RefusedAtOnce(c: Config, from: State, st: State, k: Id, link: LinkState, heard: seq<LinkState>, now: real, session: Option<Session>)
    returns (next: State)
    requires Leads(c, from, st) && Ready(st, k, link, heard, now, session) && (!link.Connected? || session.None?)
    ensures Leads(c, from, next)
    ensures Through(next, k, Refused, link, heard, st.wrapper)
  {
    OneMove(c, from, st, k, Begins);
    next := CommandNext(c, st, k, Begins);
  }

  lemma Accepted(c: Config, from: State, st: State, k: Id, v: View)
    returns (next: State)
    requires Leads(c, from, st) && Ready(st, k, v.link, v.heard, v.now, Some(v.session)) && v.link.Connected? && v.session.live
    ensures Leads(c, from, next)
    ensures Shows(next, k, st.wrapper.value, v)
    ensures next.commands[k] == st.commands[k].(pc := ReadingBefore, session := st.wrapper.value)
  {
    OneMove(c, from, st, k, Begins);
    next := CommandNext(c, st, k, Begins);
  }

  lemma BeforeIsRead(c: Config, from: State, st: State, k: Id, s: Id, v: View)
    returns (next: State)
    requires Leads(c, from, st) && Shows(st, k, s, v) && st.commands[k].pc.ReadingBefore?
    ensures Leads(c, from, next)
    ensures Shows(next, k, s, v)
    ensures next.commands[k] == st.commands[k].(pc := Judging, before := v.session.Read(v.now))
  {
    OneMove(c, from, st, k, ReadsBefore);
    next := CommandNext(c, st, k, ReadsBefore);
  }

  lemma BeforeIsJudged(c: Config, from: State, st: State, k: Id, s: Id, v: View)
    returns (next: State)
    requires Leads(c, from, st) && Shows(st, k, s, v) && st.commands[k].pc.Judging?
    ensures Leads(c, from, next)
    ensures if st.commands[k].before.Old(c) then
              Through(next, k, Refused, v.link, v.heard, Some(s))
              && s < |next.sessions| && next.sessions[s] == v.session
            else
              Shows(next, k, s, v) && next.commands[k] == st.commands[k].(pc := Staging)
  {
    OneMove(c, from, st, k, JudgesBefore);
    next := CommandNext(c, st, k, JudgesBefore);
  }

  lemma OrderIsStaged(c: Config, from: State, st: State, k: Id, s: Id, v: View)
    returns (next: State)
    requires Leads(c, from, st) && Shows(st, k, s, v) && st.commands[k].pc.Staging?
    ensures Leads(c, from, next)
    ensures Shows(next, k, s, v.(session := v.session.Hold(st.commands[k].order, k)))
    ensures next.commands[k] == st.commands[k].(pc := Staged, staged := true, mark := v.session.frames)
  {
    OneMove(c, from, st, k, Stages);
    next := CommandNext(c, st, k, Stages);
  }

  lemma BudgetBegins(c: Config, from: State, st: State, k: Id, s: Id, v: View)
    returns (next: State)
    requires Leads(c, from, st) && Shows(st, k, s, v) && st.commands[k].pc.Staged?
    ensures Leads(c, from, next)
    ensures Shows(next, k, s, v) && next.commands[k] == st.commands[k].(pc := Polling, start := v.now)
  {
    OneMove(c, from, st, k, Arms);
    next := CommandNext(c, st, k, Arms);
  }

  lemma SessionIsPolled(c: Config, from: State, st: State, k: Id, s: Id, v: View)
    returns (next: State)
    requires Leads(c, from, st) && Shows(st, k, s, v) && st.commands[k].pc.Polling?
    ensures Leads(c, from, next)
    ensures Shows(next, k, s, v) && next.commands[k] == st.commands[k].(pc := Polled(v.session.Read(v.now)))
  {
    OneMove(c, from, st, k, Polls);
    next := CommandNext(c, st, k, Polls);
  }

  /** The three ways in which a poll is decided. */
  lemma PollIsDecided(c: Config, from: State, st: State, k: Id, s: Id, v: View)
    returns (next: State)
    requires Leads(c, from, st) && Shows(st, k, s, v) && st.commands[k].pc.Polled? && v.link.Connected?
    ensures Leads(c, from, next)
    ensures var cmd := st.commands[k];
            if cmd.pc.seen.frames >= cmd.before.frames + DELIVERY_FRAMES then
              && Through(next, k, Acked(cmd.pc.seen), v.link, v.heard, Some(s))
              && s < |next.sessions| && next.sessions[s] == v.session
            else if v.now >= cmd.start + c.staleAfter then
              && Shows(next, k, s, v.(link := Stale, heard := v.heard + [Stale]))
              && next.commands[k] == cmd.(pc := GivingUp)
            else
              && Shows(next, k, s, v)
              && next.commands[k] == cmd.(pc := Sleeping(v.now + POLL_SECONDS), polls := cmd.polls + 1)
  {
    OneMove(c, from, st, k, Decides);
    next := CommandNext(c, st, k, Decides);
  }

  lemma SleepEnds(c: Config, from: State, st: State, k: Id, s: Id, v: View)
    returns (next: State)
    requires Leads(c, from, st) && Shows(st, k, s, v) && st.commands[k].pc.Sleeping? && st.commands[k].pc.until <= v.now
    ensures Leads(c, from, next)
    ensures Shows(next, k, s, v) && next.commands[k] == st.commands[k].(pc := Polling)
  {
    OneMove(c, from, st, k, PollsAgain);
    next := CommandNext(c, st, k, PollsAgain);
  }

  lemma SessionIsDropped(c: Config, from: State, st: State, k: Id, s: Id, v: View)
    returns (next: State)
    requires Leads(c, from, st) && Shows(st, k, s, v) && st.commands[k].pc.GivingUp?
    ensures Leads(c, from, next)
    ensures Through(next, k, TimedOut, v.link, v.heard, None)
    ensures s < |next.sessions| && next.sessions[s] == v.session.(live := false)
  {
    OneMove(c, from, st, k, GivesUp);
    next := CommandNext(c, st, k, GivesUp);
  }
}
