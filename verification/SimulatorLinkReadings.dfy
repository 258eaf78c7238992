/**
 What a reading of a session says about the run, and what is done on it: a link that went
 quiet is dropped and rebuilt, no order is staged on it, and no state is reported from it.
 */
module SimulatorLinkReadings {
  import opened Prelude
  import opened SimulatorLink
  import opened SimulatorLinkInvariant
  import opened SimulatorLinkSteps
  import opened SimulatorLinkSafety

  // -- a reading is a log of the frames -------------------------------------------------------

  const NOTHING_YET: Snapshot := Snapshot(false, 0, None)

  /** What one step adds to the log of session s: only time and its own frames count. */
  function Logged(log: Snapshot, e: Step, s: Id): Snapshot {
    match e
    case Time(dt) => log.(age := if log.age.Some? then Some(log.age.value + dt) else None)
    case FrameArrives(r, scenario) =>
      if r == s then Snapshot(log.initialized || scenario, log.frames + 1, Some(0.0)) else log
    case _ => log
  }

  /** Whether a frame brought the scenario, how many frames came, and the time since the last one. */
  function Log(log: Snapshot, steps: seq<Step>, s: Id): Snapshot
    decreases |steps|
  {
    if steps == [] then log else Log(Logged(log, steps[0], s), steps[1..], s)
  }

  function ReadingOf(st: State, s: Id): Snapshot {
    if s < |st.sessions| then st.sessions[s].Read(st.now) else NOTHING_YET
  }

  lemma SupervisorLeavesReadings(c: Config, st: State, i: Id, move: SupervisorMove, s: Id)
    requires SupervisorEnabled(st, i, move)
    ensures ReadingOf(SupervisorNext(c, st, i, move), s) == ReadingOf(st, s)
  {
  }

  lemma CommandLeavesReadings(c: Config, st: State, k: Id, move: CommandMove, s: Id)
    requires CommandEnabled(st, k, move)
    ensures ReadingOf(CommandNext(c, st, k, move), s) == ReadingOf(st, s)
  {
  }

  lemma DisconnectLeavesReadings(st: State, d: Id, move: DisconnectMove, s: Id)
    requires DisconnectEnabled(st, d, move)
    ensures ReadingOf(DisconnectNext(st, d, move), s) == ReadingOf(st, s)
  {
  }

  lemma QueryLeavesReadings(c: Config, st: State, q: Id, move: QueryMove, s: Id)
    requires QueryEnabled(st, q, move)
    ensures ReadingOf(QueryNext(c, st, q, move), s) == ReadingOf(st, s)
  {
    QueryLeavesSessions(c, st, q, move);
  }

  lemma StepIsLogged(c: Config, st: State, e: Step, s: Id)
    requires Enabled(st, e)
    ensures ReadingOf(Next(c, st, e), s) == Logged(ReadingOf(st, s), e, s)
  {
    match e
    case SupervisorStep(i, move) => SupervisorLeavesReadings(c, st, i, move, s);
    case CommandStep(k, move) => CommandLeavesReadings(c, st, k, move, s);
    case QueryStep(q, move) => QueryLeavesReadings(c, st, q, move, s);
    case DisconnectStep(d, move) => DisconnectLeavesReadings(st, d, move, s);
    case _ =>
  }

  lemma {:induction false} RunIsLogged(c: Config, from: State, steps: seq<Step>, st: State, s: Id)
    requires Exec(c, from, steps) == Some(st)
    ensures ReadingOf(st, s) == Log(ReadingOf(from, s), steps, s)
    decreases |steps|
  {
    if steps != [] {
      StepIsLogged(c, from, steps[0], s);
      RunIsLogged(c, Next(c, from, steps[0]), steps[1..], st, s);
    }
  }

  /** Whoever reads a session gets what the run so far says of it: the supervisor, a command twice, and a query. */
  lemma ReadingsAreTheLog(c: Config, steps: seq<Step>, st: State, id: Id)
    requires Reaches(c, steps, st)
    ensures CanSupervisorSnap(st, id) ==>
              SupervisorSnap(st, id).supervisors[id].pc == Snapped(Log(NOTHING_YET, steps, st.wrapper.value))
    ensures CanCommandReadBefore(st, id) ==>
              CommandReadBefore(st, id).commands[id].before == Log(NOTHING_YET, steps, st.commands[id].session)
    ensures CanCommandPoll(st, id) ==>
              CommandPoll(st, id).commands[id].pc == Polled(Log(NOTHING_YET, steps, st.commands[id].session))
    ensures CanQueryRead(st, id) ==>
              var s := st.queries[id].session;
              QueryRead(st, id).queries[id] == QueryHasRead(s, Log(NOTHING_YET, steps, s))
  {
    if CanSupervisorSnap(st, id) {
      RunIsLogged(c, INIT, steps, st, st.wrapper.value);
    }
    if CommandAtWork(st, id) {
      RunIsLogged(c, INIT, steps, st, st.commands[id].session);
    }
    if CanQueryRead(st, id) {
      RunIsLogged(c, INIT, steps, st, st.queries[id].session);
    }
  }

  // -- the supervisor ---------------------------------------------------------------------------

  /** The supervisor has read its session, and nobody has cancelled it. */
  predicate HasReading(st: State, i: Id) {
    i < |st.supervisors| && st.supervisors[i].pc.Snapped? && !st.supervisors[i].cancelled
  }

  /** A connected link that shows no frame, or none recent enough, is declared stale and its session stopped. */
  lemma QuietLinkIsDropped(c: Config, steps: seq<Step>, st: State, i: Id)
    requires Reaches(c, steps, st) && HasReading(st, i) && st.link.Connected?
    requires var seen := st.supervisors[i].pc.seen;
             !seen.initialized || seen.age.None? || seen.age.value > c.staleAfter
    ensures st.wrapper.Some?
    ensures var dropped := Exec(c, st, [SupervisorStep(i, Judges), SupervisorStep(i, DropsStale)]);
            && dropped.Some? && dropped.value.link.Stale? && dropped.value.heard == st.heard + [Stale]
            && dropped.value.wrapper.None? && dropped.value.lock.Free?
            && dropped.value.supervisors == st.supervisors[i := st.supervisors[i].(pc := Napping)]
            && st.wrapper.value < |dropped.value.sessions| && !dropped.value.sessions[st.wrapper.value].live
  {
    ReachedIsInvariant(c, steps, st);
    Exec2(c, st, SupervisorStep(i, Judges), SupervisorStep(i, DropsStale));
  }

  /** With a recent frame and the scenario loaded the link is connected, and the backoff and the kick are forgotten. */
  lemma FreshLinkIsConnected(c: Config, steps: seq<Step>, st: State, i: Id)
    requires Reaches(c, steps, st) && HasReading(st, i)
    requires var seen := st.supervisors[i].pc.seen;
             seen.initialized && seen.age.Some? && seen.age.value <= c.staleAfter
    ensures Enabled(st, SupervisorStep(i, Judges))
    ensures var next := Next(c, st, SupervisorStep(i, Judges));
            && next.link.Connected? && next.wrapper == st.wrapper && next.wrapper.Some? && next.sessions == st.sessions
            && next.heard == (if st.link.Connected? then st.heard else st.heard + [Connected])
            && next.lock.Free? && !next.retryNow
            && next.supervisors[i] == Supervisor(Napping, false, c.reconnectInitial, 0)
  {
    ReachedIsInvariant(c, steps, st);
  }

  /** A link that is not connected yet keeps its session while it is quiet. */
  lemma NewLinkMayBeQuiet(c: Config, steps: seq<Step>, st: State, i: Id)
    requires Reaches(c, steps, st) && HasReading(st, i) && !st.link.Connected?
    requires var seen := st.supervisors[i].pc.seen;
             !seen.initialized || seen.age.None? || seen.age.value > c.staleAfter
    ensures Enabled(st, SupervisorStep(i, Judges))
    ensures var next := Next(c, st, SupervisorStep(i, Judges));
            && next.link == st.link == Connecting && next.heard == st.heard
            && next.wrapper == st.wrapper && next.wrapper.Some? && next.sessions == st.sessions
            && next.lock.Free? && next.retryNow == st.retryNow
            && next.supervisors[i] == st.supervisors[i].(pc := Napping)
  {
    ReachedIsInvariant(c, steps, st);
  }

  // -- orders and queries -------------------------------------------------------------------------

  /** An order is staged, or about to be, only on a reading with a recent frame. */
  predicate OnFresh(c: Config, cmd: Command) {
    cmd.staged || cmd.pc.Staging? ==> cmd.before.age.Some? && cmd.before.age.value <= c.staleAfter
  }

  ghost predicate OrdersOnFresh(c: Config, commands: seq<Command>) {
    forall k :: 0 <= k < |commands| ==> OnFresh(c, commands[k])
  }

  /** A state is reported only from a reading of a loaded scenario with a recent frame. */
  ghost predicate ReportsOnFresh(c: Config, queries: seq<Query>) {
    forall q :: 0 <= q < |queries| && queries[q].Reported? ==>
      var shown := queries[q].shown;
      shown.initialized && shown.age.Some? && shown.age.value <= c.staleAfter
  }

  lemma CommandStaysFresh(c: Config, st: State, k: Id, move: CommandMove)
    requires k < |st.commands| && StagedRight(st.commands[k]) && CommandEnabled(st, k, move)
    requires OnFresh(c, st.commands[k])
    ensures k < |CommandNext(c, st, k, move).commands| && OnFresh(c, CommandNext(c, st, k, move).commands[k])
  {
  }

  lemma CommandLeavesCallers(c: Config, st: State, k: Id, move: CommandMove)
    requires k < |st.commands| && CommandEnabled(st, k, move)
    ensures k < |CommandNext(c, st, k, move).commands|
    ensures CommandNext(c, st, k, move).commands == st.commands[k := CommandNext(c, st, k, move).commands[k]]
    ensures CommandNext(c, st, k, move).queries == st.queries
  {
  }

  lemma CommandKeepsFresh(c: Config, st: State, k: Id, move: CommandMove)
    requires OrdersSound(c, st) && CommandEnabled(st, k, move)
    requires OrdersOnFresh(c, st.commands)
    ensures OrdersOnFresh(c, CommandNext(c, st, k, move).commands)
    ensures CommandNext(c, st, k, move).queries == st.queries
  {
    CommandStaysFresh(c, st, k, move);
    CommandLeavesCallers(c, st, k, move);
  }

  lemma QueryKeepsFresh(c: Config, st: State, q: Id, move: QueryMove)
    requires QueryEnabled(st, q, move) && ReportsOnFresh(c, st.queries)
    ensures ReportsOnFresh(c, QueryNext(c, st, q, move).queries)
    ensures QueryNext(c, st, q, move).commands == st.commands
  {
  }

  lemma FrameKeepsFresh(c: Config, st: State, s: Id, scenario: bool)
    requires CanReceive(st, s) && OrdersOnFresh(c, st.commands)
    ensures OrdersOnFresh(c, Frame(st, s, scenario).commands) && Frame(st, s, scenario).queries == st.queries
  {
  }

  lemma SupervisorLeavesCallers(c: Config, st: State, i: Id, move: SupervisorMove)
    requires SupervisorEnabled(st, i, move)
    ensures SupervisorNext(c, st, i, move).commands == st.commands
    ensures SupervisorNext(c, st, i, move).queries == st.queries
  {
  }

  lemma StepKeepsFresh(c: Config, st: State, e: Step)
    requires OrdersSound(c, st) && Enabled(st, e)
    requires OrdersOnFresh(c, st.commands) && ReportsOnFresh(c, st.queries)
    ensures OrdersOnFresh(c, Next(c, st, e).commands) && ReportsOnFresh(c, Next(c, st, e).queries)
  {
    match e
    case FrameArrives(s, scenario) => FrameKeepsFresh(c, st, s, scenario);
    case SupervisorStep(i, move) => SupervisorLeavesCallers(c, st, i, move);
    case CommandStep(k, move) => CommandKeepsFresh(c, st, k, move);
    case QueryStep(q, move) => QueryKeepsFresh(c, st, q, move);
    case _ =>
  }

  lemma {:induction false} RunKeepsFresh(c: Config, from: State, steps: seq<Step>, st: State)
    requires ValidConfig(c) && Invariant(c, from) && Exec(c, from, steps) == Some(st)
    requires OrdersOnFresh(c, from.commands) && ReportsOnFresh(c, from.queries)
    ensures OrdersOnFresh(c, st.commands) && ReportsOnFresh(c, st.queries)
    decreases |steps|
  {
    if steps != [] {
      StepKeeps(c, from, steps[0]);
      StepKeepsFresh(c, from, steps[0]);
      RunKeepsFresh(c, Next(c, from, steps[0]), steps[1..], st);
    }
  }

  /** In every run an order is staged, and a state reported, only on a reading whose last frame is recent. */
  lemma NothingOnAQuietLink(c: Config, steps: seq<Step>, st: State)
    requires Reaches(c, steps, st)
    ensures forall k :: 0 <= k < |st.commands| && st.commands[k].staged ==>
              st.commands[k].before.age.Some? && st.commands[k].before.age.value <= c.staleAfter
    ensures forall q :: 0 <= q < |st.queries| && st.queries[q].Reported? ==>
              var shown := st.queries[q].shown;
              shown.initialized && shown.age.Some? && shown.age.value <= c.staleAfter
  {
    InitIsInvariant(c);
    RunKeepsFresh(c, INIT, steps, st);
    assert forall k :: 0 <= k < |st.commands| ==> OnFresh(c, st.commands[k]);
  }

  /**
   And no more is refused than that: with the lock free a call is let in exactly if the link
   is connected, and goes on exactly if its reading is recent.
   */
  lemma RefusedIffNoFreshLink(c: Config, steps: seq<Step>, st: State, id: Id)
    requires Reaches(c, steps, st)
    ensures CanCommandTake(st, id) ==>
              var next := CommandTake(st, id);
              && (st.link.Connected? ==> next.commands[id].pc.ReadingBefore? && next.lock == ByCommand(id)
                                         && st.wrapper == Some(next.commands[id].session))
              && (!st.link.Connected? ==> next.commands[id].pc.Refused? && next.lock.Free?)
    ensures CanCommandJudge(st, id) ==>
              var next, age := CommandJudge(c, st, id), st.commands[id].before.age;
              if age.Some? && age.value <= c.staleAfter then
                next.commands[id].pc.Staging? && next.lock == st.lock
              else
                next.commands[id].pc.Refused? && next.lock.Free? && next.sessions == st.sessions
    ensures CanQueryTake(st, id) ==>
              var next := QueryTake(st, id);
              && (st.link.Connected? ==> next.queries[id].QueryReading? && next.lock == ByQuery(id)
                                         && st.wrapper == Some(next.queries[id].session))
              && (!st.link.Connected? ==> next.queries[id].QueryFailed? && next.lock.Free?)
    ensures CanQueryEnd(st, id) ==>
              var next, q := QueryEnd(c, st, id), st.queries[id];
              && next.lock.Free?
              && next.queries[id] == if q.seen.initialized && q.seen.age.Some? && q.seen.age.value <= c.staleAfter
                                     then Reported(q.session, q.seen) else QueryFailed
  {
    ReachedIsInvariant(c, steps, st);
  }
}
