/**
 What the simulator link promises over whole runs: one supervisor, no orphan session,
 a state that matches the session, and a paced reconnect.
 */
module SimulatorLinkSafety {
  import opened Prelude
  import opened SimulatorLink
  import opened SimulatorLinkInvariant
  import opened SimulatorLinkSteps

  /** `steps` is a run of the client from its construction to `st`. */
  ghost predicate Reaches(c: Config, steps: seq<Step>, st: State) {
    ValidConfig(c) && Exec(c, INIT, steps) == Some(st)
  }

  lemma ReachedIsInvariant(c: Config, steps: seq<Step>, st: State)
    requires Reaches(c, steps, st)
    ensures Invariant(c, st)
  {
    InitIsInvariant(c);
    RunKeeps(c, INIT, steps);
  }

  // -- what a task leaves alone -----------------------------------------------------------

  /** Commands and queries touch neither the supervisors nor the builds nor the disconnects. */
  predicate TasksUntouched(st: State, next: State) {
    && next.supervisor == st.supervisor && next.supervisors == st.supervisors
    && next.pendingBuild == st.pendingBuild && next.builds == st.builds && next.lost == st.lost
    && next.disconnects == st.disconnects
  }

  lemma CommandLeavesTasks(c: Config, st: State, k: Id, move: CommandMove)
    requires CommandEnabled(st, k, move)
    ensures TasksUntouched(st, CommandNext(c, st, k, move))
  {
  }

  lemma QueryLeavesTasks(c: Config, st: State, q: Id, move: QueryMove)
    requires QueryEnabled(st, q, move)
    ensures TasksUntouched(st, QueryNext(c, st, q, move))
  {
  }

  // -- one supervisor, no orphan session ------------------------------------------------

  lemma AtMostOneSupervisor(c: Config, steps: seq<Step>, st: State, i: Id, j: Id)
    requires Reaches(c, steps, st)
    requires i < |st.supervisors| && st.supervisors[i].Alive()
    requires j < |st.supervisors| && st.supervisors[j].Alive()
    ensures i == j
  {
    ReachedIsInvariant(c, steps, st);
  }

  predicate CancelsOutside(e: Step) {
    e.SupervisorStep? && e.supervisorMove.CancelledOutside?
  }

  /** With no cancellation but disconnect()'s own, a build is pending only while the supervisor awaits it under the lock. */
  ghost predicate Tidy(st: State) {
    && st.lost == {}
    && !Reaping(DisconnectPc(st.lock, st.disconnects))
    && (st.pendingBuild.Some? ==>
          && st.lock.BySupervisor? && st.lock.i < |st.supervisors|
          && st.supervisors[st.lock.i].pc == Building(st.pendingBuild.value))
  }

  lemma SupervisorKeepsTidy(c: Config, st: State, i: Id, move: SupervisorMove)
    requires TasksSound(c, st) && Tidy(st)
    requires SupervisorEnabled(st, i, move) && !move.CancelledOutside?
    ensures Tidy(SupervisorNext(c, st, i, move))
  {
  }

  lemma CommandKeepsTidy(c: Config, st: State, k: Id, move: CommandMove)
    requires TasksSound(c, st) && Tidy(st) && CommandEnabled(st, k, move)
    ensures Tidy(CommandNext(c, st, k, move))
  {
    CommandLeavesTasks(c, st, k, move);
  }

  lemma QueryKeepsTidy(c: Config, st: State, q: Id, move: QueryMove)
    requires TasksSound(c, st) && Tidy(st) && QueryEnabled(st, q, move)
    ensures Tidy(QueryNext(c, st, q, move))
  {
    QueryLeavesTasks(c, st, q, move);
  }

  lemma DisconnectKeepsTidy(c: Config, st: State, d: Id, move: DisconnectMove)
    requires TasksSound(c, st) && Tidy(st) && DisconnectEnabled(st, d, move)
    ensures Tidy(DisconnectNext(st, d, move))
  {
  }

  lemma StepKeepsTidy(c: Config, st: State, e: Step)
    requires TasksSound(c, st) && Tidy(st) && Enabled(st, e) && !CancelsOutside(e)
    ensures Tidy(Next(c, st, e))
  {
    match e
    case SupervisorStep(i, move) => SupervisorKeepsTidy(c, st, i, move);
    case CommandStep(k, move) => CommandKeepsTidy(c, st, k, move);
    case QueryStep(q, move) => QueryKeepsTidy(c, st, q, move);
    case DisconnectStep(d, move) => DisconnectKeepsTidy(c, st, d, move);
    case _ =>
  }

  predicate NoOutsideCancel(steps: seq<Step>) {
    forall n :: 0 <= n < |steps| ==> !CancelsOutside(steps[n])
  }

  lemma {:induction false} RunKeepsTidy(c: Config, from: State, steps: seq<Step>)
    requires ValidConfig(c) && Invariant(c, from) && Tidy(from)
    requires NoOutsideCancel(steps) && Exec(c, from, steps).Some?
    ensures Tidy(Exec(c, from, steps).value)
    decreases |steps|
  {
    if steps != [] {
      StepKeeps(c, from, steps[0]);
      StepKeepsTidy(c, from, steps[0]);
      RunKeepsTidy(c, Next(c, from, steps[0]), steps[1..]);
    }
  }

  /** Whenever the lock is free, the sessions that are started and not stopped are exactly `_wrapper`. */
  lemma NoOrphanSession(c: Config, steps: seq<Step>, st: State)
    requires Reaches(c, steps, st) && NoOutsideCancel(steps) && st.lock.Free?
    ensures forall s :: 0 <= s < |st.sessions| ==> (st.sessions[s].live <==> st.wrapper == Some(s))
    ensures st.wrapper.Some? ==> st.wrapper.value < |st.sessions|
    ensures st.pendingBuild.None?
  {
    ReachedIsInvariant(c, steps, st);
    RunKeepsTidy(c, INIT, steps);
  }

  /**
   disconnect() needs the lock that a build is made under, so it never cancels a
   supervisor out of a build: the reaping that its docstring describes is only ever
   needed for a cancellation from elsewhere.
   */
  lemma DisconnectNeverInterruptsABuild(c: Config, steps: seq<Step>, st: State, d: Id)
    requires Reaches(c, steps, st) && NoOutsideCancel(steps)
    requires d < |st.disconnects|
    ensures !st.disconnects[d].AwaitBuild? && !st.disconnects[d].StoppingOrphan?
  {
    ReachedIsInvariant(c, steps, st);
    RunKeepsTidy(c, INIT, steps);
  }

  // -- a cancellation from outside, at the build -------------------------------------------

  /** A build starts although another one is still recorded as pending. */
  predicate Overwrites(st: State, e: Step) {
    e.SupervisorStep? && e.supervisorMove.Takes? && st.wrapper.None? && st.pendingBuild.Some?
  }

  ghost predicate NeverOverwrites(c: Config, from: State, steps: seq<Step>)
    decreases |steps|
  {
    steps != [] && Enabled(from, steps[0]) ==>
      !Overwrites(from, steps[0]) && NeverOverwrites(c, Next(c, from, steps[0]), steps[1..])
  }

  lemma SupervisorLoses(c: Config, st: State, i: Id, move: SupervisorMove)
    requires SupervisorEnabled(st, i, move)
    ensures SupervisorNext(c, st, i, move).lost ==
            if Overwrites(st, SupervisorStep(i, move)) then st.lost + {st.pendingBuild.value} else st.lost
  {
  }

  lemma StepLoses(c: Config, st: State, e: Step)
    requires Enabled(st, e)
    ensures Next(c, st, e).lost == if Overwrites(st, e) then st.lost + {st.pendingBuild.value} else st.lost
  {
    match e
    case SupervisorStep(i, move) => SupervisorLoses(c, st, i, move);
    case CommandStep(k, move) => CommandLeavesTasks(c, st, k, move);
    case QueryStep(q, move) => QueryLeavesTasks(c, st, q, move);
    case _ =>
  }

  /** Track of a build is lost exactly where a build starts while another is recorded as pending. */
  lemma {:induction false} LostIffOverwritten(c: Config, from: State, steps: seq<Step>, st: State)
    requires ValidConfig(c) && Invariant(c, from) && Exec(c, from, steps) == Some(st)
    ensures from.lost <= st.lost
    ensures st.lost == from.lost <==> NeverOverwrites(c, from, steps)
    decreases |steps|
  {
    if steps != [] {
      StepKeeps(c, from, steps[0]);
      StepLoses(c, from, steps[0]);
      LostIffOverwritten(c, Next(c, from, steps[0]), steps[1..], st);
      assert Overwrites(from, steps[0]) ==> from.pendingBuild.value in Next(c, from, steps[0]).lost;
    }
  }

  /** A live session whose build was not lost. */
  ghost predicate Accounted(st: State, s: Id) {
    s < |st.sessions| && st.sessions[s].live && st.sessions[s].build !in st.lost
  }

  /**
   Any cancellation allowed: with the lock free, a live session is `_wrapper` or the
   pending build's, and there is one such session at most, if and only if no build was
   started while another was recorded as pending.  Otherwise it may also be a lost one.
   */
  lemma OrphansAreLostBuilds(c: Config, steps: seq<Step>, st: State)
    requires Reaches(c, steps, st) && st.lock.Free?
    ensures st.lost == {} <==> NeverOverwrites(c, INIT, steps)
    ensures forall s :: 0 <= s < |st.sessions| && st.sessions[s].live ==>
              st.wrapper == Some(s) || st.pendingBuild == Some(st.sessions[s].build) || st.sessions[s].build in st.lost
    ensures forall r, s :: Accounted(st, r) && Accounted(st, s) ==> r == s
  {
    ReachedIsInvariant(c, steps, st);
    InitIsInvariant(c);
    LostIffOverwritten(c, INIT, steps, st);
  }

  lemma SupervisorSparesLost(c: Config, st: State, i: Id, move: SupervisorMove, s: Id)
    requires SessionsSound(st) && SupervisorEnabled(st, i, move)
    requires s < |st.sessions| && st.sessions[s].live && st.sessions[s].build in st.lost
    ensures var next := SupervisorNext(c, st, i, move);
            s < |next.sessions| && next.sessions[s] == st.sessions[s]
  {
  }

  lemma CommandSparesLost(c: Config, st: State, k: Id, move: CommandMove, s: Id)
    requires SessionsSound(st) && CommandEnabled(st, k, move)
    requires s < |st.sessions| && st.sessions[s].live && st.sessions[s].build in st.lost
    ensures var next := CommandNext(c, st, k, move);
            s < |next.sessions| && next.sessions[s].live && next.sessions[s].build == st.sessions[s].build
  {
  }

  lemma DisconnectSparesLost(c: Config, st: State, d: Id, move: DisconnectMove, s: Id)
    requires TasksSound(c, st) && SessionsSound(st) && DisconnectEnabled(st, d, move)
    requires s < |st.sessions| && st.sessions[s].live && st.sessions[s].build in st.lost
    ensures var next := DisconnectNext(st, d, move);
            s < |next.sessions| && next.sessions[s].live && next.sessions[s].build == st.sessions[s].build
  {
  }

  lemma OtherStepSparesLost(c: Config, st: State, e: Step, s: Id)
    requires Enabled(st, e) && !e.SupervisorStep? && !e.CommandStep? && !e.DisconnectStep?
    requires s < |st.sessions| && st.sessions[s].live
    ensures var next := Next(c, st, e);
            s < |next.sessions| && next.sessions[s].live && next.sessions[s].build == st.sessions[s].build
  {
    match e
    case QueryStep(q, move) => QueryLeavesSessions(c, st, q, move);
    case _ =>
  }

  lemma QueryLeavesSessions(c: Config, st: State, q: Id, move: QueryMove)
    requires QueryEnabled(st, q, move)
    ensures QueryNext(c, st, q, move).sessions == st.sessions
  {
  }

  lemma StepSparesLost(c: Config, st: State, e: Step, s: Id)
    requires Invariant(c, st) && Enabled(st, e)
    requires s < |st.sessions| && st.sessions[s].live && st.sessions[s].build in st.lost
    ensures var next := Next(c, st, e);
            s < |next.sessions| && next.sessions[s].live && next.sessions[s].build in next.lost
  {
    StepLoses(c, st, e);
    match e
    case SupervisorStep(i, move) => SupervisorSparesLost(c, st, i, move, s);
    case CommandStep(k, move) => CommandSparesLost(c, st, k, move, s);
    case DisconnectStep(d, move) => DisconnectSparesLost(c, st, d, move, s);
    case _ => OtherStepSparesLost(c, st, e, s);
  }

  /** Nothing that the client does later stops a lost session: it lives until the process ends. */
  lemma {:induction false} LostSessionLivesOn(c: Config, from: State, steps: seq<Step>, st: State, s: Id)
    requires ValidConfig(c) && Invariant(c, from) && Exec(c, from, steps) == Some(st)
    requires s < |from.sessions| && from.sessions[s].live && from.sessions[s].build in from.lost
    ensures s < |st.sessions| && st.sessions[s].live
    decreases |steps|
  {
    if steps != [] {
      StepKeeps(c, from, steps[0]);
      StepSparesLost(c, from, steps[0], s);
      LostSessionLivesOn(c, Next(c, from, steps[0]), steps[1..], st, s);
    }
  }

  // -- the state matches the session, and the listener hears it -----------------------------

  /** Whenever the lock is free, connected means a live session, stale and disconnected none. */
  lemma StateMatchesSession(c: Config, steps: seq<Step>, st: State)
    requires Reaches(c, steps, st) && st.lock.Free?
    ensures st.link.Connected? ==>
              st.wrapper.Some? && st.wrapper.value < |st.sessions| && st.sessions[st.wrapper.value].live
    ensures st.link.Stale? || st.link.Disconnected? ==> st.wrapper.None?
  {
    ReachedIsInvariant(c, steps, st);
  }

  /** While a command or a query is under way, its session is the client's, and the client is connected. */
  lemma SessionStaysUnderCommand(c: Config, steps: seq<Step>, st: State)
    requires Reaches(c, steps, st)
    ensures forall k :: 0 <= k < |st.commands| && st.commands[k].HasLock() ==>
              st.wrapper == Some(st.commands[k].session) && (st.commands[k].pc.GivingUp? || st.link.Connected?)
    ensures forall q :: 0 <= q < |st.queries| && st.queries[q].HasLock() ==>
              st.wrapper == Some(st.queries[q].session) && st.link.Connected?
  {
    ReachedIsInvariant(c, steps, st);
  }

  /**
   The listener hears every change and nothing twice: connected only after connecting,
   stale only after connected, and never connected straight after stale.
   */
  lemma ListenerHearsThePath(c: Config, steps: seq<Step>, st: State, n: nat)
    requires Reaches(c, steps, st) && n < |st.heard|
    ensures st.heard[|st.heard| - 1] == st.link
    ensures n > 0 ==> st.heard[n - 1] != st.heard[n]
    ensures st.heard[n].Connected? ==> n > 0 && st.heard[n - 1].Connecting?
    ensures st.heard[n].Stale? ==> n > 0 && st.heard[n - 1].Connected?
    ensures n == 0 ==> st.heard[n].Connecting?
  {
    ReachedIsInvariant(c, steps, st);
    assert MayFollow(Before(st.heard, n), st.heard[n]);
  }

  // -- reconnecting ---------------------------------------------------------------------------

  /** The first delay is `initial`; after n failed sessions in a row it is initial * 2^n, capped. */
  lemma BackoffDoublesUpToTheCap(c: Config, steps: seq<Step>, st: State, i: Id)
    requires Reaches(c, steps, st)
    requires i < |st.supervisors| && st.supervisors[i].pc.BackingOff?
    ensures st.supervisors[i].failures == 0 ==> st.supervisors[i].pc.delay == c.reconnectInitial
    ensures st.supervisors[i].failures > 0 ==>
              st.supervisors[i].pc.delay == Min(Doubled(c.reconnectInitial, st.supervisors[i].failures), c.reconnectMax)
  {
    ReachedIsInvariant(c, steps, st);
  }

  /** A kick cuts at most one backoff short. */
  lemma KicksBoundShortBackoffs(c: Config, steps: seq<Step>, st: State)
    requires Reaches(c, steps, st)
    ensures st.cut <= st.kicks
  {
    ReachedIsInvariant(c, steps, st);
  }
}
