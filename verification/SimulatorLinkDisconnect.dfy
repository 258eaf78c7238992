/**
 What the simulator link promises about disconnect(): it cannot deadlock although it
 awaits the supervisor with the lock held, and it is final until the next connect().
 */
module SimulatorLinkDisconnect {
  import opened Prelude
  import opened SimulatorLink
  import opened SimulatorLinkInvariant
  import opened SimulatorLinkSteps
  import opened SimulatorLinkSafety

  // -- disconnect() ends ----------------------------------------------------------------

  /** How far disconnect d, which holds the lock, is from its return. */
  function Remaining(st: State, d: Id): nat
    requires d < |st.disconnects|
  {
    match st.disconnects[d]
    case AwaitSupervisor(i) => if i < |st.supervisors| && st.supervisors[i].Alive() then 6 else 5
    case AwaitBuild(b) => if b < |st.builds| && st.builds[b].Running? then 4 else 3
    case StoppingOrphan(_) => 2
    case Dropping => 1
    case _ => 0
  }

  /** The step that disconnect d is waiting for, or its own next one; a build that it awaits may turn out either way. */
  function Helpful(st: State, d: Id, started: bool): Step
    requires d < |st.disconnects|
  {
    match st.disconnects[d]
    case AwaitSupervisor(i) =>
      if i < |st.supervisors| && st.supervisors[i].Alive() then SupervisorStep(i, Dies) else DisconnectStep(d, Proceeds)
    case AwaitBuild(b) =>
      if b < |st.builds| && st.builds[b].Running? then BuildEnds(b, started) else DisconnectStep(d, Reaps)
    case StoppingOrphan(_) => DisconnectStep(d, StopsOrphan)
    case _ => DisconnectStep(d, Ends)
  }

  /**
   The supervisor that disconnect() awaits is suspended where a cancellation ends it
   without the lock, so the awaited step is always possible, and it brings the return closer.
   */
  lemma DisconnectIsNeverStuck(c: Config, st: State, d: Id, started: bool)
    requires Invariant(c, st) && st.lock == ByDisconnect(d)
    ensures d < |st.disconnects| && Enabled(st, Helpful(st, d, started))
    ensures Remaining(Next(c, st, Helpful(st, d, started)), d) < Remaining(st, d)
  {
    var pc := st.disconnects[d];
    assert pc.HasLock();
    match pc
    case AwaitSupervisor(i) => AwaitedSupervisorIsInterruptible(c, st, d);
    case _ =>
  }

  lemma AwaitedSupervisorIsInterruptible(c: Config, st: State, d: Id)
    requires TasksSound(c, st) && st.lock == ByDisconnect(d) && st.disconnects[d].AwaitSupervisor?
    ensures var i := st.disconnects[d].supervisor;
            && i < |st.supervisors| && st.supervisors[i].cancelled
            && (st.supervisors[i].Alive() ==> st.supervisors[i].Interruptible())
  {
    var i := st.disconnects[d].supervisor;
    assert !st.supervisors[i].HasLock();
  }

  /** Nobody else can send a disconnect() back that holds the lock. */
  lemma NoStepSendsDisconnectBack(c: Config, st: State, e: Step, d: Id)
    requires Invariant(c, st) && st.lock == ByDisconnect(d) && Enabled(st, e)
    ensures d < |Next(c, st, e).disconnects| && Remaining(Next(c, st, e), d) <= Remaining(st, d)
  {
    match e
    case SupervisorStep(i, move) => SupervisorWaitsForDisconnect(c, st, i, move, d);
    case CommandStep(k, move) => CommandLeavesTasks(c, st, k, move);
    case QueryStep(q, move) => QueryLeavesTasks(c, st, q, move);
    case DisconnectStep(other, move) => OnlyTheHolderMoves(c, st, other, move, d);
    case _ =>
  }

  lemma SupervisorWaitsForDisconnect(c: Config, st: State, i: Id, move: SupervisorMove, d: Id)
    requires Invariant(c, st) && st.lock == ByDisconnect(d) && SupervisorEnabled(st, i, move)
    ensures var next := SupervisorNext(c, st, i, move);
            && next.disconnects == st.disconnects && next.builds == st.builds
            && Remaining(next, d) <= Remaining(st, d)
  {
  }

  lemma OnlyTheHolderMoves(c: Config, st: State, other: Id, move: DisconnectMove, d: Id)
    requires Invariant(c, st) && st.lock == ByDisconnect(d) && DisconnectEnabled(st, other, move)
    ensures other == d && Remaining(DisconnectNext(st, other, move), d) < Remaining(st, d)
  {
  }

  /** From any state in which it holds the lock, at most six steps bring disconnect d to its return. */
  lemma {:induction false} DisconnectReturns(c: Config, st: State, d: Id, started: bool) returns (steps: seq<Step>)
    requires ValidConfig(c) && Invariant(c, st) && st.lock == ByDisconnect(d)
    ensures |steps| <= Remaining(st, d) <= 6
    ensures Exec(c, st, steps).Some?
    ensures d < |Exec(c, st, steps).value.disconnects| && Exec(c, st, steps).value.disconnects[d].Returned?
    decreases if d < |st.disconnects| then Remaining(st, d) else 0
  {
    DisconnectIsNeverStuck(c, st, d, started);
    var e := Helpful(st, d, started);
    var next := Next(c, st, e);
    StepKeeps(c, st, e);
    HelpfulKeepsTheLock(c, st, d, started);
    if next.lock == ByDisconnect(d) {
      var rest := DisconnectReturns(c, next, d, started);
      steps := [e] + rest;
      assert steps[1..] == rest;
    } else {
      steps := [e];
      Exec1(c, st, e);
    }
  }

  lemma HelpfulKeepsTheLock(c: Config, st: State, d: Id, started: bool)
    requires Invariant(c, st) && st.lock == ByDisconnect(d)
    ensures d < |st.disconnects| && Enabled(st, Helpful(st, d, started))
    ensures var next := Next(c, st, Helpful(st, d, started));
            d < |next.disconnects| && (next.lock == ByDisconnect(d) || next.disconnects[d].Returned?)
  {
    DisconnectIsNeverStuck(c, st, d, started);
  }

  // -- disconnect() is final ----------------------------------------------------------------

  /** Disconnected, with no session, no build and no supervisor but lost ones. */
  ghost predicate Quiet(st: State) {
    && st.link.Disconnected? && st.wrapper.None? && st.supervisor.None? && st.pendingBuild.None?
    && (forall i :: 0 <= i < |st.supervisors| ==> !st.supervisors[i].Alive())
    && (forall s :: 0 <= s < |st.sessions| && st.sessions[s].live ==> st.sessions[s].build in st.lost)
    && (forall b :: 0 <= b < |st.builds| && st.builds[b].Running? ==> b in st.lost)
  }

  /** What a disconnect() leaves behind when it returns. */
  lemma DisconnectLeavesQuiet(c: Config, steps: seq<Step>, st: State, d: Id)
    requires Reaches(c, steps, st) && Enabled(st, DisconnectStep(d, Ends))
    ensures Quiet(Next(c, st, DisconnectStep(d, Ends)))
    ensures Next(c, st, DisconnectStep(d, Ends)).disconnects[d].Returned?
  {
    ReachedIsInvariant(c, steps, st);
    assert st.disconnects[d].HasLock();
  }

  /** No session is built, nothing is staged and the client stays disconnected in a step other than connect(). */
  ghost predicate StillQuiet(st: State, next: State) {
    && Quiet(next) && |next.builds| == |st.builds| && next.lost == st.lost
    && |next.commands| >= |st.commands|
    && (forall k :: 0 <= k < |st.commands| ==> (next.commands[k].staged <==> st.commands[k].staged))
    && (forall k :: |st.commands| <= k < |next.commands| ==> !next.commands[k].staged)
  }

  lemma NoSupervisorMoves(st: State, i: Id, move: SupervisorMove)
    requires Quiet(st)
    ensures !SupervisorEnabled(st, i, move)
  {
    assert i < |st.supervisors| ==> !st.supervisors[i].Alive();
  }

  lemma CommandStaysQuiet(c: Config, st: State, k: Id, move: CommandMove)
    requires Invariant(c, st) && Quiet(st) && CommandEnabled(st, k, move)
    ensures StillQuiet(st, CommandNext(c, st, k, move))
  {
    assert !st.commands[k].HasLock();
  }

  lemma QueryStaysQuiet(c: Config, st: State, q: Id, move: QueryMove)
    requires Invariant(c, st) && Quiet(st) && QueryEnabled(st, q, move)
    ensures StillQuiet(st, QueryNext(c, st, q, move))
  {
    assert !st.queries[q].HasLock();
  }

  lemma DisconnectStaysQuiet(c: Config, st: State, d: Id, move: DisconnectMove)
    requires Invariant(c, st) && Quiet(st) && DisconnectEnabled(st, d, move)
    ensures StillQuiet(st, DisconnectNext(st, d, move))
  {
  }

  lemma EnvironmentStaysQuiet(c: Config, st: State, e: Step)
    requires Quiet(st) && Enabled(st, e) && (e.Time? || e.FrameArrives? || e.BuildEnds?)
    ensures StillQuiet(st, Next(c, st, e))
  {
  }

  lemma StepStaysQuiet(c: Config, st: State, e: Step)
    requires Invariant(c, st) && Quiet(st) && Enabled(st, e) && !e.ConnectCalled?
    ensures StillQuiet(st, Next(c, st, e))
  {
    match e
    case SupervisorStep(i, move) => NoSupervisorMoves(st, i, move);
    case CommandStep(k, move) => CommandStaysQuiet(c, st, k, move);
    case QueryStep(q, move) => QueryStaysQuiet(c, st, q, move);
    case DisconnectStep(d, move) => DisconnectStaysQuiet(c, st, d, move);
    case CommandCalled(_) =>
    case QueryCalled =>
    case DisconnectCalled =>
    case _ => EnvironmentStaysQuiet(c, st, e);
  }

  predicate NoConnect(steps: seq<Step>) {
    forall n :: 0 <= n < |steps| ==> !steps[n].ConnectCalled?
  }

  /** From the return of disconnect() to the next connect() nothing is built, staged or supervised. */
  lemma {:induction false} QuietUntilConnect(c: Config, from: State, steps: seq<Step>, st: State)
    requires ValidConfig(c) && Invariant(c, from) && Quiet(from)
    requires NoConnect(steps) && Exec(c, from, steps) == Some(st)
    ensures StillQuiet(from, st)
    decreases |steps|
  {
    if steps != [] {
      StepKeeps(c, from, steps[0]);
      StepStaysQuiet(c, from, steps[0]);
      QuietUntilConnect(c, Next(c, from, steps[0]), steps[1..], st);
    }
  }
}
