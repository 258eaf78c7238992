/**
 The supervisor cancelled by somebody else while it awaits a build: its session is found
 again by the next disconnect(), unless a connect() comes first.
 */
module SimulatorLinkOrphans {
  import opened Prelude
  import opened SimulatorLink
  import opened SimulatorLinkSteps
  import opened SimulatorLinkSafety
  import opened SimulatorLinkDisconnect

  /** With the lock free, the client has no hold on a live session exactly if its build was lost. */
  lemma NobodyHoldsItIffLost(c: Config, steps: seq<Step>, st: State, s: Id)
    requires Reaches(c, steps, st) && st.lock.Free?
    requires s < |st.sessions| && st.sessions[s].live
    ensures st.wrapper != Some(s) && st.pendingBuild != Some(st.sessions[s].build) <==> st.sessions[s].build in st.lost
  {
    ReachedIsInvariant(c, steps, st);
  }

  ghost predicate NoSupervisor(st: State) {
    forall i :: 0 <= i < |st.supervisors| ==> !st.supervisors[i].Alive()
  }

  /** The cancelled supervisor leaves its build recorded as pending, and nobody is there to overwrite it. */
  lemma CancelLeavesTheBuildPending(c: Config, steps: seq<Step>, st: State, i: Id)
    requires Reaches(c, steps, st) && CanOutsideCancel(st, i)
    ensures var next := OutsideCancel(st, i);
            && next.pendingBuild == Some(st.supervisors[i].pc.build) && next.lost == st.lost
            && st.supervisors[i].pc.build !in st.lost
            && next.lock.Free? && next.wrapper.None? && NoSupervisor(next)
  {
    ReachedIsInvariant(c, steps, st);
    assert st.supervisors[i].HasLock();
  }

  // -- with no connect() in between ------------------------------------------------------------

  lemma NoSupervisorMove(st: State, i: Id, move: SupervisorMove)
    requires NoSupervisor(st)
    ensures !SupervisorEnabled(st, i, move)
  {
    assert i < |st.supervisors| ==> !st.supervisors[i].Alive();
  }

  lemma DisconnectStartsNoSupervisor(st: State, d: Id, move: DisconnectMove)
    requires NoSupervisor(st) && DisconnectEnabled(st, d, move)
    ensures NoSupervisor(DisconnectNext(st, d, move)) && DisconnectNext(st, d, move).lost == st.lost
  {
  }

  lemma StepStartsNoSupervisor(c: Config, st: State, e: Step)
    requires NoSupervisor(st) && Enabled(st, e) && !e.ConnectCalled?
    ensures NoSupervisor(Next(c, st, e)) && Next(c, st, e).lost == st.lost
  {
    match e
    case SupervisorStep(i, move) => NoSupervisorMove(st, i, move);
    case CommandStep(k, move) => CommandLeavesTasks(c, st, k, move);
    case QueryStep(q, move) => QueryLeavesTasks(c, st, q, move);
    case DisconnectStep(d, move) => DisconnectStartsNoSupervisor(st, d, move);
    case _ =>
  }

  lemma {:induction false} NothingIsLost(c: Config, from: State, steps: seq<Step>, st: State)
    requires NoSupervisor(from) && NoConnect(steps) && Exec(c, from, steps) == Some(st)
    ensures NoSupervisor(st) && st.lost == from.lost
    decreases |steps|
  {
    if steps != [] {
      StepStartsNoSupervisor(c, from, steps[0]);
      NothingIsLost(c, Next(c, from, steps[0]), steps[1..], st);
    }
  }

  /**
   If no connect() comes first, the next disconnect() to return has awaited that build and
   stopped its session: no session lives on but those lost before.
   */
  lemma NextDisconnectStopsIt(c: Config, before: seq<Step>, st: State, i: Id, steps: seq<Step>, later: State, d: Id)
    requires Reaches(c, before, st) && CanOutsideCancel(st, i)
    requires NoConnect(steps) && Exec(c, OutsideCancel(st, i), steps) == Some(later)
    requires Enabled(later, DisconnectStep(d, Ends))
    ensures var end := Next(c, later, DisconnectStep(d, Ends));
            var b := st.supervisors[i].pc.build;
            && end.disconnects[d].Returned? && end.lost == st.lost
            && (forall s :: 0 <= s < |end.sessions| && end.sessions[s].live ==> end.sessions[s].build in st.lost)
            && b !in st.lost && (b < |end.builds| ==> !end.builds[b].Running?)
            && (forall s :: 0 <= s < |end.sessions| && end.sessions[s].build == b ==> !end.sessions[s].live)
  {
    var cancelled := OutsideCancel(st, i);
    var cancel := SupervisorStep(i, CancelledOutside);
    CancelLeavesTheBuildPending(c, before, st, i);
    NothingIsLost(c, cancelled, steps, later);
    Exec1(c, st, cancel);
    ExecAppend(c, INIT, before, [cancel]);
    ExecAppend(c, INIT, before + [cancel], steps);
    DisconnectLeavesQuiet(c, before + [cancel] + steps, later, d);
    DisconnectEndLosesNothing(later, d);
  }

  lemma DisconnectEndLosesNothing(st: State, d: Id)
    requires CanDisconnectEnd(st, d)
    ensures DisconnectEnd(st, d).lost == st.lost
  {
  }

  // -- with a connect() first ------------------------------------------------------------------

  /** If connect() comes first, the first step of its supervisor loses the build. */
  lemma ConnectFirstLosesIt(c: Config, before: seq<Step>, st: State, i: Id)
    requires Reaches(c, before, st) && CanOutsideCancel(st, i)
    ensures var steps := [ConnectCalled, SupervisorStep(|st.supervisors|, Takes)];
            var later := Exec(c, OutsideCancel(st, i), steps);
            later.Some? && st.supervisors[i].pc.build in later.value.lost
  {
    var cancelled := OutsideCancel(st, i);
    CancelLeavesTheBuildPending(c, before, st, i);
    assert !SupervisorRuns(cancelled);
    var connected := Next(c, cancelled, ConnectCalled);
    assert connected.supervisors[|st.supervisors|] == Supervisor(WantLock, false, c.reconnectInitial, 0);
    Exec2(c, cancelled, ConnectCalled, SupervisorStep(|st.supervisors|, Takes));
  }

  /** So only a run with a connect() loses the build, and there is one that does. */
  lemma LosableIffConnect(c: Config, before: seq<Step>, st: State, i: Id)
    requires Reaches(c, before, st) && CanOutsideCancel(st, i)
    ensures forall steps :: Loses(c, OutsideCancel(st, i), steps, st.supervisors[i].pc.build) ==> !NoConnect(steps)
    ensures exists steps :: Loses(c, OutsideCancel(st, i), steps, st.supervisors[i].pc.build)
  {
    var b := st.supervisors[i].pc.build;
    CancelLeavesTheBuildPending(c, before, st, i);
    forall steps | Loses(c, OutsideCancel(st, i), steps, b)
      ensures !NoConnect(steps)
    {
      if NoConnect(steps) {
        NothingIsLost(c, OutsideCancel(st, i), steps, Exec(c, OutsideCancel(st, i), steps).value);
      }
    }
    ConnectFirstLosesIt(c, before, st, i);
    assert Loses(c, OutsideCancel(st, i), [ConnectCalled, SupervisorStep(|st.supervisors|, Takes)], b);
  }

  /** The steps lead from st to a state in which build b is lost. */
  ghost predicate Loses(c: Config, st: State, steps: seq<Step>, b: Id) {
    Exec(c, st, steps).Some? && b in Exec(c, st, steps).value.lost
  }
}
