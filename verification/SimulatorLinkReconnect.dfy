/**
 How the simulator link comes back: a missing session is built, a failed one is dropped and
 backed off from, connect() starts a supervisor or kicks the one there is, and a supervisor
 waits for nothing but the lock, its build and its sleeps.
 */
module SimulatorLinkReconnect {
  import opened Prelude
  import opened SimulatorLink
  import opened SimulatorLinkSteps
  import opened SimulatorLinkSafety

  predicate Stands(st: State, i: Id, pc: SupervisorPc) {
    i < |st.supervisors| && st.supervisors[i].pc == pc && !st.supervisors[i].cancelled
  }

  /** The cycle after a session was dropped builds another one, unless somebody else has the lock. */
  lemma MissingSessionIsBuilt(c: Config, st: State, i: Id)
    requires Stands(st, i, Napping) && st.wrapper.None? && st.lock.Free?
    ensures var building := Exec(c, st, [SupervisorStep(i, Wakes), SupervisorStep(i, Takes)]);
            && building.Some? && building.value.link.Connecting? && building.value.lock == BySupervisor(i)
            && building.value.heard == (if st.link.Connecting? then st.heard else st.heard + [Connecting])
            && building.value.builds == st.builds + [Running] && building.value.pendingBuild == Some(|st.builds|)
            && Stands(building.value, i, Building(|st.builds|))
  {
    Exec2(c, st, SupervisorStep(i, Wakes), SupervisorStep(i, Takes));
  }

  /** A build that has opened a session makes it the client's, to be read next. */
  lemma BuiltSessionIsAdopted(c: Config, steps: seq<Step>, st: State, i: Id)
    requires Reaches(c, steps, st) && CanSupervisorHaveBuilt(st, i) && st.builds[st.supervisors[i].pc.build].Built?
    ensures var s := st.builds[st.supervisors[i].pc.build].session;
            var next := Next(c, st, SupervisorStep(i, HasBuilt));
            && next.wrapper == Some(s) && s < |next.sessions| && next.sessions[s].live && next.pendingBuild.None?
            && Stands(next, i, Snapping) && Enabled(next, SupervisorStep(i, Snaps))
  {
    ReachedIsInvariant(c, steps, st);
  }

  /** What a failure leaves: no session, the state is connecting, and the supervisor backs off. */
  predicate BacksOff(st: State, next: State, i: Id) {
    && i < |st.supervisors| && i < |next.supervisors|
    && next.wrapper.None? && next.pendingBuild.None? && next.lock.Free? && next.link.Connecting?
    && next.heard == (if st.link.Connecting? then st.heard else st.heard + [Connecting])
    && next.supervisors[i] == st.supervisors[i].(pc := BackingOff(st.supervisors[i].backoff))
  }

  lemma FailureIsHandled(c: Config, st: State, i: Id)
    requires Stands(st, i, WantLockToDrop) && st.lock.Free? && st.pendingBuild.None?
    ensures var next := Exec(c, st, [SupervisorStep(i, TakesToDrop), SupervisorStep(i, DropsFailed)]);
            && next.Some? && BacksOff(st, next.value, i)
            && |next.value.sessions| == |st.sessions|
            && (st.wrapper.Some? && st.wrapper.value < |st.sessions| ==> !next.value.sessions[st.wrapper.value].live)
  {
    Exec2(c, st, SupervisorStep(i, TakesToDrop), SupervisorStep(i, DropsFailed));
  }

  /** A snapshot that raises costs the session: it is stopped before the supervisor backs off. */
  lemma FailedSessionIsDropped(c: Config, steps: seq<Step>, st: State, i: Id)
    requires Reaches(c, steps, st) && Stands(st, i, Snapping)
    ensures var next := Exec(c, st, [SupervisorStep(i, Faults), SupervisorStep(i, TakesToDrop), SupervisorStep(i, DropsFailed)]);
            && next.Some? && BacksOff(st, next.value, i)
            && st.wrapper.Some? && st.wrapper.value < |next.value.sessions|
            && !next.value.sessions[st.wrapper.value].live
  {
    ReachedIsInvariant(c, steps, st);
    var failed := Next(c, st, SupervisorStep(i, Faults));
    FailureIsHandled(c, failed, i);
    Exec1(c, st, SupervisorStep(i, Faults));
    var more := [SupervisorStep(i, TakesToDrop), SupervisorStep(i, DropsFailed)];
    ExecAppend(c, st, [SupervisorStep(i, Faults)], more);
    assert [SupervisorStep(i, Faults)] + more
        == [SupervisorStep(i, Faults), SupervisorStep(i, TakesToDrop), SupervisorStep(i, DropsFailed)];
  }

  /** A build that failed is forgotten, and the supervisor backs off. */
  lemma FailedBuildIsForgotten(c: Config, steps: seq<Step>, st: State, i: Id)
    requires Reaches(c, steps, st) && CanSupervisorHaveBuilt(st, i) && st.builds[st.supervisors[i].pc.build].Broken?
    ensures var next := Exec(c, st, [SupervisorStep(i, HasBuilt), SupervisorStep(i, TakesToDrop), SupervisorStep(i, DropsFailed)]);
            next.Some? && BacksOff(st, next.value, i) && next.value.sessions == st.sessions
  {
    ReachedIsInvariant(c, steps, st);
    var failed := Next(c, st, SupervisorStep(i, HasBuilt));
    Exec3(c, st, SupervisorStep(i, HasBuilt), SupervisorStep(i, TakesToDrop), SupervisorStep(i, DropsFailed));
  }

  // -- connect() --------------------------------------------------------------------------------

  /** connect() starts a supervisor exactly if none is alive; otherwise it kicks the one there is. */
  lemma ConnectStartsOneIffNoneLives(c: Config, steps: seq<Step>, st: State)
    requires Reaches(c, steps, st) && Enabled(st, ConnectCalled)
    ensures var next := Next(c, st, ConnectCalled);
            if exists i :: 0 <= i < |st.supervisors| && st.supervisors[i].Alive() then
              next == st.(retryNow := true, kicks := st.kicks + 1)
            else
              && next.link.Connecting? && next.supervisor == Some(|st.supervisors|)
              && next.supervisors == st.supervisors + [Supervisor(WantLock, false, c.reconnectInitial, 0)]
              && next.heard == (if st.link.Connecting? then st.heard else st.heard + [Connecting])
              && next.retryNow == st.retryNow && next.kicks == st.kicks
  {
    ReachedIsInvariant(c, steps, st);
  }

  /** A kick ends a backoff at once, is spent by it, and the next one is doubled all the same. */
  lemma KickEndsTheBackoff(c: Config, steps: seq<Step>, st: State, i: Id)
    requires Reaches(c, steps, st) && st.lock.Free?
    requires i < |st.supervisors| && st.supervisors[i].pc.BackingOff? && !st.supervisors[i].cancelled
    ensures var next := Exec(c, st, [ConnectCalled, SupervisorStep(i, Retries(true))]);
            && next.Some? && !next.value.retryNow && next.value.cut == st.cut + 1
            && i < |next.value.supervisors| && next.value.supervisors[i].pc.WantLock?
            && next.value.supervisors[i].backoff == Min(st.supervisors[i].backoff * 2.0, c.reconnectMax)
  {
    ReachedIsInvariant(c, steps, st);
    Exec2(c, st, ConnectCalled, SupervisorStep(i, Retries(true)));
  }

  /** The supervisor's backoff is over, in whatever way. */
  predicate EndsBackoff(st: State, e: Step) {
    && e.SupervisorStep? && e.i < |st.supervisors| && st.supervisors[e.i].pc.BackingOff?
    && (e.supervisorMove.Retries? || e.supervisorMove.Dies?)
  }

  /** The supervisor finds its session healthy. */
  predicate FindsHealthy(c: Config, st: State, e: Step) {
    && e.SupervisorStep? && e.supervisorMove.Judges? && e.i < |st.supervisors| && st.supervisors[e.i].pc.Snapped?
    && (var seen := st.supervisors[e.i].pc.seen;
        seen.initialized && seen.age.Some? && seen.age.value <= c.staleAfter)
  }

  /**
   A kick that connect() gave a live supervisor stays until a backoff ends, by its time, by the
   kick or by a cancellation, or until the session is found healthy; nothing else spends it.
   */
  lemma KickStaysUntilSpent(c: Config, steps: seq<Step>, st: State, e: Step)
    requires Reaches(c, steps, st) && Enabled(st, e)
    ensures Next(c, st, e).retryNow <==>
              if e.ConnectCalled? then st.retryNow || exists i :: 0 <= i < |st.supervisors| && st.supervisors[i].Alive()
              else st.retryNow && !EndsBackoff(st, e) && !FindsHealthy(c, st, e)
  {
    match e
    case ConnectCalled => ConnectStartsOneIffNoneLives(c, steps, st);
    case SupervisorStep(i, move) => SupervisorSpends(c, st, i, move);
    case CommandStep(k, move) => CommandSpendsNoKick(c, st, k, move);
    case QueryStep(q, move) => QuerySpendsNoKick(c, st, q, move);
    case DisconnectStep(d, move) => DisconnectSpendsNoKick(st, d, move);
    case _ =>
  }

  lemma SupervisorSpends(c: Config, st: State, i: Id, move: SupervisorMove)
    requires SupervisorEnabled(st, i, move)
    ensures var e := SupervisorStep(i, move);
            SupervisorNext(c, st, i, move).retryNow <==> st.retryNow && !EndsBackoff(st, e) && !FindsHealthy(c, st, e)
  {
  }

  lemma CommandSpendsNoKick(c: Config, st: State, k: Id, move: CommandMove)
    requires CommandEnabled(st, k, move)
    ensures CommandNext(c, st, k, move).retryNow == st.retryNow
  {
  }

  lemma QuerySpendsNoKick(c: Config, st: State, q: Id, move: QueryMove)
    requires QueryEnabled(st, q, move)
    ensures QueryNext(c, st, q, move).retryNow == st.retryNow
  {
  }

  lemma DisconnectSpendsNoKick(st: State, d: Id, move: DisconnectMove)
    requires DisconnectEnabled(st, d, move)
    ensures DisconnectNext(st, d, move).retryNow == st.retryNow
  {
  }

  // -- the supervisor goes on ---------------------------------------------------------------------

  /** The next move of a supervisor; a cancelled one only has one left. */
  function Onward(sup: Supervisor): SupervisorMove {
    if sup.cancelled then Dies else
      match sup.pc
      case WantLock => Takes
      case Building(_) => HasBuilt
      case Snapping => Snaps
      case Snapped(_) => Judges
      case DroppingStale => DropsStale
      case Napping => Wakes
      case WantLockToDrop => TakesToDrop
      case DroppingFailed => DropsFailed
      case _ => Retries(false)
  }

  /** A live supervisor can always go on, but for a lock that another task has and a build that is not over. */
  lemma SupervisorWaitsForLockAndBuildOnly(c: Config, steps: seq<Step>, st: State, i: Id)
    requires Reaches(c, steps, st) && i < |st.supervisors| && st.supervisors[i].Alive()
    requires st.supervisors[i].pc.WantLock? || st.supervisors[i].pc.WantLockToDrop? ==> st.lock.Free?
    requires st.supervisors[i].pc.Building? && st.supervisors[i].pc.build < |st.builds| ==>
               !st.builds[st.supervisors[i].pc.build].Running?
    ensures SupervisorEnabled(st, i, Onward(st.supervisors[i]))
  {
    ReachedIsInvariant(c, steps, st);
    assert st.supervisors[i].cancelled ==> !st.supervisors[i].HasLock();
  }
}
