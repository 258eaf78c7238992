/** Every step keeps the invariant. */
module SimulatorLinkSteps {
  import opened Prelude
  import opened SimulatorLink
  import opened SimulatorLinkInvariant

  /** A frame adds one delivery to each order that the session holds, and to no other. */
  lemma DeliverEach(commands: seq<Command>, e: Session, k: Id)
    requires Within(e.rudder, |commands|) && Within(e.lever, |commands|)
    requires e.rudder.Some? ==> e.rudder != e.lever
    requires k < |commands|
    ensures var after := Deliver(Deliver(commands, e.rudder), e.lever);
            && |after| == |commands|
            && after[k] == commands[k].(delivered := commands[k].delivered + if e.Holds(k) then 1 else 0)
  {
  }

  /** A command keeps pace with the frames of its session. */
  lemma FrameFitsOne(sessions: seq<Session>, commands: seq<Command>, s: Id, now: real, scenario: bool, k: Id)
    requires s < |sessions| && sessions[s].live && k < |commands|
    requires SetpointsMatch(sessions, commands) && CommandsFit(sessions, commands)
    ensures var cmd := commands[k].(delivered := commands[k].delivered + if sessions[s].Holds(k) then 1 else 0);
            var received := sessions[s := sessions[s].Received(now, scenario)];
            && StagedRight(cmd)
            && (!cmd.pc.Waiting? && !cmd.pc.Refused? ==>
                  cmd.session < |received| && CommandFits(cmd, received[cmd.session], k))
  {
    assert sessions[s].rudder == Some(k) ==> HeldBy(commands, k, s, true);
    assert sessions[s].lever == Some(k) ==> HeldBy(commands, k, s, false);
  }

  /** The orders that session s holds keep pace with its frames. */
  lemma FrameCountsDeliveries(sessions: seq<Session>, commands: seq<Command>, s: Id, now: real, scenario: bool)
    requires s < |sessions| && sessions[s].live
    requires SetpointsMatch(sessions, commands) && CommandsFit(sessions, commands)
    ensures var e := sessions[s];
            var after := Deliver(Deliver(commands, e.rudder), e.lever);
            var received := sessions[s := e.Received(now, scenario)];
            SetpointsMatch(received, after) && CommandsFit(received, after)
  {
    var e := sessions[s];
    var after := Deliver(Deliver(commands, e.rudder), e.lever);
    forall k | 0 <= k < |commands|
      ensures after[k] == commands[k].(delivered := commands[k].delivered + if e.Holds(k) then 1 else 0)
    {
      DeliverEach(commands, e, k);
    }
    forall k | 0 <= k < |commands|
      ensures var cmd := after[k];
              var received := sessions[s := e.Received(now, scenario)];
              && StagedRight(cmd)
              && (!cmd.pc.Waiting? && !cmd.pc.Refused? ==>
                    cmd.session < |received| && CommandFits(cmd, received[cmd.session], k))
    {
      FrameFitsOne(sessions, commands, s, now, scenario, k);
    }
  }

  /** Staging puts one order in place of another only where no other command is still confirming. */
  lemma StagingFits(sessions: seq<Session>, commands: seq<Command>, k: Id, pc: CommandPc)
    requires SetpointsMatch(sessions, commands) && CommandsFit(sessions, commands)
    requires k < |commands| && commands[k].pc.Staging? && (pc.Staged? || pc.Faulted?)
    requires commands[k].session < |sessions|
    requires forall j :: 0 <= j < |commands| && j != k ==> !commands[j].HasLock()
    ensures var cmd := commands[k];
            var e := sessions[cmd.session];
            var held := sessions[cmd.session := e.Hold(cmd.order, k)];
            var after := commands[k := cmd.(pc := pc, staged := true, mark := e.frames)];
            SetpointsMatch(held, after) && CommandsFit(held, after)
  {
  }

  lemma BackoffDoubles(c: Config, n: nat)
    requires ValidConfig(c)
    ensures Min(BackoffAfter(c, n) * 2.0, c.reconnectMax) == BackoffAfter(c, n + 1)
  {
    assert Doubled(c.reconnectInitial, n + 1) == Doubled(c.reconnectInitial, n) * 2.0;
  }

  lemma TickKeeps(c: Config, st: State, dt: real)
    requires ValidConfig(c) && Invariant(c, st) && dt > 0.0
    ensures Invariant(c, Tick(st, dt))
  {
  }

  lemma FrameKeepsTasks(c: Config, st: State, s: Id, scenario: bool)
    requires ValidConfig(c) && Invariant(c, st) && CanReceive(st, s)
    ensures TasksSound(c, Frame(st, s, scenario))
  {
  }

  lemma FrameKeepsLink(c: Config, st: State, s: Id, scenario: bool)
    requires ValidConfig(c) && Invariant(c, st) && CanReceive(st, s)
    ensures LinkSound(Frame(st, s, scenario))
  {
  }

  lemma FrameKeepsOrders(c: Config, st: State, s: Id, scenario: bool)
    requires ValidConfig(c) && Invariant(c, st) && CanReceive(st, s)
    ensures OrdersSound(c, Frame(st, s, scenario))
  {
    FrameCountsDeliveries(st.sessions, st.commands, s, st.now, scenario);
  }

  lemma FrameKeeps(c: Config, st: State, s: Id, scenario: bool)
    requires ValidConfig(c) && Invariant(c, st) && CanReceive(st, s)
    ensures Invariant(c, Frame(st, s, scenario))
  {
    FrameKeepsTasks(c, st, s, scenario);
    FrameKeepsLink(c, st, s, scenario);
    FrameKeepsOrders(c, st, s, scenario);
  }

  lemma BuildEndKeeps(c: Config, st: State, b: Id, started: bool)
    requires ValidConfig(c) && Invariant(c, st) && CanBuildEnd(st, b)
    ensures Invariant(c, BuildEnd(st, b, started))
  {
  }

  lemma ConnectKeepsTasks(c: Config, st: State)
    requires ValidConfig(c) && Invariant(c, st) && st.lock.Free?
    ensures TasksSound(c, Connect(c, st))
  {
  }

  lemma ConnectKeeps(c: Config, st: State)
    requires ValidConfig(c) && Invariant(c, st) && st.lock.Free?
    ensures Invariant(c, Connect(c, st))
  {
    ConnectKeepsTasks(c, st);
    HeardGrows(st.link, st.heard, Connecting);
  }

  lemma CallCommandKeeps(c: Config, st: State, order: Order)
    requires ValidConfig(c) && Invariant(c, st)
    ensures Invariant(c, CallCommand(st, order))
  {
  }

  lemma SupervisorStartBuildKeepsTasks(c: Config, st: State, i: Id)
    requires ValidConfig(c) && Invariant(c, st) && CanSupervisorTake(st, i) && st.wrapper.None?
    ensures TasksSound(c, SupervisorStartBuild(st, i))
  {
  }

  lemma SupervisorStartBuildKeepsSessions(c: Config, st: State, i: Id)
    requires ValidConfig(c) && Invariant(c, st) && CanSupervisorTake(st, i) && st.wrapper.None?
    ensures SessionsSound(SupervisorStartBuild(st, i))
  {
  }

  lemma SupervisorStartBuildKeeps(c: Config, st: State, i: Id)
    requires ValidConfig(c) && Invariant(c, st) && CanSupervisorTake(st, i) && st.wrapper.None?
    ensures Invariant(c, SupervisorStartBuild(st, i))
  {
    SupervisorStartBuildKeepsTasks(c, st, i);
    SupervisorStartBuildKeepsSessions(c, st, i);
    HeardGrows(st.link, st.heard, Connecting);
  }

  lemma SupervisorTakeKeeps(c: Config, st: State, i: Id)
    requires ValidConfig(c) && Invariant(c, st) && CanSupervisorTake(st, i)
    ensures Invariant(c, SupervisorTake(st, i))
  {
    if st.wrapper.None? {
      SupervisorStartBuildKeeps(c, st, i);
    }
  }

  lemma SupervisorAdoptKeepsTasks(c: Config, st: State, i: Id, s: Id)
    requires ValidConfig(c) && Invariant(c, st)
    requires CanSupervisorHaveBuilt(st, i) && st.builds[st.supervisors[i].pc.build] == Built(s)
    ensures TasksSound(c, SupervisorAdopt(st, i, s))
  {
  }

  lemma SupervisorAdoptKeeps(c: Config, st: State, i: Id, s: Id)
    requires ValidConfig(c) && Invariant(c, st)
    requires CanSupervisorHaveBuilt(st, i) && st.builds[st.supervisors[i].pc.build] == Built(s)
    ensures Invariant(c, SupervisorAdopt(st, i, s))
  {
    SupervisorAdoptKeepsTasks(c, st, i, s);
  }

  lemma SupervisorBuiltKeeps(c: Config, st: State, i: Id)
    requires ValidConfig(c) && Invariant(c, st) && CanSupervisorHaveBuilt(st, i)
    ensures Invariant(c, SupervisorBuilt(st, i))
  {
    var build := st.builds[st.supervisors[i].pc.build];
    if build.Built? {
      SupervisorAdoptKeeps(c, st, i, build.session);
    }
  }

  lemma SupervisorSnapKeeps(c: Config, st: State, i: Id)
    requires ValidConfig(c) && Invariant(c, st) && CanSupervisorSnap(st, i)
    ensures Invariant(c, SupervisorSnap(st, i))
  {
  }

  lemma SupervisorFaultKeeps(c: Config, st: State, i: Id)
    requires ValidConfig(c) && Invariant(c, st) && CanSupervisorFault(st, i)
    ensures Invariant(c, SupervisorFault(st, i))
  {
  }

  lemma SupervisorHealthyKeeps(c: Config, st: State, i: Id)
    requires ValidConfig(c) && Invariant(c, st) && CanSupervisorJudge(st, i)
    ensures Invariant(c, SupervisorHealthy(c, st, i))
  {
    HeardGrows(st.link, st.heard, Connected);
  }

  lemma SupervisorGoesStaleKeeps(c: Config, st: State, i: Id)
    requires ValidConfig(c) && Invariant(c, st) && CanSupervisorJudge(st, i) && st.link.Connected?
    ensures Invariant(c, SupervisorAt(SetLink(st, Stale), i, DroppingStale))
  {
    HeardGrows(st.link, st.heard, Stale);
  }

  lemma SupervisorJudgeKeeps(c: Config, st: State, i: Id)
    requires ValidConfig(c) && Invariant(c, st) && CanSupervisorJudge(st, i)
    ensures Invariant(c, SupervisorJudge(c, st, i))
  {
    if st.supervisors[i].pc.seen.Healthy(c) {
      SupervisorHealthyKeeps(c, st, i);
    } else if st.link.Connected? {
      SupervisorGoesStaleKeeps(c, st, i);
    }
  }

  lemma SupervisorDropStaleKeepsSessions(c: Config, st: State, i: Id)
    requires TasksSound(c, st) && SessionsSound(st) && CanSupervisorDropStale(st, i)
    ensures SessionsSound(SupervisorDropStale(st, i))
  {
  }

  lemma SupervisorDropStaleKeeps(c: Config, st: State, i: Id)
    requires ValidConfig(c) && Invariant(c, st) && CanSupervisorDropStale(st, i)
    ensures Invariant(c, SupervisorDropStale(st, i))
  {
    SupervisorDropStaleKeepsSessions(c, st, i);
  }

  lemma SupervisorWakeKeeps(c: Config, st: State, i: Id)
    requires ValidConfig(c) && Invariant(c, st) && CanSupervisorWake(st, i)
    ensures Invariant(c, SupervisorWake(st, i))
  {
  }

  lemma SupervisorTakeToDropKeeps(c: Config, st: State, i: Id)
    requires ValidConfig(c) && Invariant(c, st) && CanSupervisorTakeToDrop(st, i)
    ensures Invariant(c, SupervisorTakeToDrop(st, i))
  {
  }

  lemma SupervisorDropFailedKeepsTasks(c: Config, st: State, i: Id)
    requires ValidConfig(c) && Invariant(c, st) && CanSupervisorDropFailed(st, i)
    ensures TasksSound(c, SupervisorDropFailed(st, i))
  {
  }

  lemma SupervisorDropFailedKeepsSessions(c: Config, st: State, i: Id)
    requires TasksSound(c, st) && SessionsSound(st) && CanSupervisorDropFailed(st, i)
    ensures SessionsSound(SupervisorDropFailed(st, i))
  {
  }

  lemma SupervisorDropFailedKeeps(c: Config, st: State, i: Id)
    requires ValidConfig(c) && Invariant(c, st) && CanSupervisorDropFailed(st, i)
    ensures Invariant(c, SupervisorDropFailed(st, i))
  {
    SupervisorDropFailedKeepsTasks(c, st, i);
    SupervisorDropFailedKeepsSessions(c, st, i);
    HeardGrows(st.link, st.heard, Connecting);
  }

  lemma SupervisorRetryKeeps(c: Config, st: State, i: Id, kicked: bool)
    requires ValidConfig(c) && Invariant(c, st) && CanSupervisorRetry(st, i, kicked)
    ensures Invariant(c, SupervisorRetry(c, st, i, kicked))
  {
    BackoffDoubles(c, st.supervisors[i].failures);
  }

  lemma SupervisorDieKeeps(c: Config, st: State, i: Id)
    requires ValidConfig(c) && Invariant(c, st) && CanSupervisorDie(st, i)
    ensures Invariant(c, SupervisorDie(st, i))
  {
  }

  lemma OutsideCancelKeeps(c: Config, st: State, i: Id)
    requires ValidConfig(c) && Invariant(c, st) && CanOutsideCancel(st, i)
    ensures Invariant(c, OutsideCancel(st, i))
  {
  }

  lemma CommandAcceptKeeps(c: Config, st: State, k: Id, s: Id)
    requires ValidConfig(c) && Invariant(c, st) && CanCommandTake(st, k) && CanCommand(st) && st.wrapper == Some(s)
    ensures Invariant(c, CommandAccept(st, k, s))
  {
  }

  lemma CommandTakeKeeps(c: Config, st: State, k: Id)
    requires ValidConfig(c) && Invariant(c, st) && CanCommandTake(st, k)
    ensures Invariant(c, CommandTake(st, k))
  {
    if CanCommand(st) {
      CommandAcceptKeeps(c, st, k, st.wrapper.value);
    }
  }

  lemma CommandReadBeforeKeeps(c: Config, st: State, k: Id)
    requires ValidConfig(c) && Invariant(c, st) && CanCommandReadBefore(st, k)
    ensures Invariant(c, CommandReadBefore(st, k))
  {
  }

  lemma CommandRefuseKeeps(c: Config, st: State, k: Id)
    requires ValidConfig(c) && Invariant(c, st) && CanCommandJudge(st, k)
    ensures Invariant(c, CommandRefuse(st, k))
  {
  }

  lemma CommandProceedKeeps(c: Config, st: State, k: Id)
    requires ValidConfig(c) && Invariant(c, st) && CanCommandJudge(st, k)
    ensures Invariant(c, CommandAt(st, k, Staging))
  {
  }

  lemma CommandJudgeKeeps(c: Config, st: State, k: Id)
    requires ValidConfig(c) && Invariant(c, st) && CanCommandJudge(st, k)
    ensures Invariant(c, CommandJudge(c, st, k))
  {
    if st.commands[k].before.Old(c) {
      CommandRefuseKeeps(c, st, k);
    } else {
      CommandProceedKeeps(c, st, k);
    }
  }

  lemma CommandStageKeepsOrders(c: Config, st: State, k: Id)
    requires ValidConfig(c) && Invariant(c, st) && CanCommandStage(st, k)
    ensures OrdersSound(c, CommandStage(st, k))
  {
    StagingFits(st.sessions, st.commands, k, Staged);
  }

  lemma CommandStageKeeps(c: Config, st: State, k: Id)
    requires ValidConfig(c) && Invariant(c, st) && CanCommandStage(st, k)
    ensures Invariant(c, CommandStage(st, k))
  {
    CommandStageKeepsOrders(c, st, k);
  }

  lemma CommandArmKeeps(c: Config, st: State, k: Id)
    requires ValidConfig(c) && Invariant(c, st) && CanCommandArm(st, k)
    ensures Invariant(c, CommandArm(st, k))
  {
  }

  lemma CommandPollKeeps(c: Config, st: State, k: Id)
    requires ValidConfig(c) && Invariant(c, st) && CanCommandPoll(st, k)
    ensures Invariant(c, CommandPoll(st, k))
  {
  }

  lemma CommandAckKeepsOrders(c: Config, st: State, k: Id)
    requires ValidConfig(c) && Invariant(c, st)
    requires CanCommandDecide(st, k) && st.commands[k].pc.seen.frames >= st.commands[k].before.frames + DELIVERY_FRAMES
    ensures OrdersSound(c, CommandAck(st, k))
  {
  }

  lemma CommandAckKeeps(c: Config, st: State, k: Id)
    requires ValidConfig(c) && Invariant(c, st)
    requires CanCommandDecide(st, k) && st.commands[k].pc.seen.frames >= st.commands[k].before.frames + DELIVERY_FRAMES
    ensures Invariant(c, CommandAck(st, k))
  {
    CommandAckKeepsOrders(c, st, k);
  }

  lemma CommandGoesStaleKeepsOrders(c: Config, st: State, k: Id)
    requires ValidConfig(c) && Invariant(c, st) && CanCommandDecide(st, k)
    ensures OrdersSound(c, CommandAt(SetLink(st, Stale), k, GivingUp))
  {
  }

  lemma CommandGoesStaleKeeps(c: Config, st: State, k: Id)
    requires ValidConfig(c) && Invariant(c, st) && CanCommandDecide(st, k)
    ensures Invariant(c, CommandAt(SetLink(st, Stale), k, GivingUp))
  {
    HeardGrows(st.link, st.heard, Stale);
    CommandGoesStaleKeepsOrders(c, st, k);
  }

  lemma CommandSleepKeeps(c: Config, st: State, k: Id)
    requires ValidConfig(c) && Invariant(c, st)
    requires CanCommandDecide(st, k) && st.now < st.commands[k].start + c.staleAfter
    ensures Invariant(c, CommandSleep(st, k))
  {
  }

  lemma CommandDecideKeeps(c: Config, st: State, k: Id)
    requires ValidConfig(c) && Invariant(c, st) && CanCommandDecide(st, k)
    ensures Invariant(c, CommandDecide(c, st, k))
  {
    if st.commands[k].pc.seen.frames >= st.commands[k].before.frames + DELIVERY_FRAMES {
      CommandAckKeeps(c, st, k);
    } else if st.now >= st.commands[k].start + c.staleAfter {
      CommandGoesStaleKeeps(c, st, k);
    } else {
      CommandSleepKeeps(c, st, k);
    }
  }

  lemma CommandWakeKeeps(c: Config, st: State, k: Id)
    requires ValidConfig(c) && Invariant(c, st) && CanCommandWake(st, k)
    ensures Invariant(c, CommandWake(st, k))
  {
  }

  lemma CommandGiveUpKeepsOrders(c: Config, st: State, k: Id)
    requires ValidConfig(c) && Invariant(c, st) && CanCommandGiveUp(st, k)
    ensures OrdersSound(c, CommandGiveUp(st, k))
  {
  }

  lemma CommandGiveUpKeeps(c: Config, st: State, k: Id)
    requires ValidConfig(c) && Invariant(c, st) && CanCommandGiveUp(st, k)
    ensures Invariant(c, CommandGiveUp(st, k))
  {
    CommandGiveUpKeepsOrders(c, st, k);
  }

  lemma CommandFaultStagedKeepsOrders(c: Config, st: State, k: Id)
    requires ValidConfig(c) && Invariant(c, st) && CanCommandFault(st, k, true)
    ensures OrdersSound(c, CommandFault(st, k, true))
  {
    StagingFits(st.sessions, st.commands, k, Faulted);
  }

  lemma CommandFaultStagedKeeps(c: Config, st: State, k: Id)
    requires ValidConfig(c) && Invariant(c, st) && CanCommandFault(st, k, true)
    ensures Invariant(c, CommandFault(st, k, true))
  {
    CommandFaultStagedKeepsOrders(c, st, k);
  }

  lemma CommandFaultUnstagedKeepsTasks(c: Config, st: State, k: Id)
    requires TasksSound(c, st) && CanCommandFault(st, k, false)
    ensures TasksSound(c, CommandFault(st, k, false))
  {
  }

  lemma CommandFaultUnstagedKeepsOrders(c: Config, st: State, k: Id)
    requires OrdersSound(c, st) && CanCommandFault(st, k, false)
    ensures OrdersSound(c, CommandFault(st, k, false))
  {
  }

  lemma CommandFaultUnstagedKeeps(c: Config, st: State, k: Id)
    requires ValidConfig(c) && Invariant(c, st) && CanCommandFault(st, k, false)
    ensures Invariant(c, CommandFault(st, k, false))
  {
    CommandFaultUnstagedKeepsTasks(c, st, k);
    CommandFaultUnstagedKeepsOrders(c, st, k);
  }

  lemma CommandFaultKeeps(c: Config, st: State, k: Id, took: bool)
    requires ValidConfig(c) && Invariant(c, st) && CanCommandFault(st, k, took)
    ensures Invariant(c, CommandFault(st, k, took))
  {
    if took {
      CommandFaultStagedKeeps(c, st, k);
    } else {
      CommandFaultUnstagedKeeps(c, st, k);
    }
  }

  lemma QueryAcceptKeeps(c: Config, st: State, q: Id, s: Id)
    requires ValidConfig(c) && Invariant(c, st) && CanQueryTake(st, q) && CanCommand(st) && st.wrapper == Some(s)
    ensures Invariant(c, QueryAccept(st, q, s))
  {
  }

  lemma QueryTakeKeeps(c: Config, st: State, q: Id)
    requires ValidConfig(c) && Invariant(c, st) && CanQueryTake(st, q)
    ensures Invariant(c, QueryTake(st, q))
  {
    if CanCommand(st) {
      QueryAcceptKeeps(c, st, q, st.wrapper.value);
    }
  }

  lemma QueryReadKeeps(c: Config, st: State, q: Id)
    requires ValidConfig(c) && Invariant(c, st) && CanQueryRead(st, q)
    ensures Invariant(c, QueryRead(st, q))
  {
  }

  lemma QueryEndKeeps(c: Config, st: State, q: Id)
    requires ValidConfig(c) && Invariant(c, st) && CanQueryEnd(st, q)
    ensures Invariant(c, QueryEnd(c, st, q))
  {
  }

  lemma QueryFaultKeeps(c: Config, st: State, q: Id)
    requires ValidConfig(c) && Invariant(c, st) && CanQueryFault(st, q)
    ensures Invariant(c, QueryFault(st, q))
  {
  }

  lemma DisconnectCancelKeepsTasks(c: Config, st: State, d: Id, i: Id)
    requires ValidConfig(c) && Invariant(c, st) && CanDisconnectTake(st, d) && st.supervisor == Some(i)
    ensures TasksSound(c, DisconnectCancel(st, d, i))
  {
  }

  lemma DisconnectCancelKeepsSessions(c: Config, st: State, d: Id, i: Id)
    requires ValidConfig(c) && Invariant(c, st) && CanDisconnectTake(st, d) && st.supervisor == Some(i)
    ensures SessionsSound(DisconnectCancel(st, d, i))
  {
  }

  lemma DisconnectCancelKeeps(c: Config, st: State, d: Id, i: Id)
    requires ValidConfig(c) && Invariant(c, st) && CanDisconnectTake(st, d) && st.supervisor == Some(i)
    ensures Invariant(c, DisconnectCancel(st, d, i))
  {
    DisconnectCancelKeepsTasks(c, st, d, i);
    DisconnectCancelKeepsSessions(c, st, d, i);
  }

  lemma DisconnectReapNowKeepsTasks(c: Config, st: State, d: Id)
    requires ValidConfig(c) && Invariant(c, st) && CanDisconnectTake(st, d) && st.supervisor.None?
    ensures TasksSound(c, Reap(st.(lock := ByDisconnect(d), supervisor := None), d))
  {
  }

  lemma DisconnectReapNowKeeps(c: Config, st: State, d: Id)
    requires ValidConfig(c) && Invariant(c, st) && CanDisconnectTake(st, d) && st.supervisor.None?
    ensures Invariant(c, Reap(st.(lock := ByDisconnect(d), supervisor := None), d))
  {
    DisconnectReapNowKeepsTasks(c, st, d);
  }

  lemma DisconnectTakeKeeps(c: Config, st: State, d: Id)
    requires ValidConfig(c) && Invariant(c, st) && CanDisconnectTake(st, d)
    ensures Invariant(c, DisconnectTake(st, d))
  {
    if st.supervisor.Some? {
      DisconnectCancelKeeps(c, st, d, st.supervisor.value);
    } else {
      DisconnectReapNowKeeps(c, st, d);
    }
  }

  lemma DisconnectProceedKeepsTasks(c: Config, st: State, d: Id)
    requires ValidConfig(c) && Invariant(c, st) && CanDisconnectProceed(st, d)
    ensures TasksSound(c, DisconnectProceed(st, d))
  {
  }

  lemma DisconnectProceedKeeps(c: Config, st: State, d: Id)
    requires ValidConfig(c) && Invariant(c, st) && CanDisconnectProceed(st, d)
    ensures Invariant(c, DisconnectProceed(st, d))
  {
    DisconnectProceedKeepsTasks(c, st, d);
  }

  lemma DisconnectReapKeeps(c: Config, st: State, d: Id)
    requires ValidConfig(c) && Invariant(c, st) && CanDisconnectReap(st, d)
    ensures Invariant(c, DisconnectReap(st, d))
  {
  }

  lemma DisconnectStopKeepsSessions(c: Config, st: State, d: Id)
    requires ValidConfig(c) && Invariant(c, st) && CanDisconnectStop(st, d)
    ensures SessionsSound(DisconnectStop(st, d))
  {
  }

  lemma DisconnectStopKeeps(c: Config, st: State, d: Id)
    requires ValidConfig(c) && Invariant(c, st) && CanDisconnectStop(st, d)
    ensures Invariant(c, DisconnectStop(st, d))
  {
    DisconnectStopKeepsSessions(c, st, d);
  }

  lemma DisconnectEndKeepsSessions(c: Config, st: State, d: Id)
    requires TasksSound(c, st) && SessionsSound(st) && CanDisconnectEnd(st, d)
    ensures SessionsSound(DisconnectEnd(st, d))
  {
  }

  lemma DisconnectEndKeepsOrders(c: Config, st: State, d: Id)
    requires ValidConfig(c) && Invariant(c, st) && CanDisconnectEnd(st, d)
    ensures OrdersSound(c, DisconnectEnd(st, d))
  {
  }

  lemma DisconnectEndKeeps(c: Config, st: State, d: Id)
    requires ValidConfig(c) && Invariant(c, st) && CanDisconnectEnd(st, d)
    ensures Invariant(c, DisconnectEnd(st, d))
  {
    DisconnectEndKeepsSessions(c, st, d);
    HeardGrows(st.link, st.heard, Disconnected);
    DisconnectEndKeepsOrders(c, st, d);
  }

  // -- all of them -------------------------------------------------------------------

  lemma SupervisorMoveKeeps(c: Config, st: State, i: Id, move: SupervisorMove)
    requires ValidConfig(c) && Invariant(c, st) && SupervisorEnabled(st, i, move)
    ensures Invariant(c, SupervisorNext(c, st, i, move))
  {
    match move
    case Takes => SupervisorTakeKeeps(c, st, i);
    case HasBuilt => SupervisorBuiltKeeps(c, st, i);
    case Snaps => SupervisorSnapKeeps(c, st, i);
    case Faults => SupervisorFaultKeeps(c, st, i);
    case Judges => SupervisorJudgeKeeps(c, st, i);
    case DropsStale => SupervisorDropStaleKeeps(c, st, i);
    case Wakes => SupervisorWakeKeeps(c, st, i);
    case TakesToDrop => SupervisorTakeToDropKeeps(c, st, i);
    case DropsFailed => SupervisorDropFailedKeeps(c, st, i);
    case Retries(kicked) => SupervisorRetryKeeps(c, st, i, kicked);
    case Dies => SupervisorDieKeeps(c, st, i);
    case CancelledOutside => OutsideCancelKeeps(c, st, i);
  }

  lemma CommandMoveKeeps(c: Config, st: State, k: Id, move: CommandMove)
    requires ValidConfig(c) && Invariant(c, st) && CommandEnabled(st, k, move)
    ensures Invariant(c, CommandNext(c, st, k, move))
  {
    match move
    case Begins => CommandTakeKeeps(c, st, k);
    case ReadsBefore => CommandReadBeforeKeeps(c, st, k);
    case JudgesBefore => CommandJudgeKeeps(c, st, k);
    case Stages => CommandStageKeeps(c, st, k);
    case Arms => CommandArmKeeps(c, st, k);
    case Polls => CommandPollKeeps(c, st, k);
    case Decides => CommandDecideKeeps(c, st, k);
    case PollsAgain => CommandWakeKeeps(c, st, k);
    case GivesUp => CommandGiveUpKeeps(c, st, k);
    case Raises(took) => CommandFaultKeeps(c, st, k, took);
  }

  lemma QueryMoveKeeps(c: Config, st: State, q: Id, move: QueryMove)
    requires ValidConfig(c) && Invariant(c, st) && QueryEnabled(st, q, move)
    ensures Invariant(c, QueryNext(c, st, q, move))
  {
    match move
    case Asks => QueryTakeKeeps(c, st, q);
    case Reads => QueryReadKeeps(c, st, q);
    case Answers => QueryEndKeeps(c, st, q);
    case ReadRaises => QueryFaultKeeps(c, st, q);
  }

  lemma DisconnectMoveKeeps(c: Config, st: State, d: Id, move: DisconnectMove)
    requires ValidConfig(c) && Invariant(c, st) && DisconnectEnabled(st, d, move)
    ensures Invariant(c, DisconnectNext(st, d, move))
  {
    match move
    case Locks => DisconnectTakeKeeps(c, st, d);
    case Proceeds => DisconnectProceedKeeps(c, st, d);
    case Reaps => DisconnectReapKeeps(c, st, d);
    case StopsOrphan => DisconnectStopKeeps(c, st, d);
    case Ends => DisconnectEndKeeps(c, st, d);
  }

  lemma StepKeeps(c: Config, st: State, e: Step)
    requires ValidConfig(c) && Invariant(c, st) && Enabled(st, e)
    ensures Invariant(c, Next(c, st, e))
  {
    match e
    case Time(dt) => TickKeeps(c, st, dt);
    case FrameArrives(s, scenario) => FrameKeeps(c, st, s, scenario);
    case BuildEnds(b, started) => BuildEndKeeps(c, st, b, started);
    case ConnectCalled => ConnectKeeps(c, st);
    case CommandCalled(order) => CallCommandKeeps(c, st, order);
    case QueryCalled =>
    case DisconnectCalled =>
    case SupervisorStep(i, move) => SupervisorMoveKeeps(c, st, i, move);
    case CommandStep(k, move) => CommandMoveKeeps(c, st, k, move);
    case QueryStep(q, move) => QueryMoveKeeps(c, st, q, move);
    case DisconnectStep(d, move) => DisconnectMoveKeeps(c, st, d, move);
  }

  /** The invariant holds in every state that any interleaving reaches. */
  lemma {:induction false} RunKeeps(c: Config, from: State, steps: seq<Step>)
    requires ValidConfig(c) && Invariant(c, from)
    requires Exec(c, from, steps).Some?
    ensures Invariant(c, Exec(c, from, steps).value)
    decreases |steps|
  {
    if steps != [] {
      StepKeeps(c, from, steps[0]);
      RunKeeps(c, Next(c, from, steps[0]), steps[1..]);
    }
  }

  // -- short runs ------------------------------------------------------------------------

  lemma Exec1(c: Config, from: State, e: Step)
    requires Enabled(from, e)
    ensures Exec(c, from, [e]) == Some(Next(c, from, e))
  {
    assert [e][1..] == [];
  }

  lemma Exec2(c: Config, from: State, e0: Step, e1: Step)
    requires Enabled(from, e0) && Enabled(Next(c, from, e0), e1)
    ensures Exec(c, from, [e0, e1]) == Some(Next(c, Next(c, from, e0), e1))
  {
    assert [e0, e1][1..] == [e1];
    Exec1(c, Next(c, from, e0), e1);
  }

  lemma Exec3(c: Config, from: State, e0: Step, e1: Step, e2: Step)
    requires Enabled(from, e0) && Enabled(Next(c, from, e0), e1) && Enabled(Next(c, Next(c, from, e0), e1), e2)
    ensures Exec(c, from, [e0, e1, e2]) == Some(Next(c, Next(c, Next(c, from, e0), e1), e2))
  {
    assert [e0, e1, e2][1..] == [e1, e2];
    Exec2(c, Next(c, from, e0), e1, e2);
  }

  lemma ExecAppend(c: Config, from: State, a: seq<Step>, b: seq<Step>)
    requires Exec(c, from, a).Some?
    ensures Exec(c, from, a + b) == Exec(c, Exec(c, from, a).value, b)
    decreases |a|
  {
    if a == [] {
      assert a + b == b;
    } else {
      assert (a + b)[1..] == a[1..] + b;
      ExecAppend(c, Next(c, from, a[0]), a[1..], b);
    }
  }
}
