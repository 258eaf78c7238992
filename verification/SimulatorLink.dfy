/**
 The simulator link of voice_agent/backends/simulator/real.py as a step system.

 The supervisor task, the command callers, connect() and disconnect() interleave
 at their awaits, around one lock.  Every await is a step boundary.  A thread call
 (asyncio.to_thread) whose effect no other task can tell apart from the resumption
 of its awaiter is one step; a snapshot is two, because frames and time may pass
 between the read and the decision taken on it.

 A waiting task may take the lock whenever it is free, in any order, and a sleep
 that has no bearing on a property may end at any time, so the runs of this system
 include all those of the FIFO lock and of the timed sleeps.
 */
module SimulatorLink {
  import opened Prelude

  /** Sessions, builds, supervisors and callers are numbered in order of creation. */
  type Id = nat

  datatype LinkState = Disconnected | Connecting | Connected | Stale

  /** The settings of the client; an order is confirmed, or failed, within `staleAfter` seconds. */
  datatype Config = Config(staleAfter: real, reconnectInitial: real, reconnectMax: real)

  const DELIVERY_FRAMES: nat := 2
  const POLL_SECONDS: real := 0.01

  datatype Order = Rudder(angle: real) | Lever(position: real)

  /** One read of a session; no age means that no frame ever arrived. */
  datatype Snapshot = Snapshot(initialized: bool, frames: nat, age: Option<real>) {
    predicate Old(c: Config) {
      age.None? || age.value > c.staleAfter
    }

    predicate Healthy(c: Config) {
      initialized && !Old(c)
    }
  }

  /** A wrapper session.  `rudder` and `lever` name the commands whose setpoints it holds. */
  datatype Session = Session(
    build: Id,
    live: bool,
    initialized: bool,
    frames: nat,
    lastFrame: Option<real>,
    rudder: Option<Id>,
    lever: Option<Id>)
  {
    predicate Holds(k: Id) {
      rudder == Some(k) || lever == Some(k)
    }

    function Read(now: real): Snapshot {
      Snapshot(initialized, frames, if lastFrame.None? then None else Some(now - lastFrame.value))
    }

    function Received(now: real, scenario: bool): Session {
      this.(frames := frames + 1, lastFrame := Some(now), initialized := initialized || scenario)
    }

    function Hold(order: Order, k: Id): Session {
      if order.Rudder? then this.(rudder := Some(k)) else this.(lever := Some(k))
    }
  }

  /** The thread that opens a session; nothing can interrupt it. */
  datatype Build = Running | Built(session: Id) | Broken

  datatype SupervisorPc =
    | WantLock                   // about to enter the guarded part of the loop
    | Building(build: Id)
    | Snapping
    | Snapped(seen: Snapshot)
    | DroppingStale
    | Napping
    | WantLockToDrop             // in the handler of a failed session
    | DroppingFailed
    | BackingOff(delay: real)
    | Finished

  /** `failures` counts the failed sessions since the last healthy cycle. */
  datatype Supervisor = Supervisor(pc: SupervisorPc, cancelled: bool, backoff: real, failures: nat) {
    predicate HasLock() {
      pc.Building? || pc.Snapping? || pc.Snapped? || pc.DroppingStale? || pc.DroppingFailed?
    }

    predicate Alive() {
      !pc.Finished?
    }

    /** Where the supervisor is suspended without the lock: a cancellation ends it there. */
    predicate Interruptible() {
      pc.WantLock? || pc.Napping? || pc.WantLockToDrop? || pc.BackingOff?
    }
  }

  datatype CommandPc =
    | Waiting
    | ReadingBefore
    | Judging
    | Staging
    | Staged
    | Polling
    | Polled(seen: Snapshot)
    | Sleeping(until: real)
    | GivingUp
    | Acked(shown: Snapshot)     // returned a ship state
    | Refused                    // raised before anything was staged
    | TimedOut                   // raised "order not delivered"
    | Faulted                    // a call into the wrapper raised

  /**
   A set_rudder or set_engine_telegraph call.  `mark` is the frame count of the
   session when the order was staged, `start` the clock when the confirmation
   budget began, `polls` the sleeps taken so far, and `delivered` the number of
   frames that carried the order.
   */
  datatype Command = Command(
    order: Order,
    pc: CommandPc,
    session: Id,
    before: Snapshot,
    staged: bool,
    mark: nat,
    start: real,
    polls: nat,
    delivered: nat)
  {
    predicate HasLock() {
      pc.ReadingBefore? || pc.Judging? || pc.Staging? || Confirming() || pc.GivingUp?
    }

    predicate Confirming() {
      pc.Staged? || pc.Polling? || pc.Polled? || pc.Sleeping?
    }

    predicate Failed() {
      pc.Refused? || pc.TimedOut? || pc.Faulted?
    }
  }

  /** A get_state call. */
  datatype Query =
    | QueryWaiting
    | QueryReading(session: Id)
    | QueryHasRead(session: Id, seen: Snapshot)
    | Reported(session: Id, shown: Snapshot)
    | QueryFailed
  {
    predicate HasLock() {
      QueryReading? || QueryHasRead?
    }
  }

  /** A disconnect() call. */
  datatype Disconnect =
    | DisconnectWaiting
    | AwaitSupervisor(supervisor: Id)
    | AwaitBuild(build: Id)
    | StoppingOrphan(session: Id)
    | Dropping
    | Returned
  {
    predicate HasLock() {
      AwaitSupervisor? || AwaitBuild? || StoppingOrphan? || Dropping?
    }
  }

  datatype Owner = Free | BySupervisor(i: Id) | ByCommand(k: Id) | ByQuery(q: Id) | ByDisconnect(d: Id)

  /**
   The fields of the client, the tasks, and four records that the code does not
   keep: `heard` is what a state listener is told, `kicks` and `cut` count the
   connect() calls that found a supervisor and the backoffs cut short, and `lost`
   are the builds whose `_pending_build` entry was overwritten.
   */
  datatype State = State(
    now: real,
    link: LinkState,
    wrapper: Option<Id>,
    supervisor: Option<Id>,
    pendingBuild: Option<Id>,
    retryNow: bool,
    lock: Owner,
    sessions: seq<Session>,
    builds: seq<Build>,
    supervisors: seq<Supervisor>,
    commands: seq<Command>,
    queries: seq<Query>,
    disconnects: seq<Disconnect>,
    heard: seq<LinkState>,
    kicks: nat,
    cut: nat,
    lost: set<Id>)

  const INIT := State(0.0, Disconnected, None, None, None, false, Free, [], [], [], [], [], [], [], 0, 0, {})

  // -- parts of a step ------------------------------------------------------

  /** real.py `_set_state`: the listener hears changes only. */
  function SetLink(st: State, link: LinkState): State {
    st.(link := link, heard := if link == st.link then st.heard else st.heard + [link])
  }

  /** `stop()` of a session: no frame reaches it any more. */
  function Stopped(sessions: seq<Session>, s: Id): seq<Session> {
    if s < |sessions| then sessions[s := sessions[s].(live := false)] else sessions
  }

  /** real.py `_drop_session`. */
  function Drop(st: State): State {
    st.(wrapper := None,
        sessions := if st.wrapper.Some? then Stopped(st.sessions, st.wrapper.value) else st.sessions)
  }

  predicate CanCommand(st: State) {
    st.link.Connected? && st.wrapper.Some?
  }

  predicate SupervisorRuns(st: State) {
    st.supervisor.Some? && st.supervisor.value < |st.supervisors| && st.supervisors[st.supervisor.value].Alive()
  }

  function Min(a: real, b: real): real {
    if a <= b then a else b
  }

  // -- the environment: time, the simulator, the build thread -----------------

  function Tick(st: State, dt: real): State {
    st.(now := st.now + dt)
  }

  predicate CanReceive(st: State, s: Id) {
    s < |st.sessions| && st.sessions[s].live
  }

  /** A held setpoint is re-asserted on every frame. */
  function Deliver(commands: seq<Command>, held: Option<Id>): seq<Command> {
    if held.Some? && held.value < |commands| then
      var k := held.value;
      commands[k := commands[k].(delivered := commands[k].delivered + 1)]
    else
      commands
  }

  function Frame(st: State, s: Id, scenario: bool): State
    requires CanReceive(st, s)
  {
    var e := st.sessions[s];
    st.(sessions := st.sessions[s := e.Received(st.now, scenario)],
        commands := Deliver(Deliver(st.commands, e.rudder), e.lever))
  }

  predicate CanBuildEnd(st: State, b: Id) {
    b < |st.builds| && st.builds[b].Running?
  }

  function BuildEnd(st: State, b: Id, started: bool): State
    requires CanBuildEnd(st, b)
  {
    if started then
      st.(sessions := st.sessions + [Session(b, true, false, 0, None, None, None)],
          builds := st.builds[b := Built(|st.sessions|)])
    else
      st.(builds := st.builds[b := Broken])
  }

  // -- callers ------------------------------------------------------------------

  /** connect() up to the release of the lock; what follows only reads the state. */
  function Connect(c: Config, st: State): State {
    if SupervisorRuns(st) then
      st.(retryNow := true, kicks := st.kicks + 1)
    else
      SetLink(st, Connecting).(
        supervisors := st.supervisors + [Supervisor(WantLock, false, c.reconnectInitial, 0)],
        supervisor := Some(|st.supervisors|))
  }

  function CallCommand(st: State, order: Order): State {
    st.(commands := st.commands + [Command(order, Waiting, 0, Snapshot(false, 0, None), false, 0, 0.0, 0, 0)])
  }

  // -- the supervisor ---------------------------------------------------------

  function SupervisorAt(st: State, i: Id, pc: SupervisorPc): State
    requires i < |st.supervisors|
  {
    st.(supervisors := st.supervisors[i := st.supervisors[i].(pc := pc)])
  }

  predicate CanSupervisorTake(st: State, i: Id) {
    i < |st.supervisors| && !st.supervisors[i].cancelled && st.supervisors[i].pc.WantLock? && st.lock.Free?
  }

  /** The guarded part begins: with no session, one is built. */
  function SupervisorTake(st: State, i: Id): State
    requires CanSupervisorTake(st, i)
  {
    if st.wrapper.None? then SupervisorStartBuild(st, i)
    else SupervisorAt(st.(lock := BySupervisor(i)), i, Snapping)
  }

  /** real.py `_build_guarded` up to its await: the build is recorded as pending, whatever was recorded before. */
  function SupervisorStartBuild(st: State, i: Id): State
    requires i < |st.supervisors|
  {
    SupervisorAt(
      SetLink(st, Connecting).(
        builds := st.builds + [Running],
        lost := if st.pendingBuild.Some? then st.lost + {st.pendingBuild.value} else st.lost,
        pendingBuild := Some(|st.builds|),
        lock := BySupervisor(i)),
      i, Building(|st.builds|))
  }

  predicate CanSupervisorHaveBuilt(st: State, i: Id) {
    && i < |st.supervisors| && !st.supervisors[i].cancelled && st.supervisors[i].pc.Building?
    && st.supervisors[i].pc.build < |st.builds| && !st.builds[st.supervisors[i].pc.build].Running?
  }

  function SupervisorBuilt(st: State, i: Id): State
    requires CanSupervisorHaveBuilt(st, i)
  {
    var build := st.builds[st.supervisors[i].pc.build];
    if build.Built? then SupervisorAdopt(st, i, build.session)
    else SupervisorAt(st.(pendingBuild := None, lock := Free), i, WantLockToDrop)
  }

  function SupervisorAdopt(st: State, i: Id, s: Id): State
    requires i < |st.supervisors|
  {
    SupervisorAt(st.(wrapper := Some(s), pendingBuild := None), i, Snapping)
  }

  predicate CanSupervisorSnap(st: State, i: Id) {
    && i < |st.supervisors| && !st.supervisors[i].cancelled && st.supervisors[i].pc.Snapping?
    && st.wrapper.Some? && st.wrapper.value < |st.sessions|
  }

  function SupervisorSnap(st: State, i: Id): State
    requires CanSupervisorSnap(st, i)
  {
    SupervisorAt(st, i, Snapped(st.sessions[st.wrapper.value].Read(st.now)))
  }

  predicate CanSupervisorFault(st: State, i: Id) {
    i < |st.supervisors| && !st.supervisors[i].cancelled && st.supervisors[i].pc.Snapping?
  }

  /** The snapshot raised: the guarded part is left for the handler. */
  function SupervisorFault(st: State, i: Id): State
    requires CanSupervisorFault(st, i)
  {
    SupervisorAt(st.(lock := Free), i, WantLockToDrop)
  }

  predicate CanSupervisorJudge(st: State, i: Id) {
    i < |st.supervisors| && !st.supervisors[i].cancelled && st.supervisors[i].pc.Snapped?
  }

  function SupervisorJudge(c: Config, st: State, i: Id): State
    requires CanSupervisorJudge(st, i)
  {
    if st.supervisors[i].pc.seen.Healthy(c) then
      SupervisorHealthy(c, st, i)
    else if st.link.Connected? then
      SupervisorAt(SetLink(st, Stale), i, DroppingStale)
    else
      SupervisorAt(st.(lock := Free), i, Napping)
  }

  function SupervisorHealthy(c: Config, st: State, i: Id): State
    requires i < |st.supervisors|
  {
    SetLink(st, Connected).(
      retryNow := false,
      lock := Free,
      supervisors := st.supervisors[i := st.supervisors[i].(
        pc := Napping, backoff := c.reconnectInitial, failures := 0)])
  }

  predicate CanSupervisorDropStale(st: State, i: Id) {
    i < |st.supervisors| && !st.supervisors[i].cancelled && st.supervisors[i].pc.DroppingStale?
  }

  function SupervisorDropStale(st: State, i: Id): State
    requires CanSupervisorDropStale(st, i)
  {
    SupervisorAt(Drop(st).(lock := Free), i, Napping)
  }

  predicate CanSupervisorWake(st: State, i: Id) {
    i < |st.supervisors| && !st.supervisors[i].cancelled && st.supervisors[i].pc.Napping?
  }

  function SupervisorWake(st: State, i: Id): State
    requires CanSupervisorWake(st, i)
  {
    SupervisorAt(st, i, WantLock)
  }

  predicate CanSupervisorTakeToDrop(st: State, i: Id) {
    i < |st.supervisors| && !st.supervisors[i].cancelled && st.supervisors[i].pc.WantLockToDrop? && st.lock.Free?
  }

  function SupervisorTakeToDrop(st: State, i: Id): State
    requires CanSupervisorTakeToDrop(st, i)
  {
    SupervisorAt(st.(lock := BySupervisor(i)), i, DroppingFailed)
  }

  predicate CanSupervisorDropFailed(st: State, i: Id) {
    i < |st.supervisors| && !st.supervisors[i].cancelled && st.supervisors[i].pc.DroppingFailed?
  }

  function SupervisorDropFailed(st: State, i: Id): State
    requires CanSupervisorDropFailed(st, i)
  {
    SupervisorAt(SetLink(Drop(st), Connecting).(lock := Free), i, BackingOff(st.supervisors[i].backoff))
  }

  predicate CanSupervisorRetry(st: State, i: Id, kicked: bool) {
    && i < |st.supervisors| && !st.supervisors[i].cancelled && st.supervisors[i].pc.BackingOff?
    && (kicked ==> st.retryNow)
  }

  /** The backoff is over, by its timeout or by a kick; either way the kick is spent. */
  function SupervisorRetry(c: Config, st: State, i: Id, kicked: bool): State
    requires CanSupervisorRetry(st, i, kicked)
  {
    var sup := st.supervisors[i];
    st.(retryNow := false,
        cut := if kicked then st.cut + 1 else st.cut,
        supervisors := st.supervisors[i := sup.(
          pc := WantLock,
          backoff := Min(sup.backoff * 2.0, c.reconnectMax),
          failures := sup.failures + 1)])
  }

  predicate CanSupervisorDie(st: State, i: Id) {
    i < |st.supervisors| && st.supervisors[i].cancelled && st.supervisors[i].Interruptible()
  }

  /** A pending cancellation is delivered at the await where the task is suspended. */
  function SupervisorDie(st: State, i: Id): State
    requires CanSupervisorDie(st, i)
  {
    var sup := st.supervisors[i];
    SupervisorAt(st.(retryNow := if sup.pc.BackingOff? then false else st.retryNow), i, Finished)
  }

  predicate CanOutsideCancel(st: State, i: Id) {
    i < |st.supervisors| && !st.supervisors[i].cancelled && st.supervisors[i].pc.Building?
  }

  /** Somebody other than disconnect() cancels the supervisor while it awaits a build. */
  function OutsideCancel(st: State, i: Id): State
    requires CanOutsideCancel(st, i)
  {
    SupervisorAt(st.(lock := Free), i, Finished)
  }

  // -- commands ---------------------------------------------------------------

  function CommandAt(st: State, k: Id, pc: CommandPc): State
    requires k < |st.commands|
  {
    st.(commands := st.commands[k := st.commands[k].(pc := pc)])
  }

  predicate CanCommandTake(st: State, k: Id) {
    k < |st.commands| && st.commands[k].pc.Waiting? && st.lock.Free?
  }

  function CommandTake(st: State, k: Id): State
    requires CanCommandTake(st, k)
  {
    if CanCommand(st) then CommandAccept(st, k, st.wrapper.value)
    else CommandAt(st, k, Refused)
  }

  function CommandAccept(st: State, k: Id, s: Id): State
    requires k < |st.commands|
  {
    st.(lock := ByCommand(k),
        commands := st.commands[k := st.commands[k].(pc := ReadingBefore, session := s)])
  }

  /** Command k is at a point of `_stage_and_confirm` where its session is in use. */
  predicate CommandAtWork(st: State, k: Id) {
    k < |st.commands| && st.commands[k].session < |st.sessions|
  }

  predicate CanCommandReadBefore(st: State, k: Id) {
    CommandAtWork(st, k) && st.commands[k].pc.ReadingBefore?
  }

  function CommandReadBefore(st: State, k: Id): State
    requires CanCommandReadBefore(st, k)
  {
    var cmd := st.commands[k];
    st.(commands := st.commands[k := cmd.(pc := Judging, before := st.sessions[cmd.session].Read(st.now))])
  }

  predicate CanCommandJudge(st: State, k: Id) {
    CommandAtWork(st, k) && st.commands[k].pc.Judging?
  }

  function CommandJudge(c: Config, st: State, k: Id): State
    requires CanCommandJudge(st, k)
  {
    if st.commands[k].before.Old(c) then CommandRefuse(st, k) else CommandAt(st, k, Staging)
  }

  function CommandRefuse(st: State, k: Id): State
    requires k < |st.commands|
  {
    CommandAt(st.(lock := Free), k, Refused)
  }

  /** The session holds the setpoint from now on. */
  function StageOrder(st: State, k: Id, pc: CommandPc): State
    requires CommandAtWork(st, k)
  {
    var cmd := st.commands[k];
    var s := cmd.session;
    st.(sessions := st.sessions[s := st.sessions[s].Hold(cmd.order, k)],
        commands := st.commands[k := cmd.(pc := pc, staged := true, mark := st.sessions[s].frames)])
  }

  predicate CanCommandStage(st: State, k: Id) {
    CommandAtWork(st, k) && st.commands[k].pc.Staging?
  }

  function CommandStage(st: State, k: Id): State
    requires CanCommandStage(st, k)
  {
    StageOrder(st, k, Staged)
  }

  predicate CanCommandArm(st: State, k: Id) {
    CommandAtWork(st, k) && st.commands[k].pc.Staged?
  }

  function CommandArm(st: State, k: Id): State
    requires CanCommandArm(st, k)
  {
    st.(commands := st.commands[k := st.commands[k].(pc := Polling, start := st.now)])
  }

  predicate CanCommandPoll(st: State, k: Id) {
    CommandAtWork(st, k) && st.commands[k].pc.Polling?
  }

  function CommandPoll(st: State, k: Id): State
    requires CanCommandPoll(st, k)
  {
    CommandAt(st, k, Polled(st.sessions[st.commands[k].session].Read(st.now)))
  }

  predicate CanCommandDecide(st: State, k: Id) {
    CommandAtWork(st, k) && st.commands[k].pc.Polled?
  }

  function CommandDecide(c: Config, st: State, k: Id): State
    requires CanCommandDecide(st, k)
  {
    if st.commands[k].pc.seen.frames >= st.commands[k].before.frames + DELIVERY_FRAMES then
      CommandAck(st, k)
    else if st.now >= st.commands[k].start + c.staleAfter then
      CommandAt(SetLink(st, Stale), k, GivingUp)
    else
      CommandSleep(st, k)
  }

  function CommandAck(st: State, k: Id): State
    requires CanCommandDecide(st, k)
  {
    CommandAt(st.(lock := Free), k, Acked(st.commands[k].pc.seen))
  }

  function CommandSleep(st: State, k: Id): State
    requires k < |st.commands|
  {
    st.(commands := st.commands[k := st.commands[k].(
      pc := Sleeping(st.now + POLL_SECONDS), polls := st.commands[k].polls + 1)])
  }

  predicate CanCommandWake(st: State, k: Id) {
    CommandAtWork(st, k) && st.commands[k].pc.Sleeping? && st.commands[k].pc.until <= st.now
  }

  function CommandWake(st: State, k: Id): State
    requires CanCommandWake(st, k)
  {
    CommandAt(st, k, Polling)
  }

  predicate CanCommandGiveUp(st: State, k: Id) {
    CommandAtWork(st, k) && st.commands[k].pc.GivingUp?
  }

  /** The session is dropped, with the order in it, and only then is the failure raised. */
  function CommandGiveUp(st: State, k: Id): State
    requires CanCommandGiveUp(st, k)
  {
    CommandAt(Drop(st).(lock := Free), k, TimedOut)
  }

  predicate CanCommandFault(st: State, k: Id, took: bool) {
    && CommandAtWork(st, k)
    && (var pc := st.commands[k].pc; pc.ReadingBefore? || pc.Staging? || pc.Polling?)
    && (took ==> st.commands[k].pc.Staging?)
  }

  /** A snapshot or an order_* call raised; `took` says that the order reached the session all the same. */
  function CommandFault(st: State, k: Id, took: bool): State
    requires CanCommandFault(st, k, took)
  {
    if took then StageOrder(st, k, Faulted).(lock := Free) else CommandAt(st.(lock := Free), k, Faulted)
  }

  // -- queries ------------------------------------------------------------------

  function QueryAt(st: State, q: Id, query: Query): State
    requires q < |st.queries|
  {
    st.(queries := st.queries[q := query])
  }

  predicate CanQueryTake(st: State, q: Id) {
    q < |st.queries| && st.queries[q].QueryWaiting? && st.lock.Free?
  }

  function QueryTake(st: State, q: Id): State
    requires CanQueryTake(st, q)
  {
    if CanCommand(st) then QueryAccept(st, q, st.wrapper.value) else QueryAt(st, q, QueryFailed)
  }

  function QueryAccept(st: State, q: Id, s: Id): State
    requires q < |st.queries|
  {
    QueryAt(st.(lock := ByQuery(q)), q, QueryReading(s))
  }

  predicate CanQueryRead(st: State, q: Id) {
    q < |st.queries| && st.queries[q].QueryReading? && st.queries[q].session < |st.sessions|
  }

  function QueryRead(st: State, q: Id): State
    requires CanQueryRead(st, q)
  {
    var s := st.queries[q].session;
    QueryAt(st, q, QueryHasRead(s, st.sessions[s].Read(st.now)))
  }

  predicate CanQueryEnd(st: State, q: Id) {
    q < |st.queries| && st.queries[q].QueryHasRead?
  }

  function QueryEnd(c: Config, st: State, q: Id): State
    requires CanQueryEnd(st, q)
  {
    var query := st.queries[q];
    QueryAt(st.(lock := Free), q, if query.seen.Healthy(c) then Reported(query.session, query.seen) else QueryFailed)
  }

  predicate CanQueryFault(st: State, q: Id) {
    q < |st.queries| && st.queries[q].QueryReading?
  }

  function QueryFault(st: State, q: Id): State
    requires CanQueryFault(st, q)
  {
    QueryAt(st.(lock := Free), q, QueryFailed)
  }

  // -- disconnect ---------------------------------------------------------------

  function DisconnectAt(st: State, d: Id, pc: Disconnect): State
    requires d < |st.disconnects|
  {
    st.(disconnects := st.disconnects[d := pc])
  }

  predicate CanDisconnectTake(st: State, d: Id) {
    d < |st.disconnects| && st.disconnects[d].DisconnectWaiting? && st.lock.Free?
  }

  /** The supervisor is cancelled and awaited with the lock held. */
  function DisconnectTake(st: State, d: Id): State
    requires CanDisconnectTake(st, d)
  {
    if st.supervisor.Some? && st.supervisor.value < |st.supervisors| then
      DisconnectCancel(st, d, st.supervisor.value)
    else
      Reap(st.(lock := ByDisconnect(d), supervisor := None), d)
  }

  function DisconnectCancel(st: State, d: Id, i: Id): State
    requires d < |st.disconnects| && i < |st.supervisors|
  {
    DisconnectAt(
      st.(lock := ByDisconnect(d),
          supervisor := None,
          supervisors := st.supervisors[i := st.supervisors[i].(cancelled := true)]),
      d, AwaitSupervisor(i))
  }

  /** Take over a build that the supervisor was cancelled out of, if there is one. */
  function Reap(st: State, d: Id): State
    requires d < |st.disconnects|
  {
    match st.pendingBuild
    case Some(b) => DisconnectAt(st.(pendingBuild := None), d, AwaitBuild(b))
    case None => DisconnectAt(st, d, Dropping)
  }

  predicate CanDisconnectProceed(st: State, d: Id) {
    && d < |st.disconnects| && st.disconnects[d].AwaitSupervisor?
    && st.disconnects[d].supervisor < |st.supervisors| && !st.supervisors[st.disconnects[d].supervisor].Alive()
  }

  function DisconnectProceed(st: State, d: Id): State
    requires CanDisconnectProceed(st, d)
  {
    Reap(st, d)
  }

  predicate CanDisconnectReap(st: State, d: Id) {
    && d < |st.disconnects| && st.disconnects[d].AwaitBuild?
    && st.disconnects[d].build < |st.builds| && !st.builds[st.disconnects[d].build].Running?
  }

  function DisconnectReap(st: State, d: Id): State
    requires CanDisconnectReap(st, d)
  {
    var build := st.builds[st.disconnects[d].build];
    DisconnectAt(st, d, if build.Built? then StoppingOrphan(build.session) else Dropping)
  }

  predicate CanDisconnectStop(st: State, d: Id) {
    d < |st.disconnects| && st.disconnects[d].StoppingOrphan?
  }

  function DisconnectStop(st: State, d: Id): State
    requires CanDisconnectStop(st, d)
  {
    DisconnectAt(st.(sessions := Stopped(st.sessions, st.disconnects[d].session)), d, Dropping)
  }

  predicate CanDisconnectEnd(st: State, d: Id) {
    d < |st.disconnects| && st.disconnects[d].Dropping?
  }

  function DisconnectEnd(st: State, d: Id): State
    requires CanDisconnectEnd(st, d)
  {
    DisconnectAt(SetLink(Drop(st), Disconnected).(lock := Free), d, Returned)
  }

  // -- steps and runs --------------------------------------------------------------

  datatype SupervisorMove =
    | Takes
    | HasBuilt
    | Snaps
    | Faults
    | Judges
    | DropsStale
    | Wakes
    | TakesToDrop
    | DropsFailed
    | Retries(kicked: bool)
    | Dies
    | CancelledOutside

  datatype CommandMove =
    | Begins
    | ReadsBefore
    | JudgesBefore
    | Stages
    | Arms
    | Polls
    | Decides
    | PollsAgain
    | GivesUp
    | Raises(took: bool)

  datatype QueryMove = Asks | Reads | Answers | ReadRaises

  datatype DisconnectMove = Locks | Proceeds | Reaps | StopsOrphan | Ends

  datatype Step =
    | Time(dt: real)
    | FrameArrives(session: Id, scenario: bool)
    | BuildEnds(build: Id, started: bool)
    | ConnectCalled
    | CommandCalled(order: Order)
    | QueryCalled
    | DisconnectCalled
    | SupervisorStep(i: Id, supervisorMove: SupervisorMove)
    | CommandStep(k: Id, commandMove: CommandMove)
    | QueryStep(q: Id, queryMove: QueryMove)
    | DisconnectStep(d: Id, disconnectMove: DisconnectMove)

  predicate SupervisorEnabled(st: State, i: Id, move: SupervisorMove) {
    match move
    case Takes => CanSupervisorTake(st, i)
    case HasBuilt => CanSupervisorHaveBuilt(st, i)
    case Snaps => CanSupervisorSnap(st, i)
    case Faults => CanSupervisorFault(st, i)
    case Judges => CanSupervisorJudge(st, i)
    case DropsStale => CanSupervisorDropStale(st, i)
    case Wakes => CanSupervisorWake(st, i)
    case TakesToDrop => CanSupervisorTakeToDrop(st, i)
    case DropsFailed => CanSupervisorDropFailed(st, i)
    case Retries(kicked) => CanSupervisorRetry(st, i, kicked)
    case Dies => CanSupervisorDie(st, i)
    case CancelledOutside => CanOutsideCancel(st, i)
  }

  function SupervisorNext(c: Config, st: State, i: Id, move: SupervisorMove): State
    requires SupervisorEnabled(st, i, move)
  {
    match move
    case Takes => SupervisorTake(st, i)
    case HasBuilt => SupervisorBuilt(st, i)
    case Snaps => SupervisorSnap(st, i)
    case Faults => SupervisorFault(st, i)
    case Judges => SupervisorJudge(c, st, i)
    case DropsStale => SupervisorDropStale(st, i)
    case Wakes => SupervisorWake(st, i)
    case TakesToDrop => SupervisorTakeToDrop(st, i)
    case DropsFailed => SupervisorDropFailed(st, i)
    case Retries(kicked) => SupervisorRetry(c, st, i, kicked)
    case Dies => SupervisorDie(st, i)
    case CancelledOutside => OutsideCancel(st, i)
  }

  predicate CommandEnabled(st: State, k: Id, move: CommandMove) {
    match move
    case Begins => CanCommandTake(st, k)
    case ReadsBefore => CanCommandReadBefore(st, k)
    case JudgesBefore => CanCommandJudge(st, k)
    case Stages => CanCommandStage(st, k)
    case Arms => CanCommandArm(st, k)
    case Polls => CanCommandPoll(st, k)
    case Decides => CanCommandDecide(st, k)
    case PollsAgain => CanCommandWake(st, k)
    case GivesUp => CanCommandGiveUp(st, k)
    case Raises(took) => CanCommandFault(st, k, took)
  }

  function CommandNext(c: Config, st: State, k: Id, move: CommandMove): State
    requires CommandEnabled(st, k, move)
  {
    match move
    case Begins => CommandTake(st, k)
    case ReadsBefore => CommandReadBefore(st, k)
    case JudgesBefore => CommandJudge(c, st, k)
    case Stages => CommandStage(st, k)
    case Arms => CommandArm(st, k)
    case Polls => CommandPoll(st, k)
    case Decides => CommandDecide(c, st, k)
    case PollsAgain => CommandWake(st, k)
    case GivesUp => CommandGiveUp(st, k)
    case Raises(took) => CommandFault(st, k, took)
  }

  predicate QueryEnabled(st: State, q: Id, move: QueryMove) {
    match move
    case Asks => CanQueryTake(st, q)
    case Reads => CanQueryRead(st, q)
    case Answers => CanQueryEnd(st, q)
    case ReadRaises => CanQueryFault(st, q)
  }

  function QueryNext(c: Config, st: State, q: Id, move: QueryMove): State
    requires QueryEnabled(st, q, move)
  {
    match move
    case Asks => QueryTake(st, q)
    case Reads => QueryRead(st, q)
    case Answers => QueryEnd(c, st, q)
    case ReadRaises => QueryFault(st, q)
  }

  predicate DisconnectEnabled(st: State, d: Id, move: DisconnectMove) {
    match move
    case Locks => CanDisconnectTake(st, d)
    case Proceeds => CanDisconnectProceed(st, d)
    case Reaps => CanDisconnectReap(st, d)
    case StopsOrphan => CanDisconnectStop(st, d)
    case Ends => CanDisconnectEnd(st, d)
  }

  function DisconnectNext(st: State, d: Id, move: DisconnectMove): State
    requires DisconnectEnabled(st, d, move)
  {
    match move
    case Locks => DisconnectTake(st, d)
    case Proceeds => DisconnectProceed(st, d)
    case Reaps => DisconnectReap(st, d)
    case StopsOrphan => DisconnectStop(st, d)
    case Ends => DisconnectEnd(st, d)
  }

  predicate Enabled(st: State, e: Step) {
    match e
    case Time(dt) => dt > 0.0
    case FrameArrives(s, _) => CanReceive(st, s)
    case BuildEnds(b, _) => CanBuildEnd(st, b)
    case ConnectCalled => st.lock.Free?
    case CommandCalled(_) => true
    case QueryCalled => true
    case DisconnectCalled => true
    case SupervisorStep(i, move) => SupervisorEnabled(st, i, move)
    case CommandStep(k, move) => CommandEnabled(st, k, move)
    case QueryStep(q, move) => QueryEnabled(st, q, move)
    case DisconnectStep(d, move) => DisconnectEnabled(st, d, move)
  }

  function Next(c: Config, st: State, e: Step): State
    requires Enabled(st, e)
  {
    match e
    case Time(dt) => Tick(st, dt)
    case FrameArrives(s, scenario) => Frame(st, s, scenario)
    case BuildEnds(b, started) => BuildEnd(st, b, started)
    case ConnectCalled => Connect(c, st)
    case CommandCalled(order) => CallCommand(st, order)
    case QueryCalled => st.(queries := st.queries + [QueryWaiting])
    case DisconnectCalled => st.(disconnects := st.disconnects + [DisconnectWaiting])
    case SupervisorStep(i, move) => SupervisorNext(c, st, i, move)
    case CommandStep(k, move) => CommandNext(c, st, k, move)
    case QueryStep(q, move) => QueryNext(c, st, q, move)
    case DisconnectStep(d, move) => DisconnectNext(st, d, move)
  }

  /** The state that `steps` lead to, or None where one of them is not enabled. */
  function Exec(c: Config, from: State, steps: seq<Step>): Option<State>
    decreases |steps|
  {
    if steps == [] then Some(from)
    else if Enabled(from, steps[0]) then Exec(c, Next(c, from, steps[0]), steps[1..])
    else None
  }
}
