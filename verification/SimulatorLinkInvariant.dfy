/**
 What every step of the simulator link keeps, whatever the interleaving.

 Each part of the invariant takes only the fields it speaks about, so that a step
 which leaves those fields alone keeps it without a proof.
 */
module SimulatorLinkInvariant {
  import opened Prelude
  import opened SimulatorLink

  predicate Within(id: Option<Id>, n: nat) {
    id.Some? ==> id.value < n
  }

  /** A session and the build that opened it name each other. */
  ghost predicate Paired(sessions: seq<Session>, builds: seq<Build>) {
    && (forall s :: 0 <= s < |sessions| ==> sessions[s].build < |builds| && builds[sessions[s].build] == Built(s))
    && (forall b :: 0 <= b < |builds| && builds[b].Built? ==>
          builds[b].session < |sessions| && sessions[builds[b].session].build == b)
  }

  // -- the lock names the one task that is between taking and releasing it -------

  ghost predicate SupervisorLock(lock: Owner, supervisors: seq<Supervisor>) {
    && (lock.BySupervisor? ==> lock.i < |supervisors|)
    && (forall i :: 0 <= i < |supervisors| ==> (supervisors[i].HasLock() <==> lock == BySupervisor(i)))
  }

  ghost predicate CommandLock(lock: Owner, commands: seq<Command>) {
    && (lock.ByCommand? ==> lock.k < |commands|)
    && (forall k :: 0 <= k < |commands| ==> (commands[k].HasLock() <==> lock == ByCommand(k)))
  }

  ghost predicate QueryLock(lock: Owner, queries: seq<Query>) {
    && (lock.ByQuery? ==> lock.q < |queries|)
    && (forall q :: 0 <= q < |queries| ==> (queries[q].HasLock() <==> lock == ByQuery(q)))
  }

  ghost predicate DisconnectLock(lock: Owner, disconnects: seq<Disconnect>) {
    && (lock.ByDisconnect? ==> lock.d < |disconnects|)
    && (forall d :: 0 <= d < |disconnects| ==> (disconnects[d].HasLock() <==> lock == ByDisconnect(d)))
  }

  /** Where the disconnect() that holds the lock stands; Returned if none does. */
  function DisconnectPc(lock: Owner, disconnects: seq<Disconnect>): Disconnect {
    if lock.ByDisconnect? && lock.d < |disconnects| then disconnects[lock.d] else Returned
  }

  // -- tasks and sessions ---------------------------------------------------------

  /** A live supervisor is the client's own, or the one that disconnect() has cancelled and is waiting for. */
  ghost predicate SupervisorsTracked(
    lock: Owner, supervisor: Option<Id>, supervisors: seq<Supervisor>, at: Disconnect)
  {
    && (lock.ByDisconnect? ==> supervisor.None?)
    && (forall i :: 0 <= i < |supervisors| && supervisors[i].Alive() ==>
          if supervisors[i].cancelled then at == AwaitSupervisor(i) else supervisor == Some(i))
    && (forall i :: 0 <= i < |supervisors| && supervisors[i].cancelled ==> !supervisors[i].HasLock())
    && (at.AwaitSupervisor? ==> at.supervisor < |supervisors| && supervisors[at.supervisor].cancelled)
  }

  /** disconnect() is busy with a build that the supervisor was cancelled out of. */
  predicate Reaping(at: Disconnect) {
    at.AwaitBuild? || at.StoppingOrphan?
  }

  /** A started and not stopped session is in somebody's hands, or its build is one of the lost ones. */
  ghost predicate SessionsTracked(
    wrapper: Option<Id>, pending: Option<Id>, lost: set<Id>, at: Disconnect, sessions: seq<Session>)
  {
    && (forall s :: 0 <= s < |sessions| && sessions[s].live ==>
          || wrapper == Some(s)
          || pending == Some(sessions[s].build)
          || sessions[s].build in lost
          || at == AwaitBuild(sessions[s].build)
          || at == StoppingOrphan(s))
    && (wrapper.Some? ==>
          && wrapper.value < |sessions| && sessions[wrapper.value].live
          && sessions[wrapper.value].build !in lost && pending.None? && !Reaping(at))
    && (forall s :: 0 <= s < |sessions| && pending == Some(sessions[s].build) ==> sessions[s].live)
    && (at.StoppingOrphan? ==> at.session < |sessions| && sessions[at.session].build !in lost)
  }

  ghost predicate BuildsTracked(pending: Option<Id>, lost: set<Id>, at: Disconnect, builds: seq<Build>) {
    && Within(pending, |builds|)
    && (forall b :: b in lost ==> b < |builds|)
    && (forall b :: 0 <= b < |builds| && builds[b].Running? ==>
          pending == Some(b) || b in lost || at == AwaitBuild(b))
    && (pending.Some? ==> pending.value !in lost && !Reaping(at))
    && (at.AwaitBuild? ==> at.build < |builds| && at.build !in lost)
    && (at.Dropping? ==> pending.None?)
  }

  // -- the state and the session --------------------------------------------------

  /** Connected means that there is a session, stale and disconnected that there is none. */
  predicate Coupled(link: LinkState, wrapper: Option<Id>) {
    && (link.Connected? ==> wrapper.Some?)
    && (link.Stale? || link.Disconnected? ==> wrapper.None?)
  }

  /** The lock holder has just declared the link stale and is about to drop the session. */
  predicate MidDrop(lock: Owner, supervisors: seq<Supervisor>, commands: seq<Command>) {
    || (lock.BySupervisor? && lock.i < |supervisors| && supervisors[lock.i].pc.DroppingStale?)
    || (lock.ByCommand? && lock.k < |commands| && commands[lock.k].pc.GivingUp?)
  }

  ghost predicate StateMatches(
    link: LinkState, wrapper: Option<Id>, lock: Owner, supervisors: seq<Supervisor>, commands: seq<Command>)
  {
    if MidDrop(lock, supervisors, commands) then link.Stale? else Coupled(link, wrapper)
  }

  ghost predicate SupervisorsFit(
    link: LinkState, wrapper: Option<Id>, pending: Option<Id>, supervisors: seq<Supervisor>)
  {
    forall i :: 0 <= i < |supervisors| ==>
      var pc := supervisors[i].pc;
      && (pc.Building? ==> link.Connecting? && wrapper.None? && pending == Some(pc.build))
      && (pc.Snapping? || pc.Snapped? || pc.DroppingStale? ==> wrapper.Some?)
      && (pc.Snapping? || pc.Snapped? ==> link.Connecting? || link.Connected?)
  }

  ghost predicate CommandsAtWork(link: LinkState, wrapper: Option<Id>, commands: seq<Command>) {
    forall k :: 0 <= k < |commands| && commands[k].HasLock() ==>
      wrapper == Some(commands[k].session) && (!commands[k].pc.GivingUp? ==> link.Connected?)
  }

  ghost predicate QueriesAtWork(link: LinkState, wrapper: Option<Id>, queries: seq<Query>) {
    forall q :: 0 <= q < |queries| && queries[q].HasLock() ==>
      wrapper == Some(queries[q].session) && link.Connected?
  }

  // -- orders ------------------------------------------------------------------------

  /** Only a staged order is in a session's hands, in the slot of its kind and in one session. */
  ghost predicate SetpointsMatch(sessions: seq<Session>, commands: seq<Command>) {
    forall s :: 0 <= s < |sessions| ==>
      && (sessions[s].rudder.Some? ==> HeldBy(commands, sessions[s].rudder.value, s, true))
      && (sessions[s].lever.Some? ==> HeldBy(commands, sessions[s].lever.value, s, false))
  }

  ghost predicate HeldBy(commands: seq<Command>, k: Id, s: Id, rudder: bool) {
    && k < |commands|
    && commands[k].staged && commands[k].session == s && commands[k].order.Rudder? == rudder
  }

  predicate Holding(cmd: Command, e: Session, k: Id) {
    if cmd.order.Rudder? then e.rudder == Some(k) else e.lever == Some(k)
  }

  /** What a command may rely on where it stands. */
  predicate StagedRight(cmd: Command) {
    && (cmd.pc.Waiting? || cmd.pc.ReadingBefore? || cmd.pc.Judging? || cmd.pc.Staging? || cmd.pc.Refused? ==> !cmd.staged)
    && (cmd.Confirming() || cmd.pc.GivingUp? || cmd.pc.Acked? || cmd.pc.TimedOut? ==> cmd.staged)
    && (!cmd.staged ==> cmd.delivered == 0)
  }

  ghost predicate CommandFits(cmd: Command, e: Session, k: Id) {
    && (cmd.pc.Judging? || cmd.pc.Staging? ==> cmd.before.frames <= e.frames)
    && (cmd.staged ==> cmd.before.frames <= cmd.mark <= e.frames)
    && (cmd.Confirming() || cmd.pc.GivingUp? ==> Holding(cmd, e, k) && cmd.delivered == e.frames - cmd.mark)
    && (cmd.pc.Polled? ==> cmd.mark <= cmd.pc.seen.frames <= e.frames)
    && (cmd.pc.Acked? ==>
          && cmd.mark <= cmd.pc.shown.frames <= e.frames
          && cmd.pc.shown.frames >= cmd.before.frames + DELIVERY_FRAMES
          && cmd.delivered >= cmd.pc.shown.frames - cmd.mark)
    && (cmd.pc.TimedOut? ==> !e.live && cmd.delivered == e.frames - cmd.mark)
  }

  ghost predicate CommandsFit(sessions: seq<Session>, commands: seq<Command>) {
    forall k :: 0 <= k < |commands| ==>
      && StagedRight(commands[k])
      && (!commands[k].pc.Waiting? && !commands[k].pc.Refused? ==>
            commands[k].session < |sessions| && CommandFits(commands[k], sessions[commands[k].session], k))
  }

  /** The confirmation loop is paced by its sleeps and ends with its budget. */
  ghost predicate Paced(c: Config, now: real, commands: seq<Command>) {
    forall k :: 0 <= k < |commands| ==> CommandPaced(c, now, commands[k])
  }

  predicate CommandPaced(c: Config, now: real, cmd: Command) {
    var slept := cmd.polls as real * POLL_SECONDS;
    && (cmd.polls >= 1 ==> slept - POLL_SECONDS < c.staleAfter)
    && (!cmd.staged || cmd.pc.Staged? ==> cmd.polls == 0)
    && (cmd.pc.Polling? || cmd.pc.Polled? ==> cmd.start + slept <= now)
    && (cmd.pc.Sleeping? ==> cmd.start + slept <= cmd.pc.until)
  }

  // -- reconnecting --------------------------------------------------------------------

  /** x * 2^n. */
  function Doubled(x: real, n: nat): real {
    if n == 0 then x else 2.0 * Doubled(x, n - 1)
  }

  /** initial * 2^n, capped from the first doubling on. */
  function BackoffAfter(c: Config, n: nat): real {
    if n == 0 then c.reconnectInitial else Min(Doubled(c.reconnectInitial, n), c.reconnectMax)
  }

  ghost predicate BackoffsMatch(c: Config, supervisors: seq<Supervisor>) {
    forall i :: 0 <= i < |supervisors| ==>
      && supervisors[i].backoff == BackoffAfter(c, supervisors[i].failures)
      && (supervisors[i].pc.BackingOff? ==> supervisors[i].pc.delay == supervisors[i].backoff)
  }

  predicate KicksCount(cut: nat, retryNow: bool, kicks: nat) {
    cut + (if retryNow then 1 else 0) <= kicks
  }

  /** The changes of state that the client makes. */
  predicate MayFollow(before: LinkState, after: LinkState) {
    match after
    case Disconnected => !before.Disconnected?
    case Connecting => !before.Connecting?
    case Connected => before.Connecting?
    case Stale => before.Connected?
  }

  /** The state before the n-th change. */
  function Before(heard: seq<LinkState>, n: nat): LinkState
    requires n <= |heard|
  {
    if n == 0 then Disconnected else heard[n - 1]
  }

  /** The listener has heard a path of such changes that starts at Disconnected and ends at `link`. */
  ghost predicate HeardIsPath(link: LinkState, heard: seq<LinkState>) {
    && link == Before(heard, |heard|)
    && forall n :: 0 <= n < |heard| ==> MayFollow(Before(heard, n), heard[n])
  }

  // -- the invariant ---------------------------------------------------------------------

  /** The lock and the tasks. */
  ghost predicate TasksSound(c: Config, st: State) {
    && Within(st.supervisor, |st.supervisors|)
    && SupervisorLock(st.lock, st.supervisors)
    && CommandLock(st.lock, st.commands)
    && QueryLock(st.lock, st.queries)
    && DisconnectLock(st.lock, st.disconnects)
    && SupervisorsTracked(st.lock, st.supervisor, st.supervisors, DisconnectPc(st.lock, st.disconnects))
    && SupervisorsFit(st.link, st.wrapper, st.pendingBuild, st.supervisors)
    && BackoffsMatch(c, st.supervisors)
    && KicksCount(st.cut, st.retryNow, st.kicks)
  }

  /** The sessions and the builds that open them. */
  ghost predicate SessionsSound(st: State) {
    var at := DisconnectPc(st.lock, st.disconnects);
    && Paired(st.sessions, st.builds)
    && SessionsTracked(st.wrapper, st.pendingBuild, st.lost, at, st.sessions)
    && BuildsTracked(st.pendingBuild, st.lost, at, st.builds)
  }

  /** The connection state. */
  ghost predicate LinkSound(st: State) {
    && StateMatches(st.link, st.wrapper, st.lock, st.supervisors, st.commands)
    && CommandsAtWork(st.link, st.wrapper, st.commands)
    && QueriesAtWork(st.link, st.wrapper, st.queries)
    && HeardIsPath(st.link, st.heard)
  }

  /** The orders. */
  ghost predicate OrdersSound(c: Config, st: State) {
    && SetpointsMatch(st.sessions, st.commands)
    && CommandsFit(st.sessions, st.commands)
    && Paced(c, st.now, st.commands)
  }

  ghost predicate Invariant(c: Config, st: State) {
    TasksSound(c, st) && SessionsSound(st) && LinkSound(st) && OrdersSound(c, st)
  }

  /** The backoff settings are not negative. */
  predicate ValidConfig(c: Config) {
    0.0 <= c.reconnectInitial && 0.0 <= c.reconnectMax
  }

  lemma InitIsInvariant(c: Config)
    ensures Invariant(c, INIT)
  {
  }

  /** The listener's path grows by a change that may follow, and not at all where the state stays. */
  lemma HeardGrows(link: LinkState, heard: seq<LinkState>, next: LinkState)
    requires HeardIsPath(link, heard) && (link == next || MayFollow(link, next))
    ensures HeardIsPath(next, if next == link then heard else heard + [next])
  {
    if next != link {
      var grown := heard + [next];
      forall n | 0 <= n < |grown|
        ensures MayFollow(Before(grown, n), grown[n])
      {
        assert Before(grown, n) == Before(heard, n);
        if n < |heard| {
          assert grown[n] == heard[n];
        }
      }
    }
  }
}
