/**
 What the simulator link promises about orders: a refused order never reaches the ship,
 a timed-out one never fires late, and an acknowledged one was delivered.
 */
module SimulatorLinkOrders {
  import opened Prelude
  import opened SimulatorLink
  import opened SimulatorLinkInvariant
  import opened SimulatorLinkSteps
  import opened SimulatorLinkSafety

  /** The call has returned or raised. */
  predicate Ended(cmd: Command) {
    cmd.pc.Acked? || cmd.Failed()
  }

  /** Session s would carry order k on its next frame. */
  predicate Fires(st: State, s: Id, k: Id) {
    s < |st.sessions| && st.sessions[s].live && st.sessions[s].Holds(k)
  }

  ghost predicate CanFire(st: State, k: Id) {
    exists s :: Fires(st, s, k)
  }

  // -- a step after the end of a command ---------------------------------------------------

  /** Command k is as before, and no session has newly come to hold its order. */
  ghost predicate Untouched(st: State, next: State, k: Id) {
    && k < |st.commands| && k < |next.commands| && next.commands[k] == st.commands[k]
    && forall s :: Fires(next, s, k) ==> Fires(st, s, k)
  }

  lemma SupervisorAfterEnd(c: Config, st: State, i: Id, move: SupervisorMove, k: Id)
    requires SupervisorEnabled(st, i, move) && k < |st.commands|
    ensures Untouched(st, SupervisorNext(c, st, i, move), k)
  {
  }

  lemma CommandAfterEnd(c: Config, st: State, j: Id, move: CommandMove, k: Id)
    requires CommandEnabled(st, j, move) && k < |st.commands| && Ended(st.commands[k])
    ensures Untouched(st, CommandNext(c, st, j, move), k)
  {
  }

  lemma QueryAfterEnd(c: Config, st: State, q: Id, move: QueryMove, k: Id)
    requires QueryEnabled(st, q, move) && k < |st.commands|
    ensures Untouched(st, QueryNext(c, st, q, move), k)
  {
  }

  lemma DisconnectAfterEnd(st: State, d: Id, move: DisconnectMove, k: Id)
    requires DisconnectEnabled(st, d, move) && k < |st.commands|
    ensures Untouched(st, DisconnectNext(st, d, move), k)
  {
  }

  /** A frame delivers an order once more if its session holds it, and hands no order to any session. */
  lemma FrameAfterEnd(c: Config, st: State, s: Id, scenario: bool, k: Id)
    requires OrdersSound(c, st) && CanReceive(st, s) && k < |st.commands|
    ensures var next := Frame(st, s, scenario);
            && k < |next.commands|
            && next.commands[k] == st.commands[k].(
                 delivered := st.commands[k].delivered + if Fires(st, s, k) then 1 else 0)
            && forall r :: Fires(next, r, k) ==> Fires(st, r, k)
  {
    DeliverEach(st.commands, st.sessions[s], k);
  }

  lemma StepHandsOverNothing(c: Config, st: State, e: Step, k: Id)
    requires OrdersSound(c, st) && Enabled(st, e) && k < |st.commands| && Ended(st.commands[k])
    ensures if e.FrameArrives? then forall s :: Fires(Next(c, st, e), s, k) ==> Fires(st, s, k)
            else Untouched(st, Next(c, st, e), k)
  {
    match e
    case SupervisorStep(i, move) => SupervisorAfterEnd(c, st, i, move, k);
    case CommandStep(j, move) => CommandAfterEnd(c, st, j, move, k);
    case QueryStep(q, move) => QueryAfterEnd(c, st, q, move, k);
    case DisconnectStep(d, move) => DisconnectAfterEnd(st, d, move, k);
    case FrameArrives(s, scenario) => FrameAfterEnd(c, st, s, scenario, k);
    case BuildEnds(b, started) => BuildAfterEnd(st, b, started, k);
    case _ =>
  }

  lemma BuildAfterEnd(st: State, b: Id, started: bool, k: Id)
    requires CanBuildEnd(st, b) && k < |st.commands|
    ensures Untouched(st, BuildEnd(st, b, started), k)
  {
  }

  /** A step may deliver an ended order once more, if a live session still holds it, and changes nothing else about it. */
  lemma StepAfterEnd(c: Config, st: State, e: Step, k: Id)
    requires OrdersSound(c, st) && Enabled(st, e) && k < |st.commands| && Ended(st.commands[k])
    ensures var next := Next(c, st, e);
            && k < |next.commands|
            && (CanFire(next, k) ==> CanFire(st, k))
            && next.commands[k] == st.commands[k].(
                 delivered := st.commands[k].delivered + if e.FrameArrives? && Fires(st, e.session, k) then 1 else 0)
  {
    StepHandsOverNothing(c, st, e, k);
    if e.FrameArrives? {
      FrameAfterEnd(c, st, e.session, e.scenario, k);
    }
  }

  // -- no late order -------------------------------------------------------------------------

  /** An ended order that no live session holds is never delivered again, whatever happens. */
  lemma {:induction false} ColdOrderStaysCold(c: Config, from: State, steps: seq<Step>, st: State, k: Id)
    requires ValidConfig(c) && Invariant(c, from) && Exec(c, from, steps) == Some(st)
    requires k < |from.commands| && Ended(from.commands[k]) && !CanFire(from, k)
    ensures k < |st.commands| && st.commands[k] == from.commands[k]
    decreases |steps|
  {
    if steps != [] {
      StepKeeps(c, from, steps[0]);
      StepAfterEnd(c, from, steps[0], k);
      ColdOrderStaysCold(c, Next(c, from, steps[0]), steps[1..], st, k);
    }
  }

  /**
   Once a command has raised its refusal or "order not delivered", its order is not
   delivered any more, over every continuation; a refused order never was.
   */
  lemma NoLateOrder(c: Config, before: seq<Step>, raised: State, after: seq<Step>, later: State, k: Id)
    requires Reaches(c, before, raised) && Exec(c, raised, after) == Some(later)
    requires k < |raised.commands| && (raised.commands[k].pc.Refused? || raised.commands[k].pc.TimedOut?)
    ensures k < |later.commands|
    ensures later.commands[k].delivered == raised.commands[k].delivered
    ensures raised.commands[k].pc.Refused? ==> !later.commands[k].staged && later.commands[k].delivered == 0
    ensures forall s :: 0 <= s < |later.sessions| && later.sessions[s].live ==> !later.sessions[s].Holds(k)
  {
    ReachedIsInvariant(c, before, raised);
    RunKeeps(c, raised, after);
    FailedOrderFiresOnlyAfterFault(c, raised, k);
    ColdOrderStaysCold(c, raised, after, later, k);
    FailedOrderFiresOnlyAfterFault(c, later, k);
    assert forall s :: Fires(later, s, k) ==> CanFire(later, k);
  }

  /** Only a command that failed because a call into the wrapper raised, with the order staged, may fire later. */
  lemma FailedOrderFiresOnlyAfterFault(c: Config, st: State, k: Id)
    requires Invariant(c, st) && k < |st.commands| && st.commands[k].Failed()
    ensures CanFire(st, k) ==> st.commands[k].pc.Faulted? && st.commands[k].staged
  {
    if s :| Fires(st, s, k) {
      assert HeldBy(st.commands, k, s, st.commands[k].order.Rudder?);
    }
  }

  // -- the one way a failed order does fire late ------------------------------------------------

  /** `steps` lead from st to a state where order k has been delivered more often. */
  ghost predicate DeliversLater(c: Config, st: State, steps: seq<Step>, k: Id) {
    && k < |st.commands| && Exec(c, st, steps).Some?
    && k < |Exec(c, st, steps).value.commands|
    && Exec(c, st, steps).value.commands[k].delivered > st.commands[k].delivered
  }

  /** The order of a command that has returned or raised is delivered later exactly if a live session still holds it. */
  lemma DeliveredLaterIffHeld(c: Config, before: seq<Step>, st: State, k: Id)
    requires Reaches(c, before, st) && k < |st.commands| && Ended(st.commands[k])
    ensures (exists steps :: DeliversLater(c, st, steps, k)) <==> CanFire(st, k)
  {
    ReachedIsInvariant(c, before, st);
    if s :| Fires(st, s, k) {
      var e := FrameArrives(s, false);
      StepAfterEnd(c, st, e, k);
      assert Exec(c, Next(c, st, e), [e][1..]) == Some(Next(c, st, e));
      assert DeliversLater(c, st, [e], k);
    } else {
      forall steps | DeliversLater(c, st, steps, k)
        ensures false
      {
        ColdOrderStaysCold(c, st, steps, Exec(c, st, steps).value, k);
      }
    }
  }

  /**
   When a call into the wrapper raises, the order of the command can fire later exactly if
   the call had stored it, or an earlier one had staged it.
   */
  lemma FaultLeavesTheOrderIff(c: Config, before: seq<Step>, st: State, k: Id, took: bool)
    requires Reaches(c, before, st) && CanCommandFault(st, k, took)
    ensures CommandFault(st, k, took).commands[k].Failed()
    ensures CanFire(CommandFault(st, k, took), k) <==> took || st.commands[k].staged
    ensures (exists steps :: DeliversLater(c, CommandFault(st, k, took), steps, k)) <==> took || st.commands[k].staged
  {
    ReachedIsInvariant(c, before, st);
    var s := st.commands[k].session;
    var raised := CommandFault(st, k, took);
    assert st.commands[k].HasLock() ==> st.wrapper == Some(s);
    if took || st.commands[k].staged {
      assert Fires(raised, s, k);
    } else {
      NeverStaged(c, st, k);
    }
    Exec1(c, st, CommandStep(k, Raises(took)));
    ExecAppend(c, INIT, before, [CommandStep(k, Raises(took))]);
    DeliveredLaterIffHeld(c, before + [CommandStep(k, Raises(took))], raised, k);
  }

  /** No session holds an order that was not staged. */
  lemma NeverStaged(c: Config, st: State, k: Id)
    requires OrdersSound(c, st) && k < |st.commands| && !st.commands[k].staged
    ensures forall s :: 0 <= s < |st.sessions| ==> !st.sessions[s].Holds(k)
  {
    forall s | 0 <= s < |st.sessions|
      ensures !st.sessions[s].Holds(k)
    {
      assert st.sessions[s].rudder == Some(k) ==> HeldBy(st.commands, k, s, true);
      assert st.sessions[s].lever == Some(k) ==> HeldBy(st.commands, k, s, false);
    }
  }

  // -- an acknowledged order was delivered ----------------------------------------------------------

  /** Frames that arrived between the `before` snapshot and the staging of the order. */
  function Gap(cmd: Command): int {
    cmd.mark - cmd.before.frames
  }

  /**
   An acknowledged order rode on at least two frames, less those that arrived in the
   gap between the snapshot and the staging.
   */
  lemma AcknowledgedMeansDelivered(c: Config, steps: seq<Step>, st: State, k: Id)
    requires Reaches(c, steps, st) && k < |st.commands| && st.commands[k].pc.Acked?
    ensures st.commands[k].staged && Gap(st.commands[k]) >= 0
    ensures st.commands[k].pc.shown.frames >= st.commands[k].before.frames + DELIVERY_FRAMES
    ensures st.commands[k].delivered + Gap(st.commands[k]) >= DELIVERY_FRAMES
    ensures Gap(st.commands[k]) <= 1 ==> st.commands[k].delivered >= 1
  {
    ReachedIsInvariant(c, steps, st);
  }

  /**
   "Order not delivered" says that two frames did not come in time, not that none came: such
   an order had reached the ship exactly if a frame came between its staging and the drop.
   */
  lemma TimedOutWasDeliveredIff(c: Config, steps: seq<Step>, st: State, k: Id)
    requires Reaches(c, steps, st) && k < |st.commands| && st.commands[k].pc.TimedOut?
    ensures st.commands[k].session < |st.sessions| && !st.sessions[st.commands[k].session].live
    ensures st.commands[k].delivered == st.sessions[st.commands[k].session].frames - st.commands[k].mark
    ensures st.commands[k].delivered > 0 <==> st.sessions[st.commands[k].session].frames > st.commands[k].mark
  {
    ReachedIsInvariant(c, steps, st);
  }

  /** Once staged, a command keeps its order, its session and both frame counts. */
  predicate SameStaging(a: Command, b: Command) {
    a.staged && b.staged && a.session == b.session && a.before == b.before && a.mark == b.mark && a.order == b.order
  }

  lemma CommandKeepsStaging(c: Config, st: State, j: Id, move: CommandMove, k: Id)
    requires OrdersSound(c, st) && CommandEnabled(st, j, move)
    requires k < |st.commands| && st.commands[k].staged
    ensures var next := CommandNext(c, st, j, move);
            k < |next.commands| && SameStaging(st.commands[k], next.commands[k])
  {
  }

  lemma SupervisorLeavesCommands(c: Config, st: State, i: Id, move: SupervisorMove)
    requires SupervisorEnabled(st, i, move)
    ensures SupervisorNext(c, st, i, move).commands == st.commands
  {
  }

  lemma StepKeepsStaging(c: Config, st: State, e: Step, k: Id)
    requires OrdersSound(c, st) && Enabled(st, e)
    requires k < |st.commands| && st.commands[k].staged
    ensures var next := Next(c, st, e);
            k < |next.commands| && SameStaging(st.commands[k], next.commands[k])
  {
    match e
    case SupervisorStep(i, move) => SupervisorLeavesCommands(c, st, i, move);
    case CommandStep(j, move) => CommandKeepsStaging(c, st, j, move, k);
    case _ =>
  }

  lemma {:induction false} RunKeepsStaging(c: Config, from: State, steps: seq<Step>, st: State, k: Id)
    requires ValidConfig(c) && Invariant(c, from) && Exec(c, from, steps) == Some(st)
    requires k < |from.commands| && from.commands[k].staged
    ensures k < |st.commands| && SameStaging(from.commands[k], st.commands[k])
    decreases |steps|
  {
    if steps != [] {
      StepKeeps(c, from, steps[0]);
      StepKeepsStaging(c, from, steps[0], k);
      RunKeepsStaging(c, Next(c, from, steps[0]), steps[1..], st, k);
    }
  }

  /** `steps` lead from st to an acknowledgement of command k, before any frame has carried its order. */
  ghost predicate AcksUndelivered(c: Config, st: State, steps: seq<Step>, k: Id) {
    && Exec(c, st, steps).Some?
    && (var later := Exec(c, st, steps).value;
        k < |later.commands| && later.commands[k].pc.Acked? && later.commands[k].delivered == 0)
  }

  /**
   The two frames are counted from the snapshot before the staging, so an order that
   has just been staged may be acknowledged undelivered exactly if two frames came in
   between.
   */
  lemma UndeliveredAckIffTwoFramesInTheGap(c: Config, before: seq<Step>, st: State, k: Id)
    requires Reaches(c, before, st)
    requires k < |st.commands| && st.commands[k].pc.Staged? && st.commands[k].delivered == 0
    ensures (exists steps :: AcksUndelivered(c, st, steps, k)) <==> Gap(st.commands[k]) >= DELIVERY_FRAMES
  {
    ReachedIsInvariant(c, before, st);
    if Gap(st.commands[k]) >= DELIVERY_FRAMES {
      AcksAtOnce(c, st, k);
    }
    forall steps | AcksUndelivered(c, st, steps, k)
      ensures Gap(st.commands[k]) >= DELIVERY_FRAMES
    {
      var later := Exec(c, st, steps).value;
      RunKeeps(c, st, steps);
      RunKeepsStaging(c, st, steps, later, k);
      assert CommandFits(later.commands[k], later.sessions[later.commands[k].session], k);
    }
  }

  lemma AcksAtOnce(c: Config, st: State, k: Id)
    requires OrdersSound(c, st) && k < |st.commands| && st.commands[k].pc.Staged?
    requires st.commands[k].delivered == 0 && Gap(st.commands[k]) >= DELIVERY_FRAMES
    ensures exists steps :: AcksUndelivered(c, st, steps, k)
  {
    var armed := Next(c, st, CommandStep(k, Arms));
    var polled := Next(c, armed, CommandStep(k, Polls));
    var acked := Next(c, polled, CommandStep(k, Decides));
    Exec3(c, st, CommandStep(k, Arms), CommandStep(k, Polls), CommandStep(k, Decides));
    assert AcksUndelivered(c, st, [CommandStep(k, Arms), CommandStep(k, Polls), CommandStep(k, Decides)], k);
  }

  // -- the confirmation ends ----------------------------------------------------------------------------

  /** The confirmation loop sleeps 0.01 s at a time and no longer than its budget: about staleAfter / 0.01 times. */
  lemma PollsAreBounded(c: Config, steps: seq<Step>, st: State, k: Id)
    requires Reaches(c, steps, st) && k < |st.commands| && st.commands[k].polls >= 1
    ensures (st.commands[k].polls - 1) as real * POLL_SECONDS < c.staleAfter
  {
    ReachedIsInvariant(c, steps, st);
  }

  /** The step that takes a command with the lock further: its own next move, or the time its sleep still takes. */
  function Onward(st: State, k: Id): Step
    requires k < |st.commands|
  {
    match st.commands[k].pc
    case ReadingBefore => CommandStep(k, ReadsBefore)
    case Judging => CommandStep(k, JudgesBefore)
    case Staging => CommandStep(k, Stages)
    case Staged => CommandStep(k, Arms)
    case Polling => CommandStep(k, Polls)
    case Polled(_) => CommandStep(k, Decides)
    case Sleeping(until) => if until <= st.now then CommandStep(k, PollsAgain) else Time(until - st.now)
    case _ => CommandStep(k, GivesUp)
  }

  /** No command that holds the lock waits for anybody: with PollsAreBounded it ends, in an ack or in a drop. */
  lemma CommandIsNeverStuck(c: Config, steps: seq<Step>, st: State, k: Id)
    requires Reaches(c, steps, st) && k < |st.commands| && st.commands[k].HasLock()
    ensures Enabled(st, Onward(st, k))
  {
    ReachedIsInvariant(c, steps, st);
  }
}
