/**
 Four runs of the simulator link in which a stronger promise than the proved one fails: a
 session that nobody can stop any more, a failed order that fires late, an acknowledgement
 before delivery, and an order that is delivered and reported as not delivered.
 */
module SimulatorLinkWitnesses {
  import opened Prelude
  import opened SimulatorLink
  import opened SimulatorLinkSteps
  import opened SimulatorLinkSafety
  import opened SimulatorLinkOrders

  const SETTINGS := Config(1.0, 1.0, 1.0)

  /** A run that is continued by a run. */
  lemma Continue(before: seq<Step>, st: State, more: seq<Step>, after: State)
    requires Reaches(SETTINGS, before, st) && Exec(SETTINGS, st, more) == Some(after)
    ensures Reaches(SETTINGS, before + more, after)
  {
    ExecAppend(SETTINGS, INIT, before, more);
  }

  // -- a session that is lost --------------------------------------------------------------

  /** connect(), and a build that is awaited. */
  const BUILDING := INIT.(
    link := Connecting,
    supervisor := Some(0),
    pendingBuild := Some(0),
    lock := BySupervisor(0),
    builds := [Running],
    supervisors := [Supervisor(Building(0), false, 1.0, 0)],
    heard := [Connecting])

  lemma Builds()
    ensures Reaches(SETTINGS, [ConnectCalled, SupervisorStep(0, Takes)], BUILDING)
  {
    var connected := Next(SETTINGS, INIT, ConnectCalled);
    assert connected.supervisors == [Supervisor(WantLock, false, 1.0, 0)] && connected.heard == [Connecting];
    var building := Next(SETTINGS, connected, SupervisorStep(0, Takes));
    assert building.builds == [Running] && building.supervisors == BUILDING.supervisors;
    Exec2(SETTINGS, INIT, ConnectCalled, SupervisorStep(0, Takes));
  }

  /** The supervisor is cancelled from outside, and connect() starts another one, with another build. */
  const REBUILDING := BUILDING.(
    supervisor := Some(1),
    pendingBuild := Some(1),
    lock := BySupervisor(1),
    builds := [Running, Running],
    supervisors := [Supervisor(Finished, false, 1.0, 0), Supervisor(Building(1), false, 1.0, 0)],
    lost := {0})

  lemma Rebuilds()
    ensures Exec(SETTINGS, BUILDING,
                 [SupervisorStep(0, CancelledOutside), ConnectCalled, SupervisorStep(1, Takes)]) == Some(REBUILDING)
  {
    var cancelled := Next(SETTINGS, BUILDING, SupervisorStep(0, CancelledOutside));
    assert cancelled.supervisors == [Supervisor(Finished, false, 1.0, 0)];
    var connected := Next(SETTINGS, cancelled, ConnectCalled);
    assert connected.supervisors == [Supervisor(Finished, false, 1.0, 0), Supervisor(WantLock, false, 1.0, 0)];
    var building := Next(SETTINGS, connected, SupervisorStep(1, Takes));
    assert building.builds == REBUILDING.builds && building.supervisors == REBUILDING.supervisors;
    assert building.lost == {0};
    Exec3(SETTINGS, BUILDING, SupervisorStep(0, CancelledOutside), ConnectCalled, SupervisorStep(1, Takes));
  }

  /** The first build opens its session; the second one fails. */
  const LEAKING := REBUILDING.(
    pendingBuild := None,
    lock := Free,
    sessions := [Session(0, true, false, 0, None, None, None)],
    builds := [Built(0), Broken],
    supervisors := [Supervisor(Finished, false, 1.0, 0), Supervisor(WantLockToDrop, false, 1.0, 0)])

  lemma Leaks()
    ensures Exec(SETTINGS, REBUILDING,
                 [BuildEnds(0, true), BuildEnds(1, false), SupervisorStep(1, HasBuilt)]) == Some(LEAKING)
  {
    var first := Next(SETTINGS, REBUILDING, BuildEnds(0, true));
    var second := Next(SETTINGS, first, BuildEnds(1, false));
    assert second.builds == LEAKING.builds && second.sessions == LEAKING.sessions;
    var handled := Next(SETTINGS, second, SupervisorStep(1, HasBuilt));
    assert handled.supervisors == LEAKING.supervisors;
    Exec3(SETTINGS, REBUILDING, BuildEnds(0, true), BuildEnds(1, false), SupervisorStep(1, HasBuilt));
  }

  lemma LeakingIsReached() returns (steps: seq<Step>)
    ensures Reaches(SETTINGS, steps, LEAKING)
  {
    Builds();
    Rebuilds();
    Leaks();
    var first := [ConnectCalled, SupervisorStep(0, Takes)];
    var second := [SupervisorStep(0, CancelledOutside), ConnectCalled, SupervisorStep(1, Takes)];
    var third := [BuildEnds(0, true), BuildEnds(1, false), SupervisorStep(1, HasBuilt)];
    Continue(first, BUILDING, second, REBUILDING);
    Continue(first + second, REBUILDING, third, LEAKING);
    steps := first + second + third;
  }

  /** There is a run after which nothing stops session 0, whatever follows, disconnect() included. */
  lemma OutsideCancelCanLeak(more: seq<Step>, later: State)
    requires Exec(SETTINGS, LEAKING, more) == Some(later)
    ensures exists steps :: Reaches(SETTINGS, steps, LEAKING)
    ensures |later.sessions| > 0 && later.sessions[0].live
  {
    var steps := LeakingIsReached();
    ReachedIsInvariant(SETTINGS, steps, LEAKING);
    LostSessionLivesOn(SETTINGS, LEAKING, more, later, 0);
  }

  // -- a link that is up, and an order at the point of being staged -------------------------

  const UP := INIT.(
    link := Connected,
    wrapper := Some(0),
    supervisor := Some(0),
    sessions := [Session(0, true, true, 1, Some(0.0), None, None)],
    builds := [Built(0)],
    supervisors := [Supervisor(Napping, false, 1.0, 0)],
    heard := [Connecting, Connected])

  const ADOPTED := BUILDING.(
    wrapper := Some(0),
    pendingBuild := None,
    sessions := [Session(0, true, true, 1, Some(0.0), None, None)],
    builds := [Built(0)],
    supervisors := [Supervisor(Snapping, false, 1.0, 0)])

  lemma Adopts()
    ensures Exec(SETTINGS, BUILDING,
                 [BuildEnds(0, true), SupervisorStep(0, HasBuilt), FrameArrives(0, true)]) == Some(ADOPTED)
  {
    var built := Next(SETTINGS, BUILDING, BuildEnds(0, true));
    assert built.builds == [Built(0)] && built.sessions == [Session(0, true, false, 0, None, None, None)];
    var adopted := Next(SETTINGS, built, SupervisorStep(0, HasBuilt));
    assert adopted.supervisors == ADOPTED.supervisors;
    var framed := Next(SETTINGS, adopted, FrameArrives(0, true));
    assert framed.sessions == ADOPTED.sessions;
    Exec3(SETTINGS, BUILDING, BuildEnds(0, true), SupervisorStep(0, HasBuilt), FrameArrives(0, true));
  }

  lemma ComesUp()
    ensures Exec(SETTINGS, ADOPTED, [SupervisorStep(0, Snaps), SupervisorStep(0, Judges)]) == Some(UP)
  {
    var snapped := Next(SETTINGS, ADOPTED, SupervisorStep(0, Snaps));
    var judged := Next(SETTINGS, snapped, SupervisorStep(0, Judges));
    assert judged.supervisors == UP.supervisors && judged.heard == UP.heard;
    Exec2(SETTINGS, ADOPTED, SupervisorStep(0, Snaps), SupervisorStep(0, Judges));
  }

  /** An order on its way: the `before` snapshot has been taken. */
  function Ordered(pc: CommandPc): Command {
    Command(Rudder(10.0), pc, 0, Snapshot(true, 1, Some(0.0)), false, 0, 0.0, 0, 0)
  }

  const JUDGING := UP.(lock := ByCommand(0), commands := [Ordered(Judging)])

  lemma Orders()
    ensures Exec(SETTINGS, UP,
                 [CommandCalled(Rudder(10.0)), CommandStep(0, Begins), CommandStep(0, ReadsBefore)]) == Some(JUDGING)
  {
    var called := Next(SETTINGS, UP, CommandCalled(Rudder(10.0)));
    var begun := Next(SETTINGS, called, CommandStep(0, Begins));
    assert begun.commands == [called.commands[0].(pc := ReadingBefore, session := 0)];
    var read := Next(SETTINGS, begun, CommandStep(0, ReadsBefore));
    assert read.commands == JUDGING.commands;
    Exec3(SETTINGS, UP, CommandCalled(Rudder(10.0)), CommandStep(0, Begins), CommandStep(0, ReadsBefore));
  }

  lemma JudgingIsReached() returns (steps: seq<Step>)
    ensures Reaches(SETTINGS, steps, JUDGING)
  {
    Builds();
    Adopts();
    ComesUp();
    Orders();
    var first := [ConnectCalled, SupervisorStep(0, Takes)];
    var second := [BuildEnds(0, true), SupervisorStep(0, HasBuilt), FrameArrives(0, true)];
    var third := [SupervisorStep(0, Snaps), SupervisorStep(0, Judges)];
    var fourth := [CommandCalled(Rudder(10.0)), CommandStep(0, Begins), CommandStep(0, ReadsBefore)];
    Continue(first, BUILDING, second, ADOPTED);
    Continue(first + second, ADOPTED, third, UP);
    Continue(first + second + third, UP, fourth, JUDGING);
    steps := first + second + third + fourth;
  }

  // -- a failed order that fires late -----------------------------------------------------------

  /** order_rudder() raised after it had stored the setpoint: the command has failed, the session lives on. */
  const FAULTED := UP.(
    sessions := [Session(0, true, true, 1, Some(0.0), Some(0), None)],
    commands := [Ordered(Faulted).(staged := true, mark := 1)])

  lemma FailedOrderCanFireLate()
    ensures exists steps :: Reaches(SETTINGS, steps, FAULTED)
    ensures FAULTED.commands[0].Failed()
    ensures exists steps :: DeliversLater(SETTINGS, FAULTED, steps, 0)
  {
    var steps := JudgingIsReached();
    var staging := Next(SETTINGS, JUDGING, CommandStep(0, JudgesBefore));
    assert staging.commands == [Ordered(Staging)];
    var faulted := Next(SETTINGS, staging, CommandStep(0, Raises(true)));
    assert faulted.commands == FAULTED.commands && faulted.sessions == FAULTED.sessions;
    Exec2(SETTINGS, JUDGING, CommandStep(0, JudgesBefore), CommandStep(0, Raises(true)));
    var more := [CommandStep(0, JudgesBefore), CommandStep(0, Raises(true))];
    Continue(steps, JUDGING, more, FAULTED);
    assert Fires(FAULTED, 0, 0);
    DeliveredLaterIffHeld(SETTINGS, steps + more, FAULTED, 0);
  }

  // -- an acknowledgement before delivery ------------------------------------------------------------

  /** Two frames arrive between the `before` snapshot and the staging. */
  const STAGED := JUDGING.(
    sessions := [Session(0, true, true, 3, Some(0.0), Some(0), None)],
    commands := [Ordered(Staged).(staged := true, mark := 3)])

  lemma StagesAfterTwoFrames() returns (steps: seq<Step>)
    ensures Reaches(SETTINGS, steps, STAGED)
  {
    var before := JudgingIsReached();
    var one := Next(SETTINGS, JUDGING, FrameArrives(0, true));
    var two := Next(SETTINGS, one, FrameArrives(0, true));
    assert two.sessions == [Session(0, true, true, 3, Some(0.0), None, None)];
    Exec2(SETTINGS, JUDGING, FrameArrives(0, true), FrameArrives(0, true));
    var staging := Next(SETTINGS, two, CommandStep(0, JudgesBefore));
    assert staging.commands == [Ordered(Staging)];
    var staged := Next(SETTINGS, staging, CommandStep(0, Stages));
    assert staged.commands == STAGED.commands && staged.sessions == STAGED.sessions;
    Exec2(SETTINGS, two, CommandStep(0, JudgesBefore), CommandStep(0, Stages));
    var frames := [FrameArrives(0, true), FrameArrives(0, true)];
    var stage := [CommandStep(0, JudgesBefore), CommandStep(0, Stages)];
    Continue(before, JUDGING, frames, two);
    Continue(before + frames, two, stage, STAGED);
    steps := before + frames + stage;
  }

  lemma AckCanPrecedeDelivery()
    ensures exists steps :: Reaches(SETTINGS, steps, STAGED)
    ensures exists steps :: AcksUndelivered(SETTINGS, STAGED, steps, 0)
  {
    var steps := StagesAfterTwoFrames();
    UndeliveredAckIffTwoFramesInTheGap(SETTINGS, steps, STAGED, 0);
  }

  // -- an order that is delivered, and reported as not delivered ---------------------------------------

  const CARRIED := JUDGING.(
    sessions := [Session(0, true, true, 2, Some(0.0), Some(0), None)],
    commands := [Ordered(Staged).(staged := true, mark := 1, delivered := 1)])

  /** One frame carries the order. */
  lemma CarriesOnce()
    ensures Exec(SETTINGS, JUDGING,
                 [CommandStep(0, JudgesBefore), CommandStep(0, Stages), FrameArrives(0, true)]) == Some(CARRIED)
  {
    var staging := Next(SETTINGS, JUDGING, CommandStep(0, JudgesBefore));
    assert staging.commands == [Ordered(Staging)];
    var staged := Next(SETTINGS, staging, CommandStep(0, Stages));
    assert staged.sessions == [Session(0, true, true, 1, Some(0.0), Some(0), None)];
    assert staged.commands == [Ordered(Staged).(staged := true, mark := 1)];
    var carried := Next(SETTINGS, staged, FrameArrives(0, true));
    assert carried.sessions == CARRIED.sessions && carried.commands == CARRIED.commands;
    Exec3(SETTINGS, JUDGING, CommandStep(0, JudgesBefore), CommandStep(0, Stages), FrameArrives(0, true));
  }

  const LATE := CARRIED.(
    now := 2.0,
    commands := [Ordered(Polled(Snapshot(true, 2, Some(2.0)))).(staged := true, mark := 1, delivered := 1)])

  /** Then the link goes quiet for two seconds, twice the budget. */
  lemma GoesQuiet()
    ensures Exec(SETTINGS, CARRIED, [CommandStep(0, Arms), Time(2.0), CommandStep(0, Polls)]) == Some(LATE)
  {
    var armed := Next(SETTINGS, CARRIED, CommandStep(0, Arms));
    assert armed.commands == [Ordered(Polling).(staged := true, mark := 1, delivered := 1)];
    var later := Next(SETTINGS, armed, Time(2.0));
    var polled := Next(SETTINGS, later, CommandStep(0, Polls));
    assert polled.commands == LATE.commands;
    Exec3(SETTINGS, CARRIED, CommandStep(0, Arms), Time(2.0), CommandStep(0, Polls));
  }

  const GIVEN_UP := LATE.(
    link := Stale,
    wrapper := None,
    lock := Free,
    heard := [Connecting, Connected, Stale],
    sessions := [Session(0, false, true, 2, Some(0.0), Some(0), None)],
    commands := [Ordered(TimedOut).(staged := true, mark := 1, delivered := 1)])

  lemma GivesUpAfterDelivery()
    ensures Exec(SETTINGS, LATE, [CommandStep(0, Decides), CommandStep(0, GivesUp)]) == Some(GIVEN_UP)
  {
    var decided := Next(SETTINGS, LATE, CommandStep(0, Decides));
    assert decided.commands == [Ordered(GivingUp).(staged := true, mark := 1, delivered := 1)];
    assert decided.heard == GIVEN_UP.heard;
    var dropped := Next(SETTINGS, decided, CommandStep(0, GivesUp));
    assert dropped.commands == GIVEN_UP.commands && dropped.sessions == GIVEN_UP.sessions;
    Exec2(SETTINGS, LATE, CommandStep(0, Decides), CommandStep(0, GivesUp));
  }

  /** There is a run whose order has reached the ship when "order not delivered" is raised. */
  lemma TimedOutOrderCanBeDelivered()
    ensures exists steps :: Reaches(SETTINGS, steps, GIVEN_UP)
    ensures GIVEN_UP.commands[0].pc.TimedOut? && GIVEN_UP.commands[0].delivered == 1
  {
    var before := JudgingIsReached();
    CarriesOnce();
    GoesQuiet();
    GivesUpAfterDelivery();
    var first := [CommandStep(0, JudgesBefore), CommandStep(0, Stages), FrameArrives(0, true)];
    var second := [CommandStep(0, Arms), Time(2.0), CommandStep(0, Polls)];
    Continue(before, JUDGING, first, CARRIED);
    Continue(before + first, CARRIED, second, LATE);
    Continue(before + first + second, LATE, [CommandStep(0, Decides), CommandStep(0, GivesUp)], GIVEN_UP);
  }
}
