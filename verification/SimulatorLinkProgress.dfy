/** How long a command can take, over all interleavings. */
module SimulatorLinkProgress {
  import opened Prelude
  import opened SimulatorLink
  import opened SimulatorLinkSafety
  import opened SimulatorLinkOrders

  predicate IsMoveOf(e: Step, k: Id) {
    e.CommandStep? && e.k == k
  }

  /** The moves that command k makes in a run. */
  function OwnMoves(steps: seq<Step>, k: Id): nat {
    if steps == [] then 0 else (if IsMoveOf(steps[0], k) then 1 else 0) + OwnMoves(steps[1..], k)
  }

  /** At least the moves that a command has made; a round of the confirmation loop has three. */
  function Progress(cmd: Command): nat {
    3 * cmd.polls
    + match cmd.pc
      case Waiting => 0
      case ReadingBefore => 1
      case Judging => 2
      case Staging => 3
      case Staged => 4
      case Polling => 5
      case Polled(_) => 6
      case Sleeping(_) => 4
      case GivingUp => 7
      case _ => 8
  }

  function ProgressIn(st: State, k: Id): nat {
    if k < |st.commands| then Progress(st.commands[k]) else 0
  }

  lemma MoveMakesProgress(c: Config, st: State, j: Id, move: CommandMove, k: Id)
    requires CommandEnabled(st, j, move)
    ensures ProgressIn(CommandNext(c, st, j, move), k) >= ProgressIn(st, k) + if j == k then 1 else 0
  {
  }

  lemma StepMakesProgress(c: Config, st: State, e: Step, k: Id)
    requires Enabled(st, e)
    ensures ProgressIn(Next(c, st, e), k) >= ProgressIn(st, k) + if IsMoveOf(e, k) then 1 else 0
  {
    match e
    case SupervisorStep(i, move) => SupervisorLeavesCommands(c, st, i, move);
    case CommandStep(j, move) => MoveMakesProgress(c, st, j, move, k);
    case _ =>
  }

  lemma {:induction false} RunMakesProgress(c: Config, from: State, steps: seq<Step>, st: State, k: Id)
    requires Exec(c, from, steps) == Some(st)
    ensures ProgressIn(from, k) + OwnMoves(steps, k) <= ProgressIn(st, k)
    decreases |steps|
  {
    if steps != [] {
      StepMakesProgress(c, from, steps[0], k);
      RunMakesProgress(c, Next(c, from, steps[0]), steps[1..], st, k);
    }
  }

  /**
   However the tasks interleave, a command makes at most about 3 * staleAfter / 0.01 moves;
   since none of them can be blocked while it has the lock, it ends.
   */
  lemma OwnMovesAreBounded(c: Config, steps: seq<Step>, st: State, k: Id)
    requires Reaches(c, steps, st)
    ensures OwnMoves(steps, k) > 11 ==> (OwnMoves(steps, k) - 11) as real * POLL_SECONDS < 3.0 * c.staleAfter
  {
    RunMakesProgress(c, INIT, steps, st, k);
    if k < |st.commands| && st.commands[k].polls >= 1 {
      var polls := st.commands[k].polls;
      PollsAreBounded(c, steps, st, k);
      assert (OwnMoves(steps, k) - 11) as real <= 3.0 * (polls - 1) as real;
    }
  }
}
