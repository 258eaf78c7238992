/**
 `_stage_and_confirm` of voice_agent/backends/simulator/real.py with its polling loop, for
 one command that takes the lock.  While it has it, no other task touches the fields, so all
 that happens at an await is that time passes and frames arrive.  The ghost state follows the
 method through the step system: whatever the method does is a run of it.
 */
module SimulatorLinkClient {
  import opened Prelude
  import opened SimulatorLink
  import opened SimulatorLinkRefinement

  /** How the call ends: it returns a state, or raises one of its three errors. */
  datatype Ending = Shown(seen: Snapshot) | NoLink | JustQuiet | NotDelivered

  /** Where the step system stands, after a run from `from`: command k is on its way with session s. */
  datatype Place = Place(from: State, st: State, k: Id, s: Id)

  /** The same session, with more frames. */
  predicate Later(a: Session, b: Session) {
    b == a.(frames := b.frames, lastFrame := b.lastFrame) && a.frames <= b.frames
  }

  /** The last session dropped is this one, stopped, perhaps with more frames. */
  predicate OneMoreDropped(before: seq<Session>, after: seq<Session>, session: Session) {
    |after| == |before| + 1 && after[..|before|] == before && Later(session.(live := false), after[|before|])
  }

  lemma StagedLater(a: Session, b: Session, order: Order, k: Id)
    requires Later(a, b)
    ensures Later(a.Hold(order, k), b.Hold(order, k))
  {
  }

  /** The frames that come in the first n rounds, of three awaits and a sleep each. */
  function FramesIn(env: nat -> Interval, n: nat): nat {
    if n == 0 then 0
    else FramesIn(env, n - 1) + env(3 * n - 3).frames + env(3 * n - 2).frames + env(3 * n - 1).frames
  }

  /** The time that they take. */
  function TimeIn(env: nat -> Interval, n: nat): real {
    if n == 0 then 0.0
    else TimeIn(env, n - 1) + env(3 * n - 3).dt + env(3 * n - 2).dt + POLL_SECONDS + env(3 * n - 1).dt
  }

  /** At the first read, after one await, the last frame of the session is too old, or there is none. */
  predicate GoneQuiet(session: Session, now: real, first: Interval, limit: real) {
    if first.frames > 0 then limit < 0.0
    else session.lastFrame.None? || now + first.dt - session.lastFrame.value > limit
  }

  /** Poll n shows the frames that are missing. */
  predicate ShowsEnough(env: nat -> Interval, n: nat, missing: int) {
    FramesIn(env, n) + env(3 * n).frames >= missing
  }

  /** When poll n has been read, the budget is spent. */
  predicate IsSpent(env: nat -> Interval, n: nat, budget: real) {
    TimeIn(env, n) + env(3 * n).dt + env(3 * n + 1).dt >= budget
  }

  /** None of the first n polls ends the loop. */
  predicate Undecided(env: nat -> Interval, missing: int, budget: real, n: nat) {
    forall m :: 0 <= m < n ==> !ShowsEnough(env, m, missing) && !IsSpent(env, m, budget)
  }

  lemma OneMoreRound(env: nat -> Interval, missing: int, budget: real, n: nat)
    requires Undecided(env, missing, budget, n) && !ShowsEnough(env, n, missing) && !IsSpent(env, n, budget)
    ensures Undecided(env, missing, budget, n + 1)
  {
  }

  lemma {:induction false} PollsAreFew(env: nat -> Interval, missing: int, budget: real, n: nat)
    requires Undecided(env, missing, budget, n) && forall i :: env(i).dt >= 0.0
    ensures TimeIn(env, n) >= n as real * POLL_SECONDS
    ensures n > 0 ==> (n - 1) as real * POLL_SECONDS < budget
  {
    if n > 0 {
      PollsAreFew(env, missing, budget, n - 1);
      assert !IsSpent(env, n - 1, budget);
    }
  }

  class RealSimulatorClient {
    const c: Config
    var link: LinkState
    var wrapper: Option<Session>
    var heard: seq<LinkState>
    var dropped: seq<Session>
    var now: real

    ghost predicate Valid()
      reads this
    {
      && (wrapper.Some? ==> wrapper.value.live) && (link.Connected? ==> wrapper.Some?)
      && (heard != [] ==> heard[|heard| - 1] == link)
      && (forall i :: 0 < i < |heard| ==> heard[i] != heard[i - 1])
    }

    ghost function See(): View
      requires wrapper.Some?
      reads this
    {
      View(link, heard, now, wrapper.value)
    }

    /** The client is where the step system is. */
    ghost predicate IsAt(p: Place)
      reads this
    {
      wrapper.Some? && Leads(c, p.from, p.st) && Shows(p.st, p.k, p.s, See())
    }

    constructor (c: Config)
      ensures Valid() && this.c == c && link.Disconnected? && wrapper.None? && heard == [] && dropped == []
    {
      this.c := c;
      link, wrapper, heard, dropped, now := Disconnected, None, [], [], 0.0;
    }

    /** A listener is told of every change, and of changes only. */
    method SetState(state: LinkState)
      requires (heard != [] ==> heard[|heard| - 1] == link) && forall i :: 0 < i < |heard| ==> heard[i] != heard[i - 1]
      modifies this`link, this`heard
      ensures link == state && heard == if state == old(link) then old(heard) else old(heard) + [state]
      ensures (heard != [] ==> heard[|heard| - 1] == link) && forall i :: 0 < i < |heard| ==> heard[i] != heard[i - 1]
    {
      if state == link {
        return;
      }
      link := state;
      heard := heard + [state];
    }

    /** A session that is dropped is stopped, with whatever it holds. */
    method DropSession()
      modifies this`wrapper, this`dropped
      ensures wrapper.None?
      ensures dropped == if old(wrapper).None? then old(dropped) else old(dropped) + [old(wrapper).value.(live := false)]
    {
      var session := wrapper;
      wrapper := None;
      if session.Some? {
        dropped := dropped + [session.value.(live := false)];
      }
    }

    method Await(i: Interval, ghost p: Place) returns (ghost q: Place)
      requires i.dt >= 0.0 && IsAt(p)
      modifies this`now, this`wrapper
      ensures now == old(now) + i.dt
      ensures wrapper.Some? && Later(old(wrapper).value, wrapper.value)
      ensures wrapper.value == Arrived(old(wrapper).value, i, now)
      ensures IsAt(q) && q == p.(st := q.st) && SameCommand(p.st.commands[p.k], q.st.commands[q.k])
    {
      ghost var st := AwaitLeads(c, p.from, p.st, p.k, p.s, See(), i);
      now := now + i.dt;
      wrapper := Some(Arrived(wrapper.value, i, now));
      q := p.(st := st);
    }

    /** One read of the session, in the thread. */
    method Poll(i: Interval, j: Interval, ghost p: Place) returns (seen: Snapshot, ghost q: Place)
      requires i.dt >= 0.0 && j.dt >= 0.0 && IsAt(p) && p.st.commands[p.k].pc.Polling?
      modifies this`now, this`wrapper
      ensures now == old(now) + i.dt + j.dt
      ensures wrapper.Some? && Later(old(wrapper).value, wrapper.value)
      ensures seen.frames == old(wrapper).value.frames + i.frames
      ensures wrapper.value.frames == seen.frames + j.frames
      ensures IsAt(q) && q == p.(st := q.st)
      ensures SameCommand(p.st.commands[p.k].(pc := Polled(seen)), q.st.commands[q.k])
    {
      q := Await(i, p);
      seen := wrapper.value.Read(now);
      ghost var st := SessionIsPolled(c, q.from, q.st, q.k, q.s, See());
      q := q.(st := st);
      q := Await(j, q);
    }

    /** The command has read `seen`, and does not acknowledge it. */
    ghost predicate IsUndecided(p: Place, seen: Snapshot)
      reads this
    {
      && IsAt(p) && p.st.commands[p.k].pc == Polled(seen)
      && seen.frames < p.st.commands[p.k].before.frames + DELIVERY_FRAMES
    }

    /** The read is acknowledged. */
    lemma Acknowledged(p: Place, seen: Snapshot) returns (later: State)
      requires IsAt(p) && link.Connected? && p.st.commands[p.k].pc == Polled(seen)
      requires seen.frames >= p.st.commands[p.k].before.frames + DELIVERY_FRAMES
      ensures Leads(c, p.from, later) && EndsAs(later, p.k, p.s, Shown(seen), link, heard, wrapper)
    {
      later := PollIsDecided(c, p.from, p.st, p.k, p.s, See());
    }

    /** The budget is spent: the link is stale and the session goes, with the order in it. */
    method GiveUp(i: Interval, ghost p: Place, ghost seen: Snapshot) returns (ghost later: State)
      requires Valid() && link.Connected? && i.dt >= 0.0
      requires IsUndecided(p, seen) && now >= p.st.commands[p.k].start + c.staleAfter
      modifies this`link, this`heard, this`now, this`wrapper, this`dropped
      ensures Valid() && wrapper.None? && link.Stale? && heard == old(heard) + [Stale] && now >= old(now)
      ensures OneMoreDropped(old(dropped), dropped, old(wrapper).value)
      ensures Leads(c, p.from, later) && EndsAs(later, p.k, p.s, NotDelivered, link, heard, wrapper)
    {
      ghost var st := PollIsDecided(c, p.from, p.st, p.k, p.s, See());
      SetState(Stale);
      ghost var q := Await(i, p.(st := st));
      later := SessionIsDropped(c, q.from, q.st, q.k, q.s, See());
      DropSession();
    }

    /** asyncio.sleep(0.01), which may take longer. */
    method Sleep(i: Interval, ghost p: Place, ghost seen: Snapshot) returns (ghost q: Place)
      requires i.dt >= 0.0 && link.Connected?
      requires IsUndecided(p, seen) && now < p.st.commands[p.k].start + c.staleAfter
      modifies this`now, this`wrapper
      ensures now == old(now) + POLL_SECONDS + i.dt
      ensures wrapper.Some? && Later(old(wrapper).value, wrapper.value)
      ensures wrapper.value.frames == old(wrapper).value.frames + i.frames
      ensures IsAt(q) && q == p.(st := q.st)
      ensures IsPolling(q, p.st.commands[p.k].before, p.st.commands[p.k].start)
    {
      ghost var st := PollIsDecided(c, p.from, p.st, p.k, p.s, See());
      q := Await(i.(dt := POLL_SECONDS + i.dt), p.(st := st));
      st := SleepEnds(c, q.from, q.st, q.k, q.s, See());
      q := q.(st := st);
    }

    /** One round of the loop: a poll, and an ending or a sleep. */
    method Round(before: Snapshot, deadline: real, i: Interval, j: Interval, l: Interval, ghost p: Place)
      returns (end: Option<Ending>, ghost q: Place)
      requires Valid() && link.Connected? && i.dt >= 0.0 && j.dt >= 0.0 && l.dt >= 0.0
      requires IsAt(p) && IsPolling(p, before, deadline - c.staleAfter)
      modifies this`link, this`wrapper, this`heard, this`dropped, this`now
      ensures Valid() && now >= old(now) && q == p.(st := q.st)
      ensures end.None? ==>
                && wrapper.Some? && Later(old(wrapper).value, wrapper.value)
                && link.Connected? && heard == old(heard) && dropped == old(dropped)
                && wrapper.value.frames == old(wrapper).value.frames + i.frames + j.frames + l.frames
                && now == old(now) + i.dt + j.dt + POLL_SECONDS + l.dt
                && IsAt(q) && IsPolling(q, before, deadline - c.staleAfter)
      ensures end.Some? && end.value.Shown? <==>
                old(wrapper).value.frames + i.frames >= before.frames + DELIVERY_FRAMES
      ensures end.Some? && end.value.NotDelivered? <==>
                old(wrapper).value.frames + i.frames < before.frames + DELIVERY_FRAMES && old(now) + i.dt + j.dt >= deadline
      ensures end.Some? ==>
                && Leads(c, p.from, q.st) && EndsAs(q.st, p.k, p.s, end.value, link, heard, wrapper)
                && ConfirmedAs(before, end.value, old(wrapper).value, old(heard), old(dropped))
                && (end.value.NotDelivered? ==> now >= deadline)
    {
      var seen: Snapshot;
      seen, q := Poll(i, j, p);
      if seen.frames >= before.frames + DELIVERY_FRAMES {
        ghost var later := Acknowledged(q, seen);
        q := q.(st := later);
        return Some(Shown(seen)), q;
      }
      if now >= deadline {
        ghost var later := GiveUp(l, q, seen);
        q := q.(st := later);
        return Some(NotDelivered), q;
      }
      q := Sleep(l, q, seen);
      return None, q;
    }

    /** How the loop ends, from the session, the listener's record and the dropped sessions it began with. */
    ghost predicate ConfirmedAs(
        before: Snapshot, end: Ending, session: Session, wasHeard: seq<LinkState>, wasDropped: seq<Session>)
      reads this
    {
      match end
      case Shown(seen) =>
        && wrapper.Some? && Later(session, wrapper.value)
        && before.frames + DELIVERY_FRAMES <= seen.frames <= wrapper.value.frames
        && link.Connected? && heard == wasHeard && dropped == wasDropped
      case NotDelivered =>
        && wrapper.None? && link.Stale? && heard == wasHeard + [Stale]
        && OneMoreDropped(wasDropped, dropped, session)
      case _ => false
    }

    /** Round n of the loop, when no round before it has ended it. */
    method NextRound(before: Snapshot, deadline: real, env: nat -> Interval, n: nat, ghost missing: int, ghost p: Place)
      returns (end: Option<Ending>, ghost q: Place)
      requires Valid() && link.Connected? && forall i :: env(i).dt >= 0.0
      requires IsAt(p) && IsPolling(p, before, deadline - c.staleAfter)
      requires Goes(env, missing, n, deadline, before)
      modifies this`link, this`wrapper, this`heard, this`dropped, this`now
      ensures Valid() && q == p.(st := q.st)
      ensures end.None? ==>
                && wrapper.Some? && Later(old(wrapper).value, wrapper.value)
                && link.Connected? && heard == old(heard) && dropped == old(dropped)
                && old(now) < deadline && now >= old(now) + POLL_SECONDS
                && IsAt(q) && IsPolling(q, before, deadline - c.staleAfter)
                && Goes(env, missing, n + 1, deadline, before)
      ensures end.Some? ==>
                && Leads(c, p.from, q.st) && EndsAs(q.st, p.k, p.s, end.value, link, heard, wrapper)
                && ConfirmedAs(before, end.value, old(wrapper).value, old(heard), old(dropped))
                && (end.value.NotDelivered? ==> now >= deadline)
                && DecidedBy(env, missing, c.staleAfter, n, end.value)
                && (n > 0 ==> (n - 1) as real * POLL_SECONDS < c.staleAfter)
    {
      end, q := Round(before, deadline, env(3 * n), env(3 * n + 1), env(3 * n + 2), p);
      if end.None? {
        OneMoreRound(env, missing, c.staleAfter, n);
      } else {
        PollsAreFew(env, missing, c.staleAfter, n);
      }
    }

    lemma ConfirmedFromStart(before: Snapshot, end: Ending, first: Session, session: Session,
                             wasHeard: seq<LinkState>, wasDropped: seq<Session>)
      requires Later(first, session) && ConfirmedAs(before, end, session, wasHeard, wasDropped)
      ensures ConfirmedAs(before, end, first, wasHeard, wasDropped)
    {
    }

    /** After n rounds the loop goes on, and the frames and the clock are what those brought. */
    ghost predicate Goes(env: nat -> Interval, missing: int, n: nat, deadline: real, before: Snapshot)
      requires wrapper.Some?
      reads this
    {
      && Undecided(env, missing, c.staleAfter, n)
      && wrapper.value.frames + missing == before.frames + DELIVERY_FRAMES + FramesIn(env, n)
      && now + c.staleAfter == deadline + TimeIn(env, n)
    }

    /**
     The polling loop: it acknowledges at the first read that shows two frames more than
     `before`, and otherwise drops the session once the budget is spent.  `env` is what
     happens at the awaits, in order; `polls` counts the sleeps.
     */
    method Confirm(before: Snapshot, env: nat -> Interval, ghost p: Place, ghost missing: int)
      returns (end: Ending, ghost polls: nat, ghost later: State)
      requires Valid() && link.Connected? && forall i :: env(i).dt >= 0.0
      requires IsAt(p) && p.st.commands[p.k].pc.Staged? && p.st.commands[p.k].before == before
      requires missing == before.frames + DELIVERY_FRAMES - wrapper.value.frames
      modifies this`link, this`wrapper, this`heard, this`dropped, this`now
      ensures Valid() && ConfirmedAs(before, end, old(wrapper).value, old(heard), old(dropped))
      ensures end.NotDelivered? ==> now - old(now) >= c.staleAfter
      ensures polls > 0 ==> (polls - 1) as real * POLL_SECONDS < c.staleAfter
      ensures Leads(c, p.from, later) && EndsAs(later, p.k, p.s, end, link, heard, wrapper)
      ensures DecidedBy(env, missing, c.staleAfter, polls, end)
    {
      polls := 0;
      var deadline := now + c.staleAfter;
      ghost var st := BudgetBegins(c, p.from, p.st, p.k, p.s, See());
      ghost var q := p.(st := st);
      var n: nat := 0;
      while true
        invariant Valid() && wrapper.Some? && Later(old(wrapper).value, wrapper.value)
        invariant link.Connected? && heard == old(heard) && dropped == old(dropped)
        invariant IsAt(q) && q == p.(st := q.st) && IsPolling(q, before, deadline - c.staleAfter)
        invariant Goes(env, missing, n, deadline, before)
        decreases (deadline - now) * 100.0
      {
        var ended: Option<Ending>;
        ghost var session := wrapper.value;
        ended, q := NextRound(before, deadline, env, n, missing, q);
        if ended.Some? {
          end, polls, later := ended.value, n, q.st;
          ConfirmedFromStart(before, end, old(wrapper).value, session, old(heard), old(dropped));
          return;
        }
        n := n + 1;
      }
    }

    /** `before` is read, and judged once the thread has returned it. */
    method ReadBefore(i: Interval, j: Interval, ghost p: Place) returns (before: Snapshot, ghost q: Place)
      requires i.dt >= 0.0 && j.dt >= 0.0 && IsAt(p) && p.st.commands[p.k].pc.ReadingBefore?
      modifies this`wrapper, this`now
      ensures now >= old(now) && wrapper.Some? && Later(old(wrapper).value, wrapper.value)
      ensures before.frames == old(wrapper).value.frames + i.frames
      ensures wrapper.value.frames == before.frames + j.frames
      ensures before.Old(c) <==> GoneQuiet(old(wrapper).value, old(now), i, c.staleAfter)
      ensures q == p.(st := q.st)
      ensures if GoneQuiet(old(wrapper).value, old(now), i, c.staleAfter) then Leads(c, q.from, q.st) && EndsAs(q.st, q.k, q.s, JustQuiet, link, heard, wrapper)
              else IsAt(q) && SameCommand(p.st.commands[p.k].(pc := CommandPc.Staging, before := before), q.st.commands[q.k])
    {
      q := Await(i, p);
      before := wrapper.value.Read(now);
      ghost var st := BeforeIsRead(c, q.from, q.st, q.k, q.s, See());
      q := q.(st := st);
      q := Await(j, q);
      st := BeforeIsJudged(c, q.from, q.st, q.k, q.s, See());
      q := q.(st := st);
    }

    /** The session holds the order from now on. */
    method Stage(order: Order, k: Id, i: Interval, j: Interval, ghost p: Place) returns (ghost q: Place)
      requires i.dt >= 0.0 && j.dt >= 0.0 && IsAt(p) && p.k == k
      requires p.st.commands[k].pc.Staging? && p.st.commands[k].order == order
      modifies this`wrapper, this`now
      ensures now >= old(now) && wrapper.Some? && Later(old(wrapper).value.Hold(order, k), wrapper.value)
      ensures wrapper.value.frames == old(wrapper).value.frames + i.frames + j.frames
      ensures IsAt(q) && q == p.(st := q.st)
      ensures q.st.commands[k].pc.Staged? && q.st.commands[k].before == p.st.commands[k].before
    {
      q := Await(i, p);
      ghost var st := OrderIsStaged(c, q.from, q.st, q.k, q.s, See());
      q := q.(st := st);
      wrapper := Some(wrapper.value.Hold(order, k));
      q := Await(j, q);
    }

    /**
     How a command ends that had a link: from the session, the listener's record and the
     dropped sessions it began with, and the frames that came before its first snapshot.
     */
    ghost predicate CarriedAs(
        order: Order, k: Id, end: Ending, session: Session, wasHeard: seq<LinkState>, wasDropped: seq<Session>, first: int)
      reads this
    {
      match end
      case Shown(seen) =>
        && wrapper.Some? && Later(session.Hold(order, k), wrapper.value)
        && wrapper.value.frames >= session.frames + first + DELIVERY_FRAMES
        && link.Connected? && heard == wasHeard && dropped == wasDropped
      case JustQuiet =>
        && wrapper.Some? && Later(session, wrapper.value) && !wrapper.value.Holds(k)
        && link.Connected? && heard == wasHeard && dropped == wasDropped
      case NotDelivered =>
        && wrapper.None? && link.Stale? && heard == wasHeard + [Stale]
        && OneMoreDropped(wasDropped, dropped, session.Hold(order, k))
      case NoLink => false
    }

    /** What the loop leaves behind is what the command does. */
    lemma ConfirmedIsCarried(order: Order, k: Id, before: Snapshot, end: Ending, session: Session, staged: Session,
                             wasHeard: seq<LinkState>, wasDropped: seq<Session>, first: int)
      requires Later(session.Hold(order, k), staged) && before.frames == session.frames + first
      requires ConfirmedAs(before, end, staged, wasHeard, wasDropped)
      ensures CarriedAs(order, k, end, session, wasHeard, wasDropped, first)
    {
    }

    /** The command from its judgement on; `before` may be some frames old. */
    method StageThenConfirm(order: Order, k: Id, before: Snapshot, env: nat -> Interval, ghost p: Place, ghost missing: int)
      returns (end: Ending, ghost polls: nat, ghost later: State)
      requires Valid() && link.Connected? && forall i :: env(i).dt >= 0.0
      requires IsAt(p) && p.k == k && p.st.commands[k].pc.Staging?
      requires p.st.commands[k].order == order && p.st.commands[k].before == before
      requires missing == before.frames + DELIVERY_FRAMES - wrapper.value.frames - env(2).frames - env(3).frames
      modifies this`link, this`wrapper, this`heard, this`dropped, this`now
      ensures Valid() && !end.JustQuiet? && !end.NoLink?
      ensures CarriedAs(order, k, end, old(wrapper).value, old(heard), old(dropped), before.frames - old(wrapper).value.frames)
      ensures end.NotDelivered? ==> now - old(now) >= c.staleAfter
      ensures polls > 0 ==> (polls - 1) as real * POLL_SECONDS < c.staleAfter
      ensures Leads(c, p.from, later) && EndsAs(later, k, p.s, end, link, heard, wrapper)
      ensures DecidedBy(Beyond(env), missing, c.staleAfter, polls, end)
    {
      ghost var q := Stage(order, k, env(2), env(3), p);
      ghost var staged := wrapper.value;
      end, polls, later := Confirm(before, Beyond(env), q, missing);
      ConfirmedIsCarried(order, k, before, end, old(wrapper).value, staged, old(heard), old(dropped),
                         before.frames - old(wrapper).value.frames);
    }

    /** Frames that came in between make no difference. */
    lemma CarriedFromEarlier(order: Order, k: Id, end: Ending, first: Session, session: Session,
                             wasHeard: seq<LinkState>, wasDropped: seq<Session>, seen: nat)
      requires Later(first, session) && !end.JustQuiet?
      requires CarriedAs(order, k, end, session, wasHeard, wasDropped, seen - session.frames)
      ensures CarriedAs(order, k, end, first, wasHeard, wasDropped, seen - first.frames)
    {
    }

    /** The command from the first snapshot on. */
    method Carry(order: Order, k: Id, env: nat -> Interval, ghost p: Place)
      returns (end: Ending, ghost polls: nat, ghost later: State)
      requires Valid() && link.Connected? && forall i :: env(i).dt >= 0.0
      requires IsAt(p) && p.k == k && !wrapper.value.Holds(k)
      requires p.st.commands[k].pc.ReadingBefore? && p.st.commands[k].order == order
      modifies this`link, this`wrapper, this`heard, this`dropped, this`now
      ensures Valid() && CarriedAs(order, k, end, old(wrapper).value, old(heard), old(dropped), env(0).frames)
      ensures end.NotDelivered? ==> now - old(now) >= c.staleAfter
      ensures polls > 0 ==> (polls - 1) as real * POLL_SECONDS < c.staleAfter
      ensures Leads(c, p.from, later) && EndsAs(later, k, p.s, end, link, heard, wrapper)
      ensures end.JustQuiet? <==> GoneQuiet(old(wrapper).value, old(now), env(0), c.staleAfter)
      ensures !end.JustQuiet? ==> DecidedBy(Beyond(env), MissingAfter(env), c.staleAfter, polls, end)
    {
      polls := 0;
      var before;
      ghost var q;
      before, q := ReadBefore(env(0), env(1), p);
      if before.Old(c) {
        end := JustQuiet;
        later := q.st;
        return;
      }
      ghost var session := wrapper.value;
      end, polls, later := StageThenConfirm(order, k, before, env, q, MissingAfter(env));
      CarriedFromEarlier(order, k, end, old(wrapper).value, session, old(heard), old(dropped), before.frames);
    }

    /**
     An order is refused on a link that has gone quiet, and on such a link only.  It is
     acknowledged only while its session is still there, once two frames have
     arrived since the `before` snapshot, which comes after the first await; an order that is
     not delivered is stopped together with its session.  In every case the step system has a
     run from the same start to the same end.
     */
    method StageAndConfirm(order: Order, k: Id, env: nat -> Interval, ghost from: State)
      returns (end: Ending, ghost polls: nat, ghost later: State)
      requires Valid() && forall i :: env(i).dt >= 0.0
      requires wrapper.Some? ==> !wrapper.value.Holds(k)
      requires Ready(from, k, link, heard, now, wrapper) && from.commands[k].order == order
      modifies this`link, this`wrapper, this`heard, this`dropped, this`now
      ensures Valid()
      ensures end.NoLink? <==> !old(link).Connected?
      ensures end.NoLink? ==> unchanged(this)
      ensures end.JustQuiet? <==>
                old(link).Connected? && GoneQuiet(old(wrapper).value, old(now), env(0), c.staleAfter)
      ensures end.Shown? || end.NotDelivered? ==>
                DecidedBy(Beyond(env), MissingAfter(env), c.staleAfter, polls, end)
      ensures !end.NoLink? ==>
                CarriedAs(order, k, end, old(wrapper).value, old(heard), old(dropped), env(0).frames)
      ensures end.NotDelivered? ==> now - old(now) >= c.staleAfter
      ensures polls > 0 ==> (polls - 1) as real * POLL_SECONDS < c.staleAfter
      ensures Leads(c, from, later)
      ensures end.NoLink? ==> Through(later, k, Refused, link, heard, from.wrapper)
      ensures !end.NoLink? ==> from.wrapper.Some? && EndsAs(later, k, from.wrapper.value, end, link, heard, wrapper)
    {
      polls := 0;
      Stays(c, from);
      if link != Connected || wrapper.None? {
        end := NoLink;
        later := RefusedAtOnce(c, from, from, k, link, heard, now, wrapper);
        return;
      }
      ghost var st := Accepted(c, from, from, k, See());
      end, polls, later := Carry(order, k, env, Place(from, st, k, from.wrapper.value));
    }
  }

  /** The awaits of the loop: four come before it. */
  function Beyond(env: nat -> Interval): nat -> Interval {
    (i: nat) => env(i + 4)
  }

  /** The frames that are still missing when the confirmation begins: two, less those since the first read. */
  function MissingAfter(env: nat -> Interval): int {
    DELIVERY_FRAMES - env(1).frames - env(2).frames - env(3).frames
  }

  /**
   The loop ends with the first poll that shows the frames that were missing or comes when
   the budget is spent, as an acknowledgement exactly if it shows them.
   */
  predicate DecidedBy(env: nat -> Interval, missing: int, budget: real, polls: nat, end: Ending) {
    && Undecided(env, missing, budget, polls)
    && (ShowsEnough(env, polls, missing) || IsSpent(env, polls, budget))
    && (end.Shown? <==> ShowsEnough(env, polls, missing))
  }

  /** The command is polling since `start`. */
  predicate IsPolling(p: Place, before: Snapshot, start: real) {
    && p.k < |p.st.commands| && p.st.commands[p.k].pc.Polling?
    && p.st.commands[p.k].before == before && p.st.commands[p.k].start == start
  }

  /** The step system ends as the method does: same ending, state and listener's record, and same session. */
  predicate EndsAs(
      later: State, k: Id, s: Id, end: Ending, link: LinkState, heard: seq<LinkState>, wrapper: Option<Session>)
  {
    && s < |later.sessions|
    && (wrapper.Some? ==> later.sessions[s] == wrapper.value)
    && match end
       case Shown(seen) => Through(later, k, Acked(seen), link, heard, Some(s))
       case NotDelivered => Through(later, k, TimedOut, link, heard, None) && !later.sessions[s].live
       case _ => Through(later, k, Refused, link, heard, Some(s))
  }
}
