/** The bounded frame dedup of LatencyTracker (voice_agent/metrics.py). */
module FrameDedup {

  /** maxlen of the deque. */
  const HISTORY: nat := 512

  function Last<T>(s: seq<T>, n: nat): seq<T> {
    if |s| <= n then s else s[|s| - n..]
  }

  predicate Distinct<T(==)>(s: seq<T>) {
    forall i, j :: 0 <= i < j < |s| ==> s[i] != s[j]
  }

  /** deque.append under maxlen. */
  function Remember(order: seq<int>, id: int): seq<int> {
    Last(order + [id], HISTORY)
  }

  /** The deque after a stream of ids. */
  function Window(ids: seq<int>): seq<int> {
    if ids == [] then [] else
      var before, id := Window(ids[..|ids| - 1]), ids[|ids| - 1];
      if id in before then before else Remember(before, id)
  }

  /** All ids that were ever taken for new. */
  function Accepted(ids: seq<int>): seq<int> {
    if ids == [] then [] else
      var front, id := ids[..|ids| - 1], ids[|ids| - 1];
      Accepted(front) + if id in Window(front) then [] else [id]
  }

  predicate IsNewAt(ids: seq<int>, k: nat)
    requires k < |ids|
  {
    ids[k] !in Window(ids[..k])
  }

  /** The answer of a set that forgets nothing. */
  predicate NeverSeenAt(ids: seq<int>, k: nat)
    requires k < |ids|
  {
    ids[k] !in ids[..k]
  }

  /** Each id once, in the order of first appearance. */
  function FirstSeen(ids: seq<int>): seq<int> {
    if ids == [] then [] else
      var front, id := ids[..|ids| - 1], ids[|ids| - 1];
      FirstSeen(front) + if id in front then [] else [id]
  }

  // -- the deque holds the last 512 accepted ids ----------------------------------------------

  /** The deque is the last 512 ids taken for new, all different. */
  lemma {:induction false} WindowIsTheLastAccepted(ids: seq<int>)
    ensures Window(ids) == Last(Accepted(ids), HISTORY)
    ensures Distinct(Window(ids)) && |Window(ids)| <= 512
    ensures |Accepted(ids)| >= 512 ==> |Window(ids)| == 512
  {
    if ids != [] {
      WindowIsTheLastAccepted(ids[..|ids| - 1]);
      RememberKeeps(Accepted(ids[..|ids| - 1]), ids[|ids| - 1]);
    }
  }

  lemma RememberKeeps(accepted: seq<int>, id: int)
    ensures Remember(Last(accepted, HISTORY), id) == Last(accepted + [id], HISTORY)
    ensures Distinct(Last(accepted, HISTORY)) && id !in Last(accepted, HISTORY) ==>
              Distinct(Remember(Last(accepted, HISTORY), id))
  {
    var order := Last(accepted, HISTORY);
    assert forall i :: 0 <= i < |order| ==> order[i] in order;
  }

  // -- and so agrees with a set that forgets nothing ---------------------------------------------

  predicate AgreesUpTo(ids: seq<int>, n: nat)
    requires n <= |ids|
  {
    forall k :: 0 <= k < n ==> (IsNewAt(ids, k) <==> NeverSeenAt(ids, k))
  }

  /** If the id has come, fewer than 512 other ids were new since it first came. */
  predicate IsRecent(first: seq<int>, id: int) {
    forall p :: 0 <= p < |first| && first[p] == id ==> |first| - p <= HISTORY
  }

  /** Every id that comes again does so in time. */
  predicate RepeatsInTime(ids: seq<int>) {
    forall k :: 0 <= k < |ids| ==> IsRecent(FirstSeen(ids[..k]), ids[k])
  }

  lemma {:induction false} FirstSeenHolds(ids: seq<int>)
    ensures forall id :: id in FirstSeen(ids) <==> id in ids
    ensures Distinct(FirstSeen(ids))
  {
    if ids != [] {
      var front := ids[..|ids| - 1];
      FirstSeenHolds(front);
      assert ids == front + [ids[|ids| - 1]];
      assert forall i :: 0 <= i < |FirstSeen(front)| ==> FirstSeen(front)[i] in FirstSeen(front);
    }
  }

  lemma {:induction false} AgreementMakesFirstSeen(ids: seq<int>, n: nat)
    requires n <= |ids| && AgreesUpTo(ids, n)
    ensures Accepted(ids[..n]) == FirstSeen(ids[..n])
  {
    if n > 0 {
      AgreementMakesFirstSeen(ids, n - 1);
      assert ids[..n][..n - 1] == ids[..n - 1];
      assert IsNewAt(ids, n - 1) <==> NeverSeenAt(ids, n - 1);
    }
  }

  lemma InLastIff(first: seq<int>, id: int)
    requires Distinct(first)
    ensures id in Last(first, HISTORY) <==> id in first && IsRecent(first, id)
  {
    var last := Last(first, HISTORY);
    var skipped := |first| - |last|;
    assert forall i :: 0 <= i < |last| ==> last[i] == first[skipped + i];
    if id in first {
      var p :| 0 <= p < |first| && first[p] == id;
      assert p >= skipped ==> last[p - skipped] == id;
      assert IsRecent(first, id) <==> p >= skipped;
    }
  }

  /** While the answers have agreed, the next one agrees exactly if the id is new or recent. */
  lemma NextAgreesIff(ids: seq<int>, k: nat)
    requires k < |ids| && AgreesUpTo(ids, k)
    ensures (IsNewAt(ids, k) <==> NeverSeenAt(ids, k)) <==> IsRecent(FirstSeen(ids[..k]), ids[k])
  {
    AgreementMakesFirstSeen(ids, k);
    WindowIsTheLastAccepted(ids[..k]);
    FirstSeenHolds(ids[..k]);
    InLastIff(FirstSeen(ids[..k]), ids[k]);
    assert ids[k] in FirstSeen(ids[..k]) || IsRecent(FirstSeen(ids[..k]), ids[k]);
  }

  /** The answers are those of a set that forgets nothing exactly on the streams whose repeats come in time. */
  lemma AgreesWithUnboundedIff(ids: seq<int>)
    ensures AgreesUpTo(ids, |ids|) <==> RepeatsInTime(ids)
  {
    if RepeatsInTime(ids) {
      InTimeAgrees(ids, |ids|);
    }
    if AgreesUpTo(ids, |ids|) {
      forall k | 0 <= k < |ids|
        ensures IsRecent(FirstSeen(ids[..k]), ids[k])
      {
        NextAgreesIff(ids, k);
      }
    }
  }

  lemma {:induction false} InTimeAgrees(ids: seq<int>, n: nat)
    requires RepeatsInTime(ids) && n <= |ids|
    ensures AgreesUpTo(ids, n)
  {
    if n > 0 {
      InTimeAgrees(ids, n - 1);
      NextAgreesIff(ids, n - 1);
      assert IsNewAt(ids, n - 1) <==> NeverSeenAt(ids, n - 1);
    }
  }

  lemma InTimeAppend(ids: seq<int>, id: int)
    ensures RepeatsInTime(ids + [id]) <==> RepeatsInTime(ids) && IsRecent(FirstSeen(ids), id)
  {
    var all := ids + [id];
    assert all[..|ids|] == ids && all[|ids|] == id;
    assert forall k :: 0 <= k < |ids| ==> all[..k] == ids[..k] && all[k] == ids[k];
    if RepeatsInTime(all) {
      forall k | 0 <= k < |ids|
        ensures IsRecent(FirstSeen(ids[..k]), ids[k])
      {
        assert IsRecent(FirstSeen(all[..k]), all[k]);
      }
    }
  }

  /** The deque only holds ids that came, and on a stream whose repeats come in time the next answer agrees exactly if it does so too. */
  lemma NextInTimeIff(ids: seq<int>, id: int)
    ensures id in Window(ids) ==> id in ids
    ensures RepeatsInTime(ids) ==> (RepeatsInTime(ids + [id]) <==> (id !in Window(ids) <==> id !in ids))
  {
    WindowHolds(ids);
    if RepeatsInTime(ids) {
      var all := ids + [id];
      InTimeAgrees(ids, |ids|);
      assert forall k :: 0 <= k < |ids| ==> all[..k] == ids[..k] && all[k] == ids[k];
      assert forall k :: 0 <= k < |ids| ==> (IsNewAt(ids, k) <==> IsNewAt(all, k));
      assert forall k :: 0 <= k < |ids| ==> (NeverSeenAt(ids, k) <==> NeverSeenAt(all, k));
      assert all[..|ids|] == ids;
      NextAgreesIff(all, |ids|);
      InTimeAppend(ids, id);
    }
  }

  lemma {:induction false} WindowHolds(ids: seq<int>)
    ensures forall id :: id in Window(ids) ==> id in ids
  {
    if ids != [] {
      var front, id := ids[..|ids| - 1], ids[|ids| - 1];
      WindowHolds(front);
      assert ids == front + [id];
      assert forall i :: i in Remember(Window(front), id) ==> i in Window(front) || i == id;
    }
  }
}
