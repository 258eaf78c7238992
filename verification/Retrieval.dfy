/** Selection and expansion of retrieved chunks: voice_agent/backends/llm/langgraph_helmsman/helpers.py. */
module Retrieval {
  import opened Prelude
  import opened ChunkIds

  /** A chunk or a scrolled point, with its position in the fused ranking; absent fields are None. */
  datatype Hit = Hit(filename: Option<string>, chunkId: Option<string>, text: string, rank: Option<nat>)

  // -- selection -------------------------------------------------------------------------------

  function InRange(labels: seq<int>, n: nat): (r: seq<nat>)
    ensures forall i :: 0 <= i < |r| ==> r[i] < n
  {
    if labels == [] then []
    else (if 0 <= labels[0] - 1 < n then [labels[0] - 1] else []) + InRange(labels[1..], n)
  }

  function FirstThree<T>(s: seq<T>): seq<T> {
    if |s| <= 3 then s else s[..3]
  }

  function UpTo(n: nat): seq<nat> {
    seq(n, i => i)
  }

  /** parse_rerank_indices, given the integers under "top_3" (none where parsing failed). */
  function RerankIndices(labels: seq<int>, n: nat): (r: seq<nat>)
    ensures |r| <= 3 && (n > 0 ==> |r| > 0) && forall i :: 0 <= i < |r| ==> r[i] < n
  {
    var indices := InRange(labels, n);
    FirstThree(if indices == [] then UpTo(if n < 3 then n else 3) else indices)
  }

  /** `at` are the places, from k on, of the labels that name one of n chunks, counted from one. */
  ghost predicate AreUsable(at: seq<nat>, labels: seq<int>, k: nat, n: nat) {
    && (forall i :: 0 <= i < |at| ==> k <= at[i] < |labels| && 1 <= labels[at[i]] <= n)
    && (forall i, j :: 0 <= i < j < |at| ==> at[i] < at[j])
    && (forall i :: k <= i < |labels| && 1 <= labels[i] <= n ==> i in at)
  }

  /** The positions are those that the labels at these places name. */
  ghost predicate Named(positions: seq<nat>, at: seq<nat>, labels: seq<int>) {
    && |positions| == |at|
    && forall i :: 0 <= i < |at| ==> at[i] < |labels| && positions[i] == labels[at[i]] - 1
  }

  lemma {:induction false} UsableFrom(labels: seq<int>, k: nat, n: nat) returns (at: seq<nat>)
    requires k <= |labels|
    ensures AreUsable(at, labels, k, n) && Named(InRange(labels[k..], n), at, labels)
    decreases |labels| - k
  {
    if k == |labels| {
      at := [];
    } else {
      var rest := UsableFrom(labels, k + 1, n);
      if 1 <= labels[k] <= n {
        OneMoreUsable(labels, k, n, rest);
        OneMoreNamed(labels, k, n, rest);
        at := [k] + rest;
      } else {
        assert labels[k..][1..] == labels[k + 1..];
        at := rest;
      }
    }
  }

  lemma OneMoreUsable(labels: seq<int>, k: nat, n: nat, rest: seq<nat>)
    requires k < |labels| && AreUsable(rest, labels, k + 1, n) && 1 <= labels[k] <= n
    ensures AreUsable([k] + rest, labels, k, n)
  {
    assert ([k] + rest)[0] == k;
    assert forall i :: i in rest ==> i in [k] + rest;
  }

  lemma OneMoreNamed(labels: seq<int>, k: nat, n: nat, rest: seq<nat>)
    requires k < |labels| && Named(InRange(labels[k + 1..], n), rest, labels) && 1 <= labels[k] <= n
    ensures Named(InRange(labels[k..], n), [k] + rest, labels)
  {
    assert labels[k..][1..] == labels[k + 1..];
    assert InRange(labels[k..], n) == [labels[k] - 1] + InRange(labels[k + 1..], n);
  }

  /**
   The model's labels are followed: the first three that name a chunk, counted from one, in
   the order given; if none does, the first three chunks are taken.  `at` are the places of the
   labels that name a chunk.
   */
  lemma LabelsAreFollowed(labels: seq<int>, n: nat) returns (at: seq<nat>)
    ensures AreUsable(at, labels, 0, n)
    ensures var r := RerankIndices(labels, n);
            if at == [] then
              r == if n == 0 then [] else if n == 1 then [0] else if n == 2 then [0, 1] else [0, 1, 2]
            else
              |r| == (if |at| <= 3 then |at| else 3) && forall i :: 0 <= i < |r| ==> r[i] == labels[at[i]] - 1
  {
    at := UsableFrom(labels, 0, n);
    assert labels[0..] == labels;
  }

  /** apply_rerank; the new rank of a winner is its place in the result. */
  method ApplyRerank(chunks: seq<Hit>, indices: seq<int>) returns (top: seq<Hit>)
    ensures (forall i :: 0 <= i < |indices| ==> 0 <= indices[i] < |chunks|) ==>
              |top| == |indices| && forall i :: 0 <= i < |top| ==> top[i] == chunks[indices[i]]
    ensures forall h :: h in top ==> h in chunks
  {
    top := [];
    for k := 0 to |indices|
      invariant forall h :: h in top ==> h in chunks
      invariant (forall i :: 0 <= i < k ==> 0 <= indices[i] < |chunks|) ==>
                  |top| == k && forall i :: 0 <= i < k ==> top[i] == chunks[indices[i]]
    {
      if 0 <= indices[k] < |chunks| {
        top := top + [chunks[indices[k]]];
      }
    }
  }

  /** Reranking a list that is not empty gives one to three of its chunks, whatever the model said. */
  method Rerank(chunks: seq<Hit>, labels: seq<int>) returns (top: seq<Hit>)
    ensures chunks != [] ==> 1 <= |top| <= 3
    ensures forall h :: h in top ==> h in chunks
    ensures |top| == |RerankIndices(labels, |chunks|)|
    ensures forall i :: 0 <= i < |top| ==> top[i] == chunks[RerankIndices(labels, |chunks|)[i]]
  {
    top := ApplyRerank(chunks, RerankIndices(labels, |chunks|));
  }

  // -- neighbours --------------------------------------------------------------------------------

  /** The file and the number of a winner that has both. */
  function Place(w: Hit): Option<(string, nat)> {
    if w.chunkId.None? || w.filename.None? || w.filename.value == "" then None
    else match ParseId(w.chunkId.value)
         case None => None
         case Some(n) => Some((w.filename.value, n))
  }

  function Candidates(n: nat): (ids: seq<string>)
    ensures forall id :: id in ids <==> IsNextTo(id, n)
  {
    (if n > 0 then [ChunkId(n - 1)] else []) + [ChunkId(n + 1)]
  }

  predicate IsNextTo(id: string, n: nat) {
    id == ChunkId(n + 1) || (n > 0 && id == ChunkId(n - 1))
  }

  ghost predicate Distinct<T(!new)>(s: seq<T>) {
    forall i, j :: 0 <= i < j < |s| ==> s[i] != s[j]
  }

  type Places = seq<Option<(string, nat)>>

  function PlacesOf(winners: seq<Hit>): Places {
    seq(|winners|, i requires 0 <= i < |winners| => Place(winners[i]))
  }

  /** It is the id before or after that of some winner of the file. */
  ghost predicate Wanted(places: Places, file: string, id: string) {
    exists n, m :: Some((file, n)) in places && id == ChunkId(m) && (m == n + 1 || m + 1 == n)
  }

  lemma NextToIs(id: string, n: nat)
    ensures IsNextTo(id, n) <==> exists m: nat :: id == ChunkId(m) && (m == n + 1 || m + 1 == n)
  {
    if n > 0 && id == ChunkId(n - 1) {
      var m: nat := n - 1;
      assert id == ChunkId(m);
    }
  }

  lemma WantedIs(places: Places, file: string, id: string)
    ensures Wanted(places, file, id) <==> exists n :: Some((file, n)) in places && IsNextTo(id, n)
  {
    forall n: nat
      ensures IsNextTo(id, n) <==> exists m: nat :: id == ChunkId(m) && (m == n + 1 || m + 1 == n)
    {
      NextToIs(id, n);
    }
  }

  /** For every file of a winner, each id next to a winner of that file, once. */
  ghost predicate AreNeighbours(groups: map<string, seq<string>>, places: Places) {
    && (forall f :: f in groups <==> exists n :: Some((f, n)) in places)
    && (forall f :: f in groups ==> Distinct(groups[f]) && forall id :: id in groups[f] <==> Wanted(places, f, id))
  }

  lemma NeighboursOneMore(
      groups: map<string, seq<string>>, places: Places, file: string, n: nat, ids: seq<string>)
    requires AreNeighbours(groups, places) && Distinct(ids)
    requires forall id :: id in ids <==> (file in groups && id in groups[file]) || IsNextTo(id, n)
    ensures AreNeighbours(groups[file := ids], places + [Some((file, n))])
  {
    var all := places + [Some((file, n))];
    assert Some((file, n)) in all;
    forall f, id
      ensures Wanted(all, f, id) <==> Wanted(places, f, id) || (f == file && IsNextTo(id, n))
    {
      WantedIs(all, f, id);
      WantedIs(places, f, id);
      assert forall m :: Some((f, m)) in all <==> Some((f, m)) in places || (f == file && m == n);
    }
    assert file !in groups ==> forall id :: !Wanted(places, file, id);
  }

  /** A winner counts if it has a file and an id that reads as a number. */
  lemma PlacesAre(winners: seq<Hit>, file: string, n: nat)
    ensures Some((file, n)) in PlacesOf(winners) <==>
            exists w :: w in winners && file != "" && w.filename == Some(file)
                        && w.chunkId.Some? && ParseId(w.chunkId.value) == Some(n)
  {
    var places := PlacesOf(winners);
    if w :| w in winners && file != "" && w.filename == Some(file) && w.chunkId.Some? && ParseId(w.chunkId.value) == Some(n) {
      var i :| 0 <= i < |winners| && winners[i] == w;
      assert places[i] == Some((file, n));
    }
    if Some((file, n)) in places {
      var i :| 0 <= i < |places| && places[i] == Some((file, n));
      assert winners[i] in winners;
    }
  }

  method NeighbourIds(winners: seq<Hit>) returns (groups: map<string, seq<string>>)
    ensures AreNeighbours(groups, PlacesOf(winners))
  {
    groups := GroupByFile(PlacesOf(winners));
  }

  /** The loop over the winners; None is one that it skips. */
  method GroupByFile(places: Places) returns (groups: map<string, seq<string>>)
    ensures AreNeighbours(groups, places)
  {
    groups := map[];
    var seen: map<string, set<string>> := map[];
    for k := 0 to |places|
      invariant AreNeighbours(groups, places[..k])
      invariant seen.Keys == groups.Keys
      invariant forall f :: f in groups ==> seen[f] == set id | id in groups[f]
    {
      assert places[..k + 1] == places[..k] + [places[k]];
      if places[k].None? {
        NeighboursSkip(groups, places[..k]);
        continue;
      }
      var (file, num) := places[k].value;
      var bucket := if file in seen then seen[file] else {};
      var ordered := if file in groups then groups[file] else [];
      bucket, ordered := AddNew(bucket, ordered, Candidates(num));
      NeighboursOneMore(groups, places[..k], file, num, ordered);
      seen := seen[file := bucket];
      groups := groups[file := ordered];
    }
    assert places[..|places|] == places;
  }

  lemma NeighboursSkip(groups: map<string, seq<string>>, places: Places)
    requires AreNeighbours(groups, places)
    ensures AreNeighbours(groups, places + [None])
  {
    assert forall f, n :: Some((f, n)) in places + [None] <==> Some((f, n)) in places;
    assert forall f, id :: Wanted(places + [None], f, id) <==> Wanted(places, f, id);
  }

  /** The inner loop: what is new, in order, once. */
  method AddNew(bucket: set<string>, ordered: seq<string>, candidates: seq<string>)
    returns (newBucket: set<string>, newOrdered: seq<string>)
    requires Distinct(ordered) && bucket == set id | id in ordered
    ensures Distinct(newOrdered) && newBucket == set id | id in newOrdered
    ensures forall id :: id in newOrdered <==> id in ordered || id in candidates
    ensures ordered <= newOrdered
  {
    newBucket, newOrdered := bucket, ordered;
    for k := 0 to |candidates|
      invariant Distinct(newOrdered) && newBucket == set id | id in newOrdered
      invariant forall id :: id in newOrdered <==> id in ordered || id in candidates[..k]
      invariant ordered <= newOrdered
    {
      var cid := candidates[k];
      if cid !in newBucket {
        newBucket := newBucket + {cid};
        newOrdered := newOrdered + [cid];
      }
    }
  }

  // -- merging ---------------------------------------------------------------------------------------

  function Shown(s: Option<string>): string {
    if s.Some? then s.value else "None"
  }

  /** f"{filename}::{chunk_id}". */
  function Key(h: Hit): string {
    Shown(h.filename) + "::" + Shown(h.chunkId)
  }

  /** A neighbour point that may be added. */
  predicate Admissible(p: Hit) {
    p.chunkId.Some? && p.chunkId.value != "" && p.filename != Some("__no_winners__")
  }

  function KeysOf<T, K(==)>(s: seq<T>, key: T -> K): set<K> {
    if s == [] then {} else KeysOf(s[..|s| - 1], key) + {key(s[|s| - 1])}
  }

  /** Each key once, at the first element that has it. */
  function Dedup<T, K(==)>(s: seq<T>, key: T -> K): seq<T> {
    if s == [] then [] else
      var front, x := s[..|s| - 1], s[|s| - 1];
      Dedup(front, key) + if key(x) in KeysOf(front, key) then [] else [x]
  }

  function Filtered(points: seq<Hit>): seq<Hit> {
    if points == [] then [] else
      var p := points[|points| - 1];
      Filtered(points[..|points| - 1]) + if Admissible(p) then [p] else []
  }

  lemma OneMoreKey<T, K>(s: seq<T>, x: T, key: T -> K)
    ensures KeysOf(s + [x], key) == KeysOf(s, key) + {key(x)}
    ensures Dedup(s + [x], key) == Dedup(s, key) + if key(x) in KeysOf(s, key) then [] else [x]
  {
    assert (s + [x])[..|s|] == s;
  }

  lemma {:induction false} DedupKeepsKeys<T, K>(s: seq<T>, key: T -> K)
    ensures KeysOf(Dedup(s, key), key) == KeysOf(s, key)
  {
    if s != [] {
      var front := s[..|s| - 1];
      DedupKeepsKeys(front, key);
      OneMoreKey(Dedup(front, key), s[|s| - 1], key);
      assert Dedup(front, key) + [] == Dedup(front, key);
    }
  }

  lemma {:induction false} KeyAt<T, K>(s: seq<T>, key: T -> K, i: nat)
    requires i < |s|
    ensures key(s[i]) in KeysOf(s, key)
  {
    if i < |s| - 1 {
      KeyAt(s[..|s| - 1], key, i);
    }
  }

  lemma {:induction false} DedupIsDistinct<T, K>(s: seq<T>, key: T -> K, i: nat, j: nat)
    requires i < j < |Dedup(s, key)|
    ensures key(Dedup(s, key)[i]) != key(Dedup(s, key)[j])
  {
    var front := s[..|s| - 1];
    if j < |Dedup(front, key)| {
      DedupIsDistinct(front, key, i, j);
    } else {
      KeyAt(Dedup(front, key), key, i);
      DedupKeepsKeys(front, key);
    }
  }

  lemma {:induction false} DedupAppend<T, K>(a: seq<T>, b: seq<T>, key: T -> K)
    ensures Dedup(a, key) <= Dedup(a + b, key)
  {
    if b == [] {
      assert a + b == a;
    } else {
      assert (a + b)[..|a + b| - 1] == a + b[..|b| - 1];
      DedupAppend(a, b[..|b| - 1], key);
    }
  }

  /** `if key not in seen: seen.add(key); merged.append(x)`. */
  method AddUnlessSeen<T, K(==)>(merged: seq<T>, seen: set<K>, x: T, key: T -> K, ghost before: seq<T>)
    returns (newMerged: seq<T>, newSeen: set<K>)
    requires merged == Dedup(before, key) && seen == KeysOf(before, key)
    ensures newMerged == Dedup(before + [x], key) && newSeen == KeysOf(before + [x], key)
  {
    OneMoreKey(before, x, key);
    newMerged, newSeen := merged, seen;
    if key(x) !in seen {
      newSeen := newSeen + {key(x)};
      newMerged := newMerged + [x];
    }
  }

  /** merge_neighbours. */
  method MergeNeighbours(winners: seq<Hit>, points: seq<Hit>) returns (merged: seq<Hit>)
    ensures merged == Dedup(winners + Filtered(points), Key)
  {
    var seen: set<string> := {};
    merged := [];
    for k := 0 to |winners|
      invariant merged == Dedup(winners[..k], Key) && seen == KeysOf(winners[..k], Key)
    {
      assert winners[..k + 1] == winners[..k] + [winners[k]];
      merged, seen := AddUnlessSeen(merged, seen, winners[k], Key, winners[..k]);
    }
    assert winners[..|winners|] == winners == winners + Filtered(points[..0]);
    ghost var all := winners;
    for k := 0 to |points|
      invariant all == winners + Filtered(points[..k])
      invariant merged == Dedup(all, Key) && seen == KeysOf(all, Key)
    {
      FilteredOneMore(winners, points, k);
      if Admissible(points[k]) {
        merged, seen := AddUnlessSeen(merged, seen, points[k], Key, all);
        all := all + [points[k]];
      } else {
        assert all + [] == all;
      }
    }
    assert points[..|points|] == points;
  }

  lemma FilteredOneMore(winners: seq<Hit>, points: seq<Hit>, k: nat)
    requires k < |points|
    ensures winners + Filtered(points[..k + 1])
         == winners + Filtered(points[..k]) + if Admissible(points[k]) then [points[k]] else []
  {
    assert points[..k + 1][..k] == points[..k];
  }

  lemma {:induction false} FilteredAre(points: seq<Hit>, p: Hit)
    ensures p in Filtered(points) <==>
            p in points && p.chunkId.Some? && p.chunkId.value != "" && p.filename != Some("__no_winners__")
  {
    if points != [] {
      FilteredAre(points[..|points| - 1], p);
    }
  }

  lemma {:induction false} DedupHolds<T, K>(s: seq<T>, key: T -> K, x: T)
    ensures x in Dedup(s, key) ==> x in s
    ensures x in s ==> exists i :: 0 <= i < |Dedup(s, key)| && key(Dedup(s, key)[i]) == key(x)
  {
    if s != [] {
      var front, last := s[..|s| - 1], s[|s| - 1];
      DedupHolds(front, key, x);
      DedupAppend(front, [last], key);
      assert front + [last] == s;
      if x in front {
        var i :| 0 <= i < |Dedup(front, key)| && key(Dedup(front, key)[i]) == key(x);
        assert Dedup(s, key)[i] == Dedup(front, key)[i];
      } else if x in s {
        LastIsThere(s, key);
      }
    }
  }

  lemma {:induction false} LastIsThere<T, K>(s: seq<T>, key: T -> K)
    requires s != []
    ensures exists i :: 0 <= i < |Dedup(s, key)| && key(Dedup(s, key)[i]) == key(s[|s| - 1])
  {
    var front, last := s[..|s| - 1], s[|s| - 1];
    if key(last) in KeysOf(front, key) {
      DedupKeepsKeys(front, key);
      KeyIsSomewhere(Dedup(front, key), key, key(last));
      assert Dedup(s, key) == Dedup(front, key);
    } else {
      assert Dedup(s, key)[|Dedup(front, key)|] == last;
    }
  }

  lemma {:induction false} KeyIsSomewhere<T, K>(s: seq<T>, key: T -> K, k: K)
    requires k in KeysOf(s, key)
    ensures exists i :: 0 <= i < |s| && key(s[i]) == k
  {
    var n := |s| - 1;
    if key(s[n]) != k {
      KeyIsSomewhere(s[..n], key, k);
      var i :| 0 <= i < n && key(s[..n][i]) == k;
      assert key(s[i]) == k;
    }
  }

  /**
   What is merged are winners, and points with an id that are not of the file "__no_winners__";
   of each of these there is one with its file and id in the result, and only one.
   */
  lemma MergedAre(winners: seq<Hit>, points: seq<Hit>, h: Hit)
    ensures var merged := Dedup(winners + Filtered(points), Key);
            var usable := h in points && h.chunkId.Some? && h.chunkId.value != "" && h.filename != Some("__no_winners__");
            && (h in merged ==> h in winners || usable)
            && (h in winners || usable ==> exists i :: 0 <= i < |merged| && Key(merged[i]) == Key(h))
            && (h.filename.Some? && h.chunkId.Some? ==>
                  forall i, j :: 0 <= i < j < |merged| ==>
                    !(merged[i].filename == merged[j].filename == h.filename && merged[i].chunkId == merged[j].chunkId == h.chunkId))
  {
    FilteredAre(points, h);
    DedupHolds(winners + Filtered(points), Key, h);
    MergedContext(winners, points);
  }

  /** The winners come first, in their order; no key comes twice; and every key of a winner or an admissible neighbour is there. */
  lemma MergedContext(winners: seq<Hit>, points: seq<Hit>)
    ensures var merged := Dedup(winners + Filtered(points), Key);
            && Dedup(winners, Key) <= merged
            && (forall i, j :: 0 <= i < j < |merged| ==> Key(merged[i]) != Key(merged[j]))
            && KeysOf(merged, Key) == KeysOf(winners + Filtered(points), Key)
  {
    DedupAppend(winners, Filtered(points), Key);
    DedupKeepsKeys(winners + Filtered(points), Key);
    forall i, j | 0 <= i < j < |Dedup(winners + Filtered(points), Key)|
      ensures Key(Dedup(winners + Filtered(points), Key)[i]) != Key(Dedup(winners + Filtered(points), Key)[j])
    {
      DedupIsDistinct(winners + Filtered(points), Key, i, j);
    }
  }

  lemma LaterColon(f: string, id: string, g: string, jd: string)
    requires f + "::" + id == g + "::" + jd && ':' !in id
    ensures |g| <= |f|
  {
    var s := f + "::" + id;
    assert s[|g| + 1] == (g + "::" + jd)[|g| + 1] == ':';
    assert s[|f| + 2..] == id;
    assert forall i :: |f| + 2 <= i < |s| ==> s[i] in s[|f| + 2..];
  }

  /** For hits with a file and a printed id the key tells the file and the number. */
  lemma KeysAreDistinct(a: Hit, b: Hit, m: nat, n: nat)
    requires a.filename.Some? && a.chunkId == Some(ChunkId(m)) && b.filename.Some? && b.chunkId == Some(ChunkId(n))
    ensures Key(a) == Key(b) <==> a.filename == b.filename && m == n
  {
    if Key(a) == Key(b) {
      PrintedKeysAreDistinct(a.filename.value, m, b.filename.value, n);
    }
  }

  lemma PrintedKeysAreDistinct(f: string, m: nat, g: string, n: nat)
    requires f + "::" + ChunkId(m) == g + "::" + ChunkId(n)
    ensures f == g && m == n
  {
    NoColon(m);
    NoColon(n);
    LaterColon(f, ChunkId(m), g, ChunkId(n));
    LaterColon(g, ChunkId(n), f, ChunkId(m));
    SameParts(f, ChunkId(m), g, ChunkId(n));
    IdsAreDistinct(m, n);
  }

  lemma SameParts(f: string, id: string, g: string, jd: string)
    requires f + "::" + id == g + "::" + jd && |f| == |g|
    ensures f == g && id == jd
  {
    var s := f + "::" + id;
    assert s[..|f|] == f && (g + "::" + jd)[..|f|] == g;
    assert s[|f| + 2..] == id && (g + "::" + jd)[|f| + 2..] == jd;
  }

  lemma NoColon(n: nat)
    ensures ':' !in ChunkId(n)
  {
    PaddedReadsBack(n);
    forall i | 0 <= i < |ChunkId(n)|
      ensures ChunkId(n)[i] != ':'
    {
      if i >= |PREFIX| {
        assert ChunkId(n)[i] == Padded(n)[i - |PREFIX|];
      }
    }
  }

  /** s ends with t. */
  predicate EndsWith(s: string, t: string) {
    |t| <= |s| && s[|s| - |t|..] == t
  }

  function HitOf(file: string, id: string): Hit {
    Hit(Some(file), Some(id), "", None)
  }

  /** Two hits of different files can have these ids and one key. */
  ghost predicate CanCollide(a: string, b: string) {
    exists f, g :: f != g && Key(HitOf(f, a)) == Key(HitOf(g, b))
  }

  lemma SuffixesOverlap(s: string, t: string, m: nat, n: nat)
    requires m >= n && m <= |s| && s == t
    ensures EndsWith(t[n..], s[m..])
  {
    assert t[n..][m - n..] == s[m..];
  }

  lemma SeparatorIsInjective(a: string, b: string)
    ensures "::" + a == "::" + b <==> a == b
  {
    assert ("::" + a)[2..] == a && ("::" + b)[2..] == b;
  }

  lemma CollidingIdsOverlap(f: string, a: string, g: string, b: string)
    requires f + "::" + a == g + "::" + b && |a| <= |b|
    ensures EndsWith("::" + b, "::" + a)
    ensures a == b ==> f == g
  {
    var s, t := f + "::" + a, g + "::" + b;
    assert s[|f|..] == "::" + a && t[|g|..] == "::" + b;
    SuffixesOverlap(s, t, |f|, |g|);
    assert s[..|f|] == f && t[..|g|] == g;
  }

  lemma OverlappingIdsCollide(a: string, b: string)
    requires a != b && EndsWith("::" + b, "::" + a)
    ensures CanCollide(a, b) && CanCollide(b, a)
  {
    var whole := "::" + b;
    var f := whole[..|whole| - |a| - 2];
    SeparatorIsInjective(a, b);
    assert whole == f + ("::" + a);
    assert f + "::" + a == f + ("::" + a) == "" + "::" + b;
    assert Key(HitOf(f, a)) == Key(HitOf("", b));
    assert f == "" ==> whole == "::" + a;
  }

  /**
   Hits of different files share a key, so that the second is dropped, for some file names
   exactly if their ids differ and the end of one, from its separator on, is the other with
   its separator.
   */
  lemma KeysCollideIff(a: string, b: string)
    ensures CanCollide(a, b) <==> a != b && (EndsWith("::" + a, "::" + b) || EndsWith("::" + b, "::" + a))
  {
    if f, g :| f != g && Key(HitOf(f, a)) == Key(HitOf(g, b)) {
      if |a| <= |b| {
        CollidingIdsOverlap(f, a, g, b);
      } else {
        CollidingIdsOverlap(g, b, f, a);
      }
    }
    if a != b && EndsWith("::" + a, "::" + b) {
      OverlappingIdsCollide(b, a);
    }
    if a != b && EndsWith("::" + b, "::" + a) {
      OverlappingIdsCollide(a, b);
    }
  }
}
