/**
 The stages of the paragraph-aware chunker, each said of the text it gets: which pieces share a
 chunk, where a chunk is trimmed, what becomes of a short tail, and where an overlap begins.
 */
module ChunkingShape {
  import opened Prelude
  import opened Text
  import opened Splitting
  import opened Chunking

  // -- merging --------------------------------------------------------------------------------

  function JoinLines(group: seq<string>): string {
    if group == [] then ""
    else if |group| == 1 then group[0]
    else JoinLines(group[..|group| - 1]) + "\n" + group[|group| - 1]
  }

  function Flatten<T>(groups: seq<seq<T>>): seq<T> {
    if groups == [] then [] else groups[0] + Flatten(groups[1..])
  }

  lemma JoinOneMore(group: seq<string>, piece: string)
    requires forall i :: 0 <= i < |group| ==> group[i] != ""
    ensures JoinLines(group + [piece]) == Below(JoinLines(group), piece)
    ensures JoinLines(group) == "" <==> group == []
  {
    assert (group + [piece])[..|group|] == group;
  }

  /** The chunks are the groups, a line for each piece, and no group had room for the first piece of the next. */
  ghost predicate AreGroups(chunks: seq<string>, groups: seq<seq<string>>) {
    && |chunks| == |groups|
    && (forall i :: 0 <= i < |groups| ==> groups[i] != [] && chunks[i] == JoinLines(groups[i]))
    && (forall i :: 0 <= i < |groups| - 1 ==> |chunks[i]| + |groups[i + 1][0]| + 1 > MERGE_LIMIT)
  }

  lemma {:induction false} GroupsFrom(pieces: seq<string>, group: seq<string>) returns (groups: seq<seq<string>>)
    requires forall i :: 0 <= i < |pieces| ==> pieces[i] != ""
    requires forall i :: 0 <= i < |group| ==> group[i] != ""
    ensures AreGroups(Merge(pieces, JoinLines(group)), groups) && Flatten(groups) == group + pieces
    ensures group != [] ==> groups != [] && group <= groups[0]
    decreases |pieces|
  {
    if pieces == [] {
      groups := LastGroup(group);
      assert group + [] == group;
    } else {
      var piece, rest := pieces[0], pieces[1..];
      JoinOneMore(group, piece);
      if |JoinLines(group)| + |piece| + 1 <= MERGE_LIMIT {
        groups := GroupsFrom(rest, group + [piece]);
        assert group + [piece] + rest == group + pieces;
      } else {
        groups := GroupsFrom(rest, [piece]);
        assert [piece] + rest == pieces;
        if group != [] {
          CloseGroup(group, Merge(rest, piece), groups, piece);
          groups := [group] + groups;
        }
      }
    }
  }

  lemma LastGroup(group: seq<string>) returns (groups: seq<seq<string>>)
    requires forall i :: 0 <= i < |group| ==> group[i] != ""
    ensures AreGroups(Closed(JoinLines(group)), groups) && Flatten(groups) == group
    ensures group != [] ==> groups == [group]
  {
    JoinOneMore(group, "");
    groups := if group == [] then [] else [group];
    assert Flatten([group]) == group + Flatten([group][1..]);
  }

  lemma CloseGroup(group: seq<string>, chunks: seq<string>, groups: seq<seq<string>>, piece: string)
    requires AreGroups(chunks, groups) && group != [] && groups != [] && groups[0] != [] && groups[0][0] == piece
    requires |JoinLines(group)| + |piece| + 1 > MERGE_LIMIT
    ensures AreGroups([JoinLines(group)] + chunks, [group] + groups)
    ensures Flatten([group] + groups) == group + Flatten(groups)
  {
    assert ([group] + groups)[1..] == groups;
    var c, g := [JoinLines(group)] + chunks, [group] + groups;
    forall i | 0 <= i < |g| - 1
      ensures |c[i]| + |g[i + 1][0]| + 1 > MERGE_LIMIT
    {
      assert i > 0 ==> c[i] == chunks[i - 1] && g[i + 1] == groups[i];
    }
  }

  /**
   A raw chunk is a run of pieces, each on a line of its own, and the next piece did not fit
   any more; all pieces are there, in order.
   */
  lemma RawChunksAreGroups(text: string) returns (groups: seq<seq<string>>)
    requires text != "" && Stripped(text)
    ensures AreGroups(Raw(text), groups) && Flatten(groups) == SplitBlock(text, MERGE_LIMIT)
  {
    SplitBlockTidy(text, MERGE_LIMIT);
    groups := GroupsFrom(SplitBlock(text, MERGE_LIMIT), []);
    assert [] + SplitBlock(text, MERGE_LIMIT) == SplitBlock(text, MERGE_LIMIT);
  }

  // -- trimming ---------------------------------------------------------------------------------

  predicate IsStop(c: char) {
    c == '.' || c == '!' || c == '?'
  }

  predicate IsClosing(c: char) {
    IsStop(c) || c == ';' || c == ':' || c == ')' || c == ']' || c == '\'' || c == '"'
  }

  ghost predicate LineEndsBehind(s: string, i: nat) {
    exists j :: i <= j < |s| && s[j] == '\n' && AllSpace(s[i..j])
  }

  ghost predicate CapitalBehind(s: string, i: nat) {
    exists j :: i < j < |s| && ('A' <= s[j] <= 'Z' || s[j] == '(') && AllSpace(s[i..j])
  }

  /** A closing mark and, white space aside, the end of a line; or a stop, white space, and a capital or a bracket. */
  ghost predicate EndsASentence(s: string, m: nat) {
    && m < |s|
    && ((IsClosing(s[m]) && LineEndsBehind(s, m + 1)) || (IsStop(s[m]) && CapitalBehind(s, m + 1)))
  }

  /** SpaceEnd passes over a run of white space, and no further. */
  lemma {:induction false} SpaceEndIs(s: string, i: nat, j: nat)
    requires i <= j <= |s| && AllSpace(s[i..j])
    ensures j <= SpaceEnd(s, i)
    ensures j < |s| && !IsSpace(s[j]) ==> SpaceEnd(s, i) == j
    decreases j - i
  {
    if i < j {
      assert s[i..j][0] == s[i] && s[i..j][1..] == s[i + 1..j];
      SpaceEndIs(s, i + 1, j);
    }
  }

  lemma SpaceUpTo(s: string, i: nat, j: nat)
    requires i <= |s| && i <= j <= SpaceEnd(s, i)
    ensures AllSpace(s[i..j])
  {
    var all := s[i..SpaceEnd(s, i)];
    assert forall k :: 0 <= k < j - i ==> s[i..j][k] == all[k];
  }

  lemma LineEndsBehindIff(s: string, i: nat)
    requires i <= |s|
    ensures NewlineAhead(s, i) <==> LineEndsBehind(s, i)
  {
    if j :| i <= j < |s| && s[j] == '\n' && AllSpace(s[i..j]) {
      assert s[i..j + 1] == s[i..j] + [s[j]];
      SpaceEndIs(s, i, j + 1);
    }
    if j :| i <= j < SpaceEnd(s, i) && s[j] == '\n' {
      SpaceUpTo(s, i, j);
    }
  }

  lemma CapitalBehindIff(s: string, i: nat)
    requires i <= |s|
    ensures CapitalBehind(s, i) <==>
            i < SpaceEnd(s, i) < |s| && ('A' <= s[SpaceEnd(s, i)] <= 'Z' || s[SpaceEnd(s, i)] == '(')
  {
    if j :| i < j < |s| && ('A' <= s[j] <= 'Z' || s[j] == '(') && AllSpace(s[i..j]) {
      SpaceEndIs(s, i, j);
    }
  }

  lemma SentenceEndIff(s: string, m: nat)
    requires m < |s|
    ensures SentenceEndAt(s, m) <==> EndsASentence(s, m)
  {
    LineEndsBehindIff(s, m + 1);
    CapitalBehindIff(s, m + 1);
  }

  ghost predicate IsLastEnd(tail: string, m: nat) {
    EndsASentence(tail, m) && forall k :: m < k < |tail| ==> !EndsASentence(tail, k)
  }

  lemma LastEndOf(tail: string, m: nat)
    ensures IsLastEnd(tail, m) <==> LastEnd(tail, |tail|) == m + 1
  {
    forall k | 0 <= k < |tail|
      ensures SentenceEndAt(tail, k) <==> EndsASentence(tail, k)
    {
      SentenceEndIff(tail, k);
    }
  }

  lemma LastEndIs(chunk: string, m: nat)
    ensures var from := |chunk| * 85 / 100;
            IsLastEnd(chunk[from..], m) <==> LastSentence(chunk) == Some(from + m + 1)
  {
    LastEndOf(chunk[|chunk| * 85 / 100..], m);
  }

  /**
   A chunk is trimmed behind the last sentence end of its last 15 %, if more than five
   characters follow, and otherwise stays as it is.
   */
  lemma TrimIs(chunk: string, m: nat)
    ensures var from := |chunk| * 85 / 100;
            IsLastEnd(chunk[from..], m) ==>
              Trim(chunk) == if from + m + 6 < |chunk| then Strip(chunk[..from + m + 1]) else chunk
    ensures (forall k: nat :: !IsLastEnd(chunk[|chunk| * 85 / 100..], k)) ==> Trim(chunk) == chunk
  {
    LastEndIs(chunk, m);
    if LastSentence(chunk).Some? {
      LastEndIs(chunk, LastSentence(chunk).value - SearchFrom(chunk) - 1);
    }
  }

  // -- the tail and the overlaps ------------------------------------------------------------------

  lemma TrimmedIsLong(text: string, i: nat)
    requires text != "" && Stripped(text) && i < |Raw(text)|
    ensures i == |Raw(text)| - 1 ==> TrimAll(Raw(text))[i] == Raw(text)[i]
    ensures 100 * |TrimAll(Raw(text))[i]| > 85 * |Raw(text)[i]|
  {
    RawChunks(text);
    TrimCuts(Raw(text)[i]);
  }

  /** Two raw chunks in a row are too long for one. */
  lemma NeighboursAreLong(text: string, i: nat)
    requires text != "" && Stripped(text) && i + 1 < |Raw(text)|
    ensures |Raw(text)[i]| + 1 + |Raw(text)[i + 1]| > MERGE_LIMIT
  {
    SplitBlockTidy(text, MERGE_LIMIT);
    MergeIsGreedy(SplitBlock(text, MERGE_LIMIT), "");
    assert !Joinable(Raw(text), i);
  }

  /**
   Of several raw chunks a last one below 400 characters goes to the one before, on a line of
   its own, and only such a one does.  So the last chunk is never short, unless it is the only
   one: one that took in a tail has more than 600 characters.
   */
  lemma LastChunkIsLong(text: string)
    requires text != "" && Stripped(text)
    ensures var raw, trimmed, merged := Raw(text), TrimAll(Raw(text)), Merged(text);
            var n := |raw|;
            if n > 1 && |raw[n - 1]| < 400 then
              && |merged| == n - 1 && merged[n - 2] == trimmed[n - 2] + "\n" + raw[n - 1]
              && merged[..n - 2] == trimmed[..n - 2] && |merged[n - 2]| > 600
            else
              merged == trimmed && (n > 1 ==> |merged[n - 1]| >= 400)
  {
    var n := |Raw(text)|;
    RawChunks(text);
    TrimmedIsLong(text, n - 1);
    if n > 1 {
      TrimmedIsLong(text, n - 2);
      NeighboursAreLong(text, n - 2);
    }
  }

  lemma FindIs(s: string, c: char, k: nat)
    ensures k < |s| && s[k] == c && c !in s[..k] ==> Find(s, c) == k
    ensures c in s <==> Find(s, c) < |s|
    ensures s != "" ==> (s[0] == c <==> Find(s, c) == 0)
  {
    if k < |s| && s[k] == c && Find(s, c) < k {
      assert s[..k][Find(s, c)] == c;
    }
  }

  lemma BoundaryIs(ov: string, k: nat)
    ensures 0 < k < |ov| && ov[k] == '\n' && '\n' !in ov[..k] ==> FromBoundary(ov) == ov[k + 1..]
    ensures ('\n' !in ov || ov[0] == '\n') && 0 < k < |ov| && ov[k] == ' ' && ' ' !in ov[..k] ==>
              FromBoundary(ov) == ov[k + 1..]
    ensures ('\n' !in ov || ov[0] == '\n') && (' ' !in ov || ov[0] == ' ') ==> FromBoundary(ov) == ov
  {
    FindIs(ov, '\n', k);
    FindIs(ov, ' ', k);
  }

  /**
   An overlap is the last 75 characters of the chunk before, from behind the first newline in
   them; without one, or with one at their start, from behind the first space; and without
   that, all of them.
   */
  lemma OverlapIs(prev: string, k: nat)
    ensures var ov := LastCharacters(prev, 75);
            && (0 < k < |ov| && ov[k] == '\n' && '\n' !in ov[..k] ==> Overlap(prev) == ov[k + 1..])
            && (('\n' !in ov || ov[0] == '\n') && 0 < k < |ov| && ov[k] == ' ' && ' ' !in ov[..k] ==>
                  Overlap(prev) == ov[k + 1..])
            && (('\n' !in ov || ov[0] == '\n') && (' ' !in ov || ov[0] == ' ') ==> Overlap(prev) == ov)
  {
    assert Overlap(prev) == FromBoundary(LastCharacters(prev, 75));
    BoundaryIs(LastCharacters(prev, 75), k);
  }

  function LastCharacters(s: string, n: nat): string {
    if |s| <= n then s else s[|s| - n..]
  }
}
