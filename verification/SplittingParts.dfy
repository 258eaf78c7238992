/**
 What re.split gives for each of the three patterns, said of the parts and of what lies between
 them, and which pattern the splitter takes.
 */
module SplittingParts {
  import opened Text
  import opened Splitting

  /** What a match of the pattern looks like. */
  predicate IsGap(sep: Separator, gap: string) {
    match sep
    case BlankLines => |gap| >= 2 && forall i :: 0 <= i < |gap| ==> gap[i] == '\n'
    case NewLine => gap == "\n"
    case AfterSentence => gap != "" && AllSpace(gap)
  }

  predicate IsMark(c: char) {
    c == '.' || c == '!' || c == '?' || c == ';' || c == ':'
  }

  /** There is no match of the pattern inside of the part. */
  predicate IsWhole(sep: Separator, part: string) {
    match sep
    case BlankLines => forall i :: 0 < i < |part| ==> !(part[i - 1] == '\n' && part[i] == '\n')
    case NewLine => forall i :: 0 <= i < |part| ==> part[i] != '\n'
    case AfterSentence => forall i :: 0 < i < |part| ==> !(IsMark(part[i - 1]) && IsSpace(part[i]))
  }

  /** The match between two parts is as long as can be, and begins where it first can. */
  predicate Parted(sep: Separator, before: string, after: string) {
    match sep
    case BlankLines => (before == "" || before[|before| - 1] != '\n') && (after == "" || after[0] != '\n')
    case NewLine => true
    case AfterSentence => before != "" && IsMark(before[|before| - 1]) && (after == "" || !IsSpace(after[0]))
  }

  /** The parts with the gaps in between. */
  function Interleave(parts: seq<string>, gaps: seq<string>): string
    requires |parts| == |gaps| + 1
  {
    if gaps == [] then parts[0] else parts[0] + gaps[0] + Interleave(parts[1..], gaps[1..])
  }

  ghost predicate IsSplit(sep: Separator, s: string, parts: seq<string>, gaps: seq<string>) {
    && |parts| == |gaps| + 1 && Interleave(parts, gaps) == s
    && (forall i :: 0 <= i < |gaps| ==> IsGap(sep, gaps[i]) && Parted(sep, parts[i], parts[i + 1]))
    && (forall i :: 0 <= i < |parts| ==> IsWhole(sep, parts[i]))
  }

  // -- the scan -----------------------------------------------------------------------------------

  /** The scan from `from` has found nothing before i. */
  ghost predicate NothingYet(sep: Separator, s: string, from: nat, i: nat) {
    && from <= i <= |s|
    && (forall k :: from <= k < i ==> MatchEnd(sep, s, k) == k)
    && (sep.AfterSentence? && from > 0 ==> IsSpace(s[from - 1]) && (from < |s| ==> !IsSpace(s[from])))
    && (sep.BlankLines? && 0 < from < |s| ==> s[from] != '\n')
  }

  lemma NewlinesEndIs(s: string, i: nat)
    requires i <= |s|
    ensures var j := NewlinesEnd(s, i);
            (forall k :: i <= k < j ==> s[k] == '\n') && (j < |s| ==> s[j] != '\n')
    decreases |s| - i
  {
    if i < |s| && s[i] == '\n' {
      NewlinesEndIs(s, i + 1);
    }
  }

  lemma WholeSoFar(sep: Separator, s: string, from: nat, i: nat)
    requires NothingYet(sep, s, from, i)
    ensures IsWhole(sep, s[from..i])
  {
    var part := s[from..i];
    forall k | from <= k < i
      ensures sep.NewLine? ==> s[k] != '\n'
      ensures k > from && sep.BlankLines? ==> !(s[k - 1] == '\n' && s[k] == '\n')
      ensures k > from && sep.AfterSentence? ==> !(IsMark(s[k - 1]) && IsSpace(s[k]))
    {
      assert MatchEnd(sep, s, k) == k;
      assert k > from ==> MatchEnd(sep, s, k - 1) == k - 1;
    }
    assert forall k :: 0 <= k < |part| ==> part[k] == s[from + k];
  }

  /** At a match: the gap is one, and the scan goes on behind it. */
  lemma AtMatch(sep: Separator, s: string, from: nat, i: nat)
    requires NothingYet(sep, s, from, i) && i < |s| && MatchEnd(sep, s, i) > i
    ensures var j := MatchEnd(sep, s, i);
            && IsGap(sep, s[i..j]) && NothingYet(sep, s, j, j)
            && (sep.BlankLines? ==> i == from || s[i - 1] != '\n')
            && (sep.AfterSentence? ==> from < i && IsMark(s[i - 1]))
  {
    var j := MatchEnd(sep, s, i);
    if sep.BlankLines? {
      NewlinesEndIs(s, i);
      assert from < i ==> MatchEnd(sep, s, i - 1) == i - 1;
    } else if sep.AfterSentence? {
      assert s[j - 1] == s[i..j][j - 1 - i];
    }
  }

  lemma GoesOnBehind(sep: Separator, s: string, from: nat, i: nat)
    requires NothingYet(sep, s, from, i) && i < |s| && MatchEnd(sep, s, i) > i
    ensures NothingYet(sep, s, MatchEnd(sep, s, i), MatchEnd(sep, s, i))
  {
    AtMatch(sep, s, from, i);
  }

  lemma OnePartMore(sep: Separator, part: string, gap: string, text: string, parts: seq<string>, gaps: seq<string>)
    requires IsSplit(sep, text, parts, gaps)
    requires IsGap(sep, gap) && IsWhole(sep, part) && Parted(sep, part, parts[0])
    ensures IsSplit(sep, part + gap + text, [part] + parts, [gap] + gaps)
  {
    var allParts, allGaps := [part] + parts, [gap] + gaps;
    assert allParts[1..] == parts && allGaps[1..] == gaps;
    forall i | 0 <= i < |allGaps|
      ensures IsGap(sep, allGaps[i]) && Parted(sep, allParts[i], allParts[i + 1])
    {
      if i > 0 {
        assert allGaps[i] == gaps[i - 1] && allParts[i] == parts[i - 1] && allParts[i + 1] == parts[i];
      }
    }
  }

  /** The first part begins where the scan began. */
  lemma {:induction false} FirstPartFrom(sep: Separator, s: string, from: nat, i: nat)
    requires from <= i <= |s|
    ensures var p := Parts(sep, s, from, i)[0]; p == "" || (from < |s| && p[0] == s[from])
    decreases |s| - i
  {
    if i < |s| && MatchEnd(sep, s, i) == i {
      FirstPartFrom(sep, s, from, i + 1);
    }
  }

  lemma OneMatchMore(sep: Separator, s: string, from: nat, i: nat, parts: seq<string>, gaps: seq<string>)
    requires NothingYet(sep, s, from, i) && i < |s| && MatchEnd(sep, s, i) > i
    requires IsSplit(sep, s[MatchEnd(sep, s, i)..], parts, gaps)
    requires parts[0] == "" || (MatchEnd(sep, s, i) < |s| && parts[0][0] == s[MatchEnd(sep, s, i)])
    ensures IsSplit(sep, s[from..], [s[from..i]] + parts, [s[i..MatchEnd(sep, s, i)]] + gaps)
  {
    var j := MatchEnd(sep, s, i);
    WholeSoFar(sep, s, from, i);
    AtMatch(sep, s, from, i);
    assert from < i ==> s[from..i][i - from - 1] == s[i - 1];
    assert Parted(sep, s[from..i], parts[0]);
    assert s[from..] == s[from..i] + s[i..j] + s[j..];
    OnePartMore(sep, s[from..i], s[i..j], s[j..], parts, gaps);
  }

  lemma LastPart(sep: Separator, s: string, from: nat)
    requires NothingYet(sep, s, from, |s|)
    ensures IsSplit(sep, s[from..], [s[from..]], [])
  {
    WholeSoFar(sep, s, from, |s|);
    assert s[from..|s|] == s[from..];
  }

  lemma {:induction false} SplitFrom(sep: Separator, s: string, from: nat, i: nat) returns (gaps: seq<string>)
    requires NothingYet(sep, s, from, i)
    ensures IsSplit(sep, s[from..], Parts(sep, s, from, i), gaps)
    decreases |s| - i
  {
    if i == |s| {
      gaps := [];
      LastPart(sep, s, from);
    } else if MatchEnd(sep, s, i) > i {
      var j := MatchEnd(sep, s, i);
      GoesOnBehind(sep, s, from, i);
      var rest := SplitFrom(sep, s, j, j);
      FirstPartFrom(sep, s, j, j);
      OneMatchMore(sep, s, from, i, Parts(sep, s, j, j), rest);
      gaps := [s[i..j]] + rest;
    } else {
      gaps := SplitFrom(sep, s, from, i + 1);
    }
  }

  /**
   re.split: parts and gaps in turn are the text, each gap is a match that begins where it
   first can and is as long as can be, and no part has a match inside.
   */
  lemma PartsAreSplit(sep: Separator, s: string) returns (gaps: seq<string>)
    ensures IsSplit(sep, s, Parts(sep, s, 0, 0), gaps)
  {
    gaps := SplitFrom(sep, s, 0, 0);
    assert s[0..] == s;
  }
}
