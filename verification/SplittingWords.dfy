/**
 Where the splitter may cut: never inside a word that fits.  A word has no white space in it
 and stands between spaces, or at an end of the text.
 */
module SplittingWords {
  import opened Text
  import opened Splitting
  import opened Chunking

  /** The characters in the parts, white space not counted. */
  function Volume(parts: seq<string>): nat {
    if parts == [] then 0 else |NonSpace(parts[0])| + Volume(parts[1..])
  }

  lemma {:induction false} VolumeAppend(a: seq<string>, b: seq<string>)
    ensures Volume(a + b) == Volume(a) + Volume(b)
  {
    if a == [] {
      assert a + b == b;
    } else {
      assert (a + b)[1..] == a[1..] + b;
      VolumeAppend(a[1..], b);
    }
  }

  lemma VolumeCons(p: string, parts: seq<string>)
    ensures Volume([p] + parts) == |NonSpace(p)| + Volume(parts)
  {
    assert ([p] + parts)[1..] == parts;
  }

  lemma VolumeOne(p: string)
    ensures Volume([p]) == |NonSpace(p)|
  {
  }

  lemma {:induction false} VolumeIsText(parts: seq<string>)
    ensures Volume(parts) == |TextOf(parts)|
  {
    if parts != [] {
      VolumeIsText(parts[1..]);
      assert parts == [parts[0]] + parts[1..];
      TextOfCons(parts[0], parts[1..]);
    }
  }

  predicate IsWord(w: string) {
    w != "" && forall i :: 0 <= i < |w| ==> !IsSpace(w[i])
  }

  /** w is in s at k, after v characters, white space not counted. */
  predicate Occurs(s: string, k: nat, w: string, v: nat) {
    k + |w| <= |s| && s[k..k + |w|] == w && |NonSpace(s[..k])| == v
  }

  /** And it stands between spaces there, or at an end. */
  predicate Stands(s: string, k: nat, w: string, v: nat) {
    && Occurs(s, k, w, v)
    && (k == 0 || s[k - 1] == ' ') && (k + |w| == |s| || s[k + |w|] == ' ')
  }

  /** The word is in piece i, from k on; v counts the characters of all pieces before it. */
  predicate LiesAt(pieces: seq<string>, v: nat, w: string, i: nat, k: nat) {
    i < |pieces| && Volume(pieces[..i]) <= v && Occurs(pieces[i], k, w, v - Volume(pieces[..i]))
  }

  /** The word is in one of the pieces, as a whole and in its place. */
  ghost predicate Undivided(pieces: seq<string>, v: nat, w: string) {
    exists i: nat, k: nat :: LiesAt(pieces, v, w, i, k)
  }

  lemma UndividedInFront(a: seq<string>, b: seq<string>, v: nat, w: string)
    requires Undivided(a, v, w)
    ensures Undivided(a + b, v, w)
  {
    var i: nat, k: nat :| LiesAt(a, v, w, i, k);
    assert (a + b)[..i] == a[..i];
    assert LiesAt(a + b, v, w, i, k);
  }

  lemma UndividedBehind(a: seq<string>, b: seq<string>, v: nat, w: string)
    requires Undivided(b, v, w)
    ensures Undivided(a + b, Volume(a) + v, w)
  {
    var i: nat, k: nat :| LiesAt(b, v, w, i, k);
    assert (a + b)[..|a| + i] == a + b[..i];
    VolumeAppend(a, b[..i]);
    assert LiesAt(a + b, Volume(a) + v, w, |a| + i, k);
  }

  lemma UndividedAlone(s: string, k: nat, w: string, v: nat)
    requires Occurs(s, k, w, v)
    ensures Undivided([s], v, w)
  {
    assert [s][..0] == [];
    assert LiesAt([s], v, w, 0, k);
  }

  // -- parts of a text, and strip() ---------------------------------------------------------------

  lemma StandsInFront(s: string, k: nat, w: string, v: nat, n: nat)
    requires Stands(s, k, w, v) && k + |w| <= n <= |s|
    ensures Stands(s[..n], k, w, v)
  {
    assert s[..n][..k] == s[..k] && s[..n][k..k + |w|] == s[k..k + |w|];
  }

  lemma StandsBehind(s: string, k: nat, w: string, v: nat, n: nat)
    requires Stands(s, k, w, v) && n <= k
    ensures |NonSpace(s[..n])| <= v && Stands(s[n..], k - n, w, v - |NonSpace(s[..n])|)
  {
    NonSpaceSplit(s[..k], n);
    assert s[..k][..n] == s[..n] && s[..k][n..] == s[n..][..k - n];
    assert s[n..][k - n..k - n + |w|] == s[k..k + |w|];
  }

  lemma InsideWord(s: string, k: nat, w: string, v: nat, i: nat)
    requires IsWord(w) && Stands(s, k, w, v) && k <= i < k + |w|
    ensures !IsSpace(s[i])
  {
    assert s[k..k + |w|][i - k] == s[i];
  }

  lemma {:induction false} LStripKeepsWord(s: string, k: nat, w: string, v: nat) returns (l: nat)
    requires IsWord(w) && Stands(s, k, w, v)
    ensures l <= k && Stands(LStrip(s), l, w, v) && (LStrip(s) == s ==> l == k)
  {
    l := k;
    if IsSpace(s[0]) {
      InsideWord(s, k, w, v, k);
      assert s[..k][1..] == s[1..][..k - 1];
      assert s[1..][k - 1..k - 1 + |w|] == s[k..k + |w|];
      LStripCuts(s[1..]);
      l := LStripKeepsWord(s[1..], k - 1, w, v);
    }
  }

  lemma {:induction false} RStripKeepsWord(s: string, k: nat, w: string, v: nat)
    requires IsWord(w) && Stands(s, k, w, v)
    ensures Stands(RStrip(s), k, w, v)
  {
    var n := |s| - 1;
    if IsSpace(s[n]) {
      InsideWord(s, k, w, v, k + |w| - 1);
      StandsInFront(s, k, w, v, n);
      RStripKeepsWord(s[..n], k, w, v);
    }
  }

  lemma StripKeepsWord(s: string, k: nat, w: string, v: nat) returns (l: nat)
    requires IsWord(w) && Stands(s, k, w, v)
    ensures l <= k && l != 1 && Stands(Strip(s), l, w, v)
  {
    l := LStripKeepsWord(s, k, w, v);
    RStripKeepsWord(LStrip(s), l, w, v);
    StripCuts(s);
  }

  // -- the hard cut ------------------------------------------------------------------------------

  /**
   The hard cut of a text that is too long: at the last space among the characters 1 to max,
   or after max characters if there is none.
   */
  lemma HardCutIs(s: string, max: nat, cut: nat)
    requires 1 <= cut <= max < |s|
    requires forall i :: cut < i <= max ==> s[i] != ' '
    requires s[cut] == ' ' || (cut == max && forall i :: 1 <= i <= max ==> s[i] != ' ')
    ensures HardCut(s, max) == [Strip(s[..cut])] + HardCut(Strip(s[cut..]), max)
  {
    assert CutAt(s, max) == cut;
  }

  /** So a block that no pattern splits begins with what stands before its last space within reach. */
  lemma UnsplitBlockIsCutAtASpace(block: string, max: nat, cut: nat)
    requires 1 <= cut <= max < |block|
    requires forall m :: 0 <= m < |PATTERNS| ==>
               var parts := PartsOf(PATTERNS[m], block);
               |parts| <= 1 || forall i :: 0 <= i < |parts| ==> |parts[i]| > max
    requires forall i :: cut < i <= max ==> block[i] != ' '
    requires block[cut] == ' ' || (cut == max && forall i :: 1 <= i <= max ==> block[i] != ' ')
    ensures SplitBlock(block, max) == [Strip(block[..cut])] + HardCut(Strip(block[cut..]), max)
  {
    OtherBlocksAreCutHard(block, max);
    HardCutIs(block, max, cut);
  }

  lemma CutSparesWord(s: string, max: nat, k: nat, w: string, v: nat)
    requires 1 <= max < |s| && IsWord(w) && Stands(s, k, w, v) && |w| <= max && (k == 1 ==> |w| < max)
    ensures k + |w| <= CutAt(s, max) || CutAt(s, max) <= k
  {
    var cut := CutAt(s, max);
    if k < cut < k + |w| {
      InsideWord(s, k, w, v, cut);
    }
  }

  lemma WordInTheCut(s: string, k: nat, w: string, v: nat, cut: nat, tail: seq<string>)
    requires IsWord(w) && Stands(s, k, w, v) && k + |w| <= cut <= |s|
    ensures Undivided([Strip(s[..cut])] + tail, v, w)
  {
    StandsInFront(s, k, w, v, cut);
    var l := StripKeepsWord(s[..cut], k, w, v);
    UndividedAlone(Strip(s[..cut]), l, w, v);
    UndividedInFront([Strip(s[..cut])], tail, v, w);
  }

  lemma WordBehindTheCut(s: string, k: nat, w: string, v: nat, cut: nat, tail: seq<string>)
    requires cut <= |s| && |NonSpace(s[..cut])| <= v && Undivided(tail, v - |NonSpace(s[..cut])|, w)
    ensures Undivided([Strip(s[..cut])] + tail, v, w)
  {
    StripCuts(s[..cut]);
    VolumeOne(Strip(s[..cut]));
    UndividedBehind([Strip(s[..cut])], tail, v - |NonSpace(s[..cut])|, w);
  }

  lemma {:induction false} HardCutSparesWords(s: string, max: nat, k: nat, w: string, v: nat)
    requires max >= 1 && IsWord(w) && Stands(s, k, w, v) && |w| <= max && (k == 1 ==> |w| < max)
    ensures Undivided(HardCut(s, max), v, w)
    decreases |s|
  {
    if |s| <= max {
      UndividedAlone(s, k, w, v);
    } else {
      var cut := CutAt(s, max);
      var rest := Strip(s[cut..]);
      StripCuts(s[cut..]);
      CutSparesWord(s, max, k, w, v);
      if k + |w| <= cut {
        WordInTheCut(s, k, w, v, cut, HardCut(rest, max));
      } else {
        StandsBehind(s, k, w, v, cut);
        var u := v - |NonSpace(s[..cut])|;
        var l := StripKeepsWord(s[cut..], k - cut, w, u);
        HardCutSparesWords(rest, max, l, w, u);
        WordBehindTheCut(s, k, w, v, cut, HardCut(rest, max));
      }
    }
  }

  /** A word of max characters behind a single space is cut: the space at 0 is not taken for a cut. */
  lemma WordBehindOneSpaceIsCut(s: string, max: nat, w: string, v: nat)
    requires IsWord(w) && |w| == max && Stands(s, 1, w, v) && s[0] == ' '
    ensures HardCut(s, max) != [] && HardCut(s, max)[0] == w[..max - 1]
  {
    forall i | 1 <= i <= max
      ensures s[i] == w[i - 1]
    {
      assert s[1..1 + max][i - 1] == s[i];
    }
    HardCutIs(s, max, max);
    assert s[..max][1..] == w[..max - 1];
    StripOfStripped(w[..max - 1]);
  }

  // -- the patterns --------------------------------------------------------------------------------

  /** The word stands in part i. */
  predicate StandsAt(parts: seq<string>, v: nat, w: string, i: nat, k: nat) {
    i < |parts| && Volume(parts[..i]) <= v && Stands(parts[i], k, w, v - Volume(parts[..i]))
  }

  lemma StandsAfter(p: string, parts: seq<string>, v: nat, w: string, i: nat, k: nat)
    requires StandsAt(parts, v, w, i, k)
    ensures StandsAt([p] + parts, |NonSpace(p)| + v, w, i + 1, k)
  {
    assert ([p] + parts)[..i + 1] == [p] + parts[..i];
    VolumeCons(p, parts[..i]);
  }

  lemma StandsFirst(p: string, parts: seq<string>, v: nat, w: string, k: nat)
    requires Stands(p, k, w, v)
    ensures StandsAt([p] + parts, v, w, 0, k)
  {
    assert ([p] + parts)[..0] == [];
  }

  /** No match begins inside a word. */
  lemma MatchSparesWord(sep: Separator, s: string, i: nat, k: nat, w: string, v: nat)
    requires i < |s| && IsWord(w) && Stands(s, k, w, v) && MatchEnd(sep, s, i) > i
    ensures k + |w| <= i || MatchEnd(sep, s, i) <= k
  {
    var j := MatchEnd(sep, s, i);
    assert forall x :: i <= x < j ==> s[i..j][x - i] == s[x];
    if k <= i < k + |w| {
      InsideWord(s, k, w, v, i);
    } else if i <= k < j {
      InsideWord(s, k, w, v, k);
    }
  }

  /** The word stands in s[from..i]. */
  lemma StandsBetween(s: string, k: nat, w: string, v: nat, from: nat, i: nat)
    requires Stands(s, k, w, v) && from <= k && k + |w| <= i <= |s|
    ensures |NonSpace(s[..from])| <= v && Stands(s[from..i], k - from, w, v - |NonSpace(s[..from])|)
  {
    StandsInFront(s, k, w, v, i);
    StandsBehind(s[..i], k, w, v, from);
    assert s[..i][from..] == s[from..i] && s[..i][..from] == s[..from];
  }

  /** The word is in the part that a match ends, or in one behind it. */
  lemma WordInThisPart(s: string, from: nat, i: nat, k: nat, w: string, v: nat, rest: seq<string>)
    requires from <= k && Stands(s, k, w, v) && k + |w| <= i <= |s|
    ensures |NonSpace(s[..from])| <= v
    ensures StandsAt([s[from..i]] + rest, v - |NonSpace(s[..from])|, w, 0, k - from)
  {
    StandsBetween(s, k, w, v, from, i);
    StandsFirst(s[from..i], rest, v - |NonSpace(s[..from])|, w, k - from);
  }

  lemma WordInTheLastPart(s: string, from: nat, k: nat, w: string, v: nat)
    requires from <= k && Stands(s, k, w, v)
    ensures |NonSpace(s[..from])| <= v
    ensures StandsAt([s[from..]], v - |NonSpace(s[..from])|, w, 0, k - from)
  {
    StandsBehind(s, k, w, v, from);
    StandsFirst(s[from..], [], v - |NonSpace(s[..from])|, w, k - from);
    assert [s[from..]] + [] == [s[from..]];
  }

  lemma WordInALaterPart(s: string, from: nat, i: nat, j: nat, v: nat, w: string, rest: seq<string>, n: nat, l: nat)
    requires from <= i <= j <= |s| && AllSpace(s[i..j])
    requires |NonSpace(s[..j])| <= v && StandsAt(rest, v - |NonSpace(s[..j])|, w, n, l)
    ensures |NonSpace(s[..from])| <= v
    ensures StandsAt([s[from..i]] + rest, v - |NonSpace(s[..from])|, w, n + 1, l)
  {
    VolumeUpTo(s, from, i, j);
    StandsAfter(s[from..i], rest, v - |NonSpace(s[..j])|, w, n, l);
  }

  /** Part n, from `from` on, has the word at l. */
  predicate PartHasWord(sep: Separator, s: string, from: nat, i: nat, w: string, v: nat, n: nat, l: nat)
    requires from <= i <= |s|
  {
    |NonSpace(s[..from])| <= v && StandsAt(Parts(sep, s, from, i), v - |NonSpace(s[..from])|, w, n, l)
  }

  lemma PartAtMatch(sep: Separator, s: string, from: nat, i: nat, k: nat, w: string, v: nat, n: nat, l: nat)
    requires from <= i < |s| && from <= k && Stands(s, k, w, v) && MatchEnd(sep, s, i) > i
    ensures k + |w| <= i ==> PartHasWord(sep, s, from, i, w, v, 0, k - from)
    ensures PartHasWord(sep, s, MatchEnd(sep, s, i), MatchEnd(sep, s, i), w, v, n, l) ==>
              PartHasWord(sep, s, from, i, w, v, n + 1, l)
  {
    var j := MatchEnd(sep, s, i);
    var rest := Parts(sep, s, j, j);
    assert Parts(sep, s, from, i) == [s[from..i]] + rest;
    if k + |w| <= i {
      WordInThisPart(s, from, i, k, w, v, rest);
    }
    if PartHasWord(sep, s, j, j, w, v, n, l) {
      WordInALaterPart(s, from, i, j, v, w, rest, n, l);
    }
  }

  lemma PartAtEnd(sep: Separator, s: string, from: nat, k: nat, w: string, v: nat)
    requires from <= k && Stands(s, k, w, v)
    ensures PartHasWord(sep, s, from, |s|, w, v, 0, k - from)
  {
    WordInTheLastPart(s, from, k, w, v);
  }

  lemma PartGoesOn(sep: Separator, s: string, from: nat, i: nat, w: string, v: nat, n: nat, l: nat)
    requires from <= i < |s| && MatchEnd(sep, s, i) == i && PartHasWord(sep, s, from, i + 1, w, v, n, l)
    ensures PartHasWord(sep, s, from, i, w, v, n, l)
  {
  }

  /** Of the parts from `from` on, the one with the word. */
  lemma {:induction false} PartWithWord(sep: Separator, s: string, from: nat, i: nat, k: nat, w: string, v: nat)
    returns (n: nat, l: nat)
    requires from <= i <= |s| && from <= k && IsWord(w) && Stands(s, k, w, v)
    ensures PartHasWord(sep, s, from, i, w, v, n, l)
    ensures n == 0 ==> l == k - from
    decreases |s| - i
  {
    if i == |s| {
      n, l := 0, k - from;
      PartAtEnd(sep, s, from, k, w, v);
    } else if MatchEnd(sep, s, i) == i {
      n, l := PartWithWord(sep, s, from, i + 1, k, w, v);
      PartGoesOn(sep, s, from, i, w, v, n, l);
    } else {
      var j := MatchEnd(sep, s, i);
      MatchSparesWord(sep, s, i, k, w, v);
      if k + |w| <= i {
        n, l := 0, k - from;
        PartAtMatch(sep, s, from, i, k, w, v, n, l);
      } else {
        n, l := PartWithWord(sep, s, j, j, k, w, v);
        PartAtMatch(sep, s, from, i, k, w, v, n, l);
        n := n + 1;
      }
    }
  }

  /** A part behind white space does not begin with any. */
  lemma {:induction false} LaterSentences(s: string, from: nat, i: nat, n: nat)
    requires from <= i <= |s| && 0 < n < |Parts(AfterSentence, s, from, i)|
    ensures var p := Parts(AfterSentence, s, from, i)[n]; p == "" || !IsSpace(p[0])
    decreases |s| - i
  {
    var j := MatchEnd(AfterSentence, s, i);
    if j == i {
      LaterSentences(s, from, i + 1, n);
    } else if n > 1 {
      LaterSentences(s, j, j, n - 1);
    } else {
      FirstSentence(s, j, j);
    }
  }

  lemma {:induction false} FirstSentence(s: string, from: nat, i: nat)
    requires from <= i <= |s| && (from < |s| ==> !IsSpace(s[from]))
    ensures var p := Parts(AfterSentence, s, from, i)[0]; p == "" || !IsSpace(p[0])
    decreases |s| - i
  {
    if i < |s| && MatchEnd(AfterSentence, s, i) == i {
      FirstSentence(s, from, i + 1);
    }
  }

  lemma SpaceHasNoVolume(s: string, n: nat)
    requires n <= |s| && AllSpace(s[n..])
    ensures |NonSpace(s)| == |NonSpace(s[..n])|
  {
    NonSpaceSplit(s, n);
    NonSpaceIsEmpty(s[n..]);
  }

  lemma VolumeUpTo(s: string, from: nat, i: nat, j: nat)
    requires from <= i <= j <= |s| && AllSpace(s[i..j])
    ensures |NonSpace(s[..j])| == |NonSpace(s[..from])| + |NonSpace(s[from..i])|
  {
    assert s[..j][i..] == s[i..j] && s[..j][..i] == s[..i];
    SpaceHasNoVolume(s[..j], i);
    NonSpaceSplit(s[..i], from);
    assert s[..i][..from] == s[..from] && s[..i][from..] == s[from..i];
  }

  lemma {:induction false} KeptWithWord(parts: seq<string>, strip: bool, v: nat, w: string, n: nat, k: nat)
    returns (m: nat, l: nat)
    requires IsWord(w) && StandsAt(parts, v, w, n, k)
    ensures StandsAt(Kept(parts, strip), v, w, m, l)
    ensures (strip ==> l != 1) && (!strip ==> l == k)
  {
    var rest := Kept(parts[1..], strip);
    if n == 0 {
      m := 0;
      l := FirstKept(parts[0], rest, strip, k, w, v);
    } else {
      StandsInTheRest(parts, v, w, n, k);
      var u := v - |NonSpace(parts[0])|;
      m, l := KeptWithWord(parts[1..], strip, u, w, n - 1, k);
      m := LaterKept(parts[0], rest, strip, u, w, m, l);
    }
  }

  /** What is kept of a part. */
  function Left(p: string, strip: bool): string {
    if strip then Strip(p) else p
  }

  lemma FirstKept(p: string, rest: seq<string>, strip: bool, k: nat, w: string, v: nat) returns (l: nat)
    requires IsWord(w) && Stands(p, k, w, v)
    ensures Left(p, strip) != "" && StandsAt([Left(p, strip)] + rest, v, w, 0, l)
    ensures (strip ==> l != 1) && (!strip ==> l == k)
  {
    l := k;
    if strip {
      l := StripKeepsWord(p, k, w, v);
    }
    StandsFirst(Left(p, strip), rest, v, w, l);
  }

  lemma LaterKept(p: string, rest: seq<string>, strip: bool, u: nat, w: string, i: nat, l: nat) returns (m: nat)
    requires StandsAt(rest, u, w, i, l)
    ensures StandsAt((if Left(p, strip) == "" then [] else [Left(p, strip)]) + rest, |NonSpace(p)| + u, w, m, l)
  {
    StripCuts(p);
    m := i;
    if Left(p, strip) != "" {
      StandsAfter(Left(p, strip), rest, u, w, i, l);
      m := i + 1;
    } else {
      assert [] + rest == rest;
    }
  }

  lemma ChosenWithWord(block: string, max: nat, k: nat, w: string, v: nat) returns (m: nat, l: nat)
    requires IsWord(w) && Stands(block, k, w, v) && (k == 1 ==> |w| < max) && Chosen(block, max) != []
    ensures StandsAt(Chosen(block, max), v, w, m, l) && (l == 1 ==> |w| < max)
  {
    var parts := Chosen(block, max);
    var sep := if parts == PartsOf(BlankLines, block) then BlankLines
    else if parts == PartsOf(NewLine, block) then NewLine else AfterSentence;
    var n;
    n, l := PartWithWord(sep, block, 0, 0, k, w, v);
    assert block[..0] == "" && NonSpace("") == "";
    if sep.AfterSentence? && n > 0 {
      LaterSentences(block, 0, 0, n);
    }
    m, l := KeptWithWord(Parts(sep, block, 0, 0), !sep.AfterSentence?, v, w, n, l);
  }

  // -- the splitter ----------------------------------------------------------------------------------

  /**
   A word of at most max characters comes out whole and in its place: the cuts are at spaces
   and at the separators.  A stripped text has no word at 1; of any other, one of exactly max
   characters there may be cut (WordBehindOneSpaceIsCut).
   */
  lemma {:induction false} WordsStayWhole(block: string, max: nat, k: nat, w: string, v: nat)
    requires max >= 1 && IsWord(w) && Stands(block, k, w, v) && |w| <= max && (k == 1 ==> |w| < max)
    ensures Undivided(SplitBlock(block, max), v, w)
    decreases |block|, 1, 0
  {
    if Chosen(block, max) == [] {
      HardCutSparesWords(block, max, k, w, v);
    } else {
      ChosenAreShorter(block, max);
      var m, l := ChosenWithWord(block, max, k, w, v);
      PartsKeepWords(Chosen(block, max), max, |block|, v, w, m, l);
    }
  }

  /** What the splitter makes of the first part. */
  function FirstPieces(p: string, max: nat): seq<string>
    requires max >= 1
  {
    if |p| > max then SplitBlock(p, max) else [p]
  }

  lemma {:induction false} PartsKeepWords(parts: seq<string>, max: nat, bound: nat, v: nat, w: string, n: nat, k: nat)
    requires max >= 1 && IsWord(w) && StandsAt(parts, v, w, n, k) && |w| <= max && (k == 1 ==> |w| < max)
    requires forall i :: 0 <= i < |parts| ==> |parts[i]| < bound
    ensures Undivided(SplitParts(parts, max, bound), v, w)
    decreases bound, 0, |parts|
  {
    var first, rest := FirstPieces(parts[0], max), SplitParts(parts[1..], max, bound);
    assert SplitParts(parts, max, bound) == first + rest;
    if n > 0 {
      StandsInTheRest(parts, v, w, n, k);
      PartsKeepWords(parts[1..], max, bound, v - |NonSpace(parts[0])|, w, n - 1, k);
      FirstVolume(parts[0], max);
      BehindOthers(first, rest, |NonSpace(parts[0])|, v, w);
    } else if |parts[0]| > max {
      WordsStayWhole(parts[0], max, k, w, v);
      UndividedInFront(first, rest, v, w);
    } else {
      UndividedAlone(parts[0], k, w, v);
      UndividedInFront(first, rest, v, w);
    }
  }

  lemma BehindOthers(first: seq<string>, rest: seq<string>, volume: nat, v: nat, w: string)
    requires Volume(first) == volume <= v && Undivided(rest, v - volume, w)
    ensures Undivided(first + rest, v, w)
  {
    UndividedBehind(first, rest, v - volume, w);
  }

  lemma StandsInTheRest(parts: seq<string>, v: nat, w: string, n: nat, k: nat)
    requires StandsAt(parts, v, w, n, k) && n > 0
    ensures |NonSpace(parts[0])| <= v && StandsAt(parts[1..], v - |NonSpace(parts[0])|, w, n - 1, k)
  {
    assert parts[..n] == [parts[0]] + parts[1..][..n - 1];
    VolumeCons(parts[0], parts[1..][..n - 1]);
  }

  lemma FirstVolume(p: string, max: nat)
    requires max >= 1
    ensures Volume(FirstPieces(p, max)) == |NonSpace(p)|
  {
    SplitBlockText(p, max);
    VolumeIsText(SplitBlock(p, max));
  }

  // -- the raw chunks ----------------------------------------------------------------------------------

  lemma SlicesBelow(current: string, piece: string, k: nat, n: nat)
    requires k + n <= |piece|
    ensures var joined, l := current + "\n" + piece, |current| + 1 + k;
            joined[..l] == current + "\n" + piece[..k] && joined[l..l + n] == piece[k..k + n]
  {
  }

  lemma BelowHolds(current: string, piece: string, k: nat, w: string, v: nat) returns (l: nat)
    requires current != "" && Occurs(piece, k, w, v)
    ensures Occurs(current + "\n" + piece, l, w, |NonSpace(current)| + v)
  {
    l := |current| + 1 + k;
    SlicesBelow(current, piece, k, |w|);
    NewlineBetween(current, piece[..k]);
  }

  lemma WordBelow(current: string, piece: string, v: nat, w: string, k: nat)
    requires |NonSpace(current)| <= v && Occurs(piece, k, w, v - |NonSpace(current)|)
    ensures Undivided([Below(current, piece)], v, w)
  {
    var l := k;
    if current != "" {
      l := BelowHolds(current, piece, k, w, v - |NonSpace(current)|);
    }
    UndividedAlone(Below(current, piece), l, w, v);
  }

  lemma WordAbove(current: string, piece: string, v: nat, w: string, k: nat)
    requires w != "" && Occurs(current, k, w, v)
    ensures Undivided([Below(current, piece)], v, w)
  {
    var below := Below(current, piece);
    assert below[..k] == current[..k] && below[k..k + |w|] == current[k..k + |w|];
    UndividedAlone(below, k, w, v);
  }

  lemma BelowKeepsWord(current: string, piece: string, rest: seq<string>, v: nat, w: string)
    requires w != "" && Undivided([current] + ([piece] + rest), v, w)
    ensures Undivided([Below(current, piece)] + rest, v, w)
  {
    var was := [current] + ([piece] + rest);
    var i: nat, k: nat :| LiesAt(was, v, w, i, k);
    if i == 0 {
      assert was[..0] == [];
      WordAbove(current, piece, v, w, k);
      UndividedInFront([Below(current, piece)], rest, v, w);
    } else if i == 1 {
      assert was[..1] == [current] && was[1] == piece;
      VolumeOne(current);
      WordBelow(current, piece, v, w, k);
      UndividedInFront([Below(current, piece)], rest, v, w);
    } else {
      WordFurtherOn(current, piece, rest, v, w, i, k);
    }
  }

  lemma WordFurtherOn(current: string, piece: string, rest: seq<string>, v: nat, w: string, i: nat, k: nat)
    requires i >= 2 && LiesAt([current] + ([piece] + rest), v, w, i, k)
    ensures Undivided([Below(current, piece)] + rest, v, w)
  {
    var was, below := [current] + ([piece] + rest), Below(current, piece);
    assert was[..i] == [current] + ([piece] + rest[..i - 2]) && was[i] == rest[i - 2];
    VolumeCons(current, [piece] + rest[..i - 2]);
    VolumeCons(piece, rest[..i - 2]);
    BelowText(current, piece);
    VolumeOne(below);
    assert LiesAt(rest, v - |NonSpace(below)|, w, i - 2, k);
    UndividedBehind([below], rest, v - |NonSpace(below)|, w);
  }

  /** The word is in what is closed, or behind it. */
  lemma ClosedKeepsWord(current: string, rest: seq<string>, v: nat, w: string)
    requires w != "" && Undivided([current] + rest, v, w)
    ensures Undivided(Closed(current), v, w)
         || (|NonSpace(current)| <= v && Undivided(rest, v - |NonSpace(current)|, w))
    ensures Volume(Closed(current)) == |NonSpace(current)|
  {
    var i: nat, k: nat :| LiesAt([current] + rest, v, w, i, k);
    if i == 0 {
      assert ([current] + rest)[..0] == [];
      UndividedAlone(current, k, w, v);
    } else {
      assert ([current] + rest)[..i] == [current] + rest[..i - 1];
      VolumeCons(current, rest[..i - 1]);
      assert LiesAt(rest, v - |NonSpace(current)|, w, i - 1, k);
    }
  }

  lemma {:induction false} MergeKeepsWords(pieces: seq<string>, current: string, v: nat, w: string)
    requires w != "" && Undivided([current] + pieces, v, w)
    ensures Undivided(Merge(pieces, current), v, w)
  {
    ClosedKeepsWord(current, pieces, v, w);
    if pieces != [] {
      var piece, rest := pieces[0], pieces[1..];
      assert pieces == [piece] + rest;
      if |current| + |piece| + 1 <= MERGE_LIMIT {
        BelowKeepsWord(current, piece, rest, v, w);
        MergeKeepsWords(rest, Below(current, piece), v, w);
      } else if Undivided(Closed(current), v, w) {
        UndividedInFront(Closed(current), Merge(rest, piece), v, w);
      } else {
        MergeKeepsWords(rest, piece, v - |NonSpace(current)|, w);
        UndividedBehind(Closed(current), Merge(rest, piece), v - |NonSpace(current)|, w);
      }
    }
  }

  /** So no raw chunk begins or ends inside a word of the text of at most 725 characters. */
  lemma RawChunksKeepWords(text: string, k: nat, w: string, v: nat)
    requires Stripped(text) && IsWord(w) && Stands(text, k, w, v) && |w| <= MERGE_LIMIT
    ensures Undivided(Raw(text), v, w)
  {
    WordsStayWhole(text, MERGE_LIMIT, k, w, v);
    UndividedBehind([""], SplitBlock(text, MERGE_LIMIT), v, w);
    MergeKeepsWords(SplitBlock(text, MERGE_LIMIT), "", v, w);
  }
}
