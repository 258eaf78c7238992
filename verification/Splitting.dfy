/**
 The recursive splitter of voice_agent/kb/ingestion/chunking.py: paragraph, line, then
 sentence boundaries, and a hard cut where none of them helps.
 */
module Splitting {
  import opened Text

  /** The three patterns, tried in this order: \n\n+, \n, and white space after a sentence end. */
  datatype Separator = BlankLines | NewLine | AfterSentence

  predicate EndsSentence(c: char) {
    c in ".!?;:"
  }

  // -- re.split -----------------------------------------------------------------------------

  /** The end of the run of newlines that starts at i. */
  function NewlinesEnd(s: string, i: nat): (j: nat)
    requires i <= |s|
    ensures i <= j <= |s| && AllSpace(s[i..j])
    decreases |s| - i
  {
    if i < |s| && s[i] == '\n' then
      var j := NewlinesEnd(s, i + 1);
      assert s[i..j] == [s[i]] + s[i + 1..j];
      j
    else
      i
  }

  /** The end of the run of white space that starts at i. */
  function SpaceEnd(s: string, i: nat): (j: nat)
    requires i <= |s|
    ensures i <= j <= |s| && AllSpace(s[i..j])
    ensures j < |s| ==> !IsSpace(s[j])
    decreases |s| - i
  {
    if i < |s| && IsSpace(s[i]) then
      var j := SpaceEnd(s, i + 1);
      assert s[i..j] == [s[i]] + s[i + 1..j];
      j
    else
      i
  }

  /** Where the match of the pattern at i ends; i itself if there is none. */
  function MatchEnd(sep: Separator, s: string, i: nat): (j: nat)
    requires i < |s|
    ensures i <= j <= |s| && AllSpace(s[i..j])
  {
    match sep
    case BlankLines => if NewlinesEnd(s, i) >= i + 2 then NewlinesEnd(s, i) else i
    case NewLine => if s[i] == '\n' then i + 1 else i
    case AfterSentence => if i > 0 && EndsSentence(s[i - 1]) then SpaceEnd(s, i) else i
  }

  /** re.split: the parts from `from` on, the scan for the next match standing at i. */
  function Parts(sep: Separator, s: string, from: nat, i: nat): (parts: seq<string>)
    requires from <= i <= |s|
    ensures parts != []
    decreases |s| - i
  {
    if i == |s| then
      [s[from..]]
    else if MatchEnd(sep, s, i) > i then
      [s[from..i]] + Parts(sep, s, MatchEnd(sep, s, i), MatchEnd(sep, s, i))
    else
      Parts(sep, s, from, i + 1)
  }

  /** The parts without the empty ones, stripped first except at sentence boundaries. */
  function Kept(parts: seq<string>, strip: bool): seq<string> {
    if parts == [] then []
    else
      var p := if strip then Strip(parts[0]) else parts[0];
      (if p == "" then [] else [p]) + Kept(parts[1..], strip)
  }

  function PartsOf(sep: Separator, block: string): seq<string> {
    Kept(Parts(sep, block, 0, 0), !sep.AfterSentence?)
  }

  /** The pattern is used when it gives several parts and one of them fits. */
  predicate Useful(parts: seq<string>, max: nat) {
    |parts| > 1 && exists i :: 0 <= i < |parts| && |parts[i]| <= max
  }

  // -- the hard cut ---------------------------------------------------------------------------

  /** str.rfind(" ", 0, n), 0 standing for "not found" as well, since both lead to the same cut. */
  function LastSpace(s: string, n: nat): (k: nat)
    requires n <= |s|
    ensures k == 0 || (k < n && s[k] == ' ')
    ensures forall i :: k < i < n ==> s[i] != ' '
  {
    if n == 0 then 0 else if s[n - 1] == ' ' then n - 1 else LastSpace(s, n - 1)
  }

  function CutAt(s: string, max: nat): (cut: nat)
    requires 1 <= max < |s|
    ensures 1 <= cut <= max
  {
    var k := LastSpace(s, max + 1);
    if k == 0 then max else k
  }

  function HardCut(s: string, max: nat): seq<string>
    requires max >= 1
    decreases |s|
  {
    if |s| <= max then
      (if s == "" then [] else [s])
    else
      StripCuts(s[CutAt(s, max)..]);
      [Strip(s[..CutAt(s, max)])] + HardCut(Strip(s[CutAt(s, max)..]), max)
  }

  // -- the splitter ------------------------------------------------------------------------------

  /** The pattern that is used, if any is. */
  function Chosen(block: string, max: nat): seq<string> {
    if Useful(PartsOf(BlankLines, block), max) then PartsOf(BlankLines, block)
    else if Useful(PartsOf(NewLine, block), max) then PartsOf(NewLine, block)
    else if Useful(PartsOf(AfterSentence, block), max) then PartsOf(AfterSentence, block)
    else []
  }

  function SplitBlock(block: string, max: nat): seq<string>
    requires max >= 1
    decreases |block|, 1, 0
  {
    var parts := Chosen(block, max);
    if parts == [] then
      HardCut(block, max)
    else
      ChosenAreShorter(block, max);
      SplitParts(parts, max, |block|)
  }

  /** The parts in order, the long ones split further. */
  function SplitParts(parts: seq<string>, max: nat, bound: nat): seq<string>
    requires max >= 1
    requires forall i :: 0 <= i < |parts| ==> |parts[i]| < bound
    decreases bound, 0, |parts|
  {
    if parts == [] then []
    else
      (if |parts[0]| > max then SplitBlock(parts[0], max) else [parts[0]]) + SplitParts(parts[1..], max, bound)
  }

  // -- parts are shorter than the block: the recursion ends --------------------------------------

  lemma {:induction false} PartsTotal(sep: Separator, s: string, from: nat, i: nat)
    requires from <= i <= |s|
    ensures Total(Parts(sep, s, from, i)) <= |s| - from
    decreases |s| - i
  {
    if i < |s| {
      var j := MatchEnd(sep, s, i);
      if j > i {
        PartsTotal(sep, s, j, j);
        var rest := Parts(sep, s, j, j);
        assert ([s[from..i]] + rest)[1..] == rest;
      } else {
        PartsTotal(sep, s, from, i + 1);
      }
    }
  }

  lemma {:induction false} KeptTotal(parts: seq<string>, strip: bool)
    ensures Total(Kept(parts, strip)) <= Total(parts)
    ensures forall i :: 0 <= i < |Kept(parts, strip)| ==> Kept(parts, strip)[i] != ""
  {
    if parts != [] {
      KeptTotal(parts[1..], strip);
      StripCuts(parts[0]);
      var p := if strip then Strip(parts[0]) else parts[0];
      if p != "" {
        assert ([p] + Kept(parts[1..], strip))[1..] == Kept(parts[1..], strip);
      } else {
        assert Kept(parts, strip) == Kept(parts[1..], strip);
      }
    }
  }

  /** Of several non-empty parts each is shorter than all together. */
  lemma {:induction false} EachIsShorter(parts: seq<string>, i: nat)
    requires i < |parts|
    requires forall j :: 0 <= j < |parts| ==> parts[j] != ""
    ensures |parts[i]| <= Total(parts)
    ensures |parts| > 1 ==> |parts[i]| < Total(parts)
  {
    if i > 0 {
      EachIsShorter(parts[1..], i - 1);
    } else if |parts| > 1 {
      EachIsShorter(parts[1..], 0);
    }
  }

  lemma ChosenAreShorter(block: string, max: nat)
    ensures forall i :: 0 <= i < |Chosen(block, max)| ==> |Chosen(block, max)[i]| < |block|
  {
    var parts := Chosen(block, max);
    if parts != [] {
      var sep := if parts == PartsOf(BlankLines, block) then BlankLines
      else if parts == PartsOf(NewLine, block) then NewLine else AfterSentence;
      PartsTotal(sep, block, 0, 0);
      KeptTotal(Parts(sep, block, 0, 0), !sep.AfterSentence?);
      forall i | 0 <= i < |parts|
        ensures |parts[i]| < |block|
      {
        EachIsShorter(parts, i);
      }
    }
  }

  // -- nothing but white space is lost ---------------------------------------------------------------

  lemma SkipSpace(s: string, from: nat, i: nat, j: nat)
    requires from <= i <= j <= |s| && AllSpace(s[i..j])
    ensures NonSpace(s[from..]) == NonSpace(s[from..i]) + NonSpace(s[j..])
  {
    assert s[from..] == s[from..i] + (s[i..j] + s[j..]);
    NonSpaceConcat(s[from..i], s[i..j] + s[j..]);
    NonSpaceConcat(s[i..j], s[j..]);
    NonSpaceIsEmpty(s[i..j]);
  }

  lemma {:induction false} PartsText(sep: Separator, s: string, from: nat, i: nat)
    requires from <= i <= |s|
    ensures TextOf(Parts(sep, s, from, i)) == NonSpace(s[from..])
    decreases |s| - i
  {
    if i == |s| {
      assert Concat([s[from..]]) == s[from..];
    } else {
      var j := MatchEnd(sep, s, i);
      if j > i {
        PartsText(sep, s, j, j);
        TextOfCons(s[from..i], Parts(sep, s, j, j));
        SkipSpace(s, from, i, j);
      } else {
        PartsText(sep, s, from, i + 1);
      }
    }
  }

  lemma {:induction false} KeptText(parts: seq<string>, strip: bool)
    ensures TextOf(Kept(parts, strip)) == TextOf(parts)
  {
    if parts != [] {
      KeptText(parts[1..], strip);
      StripCuts(parts[0]);
      var p := if strip then Strip(parts[0]) else parts[0];
      assert [parts[0]] + parts[1..] == parts;
      TextOfCons(parts[0], parts[1..]);
      TextOfCons(p, Kept(parts[1..], strip));
      if p == "" {
        assert Kept(parts, strip) == Kept(parts[1..], strip);
      }
    }
  }

  lemma ChosenText(block: string, max: nat)
    requires Chosen(block, max) != []
    ensures TextOf(Chosen(block, max)) == NonSpace(block)
  {
    var parts := Chosen(block, max);
    var sep := if parts == PartsOf(BlankLines, block) then BlankLines
    else if parts == PartsOf(NewLine, block) then NewLine else AfterSentence;
    PartsText(sep, block, 0, 0);
    KeptText(Parts(sep, block, 0, 0), !sep.AfterSentence?);
    assert block[0..] == block;
  }

  lemma {:induction false} HardCutText(s: string, max: nat)
    requires max >= 1
    ensures TextOf(HardCut(s, max)) == NonSpace(s)
    decreases |s|
  {
    if |s| <= max {
      if s != "" {
        assert Concat([s]) == s;
      }
    } else {
      var cut := CutAt(s, max);
      StripCuts(s[..cut]);
      StripCuts(s[cut..]);
      HardCutText(Strip(s[cut..]), max);
      TextOfCons(Strip(s[..cut]), HardCut(Strip(s[cut..]), max));
      NonSpaceSplit(s, cut);
    }
  }

  /** The pieces, put together again, are the block, white space ignored. */
  lemma {:induction false} SplitBlockText(block: string, max: nat)
    requires max >= 1
    ensures TextOf(SplitBlock(block, max)) == NonSpace(block)
    decreases |block|, 1, 0
  {
    var parts := Chosen(block, max);
    if parts == [] {
      HardCutText(block, max);
    } else {
      ChosenAreShorter(block, max);
      ChosenText(block, max);
      SplitPartsText(parts, max, |block|);
    }
  }

  lemma {:induction false} SplitPartsText(parts: seq<string>, max: nat, bound: nat)
    requires max >= 1
    requires forall i :: 0 <= i < |parts| ==> |parts[i]| < bound
    ensures TextOf(SplitParts(parts, max, bound)) == TextOf(parts)
    decreases bound, 0, |parts|
  {
    if parts != [] {
      SplitPartsText(parts[1..], max, bound);
      var first := if |parts[0]| > max then SplitBlock(parts[0], max) else [parts[0]];
      if |parts[0]| > max {
        SplitBlockText(parts[0], max);
      } else {
        assert Concat([parts[0]]) == parts[0];
      }
      TextOfAppend(first, SplitParts(parts[1..], max, bound));
      assert [parts[0]] + parts[1..] == parts;
      TextOfCons(parts[0], parts[1..]);
    }
  }

  // -- every piece fits --------------------------------------------------------------------------------

  lemma {:induction false} HardCutWithin(s: string, max: nat)
    requires max >= 1
    ensures AllWithin(HardCut(s, max), max)
    decreases |s|
  {
    if |s| > max {
      StripCuts(s[..CutAt(s, max)]);
      StripCuts(s[CutAt(s, max)..]);
      HardCutWithin(Strip(s[CutAt(s, max)..]), max);
    }
  }

  /** No piece is longer than `max`. */
  lemma {:induction false} SplitBlockWithin(block: string, max: nat)
    requires max >= 1
    ensures AllWithin(SplitBlock(block, max), max)
    decreases |block|, 1, 0
  {
    var parts := Chosen(block, max);
    if parts == [] {
      HardCutWithin(block, max);
    } else {
      ChosenAreShorter(block, max);
      SplitPartsWithin(parts, max, |block|);
    }
  }

  lemma {:induction false} SplitPartsWithin(parts: seq<string>, max: nat, bound: nat)
    requires max >= 1
    requires forall i :: 0 <= i < |parts| ==> |parts[i]| < bound
    ensures AllWithin(SplitParts(parts, max, bound), max)
    decreases bound, 0, |parts|
  {
    if parts != [] {
      if |parts[0]| > max {
        SplitBlockWithin(parts[0], max);
      }
      SplitPartsWithin(parts[1..], max, bound);
    }
  }

  // -- every piece of a stripped block is stripped and has something in it ---------------------------------

  /** Parts between sentence boundaries start and end on characters that stay. */
  lemma {:induction false} SentencePartsStripped(s: string, from: nat, i: nat)
    requires from <= i <= |s| && Stripped(s)
    requires from < |s| ==> !IsSpace(s[from])
    ensures forall k :: 0 <= k < |Parts(AfterSentence, s, from, i)| ==> Stripped(Parts(AfterSentence, s, from, i)[k])
    decreases |s| - i
  {
    if i < |s| {
      var j := MatchEnd(AfterSentence, s, i);
      if j > i {
        SentencePartsStripped(s, j, j);
      } else {
        SentencePartsStripped(s, from, i + 1);
      }
    }
  }

  lemma {:induction false} KeptTidy(parts: seq<string>, strip: bool)
    requires strip || forall k :: 0 <= k < |parts| ==> Stripped(parts[k])
    ensures AllTidy(Kept(parts, strip))
  {
    if parts != [] {
      KeptTidy(parts[1..], strip);
      StripCuts(parts[0]);
    }
  }

  lemma ChosenTidy(block: string, max: nat)
    requires Stripped(block)
    ensures AllTidy(Chosen(block, max))
  {
    if block != "" {
      SentencePartsStripped(block, 0, 0);
    }
    KeptTidy(Parts(BlankLines, block, 0, 0), true);
    KeptTidy(Parts(NewLine, block, 0, 0), true);
    KeptTidy(Parts(AfterSentence, block, 0, 0), false);
  }

  lemma {:induction false} HardCutTidy(s: string, max: nat)
    requires max >= 1 && s != "" && Stripped(s)
    ensures AllTidy(HardCut(s, max))
    decreases |s|
  {
    if |s| > max {
      var cut := CutAt(s, max);
      StripKeepsStart(s[..cut]);
      StripKeepsEnd(s[cut..]);
      StripCuts(s[..cut]);
      StripCuts(s[cut..]);
      HardCutTidy(Strip(s[cut..]), max);
    }
  }

  /** Every piece of a stripped block is stripped and not empty. */
  lemma {:induction false} SplitBlockTidy(block: string, max: nat)
    requires max >= 1 && block != "" && Stripped(block)
    ensures AllTidy(SplitBlock(block, max))
    decreases |block|, 1, 0
  {
    var parts := Chosen(block, max);
    if parts == [] {
      HardCutTidy(block, max);
    } else {
      ChosenAreShorter(block, max);
      ChosenTidy(block, max);
      SplitPartsTidy(parts, max, |block|);
    }
  }

  lemma {:induction false} SplitPartsTidy(parts: seq<string>, max: nat, bound: nat)
    requires max >= 1 && AllTidy(parts)
    requires forall i :: 0 <= i < |parts| ==> |parts[i]| < bound
    ensures AllTidy(SplitParts(parts, max, bound))
    decreases bound, 0, |parts|
  {
    if parts != [] {
      if |parts[0]| > max {
        SplitBlockTidy(parts[0], max);
      }
      SplitPartsTidy(parts[1..], max, bound);
    }
  }

  lemma {:induction false} ShortPartsStayWhole(parts: seq<string>, max: nat, bound: nat, i: nat)
    requires max >= 1 && i < |parts| && |parts[i]| <= max
    requires forall k :: 0 <= k < |parts| ==> |parts[k]| < bound
    ensures parts[i] in SplitParts(parts, max, bound)
  {
    if i > 0 {
      ShortPartsStayWhole(parts[1..], max, bound, i - 1);
    }
  }

  // -- the loops of the source ---------------------------------------------------------------------------------

  const PATTERNS: seq<Separator> := [BlankLines, NewLine, AfterSentence]

  lemma SplitPartsStep(parts: seq<string>, max: nat, bound: nat, i: nat)
    requires max >= 1 && i < |parts|
    requires forall k :: 0 <= k < |parts| ==> |parts[k]| < bound
    ensures SplitParts(parts[i..], max, bound) ==
            (if |parts[i]| > max then SplitBlock(parts[i], max) else [parts[i]]) + SplitParts(parts[i + 1..], max, bound)
  {
    assert parts[i..][1..] == parts[i + 1..];
  }

  lemma ChosenAt(block: string, max: nat, n: nat)
    requires n <= |PATTERNS|
    requires forall m :: 0 <= m < n ==> !Useful(PartsOf(PATTERNS[m], block), max)
    ensures n == |PATTERNS| ==> Chosen(block, max) == []
    ensures n < |PATTERNS| && Useful(PartsOf(PATTERNS[n], block), max) ==>
              Chosen(block, max) == PartsOf(PATTERNS[n], block)
  {
    assert n > 0 ==> !Useful(PartsOf(PATTERNS[0], block), max);
    assert n > 1 ==> !Useful(PartsOf(PATTERNS[1], block), max);
    assert n > 2 ==> !Useful(PartsOf(PATTERNS[2], block), max);
  }

  /**
   A paragraph, line or sentence that fits is never cut, nor joined with another one, where its
   pattern is the first to give several parts of which one fits.
   */
  lemma ShortPartsOfTheBlockStayWhole(block: string, max: nat, n: nat, i: nat)
    requires max >= 1 && n < |PATTERNS|
    requires forall m :: 0 <= m < n ==>
               var parts := PartsOf(PATTERNS[m], block);
               |parts| <= 1 || forall k :: 0 <= k < |parts| ==> |parts[k]| > max
    requires |PartsOf(PATTERNS[n], block)| > 1
    requires i < |PartsOf(PATTERNS[n], block)| && |PartsOf(PATTERNS[n], block)[i]| <= max
    ensures PartsOf(PATTERNS[n], block)[i] in SplitBlock(block, max)
  {
    ChosenAt(block, max, n);
    ChosenAreShorter(block, max);
    ShortPartsStayWhole(PartsOf(PATTERNS[n], block), max, |block|, i);
  }

  lemma {:induction false} PiecesOfPart(parts: seq<string>, max: nat, bound: nat, i: nat)
    returns (before: seq<string>, after: seq<string>)
    requires max >= 1 && i < |parts| && |parts[i]| > max
    requires forall k :: 0 <= k < |parts| ==> |parts[k]| < bound
    ensures SplitParts(parts, max, bound) == before + SplitBlock(parts[i], max) + after
    ensures TextOf(before) == TextOf(parts[..i])
  {
    var rest := SplitParts(parts[1..], max, bound);
    if i == 0 {
      before, after := [], rest;
      assert parts[..0] == [];
      assert [] + SplitBlock(parts[0], max) == SplitBlock(parts[0], max);
    } else {
      var first := if |parts[0]| > max then SplitBlock(parts[0], max) else [parts[0]];
      var middle;
      middle, after := PiecesOfPart(parts[1..], max, bound, i - 1);
      before := first + middle;
      RegroupAll(first, middle, SplitBlock(parts[i], max), after);
      TextOfFirst(parts[0], max);
      TextUpTo(parts, i, first, middle);
    }
  }

  lemma RegroupAll<T>(a: seq<T>, b: seq<T>, c: seq<T>, d: seq<T>)
    ensures a + (b + c + d) == a + b + c + d
  {
  }

  lemma TextOfFirst(p: string, max: nat)
    requires max >= 1
    ensures TextOf(SplitBlock(p, max)) == NonSpace(p) && TextOf([p]) == NonSpace(p)
  {
    SplitBlockText(p, max);
    assert Concat([p]) == p;
  }

  lemma TextUpTo(parts: seq<string>, i: nat, first: seq<string>, middle: seq<string>)
    requires 0 < i <= |parts| && TextOf(first) == NonSpace(parts[0]) && TextOf(middle) == TextOf(parts[1..][..i - 1])
    ensures TextOf(first + middle) == TextOf(parts[..i])
  {
    TextOfAppend(first, middle);
    assert parts[..i] == [parts[0]] + parts[1..][..i - 1];
    TextOfCons(parts[0], parts[1..][..i - 1]);
  }

  /** A part that is too long is split as if it were alone, and its pieces stand in its place. */
  lemma LongPartsAreSplitFurther(block: string, max: nat, n: nat, i: nat)
    returns (before: seq<string>, after: seq<string>)
    requires max >= 1 && n < |PATTERNS|
    requires forall m :: 0 <= m < n ==>
               var parts := PartsOf(PATTERNS[m], block);
               |parts| <= 1 || forall k :: 0 <= k < |parts| ==> |parts[k]| > max
    requires var parts := PartsOf(PATTERNS[n], block);
             |parts| > 1 && (exists k :: 0 <= k < |parts| && |parts[k]| <= max) && i < |parts| && |parts[i]| > max
    ensures var parts := PartsOf(PATTERNS[n], block);
            && SplitBlock(block, max) == before + SplitBlock(parts[i], max) + after
            && TextOf(before) == TextOf(parts[..i])
  {
    ChosenAt(block, max, n);
    ChosenAreShorter(block, max);
    before, after := PiecesOfPart(PartsOf(PATTERNS[n], block), max, |block|, i);
  }

  /** Where every pattern gives one part, or only parts that are too long, the block is cut hard. */
  lemma OtherBlocksAreCutHard(block: string, max: nat)
    requires max >= 1
    requires forall m :: 0 <= m < |PATTERNS| ==>
               var parts := PartsOf(PATTERNS[m], block);
               |parts| <= 1 || forall k :: 0 <= k < |parts| ==> |parts[k]| > max
    ensures SplitBlock(block, max) == HardCut(block, max)
  {
    ChosenAt(block, max, |PATTERNS|);
  }

  /** chunking.py `_split_block`; its loop over the parts and its hard fallback are the two loops below. */
  method SplitBlockByLoops(block: string, max: nat) returns (out: seq<string>)
    requires max >= 1
    ensures out == SplitBlock(block, max)
    decreases |block|, 1, 0
  {
    for n := 0 to |PATTERNS|
      invariant forall m :: 0 <= m < n ==> !Useful(PartsOf(PATTERNS[m], block), max)
    {
      var parts := PartsOf(PATTERNS[n], block);
      if |parts| > 1 && exists i :: 0 <= i < |parts| && |parts[i]| <= max {
        ChosenAt(block, max, n);
        ChosenAreShorter(block, max);
        out := SplitPartsByLoop(parts, max, |block|);
        return;
      }
    }
    ChosenAt(block, max, |PATTERNS|);
    out := HardCutByLoop(block, max);
  }

  lemma Regroup<T>(a: seq<T>, b: seq<T>, c: seq<T>)
    ensures a + (b + c) == (a + b) + c
  {
  }

  method SplitPartsByLoop(parts: seq<string>, max: nat, bound: nat) returns (out: seq<string>)
    requires max >= 1
    requires forall i :: 0 <= i < |parts| ==> |parts[i]| < bound
    ensures out == SplitParts(parts, max, bound)
    decreases bound, 0, |parts|
  {
    out := [];
    assert parts[0..] == parts;
    for i := 0 to |parts|
      invariant SplitParts(parts, max, bound) == out + SplitParts(parts[i..], max, bound)
    {
      SplitPartsStep(parts, max, bound, i);
      var pieces := [parts[i]];
      if |parts[i]| > max {
        pieces := SplitBlockByLoops(parts[i], max);
      }
      ghost var rest := SplitParts(parts[i + 1..], max, bound);
      Regroup(out, pieces, rest);
      out := out + pieces;
    }
  }

  method HardCutByLoop(block: string, max: nat) returns (result: seq<string>)
    requires max >= 1
    ensures result == HardCut(block, max)
  {
    var remaining := block;
    result := [];
    while |remaining| > max
      invariant HardCut(block, max) == result + HardCut(remaining, max)
      decreases |remaining|
    {
      var cut := CutAt(remaining, max);
      StripCuts(remaining[cut..]);
      result := result + [Strip(remaining[..cut])];
      remaining := Strip(remaining[cut..]);
    }
    if remaining != "" {
      result := result + [remaining];
    }
  }
}
