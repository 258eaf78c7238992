/**
 Which characters of a text the paragraph-aware chunks hold, overlaps included.  The trim
 relies on the overlap to cover again what it cuts off (chunking.py:9-13); it does not.
 */
module ChunkCoverage {
  import opened Text
  import opened Chunking

  predicate Holds(parts: seq<string>, x: char) {
    exists i :: 0 <= i < |parts| && x in parts[i]
  }

  // -- the overlap brings nothing back -------------------------------------------------------

  lemma OverlapHolds(prev: string, x: char)
    requires x in Overlap(prev)
    ensures x in prev
  {
    OverlapIsSuffix(prev);
  }

  lemma HeldByOne(merged: seq<string>, i: nat, x: char)
    requires i < |merged| && x != '\n'
    ensures x in merged[i] ==> x in AddOverlaps(merged)[i]
    ensures x in AddOverlaps(merged)[i] ==> Holds(merged, x)
  {
    if i > 0 && x in Overlap(merged[i - 1]) {
      OverlapHolds(merged[i - 1], x);
    }
  }

  /** An overlap only repeats what its merged chunk holds, so it adds no character to the chunks. */
  lemma OverlapsBringNothingBack(merged: seq<string>, x: char)
    requires x != '\n'
    ensures Holds(AddOverlaps(merged), x) <==> Holds(merged, x)
  {
    forall i | 0 <= i < |merged|
      ensures x in merged[i] ==> x in AddOverlaps(merged)[i]
      ensures x in AddOverlaps(merged)[i] ==> Holds(merged, x)
    {
      HeldByOne(merged, i, x);
    }
  }

  lemma MergeTailHolds(trimmed: seq<string>, x: char)
    requires x != '\n'
    ensures Holds(MergeTail(trimmed), x) <==> Holds(trimmed, x)
  {
    var n, merged := |trimmed|, MergeTail(trimmed);
    if n > 1 && |trimmed[n - 1]| < MIN_CHUNK_SIZE {
      assert merged[n - 2] == trimmed[n - 2] + "\n" + trimmed[n - 1];
      assert forall i :: 0 <= i < n - 2 ==> merged[i] == trimmed[i];
      if i :| 0 <= i < n && x in trimmed[i] {
        assert x in merged[if i == n - 1 then n - 2 else i];
      }
    }
  }

  /** A character is in some chunk exactly if it is in what the trim leaves of some raw chunk. */
  lemma ChunksHoldWhatIsLeft(text: string, x: char)
    requires text != "" && Stripped(text) && x != '\n'
    ensures ParagraphAware(text).Ok?
    ensures Holds(ParagraphAware(text).value, x) <==> Holds(TrimAll(Raw(text)), x)
  {
    ChunksOfText(text);
    OverlapsBringNothingBack(Merged(text), x);
    MergeTailHolds(TrimAll(Raw(text)), x);
  }

  // -- what is cut off is gone ------------------------------------------------------------------

  /** What the trim cuts off raw chunk i. */
  function CutOff(raw: seq<string>, i: nat): string
    requires i < |raw|
  {
    if i < |raw| - 1 && IsTrimmed(raw[i]) then raw[i][LastSentence(raw[i]).value..] else ""
  }

  function CutsOf(raw: seq<string>): (cuts: seq<string>)
    ensures |cuts| == |raw|
  {
    seq(|raw|, i requires 0 <= i < |raw| => CutOff(raw, i))
  }

  lemma TrimSplits(raw: seq<string>, i: nat)
    requires i < |raw|
    ensures NonSpace(raw[i]) == NonSpace(TrimAll(raw)[i]) + NonSpace(CutOff(raw, i))
  {
    if i < |raw| - 1 && IsTrimmed(raw[i]) {
      var end := LastSentence(raw[i]).value;
      NonSpaceSplit(raw[i], end);
      StripCuts(raw[i][..end]);
    }
  }

  /** How often x is in the parts, white space ignored. */
  function Occurrences(parts: seq<string>, x: char): nat {
    multiset(TextOf(parts))[x]
  }

  lemma OccurrencesOfLast(parts: seq<string>, x: char)
    requires parts != []
    ensures Occurrences(parts, x)
         == Occurrences(parts[..|parts| - 1], x) + multiset(NonSpace(parts[|parts| - 1]))[x]
  {
    var front, last := parts[..|parts| - 1], parts[|parts| - 1];
    assert parts == front + [last];
    TextOfAppend(front, [last]);
    assert Concat([last]) == last;
  }

  lemma {:induction false} OccurrencesSplit(all: seq<string>, kept: seq<string>, cut: seq<string>, x: char)
    requires |all| == |kept| == |cut|
    requires forall i :: 0 <= i < |all| ==> NonSpace(all[i]) == NonSpace(kept[i]) + NonSpace(cut[i])
    ensures Occurrences(all, x) == Occurrences(kept, x) + Occurrences(cut, x)
  {
    if all != [] {
      var n := |all| - 1;
      OccurrencesSplit(all[..n], kept[..n], cut[..n], x);
      OccurrencesOfLast(all, x);
      OccurrencesOfLast(kept, x);
      OccurrencesOfLast(cut, x);
    }
  }

  lemma {:induction false} NonSpaceHolds(s: string, x: char)
    ensures x in NonSpace(s) <==> x in s && !IsSpace(x)
    ensures !IsSpace(x) ==> multiset(NonSpace(s))[x] == multiset(s)[x]
  {
    if s != "" {
      NonSpaceHolds(s[1..], x);
      assert s == [s[0]] + s[1..];
    }
  }

  lemma HeldByLast(parts: seq<string>, x: char)
    requires parts != []
    ensures Holds(parts, x) <==> Holds(parts[..|parts| - 1], x) || x in parts[|parts| - 1]
  {
    var front := parts[..|parts| - 1];
    if i :| 0 <= i < |front| && x in front[i] {
      assert x in parts[i];
    }
    if i :| 0 <= i < |parts| && x in parts[i] {
      assert i < |front| ==> x in front[i];
    }
  }

  lemma {:induction false} OccursIffHeld(parts: seq<string>, x: char)
    requires !IsSpace(x)
    ensures Occurrences(parts, x) > 0 <==> Holds(parts, x)
  {
    if parts == [] {
      assert TextOf(parts) == "";
    } else {
      OccursIffHeld(parts[..|parts| - 1], x);
      OccurrencesOfLast(parts, x);
      HeldByLast(parts, x);
      NonSpaceHolds(parts[|parts| - 1], x);
    }
  }

  /** Of a character that occurs once either the kept parts have it or the cut ones. */
  lemma KeptOrCut(all: seq<string>, kept: seq<string>, cut: seq<string>, x: char)
    requires |all| == |kept| == |cut|
    requires forall i :: 0 <= i < |all| ==> NonSpace(all[i]) == NonSpace(kept[i]) + NonSpace(cut[i])
    requires !IsSpace(x) && Occurrences(all, x) == 1
    ensures Holds(kept, x) <==> !Holds(cut, x)
  {
    OccurrencesSplit(all, kept, cut, x);
    OccursIffHeld(kept, x);
    OccursIffHeld(cut, x);
  }

  lemma RawIsKeptOrCut(raw: seq<string>, x: char)
    requires !IsSpace(x) && Occurrences(raw, x) == 1
    ensures Holds(TrimAll(raw), x) <==> !Holds(CutsOf(raw), x)
  {
    forall i | 0 <= i < |raw|
      ensures NonSpace(raw[i]) == NonSpace(TrimAll(raw)[i]) + NonSpace(CutsOf(raw)[i])
    {
      TrimSplits(raw, i);
    }
    KeptOrCut(raw, TrimAll(raw), CutsOf(raw), x);
  }

  lemma OccursInRaw(text: string, x: char)
    requires text != "" && Stripped(text) && !IsSpace(x)
    ensures Occurrences(Raw(text), x) == multiset(text)[x]
  {
    RawChunks(text);
    NonSpaceHolds(text, x);
  }

  /** The trim cuts x off some raw chunk. */
  predicate IsCutOff(raw: seq<string>, x: char) {
    exists i :: 0 <= i < |raw| - 1 && IsTrimmed(raw[i]) && x in raw[i][LastSentence(raw[i]).value..]
  }

  lemma CutsHold(raw: seq<string>, x: char)
    ensures Holds(CutsOf(raw), x) <==> IsCutOff(raw, x)
  {
    if i :| 0 <= i < |raw| - 1 && IsTrimmed(raw[i]) && x in raw[i][LastSentence(raw[i]).value..] {
      assert x in CutsOf(raw)[i];
    }
    if i :| 0 <= i < |raw| && x in CutsOf(raw)[i] {
      assert x in CutOff(raw, i);
    }
  }

  /**
   A character that occurs once in the text is in a chunk exactly if the trim did not cut it
   off: no overlap covers it again.
   */
  lemma CoveredIffNotCutOff(text: string, x: char)
    requires text != "" && Stripped(text) && !IsSpace(x) && multiset(text)[x] == 1
    ensures ParagraphAware(text).Ok?
    ensures Holds(ParagraphAware(text).value, x) <==> !IsCutOff(Raw(text), x)
  {
    ChunksHoldWhatIsLeft(text, x);
    OccursInRaw(text, x);
    RawIsKeptOrCut(Raw(text), x);
    CutsHold(Raw(text), x);
  }

  /** Every character that is not white space occurs once. */
  predicate AllDifferent(text: string) {
    forall x :: x in text && !IsSpace(x) ==> multiset(text)[x] == 1
  }

  lemma TrimmedIsCutOff(raw: seq<string>, i: nat)
    requires i < |raw| - 1 && IsTrimmed(raw[i])
    ensures raw[i] != "" && IsCutOff(raw, raw[i][|raw[i]| - 1])
  {
    var cut := raw[i][LastSentence(raw[i]).value..];
    assert raw[i][|raw[i]| - 1] == cut[|cut| - 1];
  }

  /** The last character of a raw chunk is one of the text. */
  lemma LastOfRaw(text: string, i: nat)
    requires text != "" && Stripped(text) && i < |Raw(text)|
    ensures Raw(text)[i] != ""
    ensures var x := Raw(text)[i][|Raw(text)[i]| - 1]; x in text && !IsSpace(x)
  {
    RawChunks(text);
    var x := Raw(text)[i][|Raw(text)[i]| - 1];
    assert x in Raw(text)[i];
    OccursIffHeld(Raw(text), x);
    OccursInRaw(text, x);
  }

  /** The chunks of such a text hold all of its characters exactly if no chunk was trimmed. */
  lemma AllIsCoveredIffUntrimmed(text: string)
    requires text != "" && Stripped(text) && AllDifferent(text)
    ensures ParagraphAware(text).Ok?
    ensures (forall x :: x in text && !IsSpace(x) ==> Holds(ParagraphAware(text).value, x)) <==> Untrimmed(Raw(text))
  {
    ChunksOfText(text);
    forall x | x in text && !IsSpace(x)
      ensures Holds(ParagraphAware(text).value, x) <==> !IsCutOff(Raw(text), x)
    {
      CoveredIffNotCutOff(text, x);
    }
    if i :| 0 <= i < |Raw(text)| - 1 && IsTrimmed(Raw(text)[i]) {
      TrimmedIsCutOff(Raw(text), i);
      LastOfRaw(text, i);
    }
  }
}
