/** A document of two paragraphs of which the paragraph-aware chunker loses the end of the first. */
module ChunkingWitness {
  import opened Prelude
  import opened Text
  import opened Splitting
  import opened Chunking
  import opened ChunkCoverage

  function Run(c: char, n: nat): (s: string)
    ensures |s| == n && forall i :: 0 <= i < n ==> s[i] == c
  {
    seq(n, _ => c)
  }

  /** 100 characters; the sentence ends at 89, in the last 15 % of them. */
  const FIRST: string := Run('a', 88) + ". B" + Run('c', 9)
  const SECOND: string := Run('d', 700)
  const DOCUMENT: string := FIRST + "\n\n" + SECOND

  predicate OneLine(s: string) {
    forall i :: 0 <= i < |s| ==> s[i] != '\n'
  }

  /** From i on the text is one line, so there is no blank line to split at. */
  lemma {:induction false} NoBlankLineAhead(s: string, from: nat, i: nat)
    requires from <= i <= |s| && OneLine(s[i..])
    ensures Parts(BlankLines, s, from, i) == [s[from..]]
    decreases |s| - i
  {
    if i < |s| {
      assert s[i..][0] == s[i];
      assert s[i + 1..] == s[i..][1..];
      NoBlankLineAhead(s, from, i + 1);
    }
  }

  /** The scan passes over a line. */
  lemma {:induction false} ScanOver(s: string, from: nat, i: nat, k: nat)
    requires from <= i <= k <= |s| && OneLine(s[i..k])
    ensures Parts(BlankLines, s, from, i) == Parts(BlankLines, s, from, k)
    decreases k - i
  {
    if i < k {
      assert s[i..k][0] == s[i];
      assert s[i + 1..k] == s[i..k][1..];
      ScanOver(s, from, i + 1, k);
    }
  }

  lemma TwoParagraphs(a: string, b: string)
    requires OneLine(a) && OneLine(b) && b != ""
    ensures Parts(BlankLines, a + "\n\n" + b, 0, 0) == [a, b]
  {
    var s := a + "\n\n" + b;
    var n := |a|;
    assert s[0..n] == a && s[n + 2..] == b;
    ScanOver(s, 0, 0, n);
    assert s[n] == '\n' && s[n + 1] == '\n' && s[n + 2] == b[0];
    assert NewlinesEnd(s, n + 2) == n + 2;
    assert NewlinesEnd(s, n + 1) == n + 2;
    assert MatchEnd(BlankLines, s, n) == n + 2;
    NoBlankLineAhead(s, n + 2, n + 2);
  }

  lemma FirstIsTrimmed()
    ensures Stripped(FIRST) && |FIRST| == 100 && OneLine(FIRST) && IsTrimmed(FIRST)
    ensures LastSentence(FIRST) == Some(89)
  {
    var tail := FIRST[SearchFrom(FIRST)..];
    assert tail[3] == '.' && tail[4] == ' ' && tail[5] == 'B';
    assert SpaceEnd(tail, 5) == 5;
    assert SpaceEnd(tail, 4) == 5;
    assert SentenceEndAt(tail, 3);
    forall i | 4 <= i < |tail|
      ensures !SentenceEndAt(tail, i)
    {
    }
    assert LastEnd(tail, |tail|) == 4;
  }

  lemma RawOfDocument()
    ensures Raw(DOCUMENT) == [FIRST, SECOND]
  {
    FirstIsTrimmed();
    var parts := [FIRST, SECOND];
    TwoParagraphs(FIRST, SECOND);
    StripOfStripped(FIRST);
    StripOfStripped(SECOND);
    assert parts[1..] == [SECOND] && [SECOND][1..] == [];
    assert Kept([SECOND], true) == [SECOND];
    assert PartsOf(BlankLines, DOCUMENT) == parts;
    assert |parts[0]| <= MERGE_LIMIT;
    assert Chosen(DOCUMENT, MERGE_LIMIT) == parts;
    ChosenAreShorter(DOCUMENT, MERGE_LIMIT);
    assert SplitParts([SECOND], MERGE_LIMIT, |DOCUMENT|) == [SECOND];
    assert SplitBlock(DOCUMENT, MERGE_LIMIT) == parts;
    assert Merge([SECOND], FIRST) == [FIRST] + Merge([], SECOND);
  }

  lemma TrimmedDocument()
    ensures TrimAll(Raw(DOCUMENT)) == [FIRST[..89], SECOND]
  {
    FirstIsTrimmed();
    RawOfDocument();
    StripOfStripped(FIRST[..89]);
    assert Trim(FIRST) == FIRST[..89];
  }

  lemma DocumentIsStripped()
    ensures DOCUMENT != "" && Stripped(DOCUMENT) && 'B' in DOCUMENT
  {
    assert DOCUMENT[0] == 'a' && DOCUMENT[|DOCUMENT| - 1] == 'd' && DOCUMENT[90] == 'B';
  }

  /**
   The letter behind the last sentence end of the first paragraph is in none of the chunks
   that come out: the overlap in front of the second one does not bring it back.
   */
  lemma TextIsLost()
    ensures DOCUMENT != "" && Stripped(DOCUMENT) && 'B' in DOCUMENT
    ensures ParagraphAware(DOCUMENT).Ok?
    ensures forall i :: 0 <= i < |ParagraphAware(DOCUMENT).value| ==> 'B' !in ParagraphAware(DOCUMENT).value[i]
  {
    DocumentIsStripped();
    TrimmedDocument();
    NotInTheRest();
    ChunksHoldWhatIsLeft(DOCUMENT, 'B');
  }

  lemma NotInTheRest()
    ensures !Holds([FIRST[..89], SECOND], 'B')
  {
    assert forall i :: 0 <= i < 89 ==> FIRST[..89][i] == if i < 88 then 'a' else '.';
  }
}
