/** The paragraph-aware chunker of voice_agent/kb/ingestion/chunking.py. */
module Chunking {
  import opened Prelude
  import opened Text
  import opened Splitting

  const CHUNK_SIZE: nat := 800
  const CHUNK_OVERLAP: nat := 75
  const MIN_CHUNK_SIZE: nat := 400
  const MERGE_LIMIT: nat := CHUNK_SIZE - CHUNK_OVERLAP

  // -- merging pieces ---------------------------------------------------------------------

  /** The piece on a line of its own below what is there. */
  function Below(current: string, piece: string): string {
    if current == "" then piece else current + "\n" + piece
  }

  function Closed(current: string): seq<string> {
    if current == "" then [] else [current]
  }

  /** The raw chunks, `current` being filled. */
  function Merge(pieces: seq<string>, current: string): seq<string> {
    if pieces == [] then Closed(current)
    else if |current| + |pieces[0]| + 1 <= MERGE_LIMIT then Merge(pieces[1..], Below(current, pieces[0]))
    else Closed(current) + Merge(pieces[1..], pieces[0])
  }

  // -- trimming at a sentence end ------------------------------------------------------------

  /** A newline is among the white space from i on. */
  predicate NewlineAhead(s: string, i: nat)
    requires i <= |s|
  {
    exists j :: i <= j < SpaceEnd(s, i) && s[j] == '\n'
  }

  /**
   _SENT_END matches at i.  Either alternative matches one punctuation mark and white
   space, so matches never overlap and the mark is all that rstrip() leaves of one.
   */
  predicate SentenceEndAt(s: string, i: nat)
    requires i < |s|
  {
    || (s[i] in ".!?;:)]'\"" && NewlineAhead(s, i + 1))
    || (s[i] in ".!?" && SpaceEnd(s, i + 1) > i + 1 && SpaceEnd(s, i + 1) < |s|
        && (var c := s[SpaceEnd(s, i + 1)]; 'A' <= c <= 'Z' || c == '('))
  }

  /** One more than the last sentence end before n, or 0. */
  function LastEnd(s: string, n: nat): (end: nat)
    requires n <= |s|
    ensures end <= n
    ensures end > 0 ==> SentenceEndAt(s, end - 1)
    ensures forall i :: end <= i < n ==> !SentenceEndAt(s, i)
  {
    if n == 0 then 0 else if SentenceEndAt(s, n - 1) then n else LastEnd(s, n - 1)
  }

  /** int(len(chunk) * 0.85). */
  function SearchFrom(chunk: string): (n: nat)
    ensures n <= |chunk|
  {
    |chunk| * 85 / 100
  }

  /** The position after the last sentence end in the last 15 % of the chunk; None if there is none. */
  function LastSentence(chunk: string): Option<nat> {
    var tail := chunk[SearchFrom(chunk)..];
    var end := LastEnd(tail, |tail|);
    if end == 0 then None else Some(SearchFrom(chunk) + end)
  }

  predicate IsTrimmed(chunk: string) {
    LastSentence(chunk).Some? && 0 < LastSentence(chunk).value < |chunk| - 5
  }

  function Trim(chunk: string): string {
    if IsTrimmed(chunk) then Strip(chunk[..LastSentence(chunk).value]) else chunk
  }

  /** Every chunk but the last is trimmed. */
  function TrimAll(raw: seq<string>): (trimmed: seq<string>)
    ensures |trimmed| == |raw|
  {
    seq(|raw|, i requires 0 <= i < |raw| => if i == |raw| - 1 then raw[i] else Trim(raw[i]))
  }

  // -- the tail and the overlaps ---------------------------------------------------------------

  /** A short last chunk goes to the one before. */
  function MergeTail(trimmed: seq<string>): seq<string> {
    var n := |trimmed|;
    if n > 1 && |trimmed[n - 1]| < MIN_CHUNK_SIZE then
      trimmed[..n - 2] + [trimmed[n - 2] + "\n" + trimmed[n - 1]]
    else
      trimmed
  }

  /** str.find(c); |s| if it is not there. */
  function Find(s: string, c: char): (k: nat)
    ensures k <= |s|
    ensures k < |s| ==> s[k] == c
    ensures forall i :: 0 <= i < k ==> s[i] != c
  {
    if s == "" || s[0] == c then 0 else
      var k := Find(s[1..], c);
      assert forall i :: 1 <= i < |s| ==> s[i] == s[1..][i - 1];
      1 + k
  }

  /** What follows the first newline, or else the first space, that is not at the very start. */
  function FromBoundary(ov: string): string {
    var nl := Find(ov, '\n');
    var sp := Find(ov, ' ');
    if 0 < nl < |ov| then ov[nl + 1..]
    else if 0 < sp < |ov| then ov[sp + 1..]
    else ov
  }

  function Overlap(prev: string): string {
    FromBoundary(if |prev| <= CHUNK_OVERLAP then prev else prev[|prev| - CHUNK_OVERLAP..])
  }

  function AddOverlaps(merged: seq<string>): (out: seq<string>)
    ensures |out| == |merged|
  {
    seq(|merged|, i requires 0 <= i < |merged| =>
      if i == 0 then merged[0] else Overlap(merged[i - 1]) + "\n" + merged[i])
  }

  // -- the chunker --------------------------------------------------------------------------------

  function Raw(text: string): seq<string> {
    Merge(SplitBlock(text, MERGE_LIMIT), "")
  }

  function Merged(text: string): seq<string> {
    MergeTail(TrimAll(Raw(text)))
  }

  /** The chunks, or the error that is raised: ValueError on no text, IndexError where nothing is left to chunk. */
  function ParagraphAware(text: string): Result<seq<string>> {
    if text == "" then Err("paragraph_aware: no clean_text")
    else if Merged(text) == [] then Err("list index out of range")
    else Ok(AddOverlaps(Merged(text)))
  }

  // -- raw chunks ------------------------------------------------------------------------------------

  lemma BelowText(current: string, piece: string)
    ensures NonSpace(Below(current, piece)) == NonSpace(current) + NonSpace(piece)
  {
    if current != "" {
      assert current + "\n" + piece == current + ("\n" + piece);
      NonSpaceConcat(current, "\n" + piece);
      NonSpaceConcat("\n", piece);
      assert NonSpace("\n") == "" by {
        NonSpaceIsEmpty("\n");
      }
    }
  }

  lemma ClosedText(current: string)
    ensures TextOf(Closed(current)) == NonSpace(current)
  {
    assert current != "" ==> Concat([current]) == current;
  }

  lemma {:induction false} MergeText(pieces: seq<string>, current: string)
    ensures TextOf(Merge(pieces, current)) == NonSpace(current) + TextOf(pieces)
  {
    ClosedText(current);
    if pieces == [] {
      assert TextOf(pieces) == "";
    } else {
      assert [pieces[0]] + pieces[1..] == pieces;
      TextOfCons(pieces[0], pieces[1..]);
      if |current| + |pieces[0]| + 1 <= MERGE_LIMIT {
        BelowText(current, pieces[0]);
        MergeText(pieces[1..], Below(current, pieces[0]));
        Regroup(NonSpace(current), NonSpace(pieces[0]), TextOf(pieces[1..]));
      } else {
        MergeText(pieces[1..], pieces[0]);
        TextOfAppend(Closed(current), Merge(pieces[1..], pieces[0]));
      }
    }
  }

  lemma {:induction false} MergeWithin(pieces: seq<string>, current: string)
    requires AllWithin(pieces, MERGE_LIMIT) && |current| <= MERGE_LIMIT
    ensures AllWithin(Merge(pieces, current), MERGE_LIMIT)
  {
    if pieces != [] {
      if |current| + |pieces[0]| + 1 <= MERGE_LIMIT {
        MergeWithin(pieces[1..], Below(current, pieces[0]));
      } else {
        MergeWithin(pieces[1..], pieces[0]);
      }
    }
  }

  lemma {:induction false} MergeTidy(pieces: seq<string>, current: string)
    requires AllTidy(pieces) && Stripped(current)
    ensures AllTidy(Merge(pieces, current))
  {
    if pieces != [] {
      if |current| + |pieces[0]| + 1 <= MERGE_LIMIT {
        MergeTidy(pieces[1..], Below(current, pieces[0]));
      } else {
        MergeTidy(pieces[1..], pieces[0]);
      }
    }
  }

  /** Two neighbours that would fit into one chunk. */
  predicate Joinable(chunks: seq<string>, i: nat)
    requires i + 1 < |chunks|
  {
    |chunks[i]| + 1 + |chunks[i + 1]| <= MERGE_LIMIT
  }

  lemma {:induction false} MergeIsGreedy(pieces: seq<string>, current: string)
    requires AllTidy(pieces)
    ensures forall i :: 0 <= i < |Merge(pieces, current)| - 1 ==> !Joinable(Merge(pieces, current), i)
    ensures current != "" || pieces != [] ==>
              Merge(pieces, current) != [] && |Merge(pieces, current)[0]| >= |if current == "" then pieces[0] else current|
  {
    if pieces != [] {
      if |current| + |pieces[0]| + 1 <= MERGE_LIMIT {
        MergeIsGreedy(pieces[1..], Below(current, pieces[0]));
      } else {
        MergeIsGreedy(pieces[1..], pieces[0]);
        var rest := Merge(pieces[1..], pieces[0]);
        var all := Closed(current) + rest;
        forall i | 0 <= i < |all| - 1
          ensures !Joinable(all, i)
        {
          if current != "" && i > 0 {
            assert all[i] == rest[i - 1] && all[i + 1] == rest[i];
            assert !Joinable(rest, i - 1);
          } else if current == "" {
            assert all == rest;
          }
        }
      }
    }
  }

  lemma MergedPieces(pieces: seq<string>)
    requires AllWithin(pieces, MERGE_LIMIT) && AllTidy(pieces) && TextOf(pieces) != ""
    ensures Merge(pieces, "") != []
    ensures AllWithin(Merge(pieces, ""), MERGE_LIMIT) && AllTidy(Merge(pieces, ""))
    ensures TextOf(Merge(pieces, "")) == TextOf(pieces)
  {
    MergeWithin(pieces, "");
    MergeTidy(pieces, "");
    MergeText(pieces, "");
    assert TextOf([]) == "";
  }

  /**
   The raw chunks of a stripped text: within 725 characters, stripped and not empty, with
   the whole text in them in order.
   */
  lemma RawChunks(text: string)
    requires text != "" && Stripped(text)
    ensures Raw(text) != []
    ensures AllWithin(Raw(text), MERGE_LIMIT)
    ensures AllTidy(Raw(text))
    ensures TextOf(Raw(text)) == NonSpace(text)
  {
    SplitBlockWithin(text, MERGE_LIMIT);
    SplitBlockTidy(text, MERGE_LIMIT);
    SplitBlockText(text, MERGE_LIMIT);
    NonSpaceIsEmpty(text);
    assert !IsSpace(text[0]);
    MergedPieces(SplitBlock(text, MERGE_LIMIT));
  }

  // -- trimmed chunks ---------------------------------------------------------------------------------

  /**
   A trimmed chunk is what comes before the end of its last sentence: more than 85 % of
   it, and text is lost exactly if it was cut at all.
   */
  lemma TrimCuts(chunk: string)
    requires chunk != "" && Stripped(chunk)
    ensures Trim(chunk) <= chunk && Trim(chunk) != "" && Stripped(Trim(chunk))
    ensures 100 * |Trim(chunk)| > 85 * |chunk|
    ensures IsTrimmed(chunk) ==> |Trim(chunk)| == LastSentence(chunk).value
    ensures |NonSpace(Trim(chunk))| <= |NonSpace(chunk)|
    ensures |NonSpace(Trim(chunk))| == |NonSpace(chunk)| <==> !IsTrimmed(chunk)
  {
    if IsTrimmed(chunk) {
      var end := LastSentence(chunk).value;
      var from := SearchFrom(chunk);
      var tail := chunk[from..];
      assert SentenceEndAt(tail, end - from - 1) && chunk[end - 1] == tail[end - from - 1];
      StripOfStripped(chunk[..end]);
      NonSpaceSplit(chunk, end);
      NonSpaceIsEmpty(chunk[end..]);
      assert chunk[end..][|chunk| - end - 1] == chunk[|chunk| - 1];
    }
  }

  lemma TrimmedChunks(raw: seq<string>)
    requires AllWithin(raw, MERGE_LIMIT) && AllTidy(raw)
    ensures AllWithin(TrimAll(raw), MERGE_LIMIT) && AllTidy(TrimAll(raw))
    ensures forall i :: 0 <= i < |raw| ==> |NonSpace(TrimAll(raw)[i])| <= |NonSpace(raw[i])|
    ensures forall i :: 0 <= i < |raw| - 1 ==>
              (IsTrimmed(raw[i]) <==> |NonSpace(TrimAll(raw)[i])| < |NonSpace(raw[i])|)
  {
    forall i | 0 <= i < |raw| {
      TrimCuts(raw[i]);
    }
  }

  lemma {:induction false} ShorterParts(a: seq<string>, b: seq<string>)
    requires |a| == |b|
    requires forall i :: 0 <= i < |a| ==> |NonSpace(a[i])| <= |NonSpace(b[i])|
    ensures |TextOf(a)| <= |TextOf(b)|
    ensures |TextOf(a)| == |TextOf(b)| <==> forall i :: 0 <= i < |a| ==> |NonSpace(a[i])| == |NonSpace(b[i])|
  {
    if a != [] {
      var n := |a| - 1;
      ShorterParts(a[..n], b[..n]);
      LastPart(a);
      LastPart(b);
      assert forall i :: 0 <= i < n ==> a[i] == a[..n][i] && b[i] == b[..n][i];
    }
  }

  lemma LastPart(parts: seq<string>)
    requires parts != []
    ensures |TextOf(parts)| == |TextOf(parts[..|parts| - 1])| + |NonSpace(parts[|parts| - 1])|
  {
    var front, last := parts[..|parts| - 1], parts[|parts| - 1];
    assert parts == front + [last];
    TextOfAppend(front, [last]);
    assert Concat([last]) == last;
  }

  lemma NewlineBetween(a: string, b: string)
    ensures NonSpace(a + "\n" + b) == NonSpace(a) + NonSpace(b)
  {
    NonSpaceConcat(a + "\n", b);
    NonSpaceConcat(a, "\n");
    NonSpaceIsEmpty("\n");
  }

  lemma MergeTailText(trimmed: seq<string>)
    ensures TextOf(MergeTail(trimmed)) == TextOf(trimmed)
  {
    var n := |trimmed|;
    if n > 1 && |trimmed[n - 1]| < MIN_CHUNK_SIZE {
      var a, b := trimmed[n - 2], trimmed[n - 1];
      assert trimmed == trimmed[..n - 2] + ([a] + [b]);
      TextOfAppend(trimmed[..n - 2], [a] + [b]);
      TextOfAppend(trimmed[..n - 2], [a + "\n" + b]);
      TextOfAppend([a], [b]);
      assert Concat([a]) == a && Concat([b]) == b && Concat([a + "\n" + b]) == a + "\n" + b;
      NewlineBetween(a, b);
    }
  }

  /** Nothing is trimmed. */
  predicate Untrimmed(raw: seq<string>) {
    forall i :: 0 <= i < |raw| - 1 ==> !IsTrimmed(raw[i])
  }

  /**
   Overlaps aside, the chunks hold the whole text exactly if no chunk was trimmed.
   */
  lemma WholeTextIffUntrimmed(text: string)
    requires text != "" && Stripped(text)
    ensures TextOf(Merged(text)) == NonSpace(text) <==> Untrimmed(Raw(text))
  {
    var raw := Raw(text);
    var trimmed := TrimAll(raw);
    RawChunks(text);
    TrimmedChunks(raw);
    MergeTailText(trimmed);
    ShorterParts(trimmed, raw);
    if Untrimmed(raw) {
      assert trimmed == raw;
    }
  }

  // -- the chunks that are put out -----------------------------------------------------------------------

  lemma MergeTailBounds(trimmed: seq<string>)
    requires trimmed != [] && AllWithin(trimmed, MERGE_LIMIT) && AllTidy(trimmed)
    ensures var merged := MergeTail(trimmed);
            && merged != [] && AllTidy(merged)
            && AllWithin(merged[..|merged| - 1], MERGE_LIMIT)
            && |merged[|merged| - 1]| <= MERGE_LIMIT + MIN_CHUNK_SIZE
  {
    var n := |trimmed|;
    if n > 1 && |trimmed[n - 1]| < MIN_CHUNK_SIZE {
      var last := trimmed[n - 2] + "\n" + trimmed[n - 1];
      assert last[0] == trimmed[n - 2][0] && last[|last| - 1] == trimmed[n - 1][|trimmed[n - 1]| - 1];
      assert MergeTail(trimmed)[..n - 2] == trimmed[..n - 2];
    }
  }

  lemma MergedChunks(text: string)
    requires text != "" && Stripped(text)
    ensures var merged := Merged(text);
            && merged != [] && AllTidy(merged)
            && AllWithin(merged[..|merged| - 1], MERGE_LIMIT)
            && |merged[|merged| - 1]| <= MERGE_LIMIT + MIN_CHUNK_SIZE
  {
    RawChunks(text);
    TrimmedChunks(Raw(text));
    MergeTailBounds(TrimAll(Raw(text)));
  }

  lemma OverlapIsSuffix(prev: string)
    ensures |Overlap(prev)| <= CHUNK_OVERLAP && |Overlap(prev)| <= |prev|
    ensures Overlap(prev) == prev[|prev| - |Overlap(prev)|..]
  {
  }

  lemma OverlapBounds(merged: seq<string>, i: nat)
    requires i < |merged| && AllWithin(merged[..|merged| - 1], MERGE_LIMIT)
    requires |merged[|merged| - 1]| <= MERGE_LIMIT + MIN_CHUNK_SIZE
    ensures |AddOverlaps(merged)[i]| <= if i < |merged| - 1 then 801 else 1201
  {
    if i < |merged| - 1 {
      assert merged[i] == merged[..|merged| - 1][i];
    }
    if i > 0 {
      OverlapIsSuffix(merged[i - 1]);
    }
  }

  /**
   A stripped text is always chunked.  Chunk i is the end of merged chunk i - 1, at most 75
   characters of it, then merged chunk i on a line of its own; it has at most 801 characters,
   and the last one at most 1201.
   */
  lemma ChunksOfText(text: string)
    requires text != "" && Stripped(text)
    ensures ParagraphAware(text).Ok? && Merged(text) != []
    ensures var out, merged := ParagraphAware(text).value, Merged(text);
            && |out| == |merged| && out[0] == merged[0]
            && (forall i :: 1 <= i < |out| ==> out[i] == Overlap(merged[i - 1]) + "\n" + merged[i])
            && (forall i :: 0 <= i < |out| ==> |out[i]| <= if i < |out| - 1 then 801 else 1201)
  {
    MergedChunks(text);
    forall i | 0 <= i < |Merged(text)|
      ensures |AddOverlaps(Merged(text))[i]| <= if i < |Merged(text)| - 1 then 801 else 1201
    {
      OverlapBounds(Merged(text), i);
    }
  }

  // -- when chunking raises -------------------------------------------------------------------------------

  lemma {:induction false} NoSentenceInSpace(s: string, from: nat, i: nat)
    requires from <= i <= |s| && AllSpace(s)
    ensures Parts(AfterSentence, s, from, i) == [s[from..]]
    decreases |s| - i
  {
    if i < |s| {
      assert i > 0 ==> IsSpace(s[i - 1]);
      NoSentenceInSpace(s, from, i + 1);
    }
  }

  lemma TidyPartsHaveText(parts: seq<string>)
    requires AllTidy(parts)
    ensures TextOf(parts) == "" ==> parts == []
  {
    if parts != [] {
      assert parts == [parts[0]] + parts[1..];
      TextOfCons(parts[0], parts[1..]);
    }
  }

  lemma NothingKept(sep: Separator, s: string)
    requires AllSpace(s) && !sep.AfterSentence?
    ensures PartsOf(sep, s) == []
  {
    var parts := Parts(sep, s, 0, 0);
    PartsText(sep, s, 0, 0);
    KeptText(parts, true);
    KeptTidy(parts, true);
    assert s[0..] == s;
    NonSpaceIsEmpty(s);
    TidyPartsHaveText(Kept(parts, true));
  }

  lemma SpaceIsCutHard(s: string)
    requires AllSpace(s)
    ensures SplitBlock(s, MERGE_LIMIT) == HardCut(s, MERGE_LIMIT)
  {
    NothingKept(BlankLines, s);
    NothingKept(NewLine, s);
    NoSentenceInSpace(s, 0, 0);
    assert Parts(AfterSentence, s, 0, 0) == [s];
    assert Kept([s][1..], false) == [];
  }

  lemma StripOfSpace(s: string)
    requires AllSpace(s)
    ensures Strip(s) == ""
  {
    StripCuts(s);
    NonSpaceIsEmpty(s);
    NonSpaceIsEmpty(Strip(s));
  }

  lemma MergeOne(piece: string)
    ensures Merge([piece], "") == Closed(piece)
  {
    assert [piece][1..] == [];
    assert Merge([], piece) == Closed(piece);
  }

  /** Chunking raises exactly on no text, and on white space alone that is longer than the merge limit. */
  lemma RaisesIffNothingToChunk(text: string)
    ensures ParagraphAware(text).Err? <==> text == "" || (AllSpace(text) && |text| > MERGE_LIMIT)
  {
    var pieces := SplitBlock(text, MERGE_LIMIT);
    if !AllSpace(text) {
      SplitBlockText(text, MERGE_LIMIT);
      MergeText(pieces, "");
      NonSpaceIsEmpty(text);
      assert Raw(text) == [] ==> TextOf(Raw(text)) == "";
    } else {
      SpaceIsCutHard(text);
      if |text| > MERGE_LIMIT {
        var cut := CutAt(text, MERGE_LIMIT);
        StripOfSpace(text[..cut]);
        StripOfSpace(text[cut..]);
        assert pieces == [""];
        MergeOne("");
      } else if text != "" {
        assert pieces == [text];
        MergeOne(text);
      }
    }
  }

  // -- the loops of the source ----------------------------------------------------------------------------

  method MergePieces(pieces: seq<string>) returns (rawChunks: seq<string>)
    ensures rawChunks == Merge(pieces, "")
  {
    rawChunks := [];
    var current := "";
    assert pieces[0..] == pieces;
    for i := 0 to |pieces|
      invariant Merge(pieces, "") == rawChunks + Merge(pieces[i..], current)
    {
      assert pieces[i..][1..] == pieces[i + 1..];
      if |current| + |pieces[i]| + 1 <= MERGE_LIMIT {
        current := if current != "" then current + "\n" + pieces[i] else pieces[i];
      } else {
        if current != "" {
          rawChunks := rawChunks + [current];
        }
        current := pieces[i];
      }
    }
    if current != "" {
      rawChunks := rawChunks + [current];
    }
  }

  /** `last_end` after the loop over the matches; -1 where there is none. */
  method FindLastEnd(chunk: string) returns (lastEnd: int)
    ensures lastEnd == match LastSentence(chunk) case None => -1 case Some(end) => end
  {
    var searchFrom := SearchFrom(chunk);
    var tail := chunk[searchFrom..];
    lastEnd := -1;
    for m := 0 to |tail|
      invariant lastEnd == if LastEnd(tail, m) == 0 then -1 else searchFrom + LastEnd(tail, m)
    {
      if SentenceEndAt(tail, m) {
        lastEnd := searchFrom + m + 1;
      }
    }
  }

  method TrimChunk(chunk: string) returns (trimmed: string)
    ensures trimmed == Trim(chunk)
  {
    var lastEnd := FindLastEnd(chunk);
    if 0 < lastEnd < |chunk| - 5 {
      trimmed := Strip(chunk[..lastEnd]);
    } else {
      trimmed := chunk;
    }
  }

  method TrimChunks(rawChunks: seq<string>) returns (trimmed: seq<string>)
    ensures trimmed == TrimAll(rawChunks)
  {
    trimmed := [];
    for i := 0 to |rawChunks|
      invariant |trimmed| == i
      invariant forall k :: 0 <= k < i ==> trimmed[k] == if k == |rawChunks| - 1 then rawChunks[k] else Trim(rawChunks[k])
    {
      if i == |rawChunks| - 1 {
        trimmed := trimmed + [rawChunks[i]];
      } else {
        var chunk := TrimChunk(rawChunks[i]);
        trimmed := trimmed + [chunk];
      }
    }
  }

  method MergeShortTail(trimmed: seq<string>) returns (merged: seq<string>)
    ensures merged == MergeTail(trimmed)
  {
    merged := [];
    for i := 0 to |trimmed|
      invariant i < |trimmed| ==> merged == trimmed[..i]
      invariant i == |trimmed| ==> merged == MergeTail(trimmed)
    {
      if i == |trimmed| - 1 && |trimmed[i]| < MIN_CHUNK_SIZE && merged != [] {
        merged := merged[..|merged| - 1] + [merged[|merged| - 1] + "\n" + trimmed[i]];
      } else {
        merged := merged + [trimmed[i]];
      }
    }
  }

  method FindOverlap(prev: string) returns (ov: string)
    ensures ov == Overlap(prev)
  {
    ov := if |prev| <= CHUNK_OVERLAP then prev else prev[|prev| - CHUNK_OVERLAP..];
    var nl := Find(ov, '\n');
    if 0 < nl < |ov| {
      ov := ov[nl + 1..];
    } else {
      var sp := Find(ov, ' ');
      if 0 < sp < |ov| {
        ov := ov[sp + 1..];
      }
    }
  }

  method PrefixOverlaps(merged: seq<string>) returns (out: seq<string>)
    requires merged != []
    ensures out == AddOverlaps(merged)
  {
    out := [merged[0]];
    for i := 1 to |merged|
      invariant |out| == i
      invariant out[0] == merged[0]
      invariant forall k :: 1 <= k < i ==> out[k] == Overlap(merged[k - 1]) + "\n" + merged[k]
    {
      var ov := FindOverlap(merged[i - 1]);
      out := out + [ov + "\n" + merged[i]];
    }
  }

  /** chunking.py `chunk_paragraph_aware`. */
  method ChunkParagraphAware(cleanText: string) returns (chunks: Result<seq<string>>)
    ensures chunks == ParagraphAware(cleanText)
  {
    if cleanText == "" {
      return Err("paragraph_aware: no clean_text");
    }
    var pieces := SplitBlockByLoops(cleanText, MERGE_LIMIT);
    var rawChunks := MergePieces(pieces);
    var trimmed := TrimChunks(rawChunks);
    var merged := MergeShortTail(trimmed);
    if merged == [] {
      return Err("list index out of range");
    }
    var out := PrefixOverlaps(merged);
    return Ok(out);
  }
}
