/**
 The fixed-size chunker of voice_agent/kb/ingestion/chunking.py, and the offsets that
 complete_metadata (metadata.py) finds for its chunks.
 */
module FixedWindows {
  import opened Prelude
  import opened Chunking

  const STRIDE: nat := CHUNK_SIZE - CHUNK_OVERLAP

  // -- the windows ----------------------------------------------------------------------

  /** 1 + ceil(max(0, n - 800) / 725). */
  function WindowCount(n: nat): nat {
    if n <= CHUNK_SIZE then 1 else 1 + (n - CHUNK_SIZE + STRIDE - 1) / STRIDE
  }

  function WindowEnd(n: nat, i: nat): nat {
    if STRIDE * i + CHUNK_SIZE <= n then STRIDE * i + CHUNK_SIZE else n
  }

  /** A window begins inside the text, and the last one alone reaches its end. */
  lemma WindowFits(n: nat, i: nat)
    requires n > 0 && i < WindowCount(n)
    ensures STRIDE * i < WindowEnd(n, i) <= n
    ensures WindowEnd(n, i) == n <==> i == WindowCount(n) - 1
    ensures i < WindowCount(n) - 1 ==> WindowEnd(n, i) == STRIDE * (i + 1) + CHUNK_OVERLAP
  {
  }

  function Window(text: string, i: nat): string
    requires text != "" && i < WindowCount(|text|)
  {
    WindowFits(|text|, i);
    text[STRIDE * i..WindowEnd(|text|, i)]
  }

  function Windows(text: string): (out: seq<string>)
    requires text != ""
    ensures |out| == WindowCount(|text|)
  {
    seq(WindowCount(|text|), i requires 0 <= i < WindowCount(|text|) => Window(text, i))
  }

  /** chunking.py `chunk_fixed_size`. */
  method ChunkFixedSize(cleanText: string) returns (chunks: Result<seq<string>>)
    ensures cleanText == "" ==> chunks == Err("fixed_size: no clean_text")
    ensures cleanText != "" ==> chunks == Ok(Windows(cleanText))
  {
    if cleanText == "" {
      return Err("fixed_size: no clean_text");
    }
    var out: seq<string> := [];
    var pos := 0;
    while pos < |cleanText|
      invariant pos == STRIDE * |out| < |cleanText| && |out| < WindowCount(|cleanText|)
      invariant out == Windows(cleanText)[..|out|]
      decreases |cleanText| - pos
    {
      WindowFits(|cleanText|, |out|);
      var end := if pos + CHUNK_SIZE <= |cleanText| then pos + CHUNK_SIZE else |cleanText|;
      assert cleanText[pos..end] == Windows(cleanText)[|out|];
      out := out + [cleanText[pos..end]];
      if end >= |cleanText| {
        assert out == Windows(cleanText);
        break;
      }
      pos := end - CHUNK_OVERLAP;
    }
    return Ok(out);
  }

  /** What the windows from i on add to the text before them. */
  function Rest(windows: seq<string>, i: nat): string
    requires i <= |windows|
    requires forall k :: i <= k < |windows| ==> |windows[k]| >= CHUNK_OVERLAP
    decreases |windows| - i
  {
    if i == |windows| then "" else windows[i][CHUNK_OVERLAP..] + Rest(windows, i + 1)
  }

  lemma LaterWindowsAreLong(text: string)
    requires text != ""
    ensures forall k :: 1 <= k < |Windows(text)| ==> |Windows(text)[k]| > CHUNK_OVERLAP
  {
    forall k | 1 <= k < |Windows(text)|
      ensures |Windows(text)[k]| > CHUNK_OVERLAP
    {
      WindowFits(|text|, k - 1);
      WindowFits(|text|, k);
    }
  }

  lemma {:induction false} RestOfWindows(text: string, i: nat)
    requires text != "" && 1 <= i <= WindowCount(|text|)
    requires forall k :: 1 <= k < |Windows(text)| ==> |Windows(text)[k]| > CHUNK_OVERLAP
    ensures WindowEnd(|text|, i - 1) <= |text|
    ensures Rest(Windows(text), i) == text[WindowEnd(|text|, i - 1)..]
    decreases WindowCount(|text|) - i
  {
    WindowFits(|text|, i - 1);
    if i < WindowCount(|text|) {
      WindowFits(|text|, i);
      RestOfWindows(text, i + 1);
      var begin, end := WindowEnd(|text|, i - 1), WindowEnd(|text|, i);
      assert Windows(text)[i][CHUNK_OVERLAP..] == text[begin..end];
      assert text[begin..] == text[begin..end] + text[end..];
    }
  }

  /** The first window, and all later ones without their first 75 characters, are the text. */
  lemma WindowsReassemble(text: string)
    requires text != ""
    ensures forall k :: 1 <= k < |Windows(text)| ==> |Windows(text)[k]| > CHUNK_OVERLAP
    ensures Windows(text)[0] + Rest(Windows(text), 1) == text
  {
    WindowFits(|text|, 0);
    LaterWindowsAreLong(text);
    RestOfWindows(text, 1);
    var end := WindowEnd(|text|, 0);
    assert text == text[..end] + text[end..];
  }

  /** Position p of a text of n characters is in window i. */
  predicate Covers(n: nat, i: nat, p: nat) {
    i < WindowCount(n) && STRIDE * i <= p < WindowEnd(n, i)
  }

  /** No position is left out. */
  lemma EveryPositionIsCovered(n: nat, p: nat)
    requires p < n
    ensures exists i :: Covers(n, i, p)
  {
    var i := if p / STRIDE < WindowCount(n) then p / STRIDE else WindowCount(n) - 1;
    assert Covers(n, i, p);
  }

  lemma OnlyNeighboursShareAPosition(n: nat, i: nat, j: nat, p: nat)
    requires Covers(n, i, p) && Covers(n, j, p) && i < j
    ensures j == i + 1 && p < STRIDE * j + CHUNK_OVERLAP
  {
  }

  // -- the offsets -------------------------------------------------------------------------

  predicate OccursAt(text: string, key: string, p: nat) {
    p + |key| <= |text| && text[p..p + |key|] == key
  }

  /** str.find(key, from). */
  function FindFrom(text: string, key: string, from: nat): Option<nat>
    decreases |text| + 1 - from
  {
    if from > |text| then None
    else if OccursAt(text, key, from) then Some(from)
    else FindFrom(text, key, from + 1)
  }

  /** It is the first occurrence from there on, if there is one. */
  lemma {:induction false} FindFromIsFirst(text: string, key: string, from: nat)
    ensures var r := FindFrom(text, key, from);
            && (r.Some? ==> from <= r.value && OccursAt(text, key, r.value))
            && (forall p: nat :: from <= p && OccursAt(text, key, p) ==> r.Some? && r.value <= p)
    decreases |text| + 1 - from
  {
    if from <= |text| && !OccursAt(text, key, from) {
      FindFromIsFirst(text, key, from + 1);
    }
  }

  function Key(chunk: string): string {
    if |chunk| <= 80 then chunk else chunk[..80]
  }

  /** Where the search for chunk i begins, and where the chunk is taken to start. */
  function SearchStart(chunks: seq<string>, text: string, i: nat): nat
    requires i < |chunks|
    decreases i, 0
  {
    if i == 0 then 0 else StartChar(chunks, text, i - 1) + 1
  }

  function StartChar(chunks: seq<string>, text: string, i: nat): nat
    requires i < |chunks|
    decreases i, 1
  {
    var from := SearchStart(chunks, text, i);
    match FindFrom(text, Key(chunks[i]), from)
    case Some(p) => p
    case None => from
  }

  /** Whatever the chunks, the offsets strictly increase. */
  lemma {:induction false} OffsetsIncrease(chunks: seq<string>, text: string, i: nat, j: nat)
    requires i < j < |chunks|
    ensures StartChar(chunks, text, i) < StartChar(chunks, text, j)
    decreases j
  {
    FindFromIsFirst(text, Key(chunks[j]), SearchStart(chunks, text, j));
    if i < j - 1 {
      OffsetsIncrease(chunks, text, i, j - 1);
    }
  }

  lemma WindowOccurs(text: string, i: nat)
    requires text != "" && i < WindowCount(|text|)
    ensures OccursAt(text, Key(Windows(text)[i]), STRIDE * i)
  {
    WindowFits(|text|, i);
    var begin, window := STRIDE * i, Windows(text)[i];
    assert window == text[begin..WindowEnd(|text|, i)];
    assert text[begin..begin + |Key(window)|] == Key(window);
  }

  lemma WindowIsFound(text: string, i: nat)
    requires text != "" && i < WindowCount(|text|)
    requires SearchStart(Windows(text), text, i) <= STRIDE * i
    ensures FindFrom(text, Key(Windows(text)[i]), SearchStart(Windows(text), text, i)).Some?
    ensures StartChar(Windows(text), text, i) <= STRIDE * i
  {
    WindowOccurs(text, i);
    FindFromIsFirst(text, Key(Windows(text)[i]), SearchStart(Windows(text), text, i));
  }

  lemma {:induction false} SearchStartsInTime(text: string, i: nat)
    requires text != "" && i < WindowCount(|text|)
    ensures SearchStart(Windows(text), text, i) <= STRIDE * i
    decreases i
  {
    if i > 0 {
      SearchStartsInTime(text, i - 1);
      WindowIsFound(text, i - 1);
      assert SearchStart(Windows(text), text, i) == StartChar(Windows(text), text, i - 1) + 1;
      assert STRIDE * i == STRIDE * (i - 1) + STRIDE;
    }
  }

  /**
   For the windows of the text the search always succeeds, at or before the true offset,
   so that the end offset never passes the text.
   */
  lemma WindowsAreFound(text: string, i: nat)
    requires text != "" && i < WindowCount(|text|)
    ensures FindFrom(text, Key(Windows(text)[i]), SearchStart(Windows(text), text, i)).Some?
    ensures StartChar(Windows(text), text, i) <= STRIDE * i
    ensures StartChar(Windows(text), text, i) + |Windows(text)[i]| <= |text|
  {
    SearchStartsInTime(text, i);
    WindowIsFound(text, i);
    WindowFits(|text|, i);
    assert |Windows(text)[i]| == WindowEnd(|text|, i) - STRIDE * i;
  }

  /** The offset is the true one exactly if the first 80 characters of the window do not occur earlier within reach. */
  lemma OffsetIsTrueIff(text: string, i: nat)
    requires text != "" && i < WindowCount(|text|)
    ensures StartChar(Windows(text), text, i) == STRIDE * i <==>
            forall p :: SearchStart(Windows(text), text, i) <= p < STRIDE * i ==>
              !OccursAt(text, Key(Windows(text)[i]), p)
  {
    WindowOccurs(text, i);
    WindowsAreFound(text, i);
    FindFromIsFirst(text, Key(Windows(text)[i]), SearchStart(Windows(text), text, i));
  }

  /** The first 80 characters of window i occur somewhere after the start of window i - 1 and before its own. */
  predicate OccursEarlier(text: string, i: nat)
    requires text != "" && 1 <= i < WindowCount(|text|)
  {
    exists p :: STRIDE * (i - 1) < p < STRIDE * i && OccursAt(text, Key(Windows(text)[i]), p)
  }

  predicate OffsetsAreTrue(text: string, n: nat)
    requires text != "" && n <= WindowCount(|text|)
  {
    forall i :: 0 <= i < n ==> StartChar(Windows(text), text, i) == STRIDE * i
  }

  /** No window before the n-th does so. */
  predicate NoneOccursEarlier(text: string, n: nat)
    requires text != "" && n <= WindowCount(|text|)
  {
    forall i :: 1 <= i < n ==> !OccursEarlier(text, i)
  }

  lemma NextOffsetIsTrueIff(text: string, i: nat)
    requires text != "" && 1 <= i < WindowCount(|text|)
    requires StartChar(Windows(text), text, i - 1) == STRIDE * (i - 1)
    ensures StartChar(Windows(text), text, i) == STRIDE * i <==> !OccursEarlier(text, i)
  {
    OffsetIsTrueIff(text, i);
    assert SearchStart(Windows(text), text, i) == STRIDE * (i - 1) + 1;
  }

  /**
   The first n offsets of a text are true exactly if none of these windows begins with 80
   characters that occur after the start of the window before it and before its own: for n
   the number of windows, a condition on the text alone.
   */
  lemma {:induction false} OffsetsAreTrueIff(text: string, n: nat)
    requires text != "" && n <= WindowCount(|text|)
    ensures OffsetsAreTrue(text, n) <==> NoneOccursEarlier(text, n)
  {
    if n == 1 {
      OffsetIsTrueIff(text, 0);
    } else if n > 1 {
      OffsetsAreTrueIff(text, n - 1);
      OneMoreOffsetIff(text, n - 1);
    }
  }

  lemma OneMoreOffsetIff(text: string, n: nat)
    requires text != "" && 1 <= n < WindowCount(|text|)
    requires OffsetsAreTrue(text, n) <==> NoneOccursEarlier(text, n)
    ensures OffsetsAreTrue(text, n + 1) <==> NoneOccursEarlier(text, n + 1)
  {
    assert NoneOccursEarlier(text, n + 1) <==> NoneOccursEarlier(text, n) && !OccursEarlier(text, n);
    if OffsetsAreTrue(text, n) {
      NextOffsetIsTrueIff(text, n);
    }
  }

  /** In a text that repeats itself the second window is located at 1, not at 725. */
  lemma OffsetCanBeWrong(text: string)
    requires |text| == 900 && forall p :: 0 <= p < 900 ==> text[p] == 'a'
    ensures WindowCount(|text|) == 2
    ensures StartChar(Windows(text), text, 1) == 1
  {
    var windows := Windows(text);
    WindowFits(900, 0);
    WindowFits(900, 1);
    FindFromIsFirst(text, Key(windows[0]), 0);
    FindFromIsFirst(text, Key(windows[1]), 1);
    assert OccursAt(text, Key(windows[0]), 0);
    assert StartChar(windows, text, 0) == 0;
    assert OccursAt(text, Key(windows[1]), 1);
  }
}
