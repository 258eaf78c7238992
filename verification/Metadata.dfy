/** Chunk metadata and review decisions: voice_agent/kb/ingestion/metadata.py. */
module Metadata {
  import opened Prelude
  import opened Text
  import opened FixedWindows
  import opened ChunkIds

  /** What all chunks of one upload share. */
  datatype Document = Document(
    filename: string, summary: string, documentType: string, uploadTimestamp: string,
    categories: seq<string>, strategyTag: string, chunkOverlap: nat, collection: string)

  datatype Chunk = Chunk(
    idx: nat, text: string, page: nat, chunkId: string, totalChunks: nat,
    startChar: nat, endChar: nat, chunkLength: nat, words: nat, pointId: nat,
    document: Document)

  // -- words -------------------------------------------------------------------------------

  /** len(s.split()): the places where a run of other characters begins. */
  function Words(s: string): nat {
    if s == "" then 0 else
      var n := |s|;
      Words(s[..n - 1]) + if !IsSpace(s[n - 1]) && (n == 1 || IsSpace(s[n - 2])) then 1 else 0
  }

  /** A word begins at i. */
  predicate BeginsWord(s: string, i: nat) {
    i < |s| && !IsSpace(s[i]) && (i == 0 || IsSpace(s[i - 1]))
  }

  lemma {:induction false} WordsAreCounted(s: string)
    ensures Words(s) == |set i: nat | i < |s| && BeginsWord(s, i)|
  {
    var starts := set i: nat | i < |s| && BeginsWord(s, i);
    if s == "" {
      assert starts == {};
    } else {
      var n := |s| - 1;
      var before := set i: nat | i < n && BeginsWord(s[..n], i);
      WordsAreCounted(s[..n]);
      assert forall i: nat :: i < n ==> (BeginsWord(s, i) <==> BeginsWord(s[..n], i));
      assert starts == before + if BeginsWord(s, n) then {n} else {};
      assert n !in before;
    }
  }

  /** The places where a run of white space begins. */
  function Gaps(s: string): nat {
    if s == "" then 0 else
      var n := |s|;
      Gaps(s[..n - 1]) + if IsSpace(s[n - 1]) && (n == 1 || !IsSpace(s[n - 2])) then 1 else 0
  }

  /** len(re.split(r"\s+", s)): one more than the runs of white space. */
  function Pieces(s: string): nat {
    Gaps(s) + 1
  }

  lemma {:induction false} WordsAndGapsAlternate(s: string)
    requires s != ""
    ensures Gaps(s) + 1 == Words(s) + (if IsSpace(s[0]) then 1 else 0) + (if IsSpace(s[|s| - 1]) then 1 else 0)
  {
    var front := s[..|s| - 1];
    if front != "" {
      WordsAndGapsAlternate(front);
    } else {
      assert Words(front) == 0 && Gaps(front) == 0;
    }
  }

  /** The word count of an edited chunk is that of a fresh one exactly if its text is stripped and not empty. */
  lemma WordCountsAgreeIff(s: string)
    ensures Pieces(s) == Words(s) <==> s != "" && Stripped(s)
  {
    if s != "" {
      WordsAndGapsAlternate(s);
    }
  }

  // -- complete_metadata ----------------------------------------------------------------------

  function Enriched(chunks: seq<string>, cleanText: string, document: Document, epoch: nat, i: nat): Chunk
    requires i < |chunks|
  {
    var start := StartChar(chunks, cleanText, i);
    Chunk(i, chunks[i], i / 2 + 1, ChunkId(i), |chunks|, start, start + |chunks[i]|, |chunks[i]|,
          Words(Strip(chunks[i])), PointId(epoch, i), document)
  }

  function Enrich(chunks: seq<string>, cleanText: string, document: Document, epoch: nat): (out: seq<Chunk>)
    ensures |out| == |chunks|
  {
    seq(|chunks|, i requires 0 <= i < |chunks| => Enriched(chunks, cleanText, document, epoch, i))
  }

  method CompleteMetadata(chunks: seq<string>, cleanText: string, document: Document, epoch: nat)
    returns (r: Result<seq<Chunk>>)
    ensures chunks == [] ==> r == Err("complete_metadata received no chunks")
    ensures chunks != [] ==> r == Ok(Enrich(chunks, cleanText, document, epoch))
  {
    if |chunks| == 0 {
      return Err("complete_metadata received no chunks");
    }
    var total := |chunks|;
    var out: seq<Chunk> := [];
    var searchFrom := 0;
    for index := 0 to |chunks|
      invariant |out| == index
      invariant index < |chunks| ==> searchFrom == SearchStart(chunks, cleanText, index)
      invariant forall k :: 0 <= k < index ==> out[k] == Enriched(chunks, cleanText, document, epoch, k)
    {
      var text := chunks[index];
      var found := FindFrom(cleanText, Key(text), searchFrom);
      var startChar := if found.Some? then found.value else searchFrom;
      var endChar := startChar + |text|;
      searchFrom := startChar + 1;
      var chunk := Chunk(index, text, index / 2 + 1, ChunkId(index), total, startChar, endChar,
                         |text|, Words(Strip(text)), PointId(epoch, index), document);
      assert chunk == Enriched(chunks, cleanText, document, epoch, index);
      out := out + [chunk];
    }
    assert out == Enrich(chunks, cleanText, document, epoch);
    return Ok(out);
  }

  /**
   Start offsets and point ids strictly increase with the index, and no two chunk ids are
   equal; an id reads back as the index, and two chunks share a page exactly if they are
   the halves of it.
   */
  lemma MetadataIncreases(chunks: seq<string>, cleanText: string, document: Document, epoch: nat, i: nat, j: nat)
    requires i < j < |chunks|
    ensures var out := Enrich(chunks, cleanText, document, epoch);
            && out[i].startChar < out[j].startChar && out[i].pointId < out[j].pointId
            && out[i].chunkId != out[j].chunkId && ParseId(out[i].chunkId) == Some(out[i].idx)
            && (out[i].page == out[j].page <==> j == i + 1 && i % 2 == 0)
  {
    IdReadsBack(i);
    OffsetsIncrease(chunks, cleanText, i, j);
    if ChunkId(i) == ChunkId(j) {
      IdsAreDistinct(i, j);
    }
  }

  /** The first place from `from` on where the key occurs, or `from` itself if there is none. */
  ghost predicate IsFoundAt(text: string, key: string, from: nat, start: nat) {
    if exists p: nat :: from <= p && OccursAt(text, key, p) then
      from <= start && OccursAt(text, key, start) && forall p: nat :: from <= p < start ==> !OccursAt(text, key, p)
    else
      start == from
  }

  /**
   A record is of its chunk: it starts where the first 80 characters of the chunk next occur
   behind the start of the record before, and ends after the length of the chunk.
   */
  lemma RecordsAre(chunks: seq<string>, cleanText: string, document: Document, epoch: nat, i: nat)
    requires i < |chunks|
    ensures var out := Enrich(chunks, cleanText, document, epoch);
            var key := if |chunks[i]| <= 80 then chunks[i] else chunks[i][..80];
            && IsFoundAt(cleanText, key, if i == 0 then 0 else out[i - 1].startChar + 1, out[i].startChar)
            && out[i].endChar == out[i].startChar + |out[i].text|
            && out[i].text == chunks[i] && out[i].chunkLength == |chunks[i]| && out[i].totalChunks == |chunks|
            && out[i].words == Words(Strip(chunks[i])) && out[i].document == document
            && out[i].idx == i && out[i].page == i / 2 + 1 && out[i].pointId == 1000 * epoch + i
  {
    FindFromIsFirst(cleanText, Key(chunks[i]), SearchStart(chunks, cleanText, i));
  }

  /**
   The records of a fixed-size chunking have the offsets of its windows, for the first n of
   them, exactly if none of these windows begins with 80 characters that occur between the
   start of the window before and its own; then each record is the text at its offsets.
   */
  lemma WindowsAreLocatedIff(text: string, document: Document, epoch: nat, n: nat)
    requires text != "" && n <= WindowCount(|text|)
    ensures var out := Enrich(Windows(text), text, document, epoch);
            && ((forall i :: 0 <= i < n ==> out[i].startChar == 725 * i)
                <==> forall i :: 1 <= i < n ==> !OccursEarlier(text, i))
            && ((forall i :: 1 <= i < n ==> !OccursEarlier(text, i)) ==>
                  forall i :: 0 <= i < n ==>
                    out[i].endChar <= |text| && text[out[i].startChar..out[i].endChar] == out[i].text)
  {
    OffsetsAreTrueIff(text, n);
    forall i | 0 <= i < n {
      RecordOfWindow(text, document, epoch, i);
    }
    assert NoneOccursEarlier(text, n) <==> forall i :: 1 <= i < n ==> !OccursEarlier(text, i);
  }

  lemma RecordOfWindow(text: string, document: Document, epoch: nat, i: nat)
    requires text != "" && i < WindowCount(|text|)
    ensures var r := Enrich(Windows(text), text, document, epoch)[i];
            && r.startChar == StartChar(Windows(text), text, i)
            && (r.startChar == STRIDE * i ==> r.endChar <= |text| && text[r.startChar..r.endChar] == r.text)
  {
    WindowFits(|text|, i);
    assert |Windows(text)[i]| == WindowEnd(|text|, i) - STRIDE * i;
  }

  // -- apply_decisions ------------------------------------------------------------------------

  const MIN_EDITED_LEN: nat := 50

  /** One entry of the request; an absent or null field is the empty text. */
  datatype Decision = NotADict | Decision(chunkId: string, action: string, editedText: string)

  /** What becomes of one chunk. */
  datatype Verdict = Default | Approved | Rejected | Edited(text: string)

  function LowerChar(c: char): char {
    if 'A' <= c <= 'Z' then (c as int + 32) as char else c
  }

  function Lower(s: string): (r: string)
    ensures |r| == |s|
  {
    seq(|s|, i requires 0 <= i < |s| => LowerChar(s[i]))
  }

  /** No capital is left, and nothing but capitals is changed. */
  lemma LowerIs(s: string, i: nat)
    requires i < |s|
    ensures !('A' <= Lower(s)[i] <= 'Z')
    ensures Lower(s)[i] == s[i] || ('A' <= s[i] <= 'Z' && Lower(s)[i] as int == s[i] as int + 32)
  {
  }

  predicate Names(d: Decision, id: string) {
    d.Decision? && d.chunkId != "" && d.chunkId == id
  }

  /** The last decision that names the id. */
  function LastFor(decisions: seq<Decision>, id: string): Option<Decision> {
    if decisions == [] then None
    else if Names(decisions[|decisions| - 1], id) then Some(decisions[|decisions| - 1])
    else LastFor(decisions[..|decisions| - 1], id)
  }

  function Judge(d: Option<Decision>): Verdict
    requires d.Some? ==> d.value.Decision?
  {
    if d.None? then Default else
      var action := if d.value.action == "" then "approve" else Lower(d.value.action);
      if action == "reject" then Rejected
      else if action == "edit" then
        var newText := Strip(d.value.editedText);
        if |newText| < MIN_EDITED_LEN then Rejected else Edited(newText)
      else if action == "approve" then Approved
      else Default
  }

  lemma {:induction false} LastForNames(decisions: seq<Decision>, id: string)
    ensures var d := LastFor(decisions, id);
            && (d.Some? ==> d.value in decisions && Names(d.value, id))
            && (d.None? ==> forall e :: e in decisions ==> !Names(e, id))
  {
    if decisions != [] && !Names(decisions[|decisions| - 1], id) {
      LastForNames(decisions[..|decisions| - 1], id);
      assert decisions == decisions[..|decisions| - 1] + [decisions[|decisions| - 1]];
    }
  }

  function VerdictOn(chunk: Chunk, decisions: seq<Decision>): Verdict {
    LastForNames(decisions, chunk.chunkId);
    Judge(LastFor(decisions, chunk.chunkId))
  }

  function Revised(chunk: Chunk, verdict: Verdict): Chunk {
    if verdict.Edited? then
      chunk.(text := verdict.text, chunkLength := |verdict.text|, words := Pieces(verdict.text))
    else
      chunk
  }

  datatype DecisionResult = DecisionResult(
    kept: seq<Chunk>, approved: nat, rejected: nat, edited: nat, defaultApproved: nat)

  function Tally(r: DecisionResult, chunk: Chunk, verdict: Verdict): DecisionResult {
    var kept := r.kept + [Revised(chunk, verdict)];
    match verdict
    case Default => r.(kept := kept, defaultApproved := r.defaultApproved + 1)
    case Approved => r.(kept := kept, approved := r.approved + 1)
    case Rejected => r.(rejected := r.rejected + 1)
    case Edited(_) => r.(kept := kept, edited := r.edited + 1)
  }

  function Reviewed(chunks: seq<Chunk>, decisions: seq<Decision>): DecisionResult {
    if chunks == [] then
      DecisionResult([], 0, 0, 0, 0)
    else
      var last := chunks[|chunks| - 1];
      Tally(Reviewed(chunks[..|chunks| - 1], decisions), last, VerdictOn(last, decisions))
  }

  /** The dictionary of decisions: a later one replaces an earlier one for the same id. */
  method DecisionMap(decisions: seq<Decision>) returns (decisionMap: map<string, Decision>)
    ensures forall id :: LastFor(decisions, id) == if id in decisionMap then Some(decisionMap[id]) else None
  {
    decisionMap := map[];
    for k := 0 to |decisions|
      invariant forall id :: LastFor(decisions[..k], id) == if id in decisionMap then Some(decisionMap[id]) else None
    {
      var d := decisions[k];
      assert decisions[..k + 1][..k] == decisions[..k];
      if d.Decision? && d.chunkId != "" {
        decisionMap := decisionMap[d.chunkId := d];
      }
    }
    assert decisions[..|decisions|] == decisions;
  }

  method ApplyDecisions(chunks: seq<Chunk>, decisions: seq<Decision>) returns (result: DecisionResult)
    ensures result == Reviewed(chunks, decisions)
  {
    var decisionMap := DecisionMap(decisions);
    result := DecisionResult([], 0, 0, 0, 0);
    for k := 0 to |chunks|
      invariant result == Reviewed(chunks[..k], decisions)
    {
      var chunk := chunks[k];
      assert chunks[..k + 1][..k] == chunks[..k];
      LastForNames(decisions, chunk.chunkId);
      if chunk.chunkId !in decisionMap {
        result := result.(kept := result.kept + [chunk], defaultApproved := result.defaultApproved + 1);
        continue;
      }
      var d := decisionMap[chunk.chunkId];
      var action := Lower(if d.action == "" then "approve" else d.action);
      LowerOfApprove();
      if action == "reject" {
        result := result.(rejected := result.rejected + 1);
      } else if action == "edit" {
        var newText := Strip(d.editedText);
        if |newText| < MIN_EDITED_LEN {
          result := result.(rejected := result.rejected + 1);
          continue;
        }
        var edited := chunk.(text := newText, chunkLength := |newText|, words := Pieces(newText));
        result := result.(kept := result.kept + [edited], edited := result.edited + 1);
      } else if action == "approve" {
        result := result.(kept := result.kept + [chunk], approved := result.approved + 1);
      } else {
        result := result.(kept := result.kept + [chunk], defaultApproved := result.defaultApproved + 1);
      }
    }
    assert chunks[..|chunks|] == chunks;
  }

  lemma LowerOfApprove()
    ensures Lower("approve") == "approve"
  {
  }

  // -- what the decisions say -------------------------------------------------------------------

  /** Decision j is the last one that names the chunk. */
  predicate IsLastFor(decisions: seq<Decision>, id: string, j: nat) {
    && id != "" && j < |decisions| && decisions[j].Decision? && decisions[j].chunkId == id
    && forall k :: j < k < |decisions| ==> decisions[k].NotADict? || decisions[k].chunkId != id
  }

  /** Its action, in any case of letters. */
  predicate Says(d: Decision, action: string) {
    d.Decision? && Lower(d.action) == action
  }

  /** Rejected, or edited to a text that is too short. */
  ghost predicate RejectedBy(decisions: seq<Decision>, id: string) {
    exists j: nat :: IsLastFor(decisions, id, j)
      && (Says(decisions[j], "reject") || (Says(decisions[j], "edit") && |Strip(decisions[j].editedText)| < 50))
  }

  ghost predicate EditedTo(decisions: seq<Decision>, id: string, text: string) {
    exists j: nat :: IsLastFor(decisions, id, j)
      && Says(decisions[j], "edit") && text == Strip(decisions[j].editedText) && |text| >= 50
  }

  ghost predicate IsEditedBy(decisions: seq<Decision>, id: string) {
    exists text :: EditedTo(decisions, id, text)
  }

  /** Approved, which is also what no action means. */
  ghost predicate ApprovedBy(decisions: seq<Decision>, id: string) {
    exists j: nat :: IsLastFor(decisions, id, j) && (Says(decisions[j], "approve") || decisions[j].action == "")
  }

  lemma {:induction false} LastForIs(decisions: seq<Decision>, id: string)
    ensures forall j: nat :: IsLastFor(decisions, id, j) ==> LastFor(decisions, id) == Some(decisions[j])
    ensures LastFor(decisions, id).Some? ==> exists j: nat :: IsLastFor(decisions, id, j)
  {
    if decisions != [] {
      var n := |decisions| - 1;
      if Names(decisions[n], id) {
        assert IsLastFor(decisions, id, n);
      } else {
        LastForIs(decisions[..n], id);
        forall j: nat
          ensures IsLastFor(decisions, id, j) <==> IsLastFor(decisions[..n], id, j)
        {
          assert forall k :: 0 <= k < n ==> decisions[..n][k] == decisions[k];
        }
      }
    }
  }

  /** The verdict on a chunk is what the last decision that names it says. */
  lemma VerdictIs(chunk: Chunk, decisions: seq<Decision>)
    ensures var v, id := VerdictOn(chunk, decisions), chunk.chunkId;
            && (v.Rejected? <==> RejectedBy(decisions, id))
            && (v.Edited? <==> IsEditedBy(decisions, id))
            && (v.Edited? ==> EditedTo(decisions, id, v.text))
            && (v.Approved? <==> ApprovedBy(decisions, id))
  {
    var id := chunk.chunkId;
    LastForIs(decisions, id);
    LastForNames(decisions, id);
    if LastFor(decisions, id).Some? {
      var j: nat :| IsLastFor(decisions, id, j);
      assert forall k: nat :: IsLastFor(decisions, id, k) ==> k == j;
      var v := VerdictOn(chunk, decisions);
      if v.Edited? {
        assert EditedTo(decisions, id, v.text);
      }
    }
  }

  // -- what a review keeps ----------------------------------------------------------------------

  /** The indices of the chunks that are not rejected, in order. */
  function Survivors(chunks: seq<Chunk>, decisions: seq<Decision>): seq<nat> {
    if chunks == [] then []
    else
      var n := |chunks| - 1;
      Survivors(chunks[..n], decisions) + if VerdictOn(chunks[n], decisions).Rejected? then [] else [n]
  }

  /** Every chunk is counted once. */
  lemma {:induction false} ReviewConserves(chunks: seq<Chunk>, decisions: seq<Decision>)
    ensures var r := Reviewed(chunks, decisions);
            && r.approved + r.defaultApproved + r.edited + r.rejected == |chunks|
            && |r.kept| == r.approved + r.defaultApproved + r.edited
  {
    if chunks != [] {
      ReviewConserves(chunks[..|chunks| - 1], decisions);
    }
  }

  /** The indices of the chunks with such a verdict. */
  function Judged(chunks: seq<Chunk>, decisions: seq<Decision>, such: Verdict -> bool): set<nat> {
    set i: nat | i < |chunks| && such(VerdictOn(chunks[i], decisions))
  }

  lemma JudgedLast(chunks: seq<Chunk>, decisions: seq<Decision>, such: Verdict -> bool)
    requires chunks != []
    ensures |Judged(chunks, decisions, such)| == |Judged(chunks[..|chunks| - 1], decisions, such)|
              + if such(VerdictOn(chunks[|chunks| - 1], decisions)) then 1 else 0
  {
    var n := |chunks| - 1;
    var before := Judged(chunks[..n], decisions, such);
    assert forall i :: 0 <= i < n ==> chunks[..n][i] == chunks[i];
    assert n !in before;
    assert Judged(chunks, decisions, such)
        == before + if such(VerdictOn(chunks[n], decisions)) then {n} else {};
  }

  const IS_APPROVED: Verdict -> bool := (v: Verdict) => v.Approved?
  const IS_DEFAULT: Verdict -> bool := (v: Verdict) => v.Default?
  const IS_EDITED: Verdict -> bool := (v: Verdict) => v.Edited?
  const IS_REJECTED: Verdict -> bool := (v: Verdict) => v.Rejected?

  lemma {:induction false} CountersOfVerdicts(chunks: seq<Chunk>, decisions: seq<Decision>)
    ensures var r := Reviewed(chunks, decisions);
            && r.approved == |Judged(chunks, decisions, IS_APPROVED)|
            && r.defaultApproved == |Judged(chunks, decisions, IS_DEFAULT)|
            && r.edited == |Judged(chunks, decisions, IS_EDITED)|
            && r.rejected == |Judged(chunks, decisions, IS_REJECTED)|
  {
    if chunks != [] {
      CountersOfVerdicts(chunks[..|chunks| - 1], decisions);
      JudgedLast(chunks, decisions, IS_APPROVED);
      JudgedLast(chunks, decisions, IS_DEFAULT);
      JudgedLast(chunks, decisions, IS_EDITED);
      JudgedLast(chunks, decisions, IS_REJECTED);
    }
  }

  /** Each counter is the number of chunks of which the last decision says so; those without a word on them are approved by default. */
  lemma CountersAre(chunks: seq<Chunk>, decisions: seq<Decision>)
    ensures var r := Reviewed(chunks, decisions);
            && r.approved == |set i: nat | i < |chunks| && ApprovedBy(decisions, chunks[i].chunkId)|
            && r.edited == |set i: nat | i < |chunks| && IsEditedBy(decisions, chunks[i].chunkId)|
            && r.rejected == |set i: nat | i < |chunks| && RejectedBy(decisions, chunks[i].chunkId)|
            && r.approved + r.edited + r.rejected + r.defaultApproved == |chunks|
  {
    CountersOfVerdicts(chunks, decisions);
    ReviewConserves(chunks, decisions);
    forall i: nat | i < |chunks|
      ensures VerdictOn(chunks[i], decisions).Approved? <==> ApprovedBy(decisions, chunks[i].chunkId)
      ensures VerdictOn(chunks[i], decisions).Edited? <==> IsEditedBy(decisions, chunks[i].chunkId)
      ensures VerdictOn(chunks[i], decisions).Rejected? <==> RejectedBy(decisions, chunks[i].chunkId)
    {
      VerdictIs(chunks[i], decisions);
    }
    assert Judged(chunks, decisions, IS_APPROVED)
        == set i: nat | i < |chunks| && ApprovedBy(decisions, chunks[i].chunkId);
    assert Judged(chunks, decisions, IS_EDITED)
        == set i: nat | i < |chunks| && IsEditedBy(decisions, chunks[i].chunkId);
    assert Judged(chunks, decisions, IS_REJECTED)
        == set i: nat | i < |chunks| && RejectedBy(decisions, chunks[i].chunkId);
  }

  lemma {:induction false} SurvivorsAre(chunks: seq<Chunk>, decisions: seq<Decision>)
    ensures var s := Survivors(chunks, decisions);
            && (forall j :: 0 <= j < |s| ==> s[j] < |chunks|)
            && (forall j, k :: 0 <= j < k < |s| ==> s[j] < s[k])
            && (forall i :: 0 <= i < |chunks| ==> (i in s <==> !VerdictOn(chunks[i], decisions).Rejected?))
  {
    if chunks != [] {
      var n := |chunks| - 1;
      var front := chunks[..n];
      SurvivorsAre(front, decisions);
      assert n !in Survivors(front, decisions);
      assert forall i :: 0 <= i < n ==> chunks[i] == front[i];
    }
  }

  lemma {:induction false} KeptAre(chunks: seq<Chunk>, decisions: seq<Decision>)
    ensures var kept, s := Reviewed(chunks, decisions).kept, Survivors(chunks, decisions);
            && |kept| == |s|
            && (forall j :: 0 <= j < |s| ==>
                  s[j] < |chunks| && kept[j] == Revised(chunks[s[j]], VerdictOn(chunks[s[j]], decisions)))
  {
    if chunks != [] {
      var n := |chunks| - 1;
      KeptAre(chunks[..n], decisions);
      var verdict := VerdictOn(chunks[n], decisions);
      assert Reviewed(chunks, decisions).kept
          == Reviewed(chunks[..n], decisions).kept + if verdict.Rejected? then [] else [Revised(chunks[n], verdict)];
    }
  }

  /** What is kept of one chunk. */
  lemma RevisedIs(chunk: Chunk, decisions: seq<Decision>)
    ensures var c := Revised(chunk, VerdictOn(chunk, decisions));
            && (forall text :: EditedTo(decisions, chunk.chunkId, text) ==>
                  c == chunk.(text := text, chunkLength := |text|, words := Words(text)))
            && (!IsEditedBy(decisions, chunk.chunkId) ==> c == chunk)
  {
    var id := chunk.chunkId;
    VerdictIs(chunk, decisions);
    EditsAreLong(chunk, decisions);
    LastForIs(decisions, id);
    forall text | EditedTo(decisions, id, text)
      ensures VerdictOn(chunk, decisions) == Edited(text)
    {
      assert IsEditedBy(decisions, id);
    }
  }

  /**
   What is kept is what the last decisions do not reject, in the order it had.  A kept chunk has
   the text that it was edited to, stripped and of at least 50 characters, with the length and
   the words of that; if it was not edited it is as it was.
   */
  lemma KeptInOrder(chunks: seq<Chunk>, decisions: seq<Decision>)
    ensures var kept, s := Reviewed(chunks, decisions).kept, Survivors(chunks, decisions);
            && |kept| == |s|
            && (forall j :: 0 <= j < |s| ==> s[j] < |chunks|)
            && (forall j, k :: 0 <= j < k < |s| ==> s[j] < s[k])
            && (forall i :: 0 <= i < |chunks| ==> (i in s <==> !RejectedBy(decisions, chunks[i].chunkId)))
            && (forall j, text :: 0 <= j < |s| && EditedTo(decisions, chunks[s[j]].chunkId, text) ==>
                  kept[j] == chunks[s[j]].(text := text, chunkLength := |text|, words := Words(text)))
            && (forall j :: 0 <= j < |s| && !IsEditedBy(decisions, chunks[s[j]].chunkId) ==> kept[j] == chunks[s[j]])
  {
    var s := Survivors(chunks, decisions);
    SurvivorsAre(chunks, decisions);
    KeptAre(chunks, decisions);
    forall i | 0 <= i < |chunks|
      ensures i in s <==> !RejectedBy(decisions, chunks[i].chunkId)
    {
      VerdictIs(chunks[i], decisions);
    }
    forall j | 0 <= j < |s| {
      RevisedIs(chunks[s[j]], decisions);
    }
  }

  /** Edited or not, a kept chunk has its id, and that is of no rejected one. */
  lemma KeptIsNotRejected(chunks: seq<Chunk>, decisions: seq<Decision>, k: nat)
    requires k < |Reviewed(chunks, decisions).kept|
    ensures !RejectedBy(decisions, Reviewed(chunks, decisions).kept[k].chunkId)
  {
    SurvivorsAre(chunks, decisions);
    KeptAre(chunks, decisions);
    var i := Survivors(chunks, decisions)[k];
    assert i in Survivors(chunks, decisions);
    VerdictIs(chunks[i], decisions);
  }

  lemma EditsAreLong(chunk: Chunk, decisions: seq<Decision>)
    ensures var v := VerdictOn(chunk, decisions);
            v.Edited? ==>
              && |v.text| >= MIN_EDITED_LEN && Stripped(v.text)
              && Revised(chunk, v).words == Words(v.text)
              && Revised(chunk, v).(text := chunk.text, chunkLength := chunk.chunkLength, words := chunk.words) == chunk
  {
    var v := VerdictOn(chunk, decisions);
    LastForNames(decisions, chunk.chunkId);
    if v.Edited? {
      StripCuts(LastFor(decisions, chunk.chunkId).value.editedText);
      WordCountsAgreeIff(v.text);
    }
  }

  // -- which decisions matter -------------------------------------------------------------------------

  lemma {:induction false} LastForAppend(a: seq<Decision>, b: seq<Decision>, id: string)
    ensures LastFor(a + b, id) == if LastFor(b, id).Some? then LastFor(b, id) else LastFor(a, id)
  {
    if b == [] {
      assert a + b == a;
    } else {
      assert (a + b)[..|a + b| - 1] == a + b[..|b| - 1];
      LastForAppend(a, b[..|b| - 1], id);
    }
  }

  lemma {:induction false} SameVerdictsSameReview(chunks: seq<Chunk>, d: seq<Decision>, e: seq<Decision>)
    requires forall c :: c in chunks ==> VerdictOn(c, d) == VerdictOn(c, e)
    ensures Reviewed(chunks, d) == Reviewed(chunks, e)
  {
    if chunks != [] {
      SameVerdictsSameReview(chunks[..|chunks| - 1], d, e);
    }
  }

  /** A decision for an unknown id, or one that a later decision for its id replaces, changes nothing. */
  lemma DecisionIsIgnored(chunks: seq<Chunk>, a: seq<Decision>, d: Decision, b: seq<Decision>)
    requires (forall c :: c in chunks ==> !Names(d, c.chunkId))
          || (d.Decision? && exists e :: e in b && Names(e, d.chunkId))
    ensures Reviewed(chunks, a + [d] + b) == Reviewed(chunks, a + b)
  {
    forall c | c in chunks
      ensures VerdictOn(c, a + [d] + b) == VerdictOn(c, a + b)
    {
      LastForAppend(a + [d], b, c.chunkId);
      LastForAppend(a, [d], c.chunkId);
      LastForAppend(a, b, c.chunkId);
      LastForNames(b, c.chunkId);
      assert LastFor([d], c.chunkId) == if Names(d, c.chunkId) then Some(d) else None;
    }
    SameVerdictsSameReview(chunks, a + [d] + b, a + b);
  }

  /** Without a decision for any of its chunks a batch is kept whole. */
  lemma {:induction false} NothingIsDroppedSilently(chunks: seq<Chunk>, decisions: seq<Decision>)
    requires forall c, d :: c in chunks && d in decisions ==> !Names(d, c.chunkId)
    ensures Reviewed(chunks, decisions) == DecisionResult(chunks, 0, 0, 0, |chunks|)
  {
    if chunks != [] {
      var n := |chunks| - 1;
      NothingIsDroppedSilently(chunks[..n], decisions);
      LastForNames(decisions, chunks[n].chunkId);
      assert chunks == chunks[..n] + [chunks[n]];
    }
  }
}
