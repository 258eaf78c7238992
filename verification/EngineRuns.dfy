/** What holds of any sequence of uploads and reviews that do not overlap. */
module EngineRuns {
  import opened Prelude
  import opened Text
  import opened Chunking
  import opened FixedWindows
  import opened ChunkIds
  import opened Metadata
  import opened Store
  import opened Engine

  datatype Op =
    | Uploaded(upload: Upload)
    | Resumed(batchId: string, decisions: seq<Decision>, remote: Remote, now: string)

  function After(w: World, op: Op): World {
    match op
    case Uploaded(u) => Ingest(w, u)
    case Resumed(id, decisions, remote, now) => Resume(w, id, decisions, remote, now).0
  }

  function Reply(w: World, op: Op): Result<Option<Outcome>>
    requires op.Resumed?
  {
    Resume(w, op.batchId, op.decisions, op.remote, op.now).1
  }

  function WorldAfter(w: World, ops: seq<Op>): World {
    if ops == [] then w else After(WorldAfter(w, ops[..|ops| - 1]), ops[|ops| - 1])
  }

  predicate WellFormed(w: World) {
    Unique(w.pending) && AllPending(w.pending)
  }

  /** new_batch_id never gives an id that is in use. */
  predicate FreshIds(w: World, ops: seq<Op>) {
    && (forall k, r :: 0 <= k < |ops| && ops[k].Uploaded? && r in w.pending ==> r.batchId != ops[k].upload.batchId)
    && (forall j, k :: 0 <= j < k < |ops| && ops[j].Uploaded? && ops[k].Uploaded? ==>
          ops[j].upload.batchId != ops[k].upload.batchId)
  }

  // -- one step -----------------------------------------------------------------------------------

  lemma ProducedIsNumbered(u: Upload)
    ensures Produced(u).Some? ==> Numbered(Produced(u).value) && Produced(u).value != []
  {
  }

  lemma WrittenAreOf(table: seq<Row>, batchId: string, chunks: seq<Chunk>, now: string)
    ensures forall r :: r in RowsFor(batchId, chunks, now) ==> r.batchId == batchId && r.status == PENDING
  {
  }

  lemma {:induction false} UpsertAllHolds(table: seq<Row>, rows: seq<Row>)
    ensures forall r :: r in UpsertAll(table, rows) ==> r in table || r in rows
    ensures Unique(table) ==> Unique(UpsertAll(table, rows))
  {
    if rows != [] {
      var front := rows[..|rows| - 1];
      UpsertAllHolds(table, front);
      WithoutKeeps(UpsertAll(table, front), rows[|rows| - 1]);
      if Unique(table) {
        UpsertIsUnique(UpsertAll(table, front), rows[|rows| - 1]);
      }
    }
  }

  /** A step keeps the table well formed and adds rows of an uploaded batch only. */
  lemma StepKeepsTable(w: World, op: Op)
    requires WellFormed(w)
    ensures WellFormed(After(w, op))
    ensures forall r :: r in After(w, op).pending ==>
              r in w.pending || (op.Uploaded? && r.batchId == op.upload.batchId)
  {
    match op
    case Uploaded(u) =>
      if Produced(u).Some? {
        WrittenAreOf(w.pending, u.batchId, Produced(u).value, u.now);
        UpsertAllHolds(w.pending, RowsFor(u.batchId, Produced(u).value, u.now));
      }
    case Resumed(id, _, _, _) =>
      DeletedIsUnique(w.pending, id);
      DeletedKeeps(w.pending, id);
  }

  /** A step leaves every batch alone but the one it uploads or resumes. */
  lemma StepSparesOthers(w: World, op: Op, id: string)
    requires if op.Uploaded? then op.upload.batchId != id else op.batchId != id
    ensures RowsOf(After(w, op).pending, id) == RowsOf(w.pending, id)
  {
    match op
    case Uploaded(u) => UploadSparesOthers(w, u, id);
    case Resumed(other, decisions, remote, now) => ResumeSparesOthers(w, other, decisions, remote, now, id);
  }

  lemma ResumeSparesOthers(w: World, other: string, decisions: seq<Decision>, remote: Remote, now: string, id: string)
    requires other != id
    ensures RowsOf(Resume(w, other, decisions, remote, now).0.pending, id) == RowsOf(w.pending, id)
  {
    ResumeSettles(w, other, decisions, remote, now);
    DeletingSparesOthers(w.pending, other, id);
  }

  lemma UploadSparesOthers(w: World, u: Upload, id: string)
    requires u.batchId != id
    ensures RowsOf(Ingest(w, u).pending, id) == RowsOf(w.pending, id)
  {
    if Produced(u).Some? {
      WritingSparesOthers(w.pending, RowsFor(u.batchId, Produced(u).value, u.now), id);
    }
  }

  lemma NothingOfANewBatch(w: World, id: string)
    requires forall r :: r in w.pending ==> r.batchId != id
    ensures RowsOf(w.pending, id) == []
  {
    NoRowsOf(w.pending, id);
  }

  lemma {:induction false} DeletedCount(table: seq<Row>, batchId: string)
    requires AllPending(table)
    ensures |Deleted(table, batchId)| + |RowsOf(table, batchId)| == |table|
  {
    if table != [] {
      assert AllPending(table[1..]);
      DeletedCount(table[1..], batchId);
    }
  }

  /**
   A review counts every chunk of the batch once, as its last decision says, and indexes what it
   kept; it is written to the audit log exactly if it did not raise.
   */
  lemma ResumeSettles(w: World, id: string, decisions: seq<Decision>, remote: Remote, now: string)
    ensures var (v, reply) := Resume(w, id, decisions, remote, now);
            var chunks := BatchChunks(w.pending, id);
            && (reply == Ok(None) <==> chunks == [])
            && (reply == Ok(None) ==> v == w)
            && (reply != Ok(None) ==> v.pending == Deleted(w.pending, id))
            && (reply.Ok? && reply.value.Some? ==>
                  var o := reply.value.value;
                  && o.approved + o.edited + o.rejected == |chunks| && o.indexed == o.approved + o.edited
                  && o.edited == |set i: nat | i < |chunks| && IsEditedBy(decisions, chunks[i].chunkId)|
                  && o.rejected == |set i: nat | i < |chunks| && RejectedBy(decisions, chunks[i].chunkId)|
                  && |v.points| == |w.points| + o.indexed && (o.status == "rejected" <==> o.indexed == 0)
                  && |v.audit| == |w.audit| + 1 && v.audit[..|w.audit|] == w.audit
                  && v.audit[|w.audit|].action == "ingestie_hitl" && v.audit[|w.audit|].createdAt == now
                  && v.audit[|w.audit|].document == chunks[0].document.filename)
            && (reply.Err? ==> v.audit == w.audit)
  {
    ReviewConserves(BatchChunks(w.pending, id), decisions);
    CountersAre(BatchChunks(w.pending, id), decisions);
  }

  /**
   What a resume indexes is what the review kept, in order and under the batch; where the call
   to the vector store raised it is all or nothing.
   */
  lemma IndexedIsKept(w: World, id: string, decisions: seq<Decision>, remote: Remote, now: string)
    ensures var v := Resume(w, id, decisions, remote, now).0;
            var kept := Reviewed(BatchChunks(w.pending, id), decisions).kept;
            && |v.points| >= |w.points| && v.points[..|w.points|] == w.points
            && (if BatchChunks(w.pending, id) == [] || (remote.Fails? && !remote.indexed) then |v.points| == |w.points|
                else |v.points| == |w.points| + |kept|)
            && (forall k :: |w.points| <= k < |v.points| ==> v.points[k] == Point(id, kept[k - |w.points|]))
  {
    var chunks := BatchChunks(w.pending, id);
    if chunks != [] {
      FinalizeIndexes(w.(pending := Deleted(w.pending, id)), id, chunks[0].document.filename,
                      Reviewed(chunks, decisions), remote, now);
    }
  }

  /** So nothing is indexed that a last decision rejected. */
  lemma NothingRejectedIsIndexed(w: World, id: string, decisions: seq<Decision>, remote: Remote, now: string, k: nat)
    requires |w.points| <= k < |Resume(w, id, decisions, remote, now).0.points|
    ensures !RejectedBy(decisions, Resume(w, id, decisions, remote, now).0.points[k].chunk.chunkId)
  {
    IndexedIsKept(w, id, decisions, remote, now);
    KeptIsNotRejected(BatchChunks(w.pending, id), decisions, k - |w.points|);
  }

  lemma FinalizeIndexes(w: World, id: string, filename: string, r: DecisionResult, remote: Remote, now: string)
    ensures Finalize(w, id, filename, r, remote, now).0.points
         == if remote.Fails? && !remote.indexed then w.points else w.points + PointsFor(id, r.kept)
  {
  }

  // -- conservation over runs --------------------------------------------------------------------

  /** The chunks that the uploads store. */
  function Stored(ops: seq<Op>): nat {
    if ops == [] then 0 else
      var op := ops[|ops| - 1];
      Stored(ops[..|ops| - 1]) + if op.Uploaded? && Produced(op.upload).Some? then |Produced(op.upload).value| else 0
  }

  /** The chunks that a reply accounts for. */
  function Accounted(reply: Result<Option<Outcome>>): nat {
    if reply.Ok? && reply.value.Some? then
      reply.value.value.approved + reply.value.value.edited + reply.value.value.rejected
    else
      0
  }

  function Settled(w: World, ops: seq<Op>): nat {
    if ops == [] then 0 else
      var front, op := ops[..|ops| - 1], ops[|ops| - 1];
      Settled(w, front) + if op.Resumed? then Accounted(Reply(WorldAfter(w, front), op)) else 0
  }

  /** The chunks whose finalize raised. */
  function Abandoned(w: World, ops: seq<Op>): nat {
    if ops == [] then 0 else
      var front, op := ops[..|ops| - 1], ops[|ops| - 1];
      var v := WorldAfter(w, front);
      Abandoned(w, front)
      + if op.Resumed? && Reply(v, op).Err? then |BatchChunks(v.pending, op.batchId)| else 0
  }

  lemma {:induction false} RunKeepsTable(w: World, ops: seq<Op>)
    requires WellFormed(w)
    ensures WellFormed(WorldAfter(w, ops))
    ensures forall r :: r in WorldAfter(w, ops).pending ==>
              r in w.pending || exists k :: 0 <= k < |ops| && ops[k].Uploaded? && ops[k].upload.batchId == r.batchId
  {
    if ops != [] {
      var front, op := ops[..|ops| - 1], ops[|ops| - 1];
      RunKeepsTable(w, front);
      StepKeepsTable(WorldAfter(w, front), op);
      forall r | r in WorldAfter(w, ops).pending && r !in w.pending
        ensures exists k :: 0 <= k < |ops| && ops[k].Uploaded? && ops[k].upload.batchId == r.batchId
      {
        if r in WorldAfter(w, front).pending {
          var k :| 0 <= k < |front| && front[k].Uploaded? && front[k].upload.batchId == r.batchId;
          assert ops[k] == front[k];
        } else {
          assert ops[|ops| - 1] == op;
        }
      }
    }
  }

  /** When it is its turn, an upload finds no row of its batch. */
  lemma UploadIsNew(w: World, ops: seq<Op>, k: nat)
    requires WellFormed(w) && FreshIds(w, ops) && k < |ops| && ops[k].Uploaded?
    ensures RowsOf(WorldAfter(w, ops[..k]).pending, ops[k].upload.batchId) == []
  {
    RunKeepsTable(w, ops[..k]);
    NothingOfANewBatch(WorldAfter(w, ops[..k]), ops[k].upload.batchId);
  }

  lemma StepBalances(w: World, op: Op)
    requires WellFormed(w)
    requires op.Uploaded? ==> RowsOf(w.pending, op.upload.batchId) == []
    ensures |w.pending| + (if op.Uploaded? && Produced(op.upload).Some? then |Produced(op.upload).value| else 0)
         == |After(w, op).pending|
            + (if op.Resumed? then Accounted(Reply(w, op)) else 0)
            + (if op.Resumed? && Reply(w, op).Err? then |BatchChunks(w.pending, op.batchId)| else 0)
  {
    match op
    case Uploaded(u) =>
      if Produced(u).Some? {
        var chunks := Produced(u).value;
        forall i, j | 0 <= i < j < |chunks|
          ensures chunks[i].chunkId != chunks[j].chunkId
        {
          ProducedIsNumbered(u);
          if ChunkId(i) == ChunkId(j) {
            IdsAreDistinct(i, j);
          }
        }
        WrittenRows(w.pending, RowsFor(u.batchId, chunks, u.now), u.batchId);
      }
    case Resumed(id, decisions, remote, now) =>
      ResumeSettles(w, id, decisions, remote, now);
      DeletedCount(w.pending, id);
  }

  /**
   No chunk is lost or counted twice: what was pending and what was stored is what is still
   pending, what was reviewed, and what a failed finalize abandoned.
   */
  lemma {:induction false} ChunksAreConserved(w: World, ops: seq<Op>)
    requires WellFormed(w) && FreshIds(w, ops)
    ensures |w.pending| + Stored(ops) == |WorldAfter(w, ops).pending| + Settled(w, ops) + Abandoned(w, ops)
  {
    if ops != [] {
      var n := |ops| - 1;
      var front, op := ops[..n], ops[n];
      ChunksAreConserved(w, front);
      RunKeepsTable(w, front);
      if op.Uploaded? {
        UploadIsNew(w, ops, n);
      }
      StepBalances(WorldAfter(w, front), op);
    }
  }

  // -- one batch over a run -------------------------------------------------------------------------

  predicate Touches(op: Op, id: string) {
    if op.Uploaded? then op.upload.batchId == id else op.batchId == id
  }

  /** A batch waits unchanged while others come and go. */
  lemma {:induction false} BatchWaits(w: World, ops: seq<Op>, id: string)
    requires forall k :: 0 <= k < |ops| ==> !Touches(ops[k], id)
    ensures RowsOf(WorldAfter(w, ops).pending, id) == RowsOf(w.pending, id)
  {
    if ops != [] {
      BatchWaits(w, ops[..|ops| - 1], id);
      StepSparesOthers(WorldAfter(w, ops[..|ops| - 1]), ops[|ops| - 1], id);
    }
  }

  /**
   The review pause: whatever happens to other batches between the upload and the review,
   the review gets the chunks that the upload produced, in their order.
   */
  lemma ReviewGetsTheUpload(w: World, u: Upload, ops: seq<Op>)
    requires WellFormed(w) && RowsOf(w.pending, u.batchId) == []
    requires Produced(u).Some? && |Produced(u).value| <= 1000
    requires forall k :: 0 <= k < |ops| ==> !Touches(ops[k], u.batchId)
    ensures BatchChunks(WorldAfter(Ingest(w, u), ops).pending, u.batchId) == Produced(u).value
  {
    BatchWaits(Ingest(w, u), ops, u.batchId);
    ProducedIsNumbered(u);
    BatchReadsBackIff(w.pending, u.batchId, Produced(u).value, u.now);
  }

  function TextsOf(points: seq<Point>): (texts: seq<string>)
    ensures |texts| == |points|
  {
    seq(|points|, i requires 0 <= i < |points| => points[i].chunk.text)
  }

  /**
   From end to end: a document uploaded in fixed-size windows and resumed without any
   decision is indexed whole, its windows in order, whatever happened to other batches
   meanwhile; without their overlaps they are the cleaned text.
   */
  lemma WholeDocumentIsIndexed(w: World, u: Upload, ops: seq<Op>, now: string)
    requires WellFormed(w) && RowsOf(w.pending, u.batchId) == []
    requires u.cleaned.Ok? && u.summary.Ok? && Lower(u.strategy) == "fixed_size"
    requires Strip(u.cleaned.value) != "" && WindowCount(|Strip(u.cleaned.value)|) <= 1000
    requires forall k :: 0 <= k < |ops| ==> !Touches(ops[k], u.batchId)
    ensures var clean := Strip(u.cleaned.value);
            var v := WorldAfter(Ingest(w, u), ops);
            var (after, reply) := Resume(v, u.batchId, [], Works, now);
            && reply == Ok(Some(Outcome("ingested", WindowCount(|clean|), 0, 0, WindowCount(|clean|))))
            && |after.points| == |v.points| + WindowCount(|clean|)
            && TextsOf(after.points[|v.points|..]) == Windows(clean)
            && (forall k :: 1 <= k < |Windows(clean)| ==> |Windows(clean)[k]| > CHUNK_OVERLAP)
            && Windows(clean)[0] + Rest(Windows(clean), 1) == clean
  {
    var clean := Strip(u.cleaned.value);
    var v := WorldAfter(Ingest(w, u), ops);
    ProducedWindows(u);
    ReviewGetsTheUpload(w, u, ops);
    AllIsIndexed(v, u.batchId, Produced(u).value, now);
    WindowsReassemble(clean);
  }

  lemma ProducedWindows(u: Upload)
    requires u.cleaned.Ok? && u.summary.Ok? && Lower(u.strategy) == "fixed_size" && Strip(u.cleaned.value) != ""
    ensures Produced(u).Some? && |Produced(u).value| == WindowCount(|Strip(u.cleaned.value)|)
    ensures TextsOf(PointsFor(u.batchId, Produced(u).value)) == Windows(Strip(u.cleaned.value))
  {
  }

  /** A resume without decisions indexes the whole batch. */
  lemma AllIsIndexed(w: World, id: string, chunks: seq<Chunk>, now: string)
    requires BatchChunks(w.pending, id) == chunks && chunks != []
    ensures var (after, reply) := Resume(w, id, [], Works, now);
            && reply == Ok(Some(Outcome("ingested", |chunks|, 0, 0, |chunks|)))
            && |after.points| == |w.points| + |chunks| && after.points[|w.points|..] == PointsFor(id, chunks)
  {
    NothingIsDroppedSilently(chunks, []);
  }

  lemma {:induction false} WorldAfterAppend(w: World, a: seq<Op>, b: seq<Op>)
    ensures WorldAfter(w, a + b) == WorldAfter(WorldAfter(w, a), b)
  {
    if b == [] {
      assert a + b == a;
    } else {
      assert (a + b)[..|a + b| - 1] == a + b[..|b| - 1];
      WorldAfterAppend(w, a, b[..|b| - 1]);
    }
  }

  /** A batch that is gone stays gone, and resuming it changes nothing. */
  lemma {:induction false} GoneStaysGone(w: World, ops: seq<Op>, id: string)
    requires RowsOf(w.pending, id) == []
    requires forall k :: 0 <= k < |ops| && ops[k].Uploaded? ==> ops[k].upload.batchId != id
    ensures RowsOf(WorldAfter(w, ops).pending, id) == []
  {
    if ops != [] {
      var front, op := ops[..|ops| - 1], ops[|ops| - 1];
      GoneStaysGone(w, front, id);
      if op.Uploaded? || op.batchId != id {
        StepSparesOthers(WorldAfter(w, front), op, id);
      }
    }
  }

  lemma WorldBetween(w: World, ops: seq<Op>, i: nat, k: nat)
    requires i <= k <= |ops|
    ensures WorldAfter(w, ops[..k]) == WorldAfter(WorldAfter(w, ops[..i]), ops[i..k])
  {
    assert ops[..k] == ops[..i] + ops[i..k];
    WorldAfterAppend(w, ops[..i], ops[i..k]);
  }

  lemma GoneAfterResume(w: World, op: Op)
    requires op.Resumed? && Reply(w, op) != Ok(None)
    ensures BatchChunks(w.pending, op.batchId) != [] && RowsOf(After(w, op).pending, op.batchId) == []
  {
    ResumeSettles(w, op.batchId, op.decisions, op.remote, op.now);
    DeletingSparesOthers(w.pending, op.batchId, op.batchId);
  }

  lemma UnknownBatch(w: World, op: Op)
    requires op.Resumed? && RowsOf(w.pending, op.batchId) == []
    ensures Reply(w, op) == Ok(None) && After(w, op) == w
  {
  }

  lemma GoneBetween(w: World, ops: seq<Op>, j: nat, k: nat, id: string)
    requires j < k < |ops| && RowsOf(WorldAfter(w, ops[..j + 1]).pending, id) == []
    requires forall i :: j < i < k && ops[i].Uploaded? ==> ops[i].upload.batchId != id
    ensures RowsOf(WorldAfter(w, ops[..k]).pending, id) == []
  {
    WorldBetween(w, ops, j + 1, k);
    GoneStaysGone(WorldAfter(w, ops[..j + 1]), ops[j + 1..k], id);
  }

  /** Only one resume of a batch ever does anything: the later ones find it unknown, even after a failed finalize. */
  lemma ResumeIsOneShot(w: World, ops: seq<Op>, j: nat, k: nat)
    requires WellFormed(w) && FreshIds(w, ops) && j < k < |ops|
    requires ops[j].Resumed? && ops[k].Resumed? && ops[j].batchId == ops[k].batchId
    requires Reply(WorldAfter(w, ops[..j]), ops[j]) != Ok(None)
    ensures Reply(WorldAfter(w, ops[..k]), ops[k]) == Ok(None)
    ensures After(WorldAfter(w, ops[..k]), ops[k]) == WorldAfter(w, ops[..k])
  {
    GoneAfterResume(WorldAfter(w, ops[..j]), ops[j]);
    LaterUploadsAreOthers(w, ops, j, k);
    assert ops[..j + 1][..j] == ops[..j];
    GoneBetween(w, ops, j, k, ops[j].batchId);
    UnknownBatch(WorldAfter(w, ops[..k]), ops[k]);
  }

  /** A batch that was there to be resumed is not uploaded again. */
  lemma LaterUploadsAreOthers(w: World, ops: seq<Op>, j: nat, k: nat)
    requires WellFormed(w) && FreshIds(w, ops) && j < k < |ops|
    requires ops[j].Resumed? && BatchChunks(WorldAfter(w, ops[..j]).pending, ops[j].batchId) != []
    ensures forall i :: j < i < k && ops[i].Uploaded? ==> ops[i].upload.batchId != ops[j].batchId
  {
    var id := ops[j].batchId;
    var v := WorldAfter(w, ops[..j]);
    RunKeepsTable(w, ops[..j]);
    RowsOfHolds(v.pending, id);
    var r := RowsOf(v.pending, id)[0];
    assert r in RowsOf(v.pending, id) && r in v.pending && r.batchId == id;
    if r !in w.pending {
      var i :| 0 <= i < j && ops[..j][i].Uploaded? && ops[..j][i].upload.batchId == r.batchId;
      assert ops[i].Uploaded? && ops[i].upload.batchId == id;
    }
  }

  // -- traces ------------------------------------------------------------------------------------------

  lemma ChunksUnlessEmpty(clean: string, strategy: string)
    requires Stripped(clean)
    ensures ChunkText(clean, strategy).Err? <==> clean == ""
    ensures clean != "" ==> ChunkText(clean, strategy).value != []
  {
    if Lower(strategy) != "fixed_size" && clean != "" {
      ChunksOfText(clean);
    }
  }

  /**
   An upload that gets as far has one record for each chunk of the cleaned text, of the windows
   for the strategy "fixed_size" in any case of letters, and else of the paragraphs; a record
   carries the summary and the name of the strategy.
   */
  lemma UploadProduces(u: Upload)
    ensures Produced(u).Some? <==> u.cleaned.Ok? && u.summary.Ok? && Strip(u.cleaned.value) != ""
    ensures Produced(u).Some? ==>
              var clean, fixed, out := Strip(u.cleaned.value), Lower(u.strategy) == "fixed_size", Produced(u).value;
              && (!fixed ==> ParagraphAware(clean).Ok?)
              && (var texts := if fixed then Windows(clean) else ParagraphAware(clean).value;
                  |out| == |texts| && forall i :: 0 <= i < |out| ==>
                    && out[i].text == texts[i]
                    && out[i].document == u.document.(
                         summary := u.summary.value,
                         strategyTag := if fixed then "fixed_size" else "paragraph_aware_sentence_boundary"))
  {
    if u.cleaned.Ok? {
      StripCuts(u.cleaned.value);
      ChunksUnlessEmpty(Strip(u.cleaned.value), u.strategy);
    }
  }

  /**
   An upload leaves either one audit row or a pending batch, unless the text is empty once
   cleaned: then chunking raises outside the handlers, and nothing tells of the upload.
   */
  lemma UploadLeavesATraceIff(w: World, u: Upload)
    requires WellFormed(w) && RowsOf(w.pending, u.batchId) == []
    ensures var v, name := Ingest(w, u), if u.document.filename == "" then "onbekend" else u.document.filename;
            && (v != w <==> u.cleaned.Err? || u.summary.Err? || Strip(u.cleaned.value) != "")
            && (v != w ==> || (|v.audit| == |w.audit| + 1 && v.pending == w.pending)
                           || (v.audit == w.audit && BatchChunks(v.pending, u.batchId) != []))
            && (u.cleaned.Err? ==>
                  v.audit == w.audit + [AuditRow(|w.audit| + 1, u.now, name, "ingestie_hitl", AUDIT_PDF_FAILED)])
            && (u.cleaned.Ok? && u.summary.Err? ==>
                  && |v.audit| == |w.audit| + 1 && v.audit[..|w.audit|] == w.audit
                  && v.audit[|w.audit|].action == "llm_error_ingestion" && v.audit[|w.audit|].document == name)
            && v.points == w.points
  {
    if u.cleaned.Ok? && u.summary.Ok? {
      var clean := Strip(u.cleaned.value);
      StripCuts(u.cleaned.value);
      ChunksUnlessEmpty(clean, u.strategy);
      if clean != "" {
        var chunks := Produced(u).value;
        ProducedIsNumbered(u);
        BatchReadsBackIff(w.pending, u.batchId, chunks, u.now);
      }
    }
  }

  /**
   A finalize that fails removes the batch and leaves no audit row, so the review cannot be
   repeated and the log does not tell of it.
   */
  lemma FailedFinalizeIsSilent(w: World, id: string, decisions: seq<Decision>, error: string, indexed: bool, now: string)
    requires BatchChunks(w.pending, id) != []
    requires Reviewed(BatchChunks(w.pending, id), decisions).kept != []
    ensures var (v, reply) := Resume(w, id, decisions, Fails(error, indexed), now);
            reply == Err(error) && v.audit == w.audit && BatchChunks(v.pending, id) == []
  {
    DeletingSparesOthers(w.pending, id, id);
  }
}
