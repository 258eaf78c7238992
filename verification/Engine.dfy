/** The two phases of voice_agent/kb/ingestion/engine.py, and runs of them. */
module Engine {
  import opened Prelude
  import opened Text
  import opened Chunking
  import opened FixedWindows
  import opened ChunkIds
  import opened Metadata
  import opened Store

  // -- what the rest of the world brings ----------------------------------------------------

  /**
   One upload.  `cleaned` is the extracted text after the clean-up rules of clean_pdf_text,
   before its final strip(); an error is a failed extraction.  `batchId` and `epoch` are what
   the random suffix and the clock gave.
   */
  datatype Upload = Upload(
    cleaned: Result<string>, summary: Result<string>, httpStatus: Option<nat>,
    document: Document, strategy: string, batchId: string, epoch: nat, now: string)

  /** How the calls to Qdrant and the embedding server went, and whether a failed upsert was taken in all the same. */
  datatype Remote = Works | Fails(error: string, indexed: bool)

  datatype Outcome = Outcome(status: string, approved: nat, edited: nat, rejected: nat, indexed: nat)

  datatype Point = Point(batchId: string, chunk: Chunk)

  datatype World = World(pending: seq<Row>, audit: seq<AuditRow>, points: seq<Point>)

  const INGESTION: string := "ingestie_hitl"
  const LLM_ERROR: string := "llm_error_ingestion"

  // -- audit texts ------------------------------------------------------------------------------

  function AuditSuccess(batchId: string, r: DecisionResult, indexed: nat): string {
    "Succes — HITL batch " + batchId + " → approved=" + Decimal(r.approved + r.defaultApproved)
    + " / edited=" + Decimal(r.edited) + " / rejected=" + Decimal(r.rejected)
    + " — indexed " + Decimal(indexed) + " chunks"
  }

  function AuditAllRejected(batchId: string, r: DecisionResult): string {
    "All rejected — HITL batch " + batchId + " dropped (" + Decimal(r.rejected)
    + " chunks rejected). Nothing indexed."
  }

  const AUDIT_PDF_FAILED: string := "Fout — PDF extractie mislukt"

  function AuditLlmError(message: string, httpStatus: Option<nat>, inputChars: nat): string {
    var m := if message == "" then "unknown" else message;
    "error=" + (if |m| <= 200 then m else m[..200])
    + " | http=" + (if httpStatus.Some? then Decimal(httpStatus.value) else "n.v.t.")
    + " | input_chars=" + Decimal(inputChars)
  }

  // -- the two phases, on values --------------------------------------------------------------------

  /** chunking.py `chunk_text`: any other strategy means paragraph_aware. */
  function ChunkText(cleanText: string, strategy: string): Result<seq<string>> {
    if Lower(strategy) == "fixed_size" then
      if cleanText == "" then Err("fixed_size: no clean_text") else Ok(Windows(cleanText))
    else
      ParagraphAware(cleanText)
  }

  function StrategyTag(strategy: string): string {
    if Lower(strategy) == "fixed_size" then "fixed_size" else "paragraph_aware_sentence_boundary"
  }

  function Described(u: Upload): Document
    requires u.summary.Ok?
  {
    u.document.(summary := u.summary.value, strategyTag := StrategyTag(u.strategy))
  }

  function Audited(w: World, document: string, action: string, outcome: string, now: string): World {
    w.(audit := w.audit + [AuditRow(|w.audit| + 1, now, document, action, outcome)])
  }

  function NameOf(u: Upload): string {
    if u.document.filename == "" then "onbekend" else u.document.filename
  }

  /** The chunks that a run gets as far as storing; None if it ends before. */
  function Produced(u: Upload): Option<seq<Chunk>> {
    if u.cleaned.Err? || u.summary.Err? then None else
      var clean := Strip(u.cleaned.value);
      match ChunkText(clean, u.strategy)
      case Err(_) => None
      case Ok(chunks) => if chunks == [] then None else Some(Enrich(chunks, clean, Described(u), u.epoch))
  }

  /** _run_ingest. */
  function Ingest(w: World, u: Upload): World {
    if u.cleaned.Err? then
      Audited(w, NameOf(u), INGESTION, AUDIT_PDF_FAILED, u.now)
    else if u.summary.Err? then
      Audited(w, NameOf(u), LLM_ERROR,
              AuditLlmError(u.summary.error, u.httpStatus, |Strip(u.cleaned.value)|), u.now)
    else if Produced(u).Some? then
      w.(pending := UpsertAll(w.pending, RowsFor(u.batchId, Produced(u).value, u.now)))
    else
      w
  }

  function PointsFor(batchId: string, kept: seq<Chunk>): (points: seq<Point>)
    ensures |points| == |kept|
  {
    seq(|kept|, i requires 0 <= i < |kept| => Point(batchId, kept[i]))
  }

  /** What resume does once the batch has been removed from the table. */
  function Finalize(cleared: World, batchId: string, filename: string, r: DecisionResult, remote: Remote, now: string)
    : (World, Result<Option<Outcome>>)
  {
    if r.kept == [] then
      (Audited(cleared, filename, INGESTION, AuditAllRejected(batchId, r), now),
       Ok(Some(Outcome("rejected", 0, 0, r.rejected, 0))))
    else
      var indexed := cleared.(points := cleared.points + PointsFor(batchId, r.kept));
      match remote
      case Fails(error, taken) => (if taken then indexed else cleared, Err(error))
      case Works =>
        (Audited(indexed, filename, INGESTION, AuditSuccess(batchId, r, |r.kept|), now),
         Ok(Some(Outcome("ingested", r.approved + r.defaultApproved, r.edited, r.rejected, |r.kept|))))
  }

  /** resume: None where the batch is unknown, an error where the finalize raised. */
  function Resume(w: World, batchId: string, decisions: seq<Decision>, remote: Remote, now: string)
    : (World, Result<Option<Outcome>>)
  {
    var chunks := BatchChunks(w.pending, batchId);
    if chunks == [] then (w, Ok(None))
    else Finalize(w.(pending := Deleted(w.pending, batchId)), batchId, chunks[0].document.filename,
                  Reviewed(chunks, decisions), remote, now)
  }

  // -- the engine --------------------------------------------------------------------------------------

  class IngestionEngine {
    const store: IngestionStore
    var points: seq<Point>

    ghost predicate Valid()
      reads this, store
    {
      store.Valid()
    }

    ghost function Now(): World
      reads this, store
    {
      World(store.pending, store.auditLog, points)
    }

    constructor (store: IngestionStore)
      requires store.Valid()
      ensures Valid() && this.store == store && points == []
    {
      this.store := store;
      points := [];
    }

    method RunIngest(u: Upload)
      requires Valid()
      modifies this, store
      ensures Valid() && Now() == Ingest(old(Now()), u)
    {
      if u.cleaned.Err? {
        var _ := store.InsertAudit(NameOf(u), INGESTION, AUDIT_PDF_FAILED, u.now);
        return;
      }
      var clean := Strip(u.cleaned.value);
      if u.summary.Err? {
        var _ := store.InsertAudit(
          NameOf(u), LLM_ERROR, AuditLlmError(u.summary.error, u.httpStatus, |clean|), u.now);
        return;
      }
      var chunks: Result<seq<string>>;
      if Lower(u.strategy) == "fixed_size" {
        chunks := ChunkFixedSize(clean);
      } else {
        chunks := ChunkParagraphAware(clean);
      }
      if chunks.Err? {
        return;
      }
      var enriched := CompleteMetadata(chunks.value, clean, Described(u), u.epoch);
      if enriched.Err? {
        return;
      }
      store.WritePendingBatch(u.batchId, enriched.value, u.now);
    }

    method ResumeBatch(batchId: string, decisions: seq<Decision>, remote: Remote, now: string)
      returns (outcome: Result<Option<Outcome>>)
      requires Valid()
      modifies this, store
      ensures Valid() && (Now(), outcome) == Resume(old(Now()), batchId, decisions, remote, now)
    {
      var chunks := store.GetBatchChunks(batchId);
      if |chunks| == 0 {
        return Ok(None);
      }
      var result := ApplyDecisions(chunks, decisions);
      var filename := chunks[0].document.filename;
      store.DeleteBatch(batchId);
      outcome := FinalizeBatch(batchId, filename, result, remote, now);
    }

    /** resume after the batch has been removed. */
    method FinalizeBatch(batchId: string, filename: string, result: DecisionResult, remote: Remote, now: string)
      returns (outcome: Result<Option<Outcome>>)
      requires Valid()
      modifies this, store
      ensures Valid() && (Now(), outcome) == Finalize(old(Now()), batchId, filename, result, remote, now)
    {
      if |result.kept| == 0 {
        var _ := store.InsertAudit(filename, INGESTION, AuditAllRejected(batchId, result), now);
        return Ok(Some(Outcome("rejected", 0, 0, result.rejected, 0)));
      }
      if remote.Fails? && !remote.indexed {
        return Err(remote.error);
      }
      points := points + PointsFor(batchId, result.kept);
      if remote.Fails? {
        return Err(remote.error);
      }
      var _ := store.InsertAudit(filename, INGESTION, AuditSuccess(batchId, result, |result.kept|), now);
      return Ok(Some(Outcome("ingested", result.approved + result.defaultApproved, result.edited,
                             result.rejected, |result.kept|)));
    }
  }
}
