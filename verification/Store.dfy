/**
 The two tables of voice_agent/kb/ingestion/store.py.  A table is the sequence of its rows in
 insertion order; REPLACE removes the row that has the key and appends the new one.
 */
module Store {
  import opened ChunkIds
  import opened Metadata
  import opened Sorting

  datatype Row = Row(batchId: string, chunkId: string, chunk: Chunk, status: string, createdAt: string)

  datatype AuditRow = AuditRow(id: nat, createdAt: string, document: string, action: string, outcome: string)

  /** An entry of the review list. */
  datatype Batch = Batch(batchId: string, createdAt: string, count: nat, rows: seq<Row>)

  const PENDING: string := "pending"

  // -- the pending table as a value ------------------------------------------------------------

  predicate SameKey(a: Row, b: Row) {
    a.batchId == b.batchId && a.chunkId == b.chunkId
  }

  /** PRIMARY KEY (batch_id, chunk_id). */
  predicate Unique(table: seq<Row>) {
    forall i, j :: 0 <= i < j < |table| ==> !SameKey(table[i], table[j])
  }

  function Without(table: seq<Row>, row: Row): seq<Row> {
    if table == [] then []
    else (if SameKey(table[0], row) then [] else [table[0]]) + Without(table[1..], row)
  }

  function Upsert(table: seq<Row>, row: Row): seq<Row> {
    Without(table, row) + [row]
  }

  function UpsertAll(table: seq<Row>, rows: seq<Row>): seq<Row> {
    if rows == [] then table else Upsert(UpsertAll(table, rows[..|rows| - 1]), rows[|rows| - 1])
  }

  function RowsFor(batchId: string, chunks: seq<Chunk>, now: string): (rows: seq<Row>)
    ensures |rows| == |chunks|
  {
    seq(|chunks|, i requires 0 <= i < |chunks| => Row(batchId, chunks[i].chunkId, chunks[i], PENDING, now))
  }

  function Deleted(table: seq<Row>, batchId: string): seq<Row> {
    if table == [] then []
    else (if table[0].batchId == batchId then [] else [table[0]]) + Deleted(table[1..], batchId)
  }

  /** WHERE batch_id = ? AND status = 'pending'. */
  function RowsOf(table: seq<Row>, batchId: string): seq<Row> {
    if table == [] then []
    else (if table[0].batchId == batchId && table[0].status == PENDING then [table[0]] else [])
         + RowsOf(table[1..], batchId)
  }

  predicate RowBefore(a: Row, b: Row) {
    Less(a.chunkId, b.chunkId)
  }

  function ChunksOf(rows: seq<Row>): (chunks: seq<Chunk>)
    ensures |chunks| == |rows|
  {
    seq(|rows|, i requires 0 <= i < |rows| => rows[i].chunk)
  }

  /** What get_batch_chunks returns. */
  function BatchChunks(table: seq<Row>, batchId: string): seq<Chunk> {
    ChunksOf(Sort(RowsOf(table, batchId), RowBefore))
  }

  // -- the review list as a value -------------------------------------------------------------

  predicate BatchBefore(a: Batch, b: Batch) {
    Less(b.createdAt, a.createdAt)
  }

  predicate AllPending(table: seq<Row>) {
    forall r :: r in table ==> r.status == PENDING
  }

  // -- the store --------------------------------------------------------------------------------

  class IngestionStore {
    var pending: seq<Row>
    var auditLog: seq<AuditRow>

    ghost predicate Valid()
      reads this
    {
      && Unique(pending) && AllPending(pending)
      && forall i :: 0 <= i < |auditLog| ==> auditLog[i].id == i + 1
    }

    constructor ()
      ensures Valid() && pending == [] && auditLog == []
    {
      pending, auditLog := [], [];
    }

    method WritePendingBatch(batchId: string, chunks: seq<Chunk>, now: string)
      requires Valid()
      modifies this`pending
      ensures Valid()
      ensures pending == UpsertAll(old(pending), RowsFor(batchId, chunks, now))
    {
      var rows := RowsFor(batchId, chunks, now);
      for k := 0 to |rows|
        invariant pending == UpsertAll(old(pending), rows[..k])
        invariant Valid()
      {
        assert rows[..k + 1][..k] == rows[..k];
        UpsertIsUnique(pending, rows[k]);
        pending := Upsert(pending, rows[k]);
      }
      assert rows[..|rows|] == rows;
    }

    method GetBatchChunks(batchId: string) returns (chunks: seq<Chunk>)
      ensures chunks == BatchChunks(pending, batchId)
    {
      chunks := BatchChunks(pending, batchId);
    }

    method DeleteBatch(batchId: string)
      requires Valid()
      modifies this`pending
      ensures Valid()
      ensures pending == Deleted(old(pending), batchId)
      ensures forall r :: r in pending <==> r in old(pending) && r.batchId != batchId
    {
      DeletedIsUnique(pending, batchId);
      DeletedKeeps(pending, batchId);
      pending := Deleted(pending, batchId);
    }

    method InsertAudit(document: string, action: string, outcome: string, now: string) returns (row: AuditRow)
      requires Valid()
      modifies this`auditLog
      ensures Valid()
      ensures auditLog == old(auditLog) + [row]
      ensures row == AuditRow(|old(auditLog)| + 1, now, document, action, outcome)
      ensures forall r :: r in old(auditLog) ==> r.id < row.id
    {
      row := AuditRow(|auditLog| + 1, now, document, action, outcome);
      auditLog := auditLog + [row];
    }

    /** Each batch once, newest first, with what get_batch_chunks returns for it. */
    method ListPendingBatches() returns (batches: seq<Batch>)
      requires Valid()
      ensures forall i, j :: 0 <= i < j < |batches| ==> batches[i].batchId != batches[j].batchId
      ensures forall r :: r in pending ==> exists i :: 0 <= i < |batches| && batches[i].batchId == r.batchId
      ensures forall i :: 0 <= i < |batches| ==>
                var b := batches[i];
                b.rows != [] && b.count == |b.rows| && ChunksOf(b.rows) == BatchChunks(pending, b.batchId)
      ensures forall i :: 0 <= i < |batches| ==>
                var rows := RowsOf(pending, batches[i].batchId); rows != [] && batches[i].createdAt == rows[0].createdAt
      ensures forall i, j :: 0 <= i < j < |batches| ==> !Less(batches[i].createdAt, batches[j].createdAt)
    {
      var byBatch := GroupByBatch(pending);
      GroupsStaySorted(byBatch, pending);
      batches := SortChunks(Sort(byBatch, BatchBefore));
    }

    /** The chunks of every batch are sorted by id, in place. */
    static method SortChunks(grouped: seq<Batch>) returns (batches: seq<Batch>)
      ensures |batches| == |grouped|
      ensures forall i :: 0 <= i < |batches| ==> batches[i] == grouped[i].(rows := Sort(grouped[i].rows, RowBefore))
    {
      batches := grouped;
      for k := 0 to |batches|
        invariant |batches| == |grouped|
        invariant forall i :: 0 <= i < k ==> batches[i] == grouped[i].(rows := Sort(grouped[i].rows, RowBefore))
        invariant forall i :: k <= i < |batches| ==> batches[i] == grouped[i]
      {
        batches := batches[k := batches[k].(rows := Sort(batches[k].rows, RowBefore))];
      }
    }

    /** The loop over the rows, with a dictionary that keeps the order of first appearance. */
    static method GroupByBatch(rows: seq<Row>) returns (byBatch: seq<Batch>)
      requires AllPending(rows)
      ensures Grouped(byBatch, rows)
    {
      byBatch := [];
      for k := 0 to |rows|
        invariant Grouped(byBatch, rows[..k])
      {
        var r := rows[k];
        var at := FindGroup(byBatch, r.batchId);
        GroupedNext(byBatch, rows, k, at);
        byBatch := AddToGroup(byBatch, r, at);
      }
      assert rows[..|rows|] == rows;
    }

    static method AddToGroup(byBatch: seq<Batch>, r: Row, at: nat) returns (groups: seq<Batch>)
      requires at <= |byBatch|
      ensures groups == PutInGroup(byBatch, r, at)
    {
      groups := byBatch;
      if at == |groups| {
        groups := groups + [Batch(r.batchId, r.createdAt, 0, [])];
      }
      groups := groups[at := groups[at].(rows := groups[at].rows + [r], count := groups[at].count + 1)];
    }

    /** The lookup of setdefault; the number of groups where the batch is new. */
    static method FindGroup(byBatch: seq<Batch>, batchId: string) returns (at: nat)
      ensures at <= |byBatch| && (at < |byBatch| ==> byBatch[at].batchId == batchId)
      ensures forall i :: 0 <= i < at ==> byBatch[i].batchId != batchId
    {
      at := 0;
      while at < |byBatch| && byBatch[at].batchId != batchId
        invariant at <= |byBatch|
        invariant forall i :: 0 <= i < at ==> byBatch[i].batchId != batchId
      {
        at := at + 1;
      }
    }
  }

  // -- lemmas: the review list ---------------------------------------------------------------------

  predicate Grouped(byBatch: seq<Batch>, table: seq<Row>) {
    && (forall i, j :: 0 <= i < j < |byBatch| ==> byBatch[i].batchId != byBatch[j].batchId)
    && (forall r :: r in table ==> exists b :: b in byBatch && b.batchId == r.batchId)
    && (forall b :: b in byBatch ==>
          b.rows != [] && b.count == |b.rows| && b.rows == RowsOf(table, b.batchId)
          && b.createdAt == b.rows[0].createdAt)
  }

  function PutInGroup(byBatch: seq<Batch>, r: Row, at: nat): seq<Batch>
    requires at <= |byBatch|
  {
    var groups := if at == |byBatch| then byBatch + [Batch(r.batchId, r.createdAt, 0, [])] else byBatch;
    groups[at := groups[at].(rows := groups[at].rows + [r], count := groups[at].count + 1)]
  }

  lemma {:induction false} RowsOfAppend(a: seq<Row>, b: seq<Row>, batchId: string)
    ensures RowsOf(a + b, batchId) == RowsOf(a, batchId) + RowsOf(b, batchId)
  {
    if a == [] {
      assert a + b == b;
    } else {
      assert (a + b)[1..] == a[1..] + b;
      RowsOfAppend(a[1..], b, batchId);
    }
  }

  lemma {:induction false} NoRowsOf(table: seq<Row>, batchId: string)
    requires forall r :: r in table ==> r.batchId != batchId
    ensures RowsOf(table, batchId) == []
  {
    if table != [] {
      NoRowsOf(table[1..], batchId);
    }
  }

  lemma NewGroupHasNoRows(byBatch: seq<Batch>, table: seq<Row>, batchId: string)
    requires Grouped(byBatch, table) && forall i :: 0 <= i < |byBatch| ==> byBatch[i].batchId != batchId
    ensures RowsOf(table, batchId) == []
  {
    forall s | s in table
      ensures s.batchId != batchId
    {
      var b :| b in byBatch && b.batchId == s.batchId;
    }
    NoRowsOf(table, batchId);
  }

  lemma GroupsHaveTheRows(byBatch: seq<Batch>, table: seq<Row>, r: Row, at: nat, i: nat)
    requires Grouped(byBatch, table) && r.status == PENDING && at <= |byBatch|
    requires forall k :: 0 <= k < |byBatch| && k != at ==> byBatch[k].batchId != r.batchId
    requires at < |byBatch| ==> byBatch[at].batchId == r.batchId
    requires i < |PutInGroup(byBatch, r, at)|
    ensures var b := PutInGroup(byBatch, r, at)[i];
            b.rows != [] && b.count == |b.rows| && b.rows == RowsOf(table + [r], b.batchId)
            && b.createdAt == b.rows[0].createdAt
  {
    var b := PutInGroup(byBatch, r, at)[i];
    RowsOfAppend(table, [r], b.batchId);
    assert [r][1..] == [];
    if i < |byBatch| {
      assert byBatch[i] in byBatch;
    } else {
      NewGroupHasNoRows(byBatch, table, r.batchId);
    }
  }

  lemma GroupedStep(byBatch: seq<Batch>, table: seq<Row>, r: Row, at: nat)
    requires Grouped(byBatch, table) && r.status == PENDING && at <= |byBatch|
    requires forall i :: 0 <= i < at ==> byBatch[i].batchId != r.batchId
    requires at < |byBatch| ==> byBatch[at].batchId == r.batchId
    ensures Grouped(PutInGroup(byBatch, r, at), table + [r])
  {
    var groups := PutInGroup(byBatch, r, at);
    forall s | s in table + [r]
      ensures exists b :: b in groups && b.batchId == s.batchId
    {
      assert groups[at] in groups;
      if s in table {
        var b :| b in byBatch && b.batchId == s.batchId;
        var i :| 0 <= i < |byBatch| && byBatch[i] == b;
        assert groups[i] in groups && groups[i].batchId == b.batchId;
      }
    }
    forall b | b in groups
      ensures b.rows != [] && b.count == |b.rows| && b.rows == RowsOf(table + [r], b.batchId)
      ensures b.createdAt == b.rows[0].createdAt
    {
      var i :| 0 <= i < |groups| && groups[i] == b;
      GroupsHaveTheRows(byBatch, table, r, at, i);
    }
  }

  lemma GroupedNext(byBatch: seq<Batch>, rows: seq<Row>, k: nat, at: nat)
    requires k < |rows| && Grouped(byBatch, rows[..k]) && rows[k].status == PENDING && at <= |byBatch|
    requires forall i :: 0 <= i < at ==> byBatch[i].batchId != rows[k].batchId
    requires at < |byBatch| ==> byBatch[at].batchId == rows[k].batchId
    ensures Grouped(PutInGroup(byBatch, rows[k], at), rows[..k + 1])
  {
    assert rows[..k + 1] == rows[..k] + [rows[k]];
    var front := rows[..k];
    GroupedStep(byBatch, front, rows[k], at);
  }

  lemma BatchesAreOrdered()
    ensures IsOrder(BatchBefore)
  {
    forall x: Batch, y: Batch | BatchBefore(x, y)
      ensures !BatchBefore(y, x)
    {
      LessIsStrict(y.createdAt, x.createdAt);
    }
    forall x: Batch, y: Batch, z: Batch | !BatchBefore(y, x) && !BatchBefore(z, y)
      ensures !BatchBefore(z, x)
    {
      NotLessIsTransitive(z.createdAt, y.createdAt, x.createdAt);
    }
  }

  lemma RowsAreOrdered()
    ensures IsOrder(RowBefore)
  {
    forall x: Row, y: Row | RowBefore(x, y)
      ensures !RowBefore(y, x)
    {
      LessIsStrict(x.chunkId, y.chunkId);
    }
    forall x: Row, y: Row, z: Row | !RowBefore(y, x) && !RowBefore(z, y)
      ensures !RowBefore(z, x)
    {
      NotLessIsTransitive(x.chunkId, y.chunkId, z.chunkId);
    }
  }

  lemma NotLessIsTransitive(a: string, b: string, c: string)
    requires !Less(b, a) && !Less(c, b)
    ensures !Less(c, a)
  {
    if Less(c, a) {
      LessIsTotal(a, b);
      if a != b {
        LessIsTransitive(c, a, b);
      }
    }
  }

  lemma SameElements<T>(a: seq<T>, b: seq<T>)
    requires multiset(a) == multiset(b)
    ensures forall x :: x in a <==> x in b
  {
    forall x
      ensures x in a <==> x in b
    {
      assert x in a <==> x in multiset(a);
      assert x in b <==> x in multiset(b);
    }
  }

  /** Sorting the groups brings no two of one batch. */
  lemma PermutedStaysDistinct(a: seq<Batch>, b: seq<Batch>)
    requires multiset(a) == multiset(b)
    requires forall i, j :: 0 <= i < j < |b| ==> b[i].batchId != b[j].batchId
    ensures forall i, j :: 0 <= i < j < |a| ==> a[i].batchId != a[j].batchId
  {
    SameElements(a, b);
    forall i, j | 0 <= i < j < |a|
      ensures a[i].batchId != a[j].batchId
    {
      if a[i].batchId == a[j].batchId {
        assert a[i] in b && a[j] in b;
        var k :| 0 <= k < |b| && b[k] == a[i];
        var l :| 0 <= l < |b| && b[l] == a[j];
        CountsTwice(a, i, j);
        CountsOnce(b, k);
      }
    }
  }

  /** Sorting the groups keeps them, newest first. */
  lemma GroupsStaySorted(byBatch: seq<Batch>, table: seq<Row>)
    requires Grouped(byBatch, table)
    ensures var batches := Sort(byBatch, BatchBefore);
            && Sorted(batches, BatchBefore)
            && (forall i, j :: 0 <= i < j < |batches| ==> batches[i].batchId != batches[j].batchId)
            && (forall r :: r in table ==> exists i :: 0 <= i < |batches| && batches[i].batchId == r.batchId)
            && (forall i :: 0 <= i < |batches| ==>
                  var b := batches[i];
                  b.rows != [] && b.count == |b.rows| && b.rows == RowsOf(table, b.batchId)
                  && b.createdAt == b.rows[0].createdAt)
  {
    var batches := Sort(byBatch, BatchBefore);
    BatchesAreOrdered();
    SortSorts(byBatch, BatchBefore);
    SameElements(batches, byBatch);
    PermutedStaysDistinct(batches, byBatch);
    forall r | r in table
      ensures exists i :: 0 <= i < |batches| && batches[i].batchId == r.batchId
    {
      var b :| b in byBatch && b.batchId == r.batchId;
      assert b in batches;
    }
    assert forall i :: 0 <= i < |batches| ==> batches[i] in byBatch;
  }

  // -- lemmas: what is written is what is read ------------------------------------------------------

  lemma {:induction false} WithoutKeeps(table: seq<Row>, row: Row)
    ensures forall r :: r in Without(table, row) <==> r in table && !SameKey(r, row)
  {
    if table != [] {
      WithoutKeeps(table[1..], row);
    }
  }

  lemma {:induction false} WithoutIsUnique(table: seq<Row>, row: Row)
    requires Unique(table)
    ensures Unique(Without(table, row))
  {
    if table != [] {
      WithoutIsUnique(table[1..], row);
      WithoutKeeps(table[1..], row);
      var rest := Without(table[1..], row);
      forall j | 0 <= j < |rest|
        ensures !SameKey(table[0], rest[j])
      {
        assert rest[j] in rest;
      }
    }
  }

  lemma UpsertIsUnique(table: seq<Row>, row: Row)
    requires Unique(table)
    ensures Unique(Upsert(table, row))
    ensures forall r :: r in Upsert(table, row) ==> r in table || r == row
  {
    WithoutKeeps(table, row);
    WithoutIsUnique(table, row);
    var t := Without(table, row);
    forall i | 0 <= i < |t|
      ensures !SameKey(t[i], row)
    {
      assert t[i] in t;
    }
  }

  /** REPLACE: the new row is there, and of the others all with another key. */
  lemma UpsertIs(table: seq<Row>, row: Row)
    ensures forall r :: r in Upsert(table, row) <==>
              r == row || (r in table && !(r.batchId == row.batchId && r.chunkId == row.chunkId))
  {
    WithoutKeeps(table, row);
  }

  lemma {:induction false} DeletedKeeps(table: seq<Row>, batchId: string)
    ensures forall r :: r in Deleted(table, batchId) <==> r in table && r.batchId != batchId
  {
    if table != [] {
      DeletedKeeps(table[1..], batchId);
    }
  }

  lemma {:induction false} DeletedIsUnique(table: seq<Row>, batchId: string)
    ensures Unique(table) ==> Unique(Deleted(table, batchId))
    ensures AllPending(table) ==> AllPending(Deleted(table, batchId))
  {
    DeletedKeeps(table, batchId);
    if table != [] {
      DeletedKeeps(table[1..], batchId);
      DeletedIsUnique(table[1..], batchId);
    }
  }

  lemma {:induction false} RowsOfHolds(table: seq<Row>, batchId: string)
    ensures forall r :: r in RowsOf(table, batchId) <==> r in table && r.batchId == batchId && r.status == PENDING
  {
    if table != [] {
      RowsOfHolds(table[1..], batchId);
    }
  }

  lemma {:induction false} WithoutSparesOthers(table: seq<Row>, row: Row, batchId: string)
    requires row.batchId != batchId
    ensures RowsOf(Without(table, row), batchId) == RowsOf(table, batchId)
  {
    if table != [] {
      var first := if SameKey(table[0], row) then [] else [table[0]];
      WithoutSparesOthers(table[1..], row, batchId);
      RowsOfAppend(first, Without(table[1..], row), batchId);
      RowsOfAppend([table[0]], table[1..], batchId);
      assert table == [table[0]] + table[1..];
    }
  }

  lemma {:induction false} WithoutAbsentKey(table: seq<Row>, row: Row)
    requires forall r :: r in table ==> !SameKey(r, row)
    ensures Without(table, row) == table
  {
    if table != [] {
      WithoutAbsentKey(table[1..], row);
    }
  }

  /** Writing a batch leaves what every other batch holds as it was. */
  lemma {:induction false} WritingSparesOthers(table: seq<Row>, rows: seq<Row>, batchId: string)
    requires forall r :: r in rows ==> r.batchId != batchId
    ensures RowsOf(UpsertAll(table, rows), batchId) == RowsOf(table, batchId)
  {
    if rows != [] {
      var row := rows[|rows| - 1];
      var before := UpsertAll(table, rows[..|rows| - 1]);
      WritingSparesOthers(table, rows[..|rows| - 1], batchId);
      WithoutSparesOthers(before, row, batchId);
      RowsOfAppend(Without(before, row), [row], batchId);
    }
  }

  lemma {:induction false} DeletingSparesOthers(table: seq<Row>, deleted: string, batchId: string)
    ensures RowsOf(Deleted(table, deleted), batchId) == if batchId == deleted then [] else RowsOf(table, batchId)
  {
    if table != [] {
      var first := if table[0].batchId == deleted then [] else [table[0]];
      DeletingSparesOthers(table[1..], deleted, batchId);
      RowsOfAppend(first, Deleted(table[1..], deleted), batchId);
      RowsOfAppend([table[0]], table[1..], batchId);
      assert table == [table[0]] + table[1..];
    }
  }

  lemma NewKey(table: seq<Row>, written: seq<Row>, row: Row)
    requires RowsOf(table, row.batchId) == written && AllPending(table)
    requires forall r :: r in written ==> r.chunkId != row.chunkId
    ensures Without(table, row) == table
  {
    RowsOfHolds(table, row.batchId);
    forall r | r in table
      ensures !SameKey(r, row)
    {
      assert r.batchId == row.batchId ==> r in written;
    }
    WithoutAbsentKey(table, row);
  }

  /** The rows of a new batch are those written, in the order written, and they are all that is new. */
  lemma {:induction false} WrittenRows(table: seq<Row>, rows: seq<Row>, batchId: string)
    requires AllPending(table) && RowsOf(table, batchId) == []
    requires forall r :: r in rows ==> r.batchId == batchId && r.status == PENDING
    requires forall i, j :: 0 <= i < j < |rows| ==> rows[i].chunkId != rows[j].chunkId
    ensures RowsOf(UpsertAll(table, rows), batchId) == rows
    ensures UpsertAll(table, rows) == table + rows
  {
    if rows == [] {
      assert table + rows == table;
    } else {
      var row, front := rows[|rows| - 1], rows[..|rows| - 1];
      WrittenRows(table, front, batchId);
      NewKey(table + front, front, row);
      RowsOfAppend(table + front, [row], batchId);
      assert [row][1..] == [] && rows == front + [row];
      assert table + front + [row] == table + rows;
    }
  }

  /** Of a new batch there is one pending row for each chunk, of the time of the call. */
  lemma WrittenRowsAre(table: seq<Row>, batchId: string, chunks: seq<Chunk>, now: string, i: nat)
    requires AllPending(table) && RowsOf(table, batchId) == [] && Numbered(chunks) && i < |chunks|
    ensures var rows := RowsOf(UpsertAll(table, RowsFor(batchId, chunks, now)), batchId);
            |rows| == |chunks| && rows[i] == Row(batchId, chunks[i].chunkId, chunks[i], "pending", now)
  {
    RowsForAreDistinct(batchId, chunks, now);
    WrittenRows(table, RowsFor(batchId, chunks, now), batchId);
  }

  lemma RowsForAreDistinct(batchId: string, chunks: seq<Chunk>, now: string)
    requires Numbered(chunks)
    ensures var rows := RowsFor(batchId, chunks, now);
            forall i, j :: 0 <= i < j < |rows| ==> rows[i].chunkId != rows[j].chunkId
  {
    forall i, j | 0 <= i < j < |chunks|
      ensures chunks[i].chunkId != chunks[j].chunkId
    {
      if ChunkId(i) == ChunkId(j) {
        IdsAreDistinct(i, j);
      }
    }
  }

  predicate Numbered(chunks: seq<Chunk>) {
    forall i :: 0 <= i < |chunks| ==> chunks[i].chunkId == ChunkId(i)
  }

  lemma {:induction false} NumberedRowsInOrderIff(rows: seq<Row>)
    requires forall i :: 0 <= i < |rows| ==> rows[i].chunkId == ChunkId(i)
    ensures Sorted(rows, RowBefore) <==> |rows| <= 1000
  {
    if |rows| > 1000 {
      IdsAreMisordered();
      assert RowBefore(rows[1000], rows[101]);
    } else {
      forall i, j | 0 <= i < j < |rows|
        ensures !RowBefore(rows[j], rows[i])
      {
        IdsAreOrdered(i, j);
        LessIsStrict(ChunkId(i), ChunkId(j));
      }
    }
  }

  /** However many there are, no chunk is lost or added. */
  lemma SortedRowsHold(rows: seq<Row>)
    ensures var read := Sort(rows, RowBefore);
            Sorted(read, RowBefore) && |read| == |rows| && forall c :: c in ChunksOf(read) <==> c in ChunksOf(rows)
  {
    RowsAreOrdered();
    SortSorts(rows, RowBefore);
    var read := Sort(rows, RowBefore);
    SameElements(read, rows);
    SameChunks(read, rows);
    SameChunks(rows, read);
  }

  /** get_batch_chunks gives the chunks of the pending rows of the batch, and no others. */
  lemma BatchChunksAre(table: seq<Row>, batchId: string, c: Chunk)
    ensures c in BatchChunks(table, batchId) <==>
            exists r :: r in table && r.batchId == batchId && r.status == PENDING && r.chunk == c
  {
    var rows := RowsOf(table, batchId);
    RowsOfHolds(table, batchId);
    SortedRowsHold(rows);
    if r :| r in table && r.batchId == batchId && r.status == PENDING && r.chunk == c {
      assert r in rows;
      var i :| 0 <= i < |rows| && rows[i] == r;
      assert ChunksOf(rows)[i] == c;
    }
    if c in ChunksOf(rows) {
      var i :| 0 <= i < |rows| && ChunksOf(rows)[i] == c;
      assert rows[i] in rows;
    }
  }

  /** They are sorted by chunk id. */
  lemma BatchChunksAreSorted(table: seq<Row>, batchId: string)
    requires forall r :: r in table ==> r.chunk.chunkId == r.chunkId
    ensures var chunks := BatchChunks(table, batchId);
            forall i, j :: 0 <= i < j < |chunks| ==> !Less(chunks[j].chunkId, chunks[i].chunkId)
  {
    var rows := RowsOf(table, batchId);
    var read := Sort(rows, RowBefore);
    RowsOfHolds(table, batchId);
    RowsAreOrdered();
    SortSorts(rows, RowBefore);
    SameElements(read, rows);
    forall i | 0 <= i < |read|
      ensures ChunksOf(read)[i].chunkId == read[i].chunkId
    {
      assert read[i] in rows && read[i] in table;
    }
  }

  lemma SameChunks(a: seq<Row>, b: seq<Row>)
    requires forall r :: r in a ==> r in b
    ensures forall c :: c in ChunksOf(a) ==> c in ChunksOf(b)
  {
    forall c | c in ChunksOf(a)
      ensures c in ChunksOf(b)
    {
      var i :| 0 <= i < |a| && a[i].chunk == c;
      assert a[i] in b;
      var j :| 0 <= j < |b| && b[j] == a[i];
      assert ChunksOf(b)[j] == c;
    }
  }

  lemma {:induction false} NumberedReadsBackIff(rows: seq<Row>, chunks: seq<Chunk>)
    requires |rows| == |chunks| && Numbered(chunks)
    requires forall i :: 0 <= i < |rows| ==> rows[i].chunk == chunks[i] && rows[i].chunkId == chunks[i].chunkId
    ensures ChunksOf(Sort(rows, RowBefore)) == chunks <==> |chunks| <= 1000
  {
    NumberedRowsInOrderIff(rows);
    if |chunks| <= 1000 {
      SortKeepsSorted(rows, RowBefore);
      assert ChunksOf(rows) == chunks;
    } else {
      var read := Sort(rows, RowBefore);
      RowsAreOrdered();
      SortSorts(rows, RowBefore);
      SameElements(read, rows);
      forall i | 0 <= i < |read|
        ensures read[i].chunkId == read[i].chunk.chunkId
      {
        assert read[i] in rows;
      }
      IdsAreMisordered();
      assert ChunksOf(read)[101] == read[101].chunk && ChunksOf(read)[1000] == read[1000].chunk;
    }
  }

  /**
   A new batch is read back with all its chunks, and in the order of the index exactly if it
   has at most a thousand.
   */
  lemma {:induction false} BatchReadsBackIff(table: seq<Row>, batchId: string, chunks: seq<Chunk>, now: string)
    requires AllPending(table) && RowsOf(table, batchId) == [] && Numbered(chunks)
    ensures var read := BatchChunks(UpsertAll(table, RowsFor(batchId, chunks, now)), batchId);
            && (read == chunks <==> |chunks| <= 1000)
            && |read| == |chunks| && forall c :: c in read <==> c in chunks
  {
    var rows := RowsFor(batchId, chunks, now);
    RowsForAreDistinct(batchId, chunks, now);
    WrittenRows(table, rows, batchId);
    NumberedReadsBackIff(rows, chunks);
    SortedRowsHold(rows);
    assert ChunksOf(rows) == chunks;
  }
}
