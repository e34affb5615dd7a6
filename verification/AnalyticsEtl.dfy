/**
 Incremental loading of the analytical store: rows updated since a watermark are read in
 pages and upserted batch by batch, and the watermark moves only when a run completes.

 The source does not change during a run and its query has one row order; between runs
 anything may be written that carries an update time above the watermark.
 */
module AnalyticsEtl {
  import opened Prelude

  const BATCH_SIZE := 5000

  type RowId = int

  /** `rest` stands for all the other copied columns. */
  datatype Row = Row(id: RowId, reportedAt: int, updatedAt: Option<int>, rest: int)

  /** Incidents keep the `reported_at` they were first loaded with; deployments do not. */
  datatype Pipeline = Incidents | Deployments

  type Table = map<RowId, Row>

  // --------------------------------------------------------------------- reading

  predicate NewerThan(row: Row, since: Option<int>) {
    since.None? || (row.updatedAt.Some? && row.updatedAt.value > since.value)
  }

  /** Ascending update times, missing ones last. */
  predicate InOrder(a: Row, b: Row) {
    b.updatedAt.None? || (a.updatedAt.Some? && a.updatedAt.value <= b.updatedAt.value)
  }

  ghost predicate TableOk(t: Table) {
    forall id :: id in t ==> t[id].id == id
  }

  /** One of the orders in which the query may list the rows newer than `since`. */
  ghost predicate QueryResult(source: Table, since: Option<int>, rows: seq<Row>) {
    && (forall i :: 0 <= i < |rows| ==> rows[i].id in source && source[rows[i].id] == rows[i] && NewerThan(rows[i], since))
    && (forall i, j :: 0 <= i < j < |rows| ==> rows[i].id != rows[j].id && InOrder(rows[i], rows[j]))
    && (forall id :: id in source && NewerThan(source[id], since) ==> source[id] in rows)
  }

  function Concat(batches: seq<seq<Row>>): seq<Row> {
    if batches == [] then [] else Concat(batches[..|batches| - 1]) + batches[|batches| - 1]
  }

  /** A page of the frozen query result. */
  function Page(rows: seq<Row>, limit: nat, offset: nat): seq<Row> {
    if offset >= |rows| then [] else if offset + limit <= |rows| then rows[offset..offset + limit] else rows[offset..]
  }

  /** Reads the whole result page by page: the batches are the result cut into full pages
      and a last one that is not empty. */
  method BatchRead(rows: seq<Row>, batchSize: nat) returns (batches: seq<seq<Row>>)
    requires batchSize > 0
    ensures Concat(batches) == rows
    ensures forall i :: 0 <= i < |batches| ==> 0 < |batches[i]| <= batchSize
    ensures forall i :: 0 <= i < |batches| - 1 ==> |batches[i]| == batchSize
  {
    batches := [];
    var offset := 0;
    while true
      invariant offset <= |rows| && Concat(batches) == rows[..offset]
      invariant forall i :: 0 <= i < |batches| ==> |batches[i]| == batchSize
      decreases |rows| - offset
    {
      var page := Page(rows, batchSize, offset);
      if page == [] {
        return;
      }
      assert (batches + [page])[..|batches|] == batches;
      batches := batches + [page];
      if |page| < batchSize {
        return;
      }
      offset := offset + batchSize;
    }
  }

  // --------------------------------------------------------------------- writing

  /** The row that a conflict on the primary key leaves behind. */
  function Merge(p: Pipeline, present: Row, excluded: Row): Row {
    if p.Incidents? then excluded.(reportedAt := present.reportedAt) else excluded
  }

  function UpsertRow(p: Pipeline, t: Table, row: Row): Table {
    t[row.id := if row.id in t then Merge(p, t[row.id], row) else row]
  }

  function Upsert(p: Pipeline, t: Table, rows: seq<Row>): Table {
    if rows == [] then t else UpsertRow(p, Upsert(p, t, rows[..|rows| - 1]), rows[|rows| - 1])
  }

  /** The latest update time among the rows, if any row has one. */
  function Latest(rows: seq<Row>): Option<int> {
    if rows == [] then None
    else
      var before, last := Latest(rows[..|rows| - 1]), rows[|rows| - 1].updatedAt;
      if last.Some? && (before.None? || last.value > before.value) then last else before
  }

  function Later(a: Option<int>, b: Option<int>): Option<int> {
    if b.Some? && (a.None? || b.value > a.value) then b else a
  }

  ghost predicate DistinctIds(rows: seq<Row>) {
    forall i, j :: 0 <= i < j < |rows| ==> rows[i].id != rows[j].id
  }

  lemma {:induction false} UpsertMerges(p: Pipeline, t: Table, rows: seq<Row>, id: RowId)
    requires DistinctIds(rows)
    ensures (id in Upsert(p, t, rows)) == (id in t || exists i :: 0 <= i < |rows| && rows[i].id == id)
    ensures (forall i :: 0 <= i < |rows| ==> rows[i].id != id) && id in t ==> Upsert(p, t, rows)[id] == t[id]
    ensures forall i :: 0 <= i < |rows| && rows[i].id == id ==>
      id in Upsert(p, t, rows) && Upsert(p, t, rows)[id] == if id in t then Merge(p, t[id], rows[i]) else rows[i]
  {
    if rows != [] {
      var n := |rows| - 1;
      var before := rows[..n];
      UpsertMerges(p, t, before, id);
      assert forall i :: 0 <= i < n ==> before[i] == rows[i];
      if i :| 0 <= i < |rows| && rows[i].id == id {
        assert i < n ==> before[i].id == id;
      }
    }
  }

  /** Upserting rows with distinct keys treats each row once, whatever their order. */
  lemma {:induction false} UpsertOf(p: Pipeline, t: Table, rows: seq<Row>, id: RowId)
    requires DistinctIds(rows)
    ensures (id in Upsert(p, t, rows)) == (id in t || exists i :: 0 <= i < |rows| && rows[i].id == id)
    ensures (forall i :: 0 <= i < |rows| ==> rows[i].id != id) && id in t ==> Upsert(p, t, rows)[id] == t[id]
    ensures forall i :: 0 <= i < |rows| && rows[i].id == id ==>
      id in Upsert(p, t, rows) &&
      Upsert(p, t, rows)[id] == if id in t && p == Incidents then rows[i].(reportedAt := t[id].reportedAt) else rows[i]
  {
    UpsertMerges(p, t, rows, id);
  }

  lemma {:induction false} LatestOf(rows: seq<Row>)
    ensures forall i :: 0 <= i < |rows| && rows[i].updatedAt.Some? ==>
      Latest(rows).Some? && rows[i].updatedAt.value <= Latest(rows).value
    ensures Latest(rows).Some? ==> exists i :: 0 <= i < |rows| && rows[i].updatedAt == Latest(rows)
  {
    if rows != [] {
      var n := |rows| - 1;
      LatestOf(rows[..n]);
      assert forall i :: 0 <= i < n ==> rows[..n][i] == rows[i];
      if Latest(rows[..n]).Some? {
        var i :| 0 <= i < n && rows[..n][i].updatedAt == Latest(rows[..n]);
        assert rows[i].updatedAt == Latest(rows[..n]);
      }
    }
  }

  lemma {:induction false} UpsertMore(p: Pipeline, t: Table, a: seq<Row>, b: seq<Row>)
    ensures Upsert(p, t, a + b) == Upsert(p, Upsert(p, t, a), b)
    ensures Latest(a + b) == Later(Latest(a), Latest(b))
  {
    if b == [] {
      assert a + b == a;
    } else {
      assert (a + b)[..|a + b| - 1] == a + b[..|b| - 1];
      UpsertMore(p, t, a, b[..|b| - 1]);
    }
  }

  // ----------------------------------------------------------------------- runs

  datatype Etl = Etl(source: Table, target: Table, watermark: Option<int>)

  /** A completed run over the query result `rows`. */
  function Complete(p: Pipeline, st: Etl, rows: seq<Row>): Etl {
    st.(target := Upsert(p, st.target, rows), watermark := Later(st.watermark, Latest(rows)))
  }

  /** A run that crashed after writing the first `n` rows. */
  function Crash(p: Pipeline, st: Etl, rows: seq<Row>, n: nat): Etl
    requires n <= |rows|
  {
    st.(target := Upsert(p, st.target, rows[..n]))
  }

  datatype Change =
    | Write(row: Row)
    | Delete(id: RowId)
    | Completed(rows: seq<Row>)
    | Crashed(rows: seq<Row>, n: nat)

  /** The update time lies at or below the watermark. */
  predicate Due(row: Row, watermark: Option<int>) {
    row.updatedAt.Some? && watermark.Some? && row.updatedAt.value <= watermark.value
  }

  /** No write carries an update time up to the watermark; runs see what the query gives. */
  ghost predicate Allowed(st: Etl, change: Change) {
    match change
    case Write(row) => !Due(row, st.watermark)
    case Delete(id) => true
    case Completed(rows) => QueryResult(st.source, st.watermark, rows)
    case Crashed(rows, n) => QueryResult(st.source, st.watermark, rows) && n <= |rows|
  }

  function Apply(p: Pipeline, st: Etl, change: Change): Etl {
    match change
    case Write(row) => st.(source := st.source[row.id := row])
    case Delete(id) => st.(source := st.source - {id})
    case Completed(rows) => Complete(p, st, rows)
    case Crashed(rows, n) => if n <= |rows| then Crash(p, st, rows, n) else st
  }

  function Replay(p: Pipeline, st: Etl, changes: seq<Change>): Etl {
    if changes == [] then st else Apply(p, Replay(p, st, changes[..|changes| - 1]), changes[|changes| - 1])
  }

  ghost predicate AllAllowed(p: Pipeline, st: Etl, changes: seq<Change>) {
    changes == [] ||
    (var before := changes[..|changes| - 1];
     AllAllowed(p, st, before) && Allowed(Replay(p, st, before), changes[|changes| - 1]))
  }

  // --------------------------------------------------------------------- mirror

  /** The target row has every column of the source row, but for the first `reported_at`. */
  predicate Agrees(p: Pipeline, s: Row, t: Row) {
    if p.Incidents? then t == s.(reportedAt := t.reportedAt) else t == s
  }

  predicate Mirrored(p: Pipeline, st: Etl, row: Row) {
    row.id in st.target && Agrees(p, row, st.target[row.id])
  }

  /** Every source row up to the watermark is in the target as it is in the source. */
  ghost predicate Mirror(p: Pipeline, st: Etl) {
    forall id :: id in st.source && Due(st.source[id], st.watermark) ==> Mirrored(p, st, st.source[id])
  }

  /** Rows the query left out are not touched, and those it listed agree afterwards. */
  lemma UpsertAgrees(p: Pipeline, st: Etl, rows: seq<Row>, id: RowId, t: Table)
    requires DistinctIds(rows) && t == Upsert(p, st.target, rows) && id in st.source && st.source[id].id == id
    requires forall i :: 0 <= i < |rows| && rows[i].id == id ==> rows[i] == st.source[id]
    requires st.source[id] in rows || Mirrored(p, st, st.source[id])
    ensures id in t && Agrees(p, st.source[id], t[id])
  {
    UpsertOf(p, st.target, rows, id);
    if st.source[id] in rows {
      var i :| 0 <= i < |rows| && rows[i] == st.source[id];
      assert rows[i].id == id;
    }
  }

  lemma CompleteKeepsMirror(p: Pipeline, st: Etl, rows: seq<Row>)
    requires TableOk(st.source) && Mirror(p, st) && QueryResult(st.source, st.watermark, rows)
    ensures Mirror(p, Complete(p, st, rows))
  {
    var st' := Complete(p, st, rows);
    forall id | id in st'.source && Due(st'.source[id], st'.watermark)
      ensures Mirrored(p, st', st'.source[id])
    {
      assert NewerThan(st.source[id], st.watermark) || Due(st.source[id], st.watermark);
      UpsertAgrees(p, st, rows, id, st'.target);
    }
  }

  lemma CrashKeepsMirror(p: Pipeline, st: Etl, rows: seq<Row>, n: nat)
    requires TableOk(st.source) && Mirror(p, st) && QueryResult(st.source, st.watermark, rows) && n <= |rows|
    ensures Mirror(p, Crash(p, st, rows, n))
  {
    var st' := Crash(p, st, rows, n);
    forall id | id in st'.source && Due(st'.source[id], st'.watermark)
      ensures Mirrored(p, st', st'.source[id])
    {
      UpsertAgrees(p, st, rows[..n], id, st'.target);
    }
  }

  /** A source write keeps the mirror exactly when it carries a new enough update time, or
      changes nothing that the target does not have already. */
  lemma WriteKeepsMirror(p: Pipeline, st: Etl, row: Row)
    requires Mirror(p, st)
    ensures Mirror(p, Apply(p, st, Write(row))) <==> !Due(row, st.watermark) || Mirrored(p, st, row)
  {
    var st' := Apply(p, st, Write(row));
    assert st'.source[row.id] == row;
    if !Due(row, st.watermark) || Mirrored(p, st, row) {
      forall id | id in st'.source && Due(st'.source[id], st'.watermark)
        ensures Mirrored(p, st', st'.source[id])
      {
        assert id != row.id ==> st'.source[id] == st.source[id] && Mirrored(p, st, st.source[id]);
      }
    }
  }

  /** The mirror invariant over every history of source changes, completed runs and crashes,
      and a watermark that never decreases. */
  lemma {:induction false} HistoriesMirror(p: Pipeline, st: Etl, changes: seq<Change>)
    requires TableOk(st.source) && Mirror(p, st) && AllAllowed(p, st, changes)
    ensures TableOk(Replay(p, st, changes).source) && Mirror(p, Replay(p, st, changes))
    ensures st.watermark.Some? ==>
      Replay(p, st, changes).watermark.Some? && st.watermark.value <= Replay(p, st, changes).watermark.value
  {
    if changes != [] {
      var before := changes[..|changes| - 1];
      HistoriesMirror(p, st, before);
      var st1 := Replay(p, st, before);
      match changes[|changes| - 1]
      case Write(row) => WriteKeepsMirror(p, st1, row);
      case Delete(id) =>
        assert forall k :: k in (st1.source - {id}) ==> (st1.source - {id})[k] == st1.source[k];
      case Completed(rows) => CompleteKeepsMirror(p, st1, rows);
      case Crashed(rows, n) => CrashKeepsMirror(p, st1, rows, n);
    }
  }

  /** An incident keeps the `reported_at` it was first loaded with for ever. */
  lemma {:induction false} ReportedAtIsKept(st: Etl, changes: seq<Change>, id: RowId)
    requires TableOk(st.source) && Mirror(Incidents, st) && AllAllowed(Incidents, st, changes) && id in st.target
    ensures id in Replay(Incidents, st, changes).target
    ensures Replay(Incidents, st, changes).target[id].reportedAt == st.target[id].reportedAt
  {
    if changes != [] {
      var before := changes[..|changes| - 1];
      ReportedAtIsKept(st, before, id);
      HistoriesMirror(Incidents, st, before);
      var st1 := Replay(Incidents, st, before);
      match changes[|changes| - 1]
      case Completed(rows) => UpsertKeepsReportedAt(st1.target, rows, id);
      case Crashed(rows, n) => UpsertKeepsReportedAt(st1.target, rows[..n], id);
      case _ =>
    }
  }

  lemma {:induction false} UpsertKeepsReportedAt(t: Table, rows: seq<Row>, id: RowId)
    requires id in t
    ensures id in Upsert(Incidents, t, rows) && Upsert(Incidents, t, rows)[id].reportedAt == t[id].reportedAt
  {
    if rows != [] {
      UpsertKeepsReportedAt(t, rows[..|rows| - 1], id);
    }
  }

  // ---------------------------------------------------------------------- reruns

  lemma SameLatest(source: Table, since: Option<int>, a: seq<Row>, b: seq<Row>)
    requires QueryResult(source, since, a) && QueryResult(source, since, b)
    ensures Latest(a) == Latest(b)
  {
    hide Latest;
    LatestAmong(source, since, a, b);
    LatestAmong(source, since, b, a);
  }

  /** Whatever one listing of the result has, the other has too. */
  lemma LatestAmong(source: Table, since: Option<int>, a: seq<Row>, b: seq<Row>)
    requires QueryResult(source, since, a) && QueryResult(source, since, b)
    ensures Latest(a).Some? ==> Latest(b).Some? && Latest(a).value <= Latest(b).value
  {
    hide Latest;
    LatestOf(a);
    if Latest(a).Some? {
      var i :| 0 <= i < |a| && a[i].updatedAt == Latest(a);
      LatestOf(b);
      assert a[i] in b;
    }
  }

  /** Upserting part of a result and then all of it, in whatever order, is upserting it once. */
  lemma UpsertAbsorbs(p: Pipeline, source: Table, since: Option<int>, t: Table, a: seq<Row>, n: nat, b: seq<Row>)
    requires TableOk(source) && QueryResult(source, since, a) && QueryResult(source, since, b) && n <= |a|
    ensures Upsert(p, Upsert(p, t, a[..n]), b) == Upsert(p, t, a)
  {
    hide Upsert, QueryResult;
    var t1 := Upsert(p, t, a[..n]);
    var l, r := Upsert(p, t1, b), Upsert(p, t, a);
    forall id
      ensures id in l <==> id in r
      ensures id in l ==> l[id] == r[id]
    {
      AbsorbsOne(p, source, since, t, a, n, b, id);
    }
    assert l == r;
  }

  lemma AbsorbsOne(p: Pipeline, source: Table, since: Option<int>, t: Table, a: seq<Row>, n: nat, b: seq<Row>, id: RowId)
    requires TableOk(source) && QueryResult(source, since, a) && QueryResult(source, since, b) && n <= |a|
    ensures var l, r := Upsert(p, Upsert(p, t, a[..n]), b), Upsert(p, t, a);
      (id in l <==> id in r) && (id in l ==> l[id] == r[id])
  {
    hide Upsert;
    UpsertMerges(p, t, a[..n], id);
    UpsertMerges(p, Upsert(p, t, a[..n]), b, id);
    UpsertMerges(p, t, a, id);
    if i :| 0 <= i < |a| && a[i].id == id {
      assert a[i] in b;
      var j :| 0 <= j < |b| && b[j] == a[i];
      assert b[j].id == id;
    }
    if j :| 0 <= j < |b| && b[j].id == id {
      assert b[j] in a;
      var i :| 0 <= i < |a| && a[i] == b[j];
      assert a[i].id == id;
    }
    forall k | 0 <= k < n && a[..n][k].id == id
      ensures a[k].id == id && a[k] == source[id]
    {
    }
  }

  /** Crashing and running again comes to the same as one uninterrupted run. */
  lemma CrashThenRerun(p: Pipeline, st: Etl, rows: seq<Row>, n: nat, again: seq<Row>)
    requires TableOk(st.source) && QueryResult(st.source, st.watermark, rows) && n <= |rows|
    requires QueryResult(st.source, st.watermark, again)
    ensures Complete(p, Crash(p, st, rows, n), again) == Complete(p, st, rows)
  {
    UpsertAbsorbs(p, st.source, st.watermark, st.target, rows, n, again);
    SameLatest(st.source, st.watermark, rows, again);
  }

  /** A further run on an unchanged source writes nothing, unless no row ever had an update
      time: then there is no watermark and every row is written again. */
  lemma RerunWritesNothing(p: Pipeline, st: Etl, rows: seq<Row>, again: seq<Row>)
    requires TableOk(st.source) && QueryResult(st.source, st.watermark, rows)
    requires QueryResult(st.source, Complete(p, st, rows).watermark, again)
    ensures again == [] <==> st.watermark.Some? || st.source == map[] || exists id :: id in st.source && st.source[id].updatedAt.Some?
    ensures again != [] ==> |again| == |st.source|
  {
    var since := Complete(p, st, rows).watermark;
    LatestExists(st, rows);
    if since.Some? {
      NothingNewer(p, st, rows, again);
    } else {
      forall id | id in st.source
        ensures st.source[id] in again
      {
        assert st.source[id] in again;
      }
      if again == [] {
        assert forall id :: id !in st.source;
        assert st.source.Keys == {};
      }
      CountRows(again, st.source.Keys);
      assert |st.source| == |st.source.Keys|;
    }
  }

  /** A run without a watermark finds one exactly when some row has an update time. */
  lemma LatestExists(st: Etl, rows: seq<Row>)
    requires TableOk(st.source) && QueryResult(st.source, st.watermark, rows)
    ensures st.watermark.None? ==> (Latest(rows).Some? <==> exists id :: id in st.source && st.source[id].updatedAt.Some?)
  {
    LatestOf(rows);
    if st.watermark.None? {
      if Latest(rows).Some? {
        var i :| 0 <= i < |rows| && rows[i].updatedAt == Latest(rows);
        assert rows[i].id in st.source;
      }
      if id :| id in st.source && st.source[id].updatedAt.Some? {
        assert st.source[id] in rows;
      }
    }
  }

  /** No row is newer than the watermark a run leaves behind. */
  lemma NothingNewer(p: Pipeline, st: Etl, rows: seq<Row>, again: seq<Row>)
    requires TableOk(st.source) && QueryResult(st.source, st.watermark, rows) && Complete(p, st, rows).watermark.Some?
    requires QueryResult(st.source, Complete(p, st, rows).watermark, again)
    ensures again == []
  {
    if again != [] {
      var row := again[0];
      if NewerThan(row, st.watermark) {
        assert st.source[row.id] in rows;
        LatestOf(rows);
      }
    }
  }

  lemma {:induction false} CountRows(rows: seq<Row>, ids: set<RowId>)
    requires DistinctIds(rows)
    requires forall i :: 0 <= i < |rows| ==> rows[i].id in ids
    requires forall id :: id in ids ==> exists i :: 0 <= i < |rows| && rows[i].id == id
    ensures |rows| == |ids|
  {
    if rows == [] {
      assert forall id :: id !in ids;
      assert ids == {};
    } else {
      var n := |rows| - 1;
      forall id | id in ids - {rows[n].id}
        ensures exists i :: 0 <= i < n && rows[..n][i].id == id
      {
        var i :| 0 <= i < |rows| && rows[i].id == id;
        assert rows[..n][i].id == id;
      }
      CountRows(rows[..n], ids - {rows[n].id});
    }
  }

  // -------------------------------------------------------------------- the code

  type PipelineId = int

  /** The analytical store: the target tables' rows and the watermarks of all pipelines. */
  class AnalyticsStore {
    var target: Table
    var watermarks: map<PipelineId, int>

    function GetWatermark(pipeline: PipelineId): (w: Option<int>)
      reads this
      ensures w.Some? <==> pipeline in watermarks
    {
      if pipeline in watermarks then Some(watermarks[pipeline]) else None
    }

    /** One transaction. */
    method WriteBatch(p: Pipeline, batch: seq<Row>) returns (written: nat)
      modifies this`target
      ensures target == Upsert(p, old(target), batch) && written == |batch|
    {
      assert batch[..|batch|] == batch;
      for i := 0 to |batch|
        invariant target == Upsert(p, old(target), batch[..i])
      {
        var row := batch[i];
        assert batch[..i + 1][..i] == batch[..i];
        if row.id in target {
          target := target[row.id := Merge(p, target[row.id], row)];
        } else {
          target := target[row.id := row];
        }
      }
      return |batch|;
    }

    /** A run over the frozen query result, crashing after `crashAfter` batches if asked to,
        be it after the last one and before the watermark is written. */
    method RunEtl(p: Pipeline, pipeline: PipelineId, rows: seq<Row>, crashAfter: Option<nat>)
      returns (completed: bool, written: nat)
      modifies this
      ensures written <= |rows| && target == Upsert(p, old(target), rows[..written])
      ensures completed ==> written == |rows|
      ensures completed ==> GetWatermark(pipeline) == Later(old(GetWatermark(pipeline)), Latest(rows))
      ensures !completed ==> watermarks == old(watermarks) && crashAfter.Some?
      ensures !completed ==> written == if crashAfter.value * 5000 <= |rows| then crashAfter.value * 5000 else |rows|
      ensures watermarks - {pipeline} == old(watermarks) - {pipeline}
    {
      var watermark := GetWatermark(pipeline);
      var newWatermark := watermark;
      written := 0;
      var batches := BatchRead(rows, BATCH_SIZE);
      assert batches[..0] == [];
      for k := 0 to |batches|
        invariant written == |Concat(batches[..k])|
        invariant target == Upsert(p, old(target), Concat(batches[..k]))
        invariant newWatermark == Later(watermark, Latest(Concat(batches[..k])))
        invariant watermarks == old(watermarks)
      {
        if crashAfter == Some(k) {
          ConcatPrefix(batches, k);
          FullBatches(batches, k);
          completed := false;
          return;
        }
        var n := WriteBatch(p, batches[k]);
        assert batches[..k + 1][..k] == batches[..k];
        UpsertMore(p, old(target), Concat(batches[..k]), batches[k]);
        written := written + n;
        var batchMax := Latest(batches[k]);
        if batchMax.Some? && (newWatermark.None? || batchMax.value > newWatermark.value) {
          newWatermark := batchMax;
        }
      }
      assert batches[..|batches|] == batches && rows[..|rows|] == rows;
      if crashAfter == Some(|batches|) {
        LastBatch(batches);
        completed := false;
        return;
      }
      if newWatermark.Some? && newWatermark != watermark {
        watermarks := watermarks[pipeline := newWatermark.value];
      }
      completed := true;
    }
  }

  lemma {:induction false} FullBatches(batches: seq<seq<Row>>, k: nat)
    requires k <= |batches| && forall i :: 0 <= i < k ==> |batches[i]| == BATCH_SIZE
    ensures |Concat(batches[..k])| == k * BATCH_SIZE
  {
    if k > 0 {
      FullBatches(batches, k - 1);
      assert batches[..k][..k - 1] == batches[..k - 1];
    }
  }

  lemma LastBatch(batches: seq<seq<Row>>)
    requires forall i :: 0 <= i < |batches| ==> |batches[i]| <= BATCH_SIZE
    requires forall i :: 0 <= i < |batches| - 1 ==> |batches[i]| == BATCH_SIZE
    ensures |Concat(batches)| <= |batches| * BATCH_SIZE
  {
    if batches != [] {
      FullBatches(batches, |batches| - 1);
    }
  }

  lemma {:induction false} ConcatPrefix(batches: seq<seq<Row>>, k: nat)
    requires k <= |batches|
    ensures |Concat(batches[..k])| <= |Concat(batches)|
    ensures Concat(batches[..k]) == Concat(batches)[..|Concat(batches[..k])|]
  {
    if k < |batches| {
      var before := batches[..|batches| - 1];
      ConcatPrefix(before, k);
      assert before[..k] == batches[..k];
    } else {
      assert batches[..k] == batches;
    }
  }

  /** A run of the code over a query result is a completed run or a crash after some rows,
      so that everything above holds of it. */
  method RunOnce(store: AnalyticsStore, p: Pipeline, pipeline: PipelineId, source: Table, rows: seq<Row>, crashAfter: Option<nat>)
    returns (completed: bool)
    requires TableOk(source) && QueryResult(source, store.GetWatermark(pipeline), rows)
    requires Mirror(p, Etl(source, store.target, store.GetWatermark(pipeline)))
    modifies store
    ensures Mirror(p, Etl(source, store.target, store.GetWatermark(pipeline)))
    ensures completed ==>
      Etl(source, store.target, store.GetWatermark(pipeline)) == Complete(p, old(Etl(source, store.target, store.GetWatermark(pipeline))), rows)
  {
    ghost var st := Etl(source, store.target, store.GetWatermark(pipeline));
    var written;
    completed, written := store.RunEtl(p, pipeline, rows, crashAfter);
    if completed {
      assert rows[..written] == rows;
      CompleteKeepsMirror(p, st, rows);
    } else {
      CrashKeepsMirror(p, st, rows, written);
    }
  }
}
