/**
 * The scan service: it starts a scan of a stored connection, runs it (walks
 * the inspector's schemas, tables and columns, classifies every column and
 * stores the tree with its summary), cancels it, and answers the history
 * queries. The scan-result store and the connection store are in-memory maps
 * keyed by id; a run is one sequential step taken after the start.
 */
module ScanService {
  import opened Wrappers
  import opened Sorting
  import opened Domain
  import opened Risk
  import opened Scan

  /** What a started scan hands to its run: the record as created and the connection to scan. */
  datatype ScanJob = ScanJob(record: ScanResult, conn: DatabaseConnection)

  const ScanNotFound := "scan result not found"

  const ConnectionNotFound := "database connection not found"

  const CancelMessage := "Cancelled by user"

  /** The record a new scan starts with: pending, not completed, no tree and an empty summary. */
  function PendingRecord(scanId: Uuid, databaseId: Uuid, now: Time): ScanResult
  {
    ScanResult(scanId, databaseId, now, None, Pending, "", [], EmptySummary)
  }

  /** A record after a status write: `completedAt` is stamped for a terminal status and cleared otherwise. */
  function WithStatus(r: ScanResult, status: ScanStatus, message: string, now: Time): (r': ScanResult)
    ensures r'.completedAt.Some? <==> status.IsTerminal()
  {
    r.(status := status, completedAt := if status.IsTerminal() then Some(now) else None, errorMessage := message)
  }

  /** The record of a finished run, written over the whole stored record. */
  function CompletedRecord(record: ScanResult, tree: seq<SchemaResult>, start: Time, end: Time): ScanResult
  {
    record.(completedAt := Some(end), status := Completed, schemas := tree, summary := Summary(tree, end - start))
  }

  /** The connections after a run stamps `id` as scanned at `at`; an unknown id changes nothing. */
  function Stamped(conns: map<Uuid, DatabaseConnection>, id: Uuid, at: Time): map<Uuid, DatabaseConnection>
  {
    if id in conns then conns[id := conns[id].(lastScannedAt := Some(at), updatedAt := at)] else conns
  }

  function StartedAt(r: ScanResult): int { r.startedAt }

  /** The number of entries to return for a requested history limit: 10 unless a positive limit is given. */
  function HistoryLimit(limit: int): (n: int)
    ensures n > 0
    ensures limit > 0 ==> n == limit
    ensures limit <= 0 ==> n == 10
  {
    if limit <= 0 then 10 else limit
  }

  class ScanService {
    var scans: map<Uuid, ScanResult>
    var connections: map<Uuid, DatabaseConnection>
    /** The classification service's answer for a column name. */
    const classify: string -> Classification

    /** Every record is stored under its own id, and is stamped completed exactly when its status is terminal. */
    ghost predicate Valid()
      reads this
    {
      forall id :: id in scans ==> scans[id].id == id && (scans[id].completedAt.Some? <==> scans[id].status.IsTerminal())
    }

    constructor (classify: string -> Classification, connections: map<Uuid, DatabaseConnection>)
      ensures Valid()
      ensures this.classify == classify && this.connections == connections && scans == map[]
    {
      this.classify := classify;
      this.connections := connections;
      scans := map[];
    }

    /** The store's status write: a missing id is an error and changes nothing. */
    method UpdateStatus(id: Uuid, status: ScanStatus, message: string, now: Time) returns (err: Option<string>)
      requires Valid()
      modifies this
      ensures Valid()
      ensures connections == old(connections)
      ensures id !in old(scans) ==> err == Some(ScanNotFound) && scans == old(scans)
      ensures id in old(scans) ==> err.None? && scans == old(scans)[id := WithStatus(old(scans)[id], status, message, now)]
    {
      if id !in scans {
        return Some(ScanNotFound);
      }
      scans := scans[id := WithStatus(scans[id], status, message, now)];
      return None;
    }

    /**
     * Starts a scan of the connection `databaseId` under the new id `scanId`:
     * an unknown connection is an error and stores nothing; otherwise a
     * pending record is stored and the job for the run is handed back.
     */
    method StartScan(databaseId: Uuid, scanId: Uuid, now: Time) returns (r: Result<Uuid, string>, job: Option<ScanJob>)
      requires Valid()
      requires scanId !in scans
      modifies this
      ensures Valid()
      ensures connections == old(connections)
      ensures databaseId !in connections ==> r == Failure("failed to get database connection: " + ConnectionNotFound)
      ensures databaseId !in connections ==> job == None && scans == old(scans)
      ensures databaseId in connections ==> r == Success(scanId)
      ensures databaseId in connections ==> scans == old(scans)[scanId := PendingRecord(scanId, databaseId, now)]
      ensures databaseId in connections ==> job == Some(ScanJob(PendingRecord(scanId, databaseId, now), connections[databaseId]))
    {
      if databaseId !in connections {
        return Failure("failed to get database connection: " + ConnectionNotFound), None;
      }
      var conn := connections[databaseId];
      var record := PendingRecord(scanId, databaseId, now);
      scans := scans[scanId := record];
      return Success(scanId), Some(ScanJob(record, conn));
    }

    /**
     * The body of a run: marks the scan running, walks the inspector and
     * classifies every column while counting, then writes the completed
     * record and stamps the connection. The first error stops the walk and is
     * returned; the running mark stays.
     */
    method PerformScan(job: ScanJob, password: Result<string, string>, insp: Inspector, start: Time, end: Time)
      returns (err: Option<string>)
      requires Valid()
      requires job.record.id !in scans || scans[job.record.id].id == job.record.id
      modifies this
      ensures Valid()
      ensures job.record.id !in old(scans) ==>
                && err == Some("failed to update scan status to running: " + ScanNotFound)
                && scans == old(scans) && connections == old(connections)
      ensures job.record.id in old(scans) && ScanTree(insp, job.conn, password, classify).Failure? ==>
                && err == Some(ScanTree(insp, job.conn, password, classify).error)
                && scans == old(scans)[job.record.id := WithStatus(old(scans)[job.record.id], Running, "", start)]
                && connections == old(connections)
      ensures job.record.id in old(scans) && ScanTree(insp, job.conn, password, classify).Success? ==>
                && err == None
                && scans == old(scans)[job.record.id := CompletedRecord(job.record, ScanTree(insp, job.conn, password, classify).value, start, end)]
                && connections == Stamped(old(connections), job.conn.id, end)
    {
      var id, conn := job.record.id, job.conn;
      var e := UpdateStatus(id, Running, "", start);
      if e.Some? {
        return Some("failed to update scan status to running: " + e.value);
      }
      var tree, summary := Inspect(conn, password, insp, end - start);
      if tree.Failure? {
        return Some(tree.error);
      }
      scans := scans[id := job.record.(completedAt := Some(end), status := Completed, schemas := tree.value, summary := summary)];
      if conn.id in connections {
        connections := connections[conn.id := connections[conn.id].(lastScannedAt := Some(end), updatedAt := end)];
      }
      return None;
    }

    /**
     * The part of `performScan` between the status write and the final
     * write: decrypt, connect, list the schemas, walk them, and sum up.
     */
    method Inspect(conn: DatabaseConnection, password: Result<string, string>, insp: Inspector, duration: int)
      returns (tree: Result<seq<SchemaResult>, string>, summary: ScanSummary)
      ensures tree == ScanTree(insp, conn, password, classify)
      ensures tree.Success? ==> summary == Summary(tree.value, duration)
    {
      summary := EmptySummary;
      if password.Failure? {
        return Failure("failed to decrypt password: " + password.error), summary;
      }
      var connectError := insp.connect(conn.host, conn.port, conn.username, password.value);
      if connectError.Some? {
        return Failure("failed to connect to MySQL: " + connectError.value), summary;
      }
      if insp.schemas.Failure? {
        return Failure("failed to get schemas: " + insp.schemas.error), summary;
      }
      var schemas := insp.schemas.value;
      var walkError, schemaResults, totalTables, totalColumns, classifiedColumns, counts := Walk(insp, schemas);
      if walkError.Some? {
        return Failure(walkError.value), summary;
      }
      SchemasTreeLength(insp, schemas, classify);
      var risk := CalculateRiskLevel(counts, totalColumns);
      summary := ScanSummary(|schemas|, totalTables, totalColumns, classifiedColumns, counts, Some(risk), duration);
      return Success(schemaResults), summary;
    }

    /**
     * The nested walk of `performScan`: for each schema its tables, for each
     * table its columns, classifying each column and keeping the running
     * totals and the per-type counts.
     */
    method Walk(insp: Inspector, schemas: seq<string>)
      returns (err: Option<string>, schemaResults: seq<SchemaResult>, totalTables: nat, totalColumns: nat,
               classifiedColumns: nat, counts: map<InformationType, int>)
      ensures err.Some? <==> SchemasTree(insp, schemas, classify).Failure?
      ensures err.Some? ==> err.value == SchemasTree(insp, schemas, classify).error
      ensures err.None? ==> schemaResults == SchemasTree(insp, schemas, classify).value
      ensures totalTables == TreeTables(schemaResults)
      ensures totalColumns == |TreeColumns(schemaResults)|
      ensures classifiedColumns == Classified(TreeColumns(schemaResults))
      ensures counts == CountByType(TreeColumns(schemaResults))
    {
      err := None;
      schemaResults := [];
      totalTables, totalColumns, classifiedColumns := 0, 0, 0;
      counts := map[];
      for i := 0 to |schemas|
        invariant SchemasTree(insp, schemas[..i], classify) == Success(schemaResults)
        invariant totalTables == TreeTables(schemaResults)
        invariant totalColumns == |TreeColumns(schemaResults)|
        invariant classifiedColumns == Classified(TreeColumns(schemaResults))
        invariant counts == CountByType(TreeColumns(schemaResults))
      {
        var s := schemas[i];
        var listed := insp.tables(s);
        if listed.Failure? {
          SchemasTreeStep(insp, schemas, i, classify);
          SchemasTreeFailurePersists(insp, schemas, i + 1, classify);
          return Some(TablesError(s, listed.error)), schemaResults, totalTables, totalColumns, classifiedColumns, counts;
        }
        var tables := listed.value;
        var e, tableResults, columns', classified', counts' :=
          WalkTables(insp, s, tables, totalColumns, classifiedColumns, counts, TreeColumns(schemaResults));
        SchemasTreeStep(insp, schemas, i, classify);
        if e.Some? {
          SchemasTreeFailurePersists(insp, schemas, i + 1, classify);
          return e, schemaResults, totalTables, totalColumns, classifiedColumns, counts;
        }
        totalTables := totalTables + |tableResults|;
        totalColumns, classifiedColumns, counts := columns', classified', counts';
        AppendSchema(schemaResults, SchemaResult(s, tableResults));
        schemaResults := schemaResults + [SchemaResult(s, tableResults)];
      }
      assert schemas[..|schemas|] == schemas;
    }

    /**
     * The tables of one schema, continuing the totals of the columns `done`
     * walked so far.
     */
    method WalkTables(insp: Inspector, s: string, tables: seq<string>, totalColumns0: nat, classified0: nat,
                      counts0: map<InformationType, int>, ghost done: seq<ColumnResult>)
      returns (err: Option<string>, tableResults: seq<TableResult>, totalColumns: nat, classifiedColumns: nat,
               counts: map<InformationType, int>)
      requires totalColumns0 == |done| && classified0 == Classified(done) && counts0 == CountByType(done)
      ensures err.Some? <==> TablesTree(insp, s, tables, classify).Failure?
      ensures err.Some? ==> err.value == TablesTree(insp, s, tables, classify).error
      ensures err.None? ==> tableResults == TablesTree(insp, s, tables, classify).value
      ensures totalColumns == |done + TableColumns(tableResults)|
      ensures classifiedColumns == Classified(done + TableColumns(tableResults))
      ensures counts == CountByType(done + TableColumns(tableResults))
    {
      err := None;
      tableResults := [];
      totalColumns, classifiedColumns, counts := totalColumns0, classified0, counts0;
      assert done + TableColumns(tableResults) == done;
      for j := 0 to |tables|
        invariant TablesTree(insp, s, tables[..j], classify) == Success(tableResults)
        invariant totalColumns == |done + TableColumns(tableResults)|
        invariant classifiedColumns == Classified(done + TableColumns(tableResults))
        invariant counts == CountByType(done + TableColumns(tableResults))
      {
        var t := tables[j];
        var read := insp.columns(s, t);
        TablesTreeStep(insp, s, tables, j, classify);
        if read.Failure? {
          TablesTreeFailurePersists(insp, s, tables, j + 1, classify);
          return Some(TableInfoError(s, t, read.error)), tableResults, totalColumns, classifiedColumns, counts;
        }
        var cols := read.value;
        ghost var before := done + TableColumns(tableResults);
        var columnResults, classified', counts' := WalkColumns(cols, classifiedColumns, counts, before);
        totalColumns := totalColumns + |cols|;
        classifiedColumns, counts := classified', counts';
        AppendTable(tableResults, TableResult(t, columnResults));
        ConcatAssociative(done, TableColumns(tableResults), columnResults);
        tableResults := tableResults + [TableResult(t, columnResults)];
      }
      assert tables[..|tables|] == tables;
    }

    /** The columns of one table, classified one by one, continuing the counts of the columns `before`. */
    method WalkColumns(cols: seq<ColumnInfo>, classified0: nat, counts0: map<InformationType, int>,
                       ghost before: seq<ColumnResult>)
      returns (columnResults: seq<ColumnResult>, classifiedColumns: nat, counts: map<InformationType, int>)
      requires classified0 == Classified(before) && counts0 == CountByType(before)
      ensures columnResults == ColumnResults(cols, classify)
      ensures classifiedColumns == Classified(before + columnResults)
      ensures counts == CountByType(before + columnResults)
    {
      columnResults, classifiedColumns, counts := [], classified0, counts0;
      assert before + columnResults == before;
      for k := 0 to |cols|
        invariant columnResults == ColumnResults(cols[..k], classify)
        invariant classifiedColumns == Classified(before + columnResults)
        invariant counts == CountByType(before + columnResults)
      {
        var c := cols[k];
        var answer := classify(c.columnName);
        var result := ColumnResultOf(c, answer);
        ColumnResultsStep(cols, k, classify);
        TallyStep(before, columnResults, result, classifiedColumns, counts);
        columnResults := columnResults + [result];
        if result.informationType != NA {
          classifiedColumns := classifiedColumns + 1;
          counts := counts[result.informationType := TypeCount(counts, result.informationType) + 1];
        }
      }
      assert cols[..|cols|] == cols;
    }

    /**
     * A run: the body, and when it fails, the failure written to the record
     * with its message. A stored scan always ends completed or failed, even
     * if it was cancelled before the run.
     */
    method RunScan(job: ScanJob, password: Result<string, string>, insp: Inspector, start: Time, end: Time)
      requires Valid()
      requires job.record.id !in scans || scans[job.record.id].id == job.record.id
      modifies this
      ensures Valid()
      ensures job.record.id !in old(scans) ==> scans == old(scans) && connections == old(connections)
      ensures job.record.id in old(scans) && ScanTree(insp, job.conn, password, classify).Failure? ==>
                && scans == old(scans)[job.record.id := WithStatus(old(scans)[job.record.id], Failed,
                                                                  ScanTree(insp, job.conn, password, classify).error, end)]
                && connections == old(connections)
      ensures job.record.id in old(scans) && ScanTree(insp, job.conn, password, classify).Success? ==>
                && scans == old(scans)[job.record.id := CompletedRecord(job.record, ScanTree(insp, job.conn, password, classify).value, start, end)]
                && connections == Stamped(old(connections), job.conn.id, end)
      ensures job.record.id in old(scans) ==> scans[job.record.id].status in {Completed, Failed}
    {
      var err := PerformScan(job, password, insp, start, end);
      if err.Some? {
        var ignored := UpdateStatus(job.record.id, Failed, err.value, end);
      }
    }

    /** Cancels a pending or running scan; any other status, or an unknown id, is an error that changes nothing. */
    method CancelScan(scanId: Uuid, now: Time) returns (err: Option<string>)
      requires Valid()
      modifies this
      ensures Valid()
      ensures connections == old(connections)
      ensures scanId !in old(scans) ==> err == Some("failed to get scan result: " + ScanNotFound) && scans == old(scans)
      ensures scanId in old(scans) && !old(scans)[scanId].status.IsCancellable() ==>
                && err == Some("scan cannot be cancelled, current status: " + old(scans)[scanId].status.Name())
                && scans == old(scans)
      ensures scanId in old(scans) && old(scans)[scanId].status.IsCancellable() ==>
                err.None? && scans == old(scans)[scanId := WithStatus(old(scans)[scanId], Cancelled, CancelMessage, now)]
    {
      var found := GetScanResult(scanId);
      if found.Failure? {
        return Some(found.error);
      }
      var status := found.value.status;
      if status != Pending && status != Running {
        return Some("scan cannot be cancelled, current status: " + status.Name());
      }
      err := UpdateStatus(scanId, Cancelled, CancelMessage, now);
      assert err.None?;
    }

    /** The stored record of a scan, or the not-found error. */
    method GetScanResult(scanId: Uuid) returns (r: Result<ScanResult, string>)
      ensures scanId in scans <==> r.Success?
      ensures r.Success? ==> r.value == scans[scanId]
      ensures r.Failure? ==> r.error == "failed to get scan result: " + ScanNotFound
    {
      if scanId !in scans {
        return Failure("failed to get scan result: " + ScanNotFound);
      }
      return Success(scans[scanId]);
    }

    /**
     * The latest scans of a connection, newest first: at most the limit (10
     * when the limit is not positive), fewer only when there are no more, and
     * no scan left out started later than one returned.
     */
    method GetScanHistory(databaseId: Uuid, limit: int) returns (r: seq<ScanResult>)
      requires Valid()
      ensures |r| <= HistoryLimit(limit)
      ensures forall x :: x in r ==> x.id in scans && scans[x.id] == x && x.databaseId == databaseId
      ensures SortedDesc(r, StartedAt)
      ensures |r| < HistoryLimit(limit) ==>
                forall id :: id in scans && scans[id].databaseId == databaseId ==> scans[id] in r
      ensures forall id, x :: id in scans && scans[id].databaseId == databaseId && scans[id] !in r && x in r ==>
                scans[id].startedAt <= x.startedAt
      ensures forall i, j :: 0 <= i < j < |r| ==> r[i].id != r[j].id
    {
      var n := HistoryLimit(limit);
      var found := Matching(databaseId);
      var sorted := SortDesc(found, StartedAt);
      PermutationLength(sorted, found);
      DistinctPermutation(sorted, found);
      forall x | x in sorted
        ensures x in found
      {
        PermutationMembers(sorted, found, x);
      }
      forall id | id in scans && scans[id].databaseId == databaseId
        ensures scans[id] in sorted
      {
        PermutationMembers(sorted, found, scans[id]);
      }
      r := if |sorted| <= n then sorted else sorted[..n];
      forall id, x | id in scans && scans[id].databaseId == databaseId && scans[id] !in r && x in r
        ensures scans[id].startedAt <= x.startedAt
      {
        var k :| 0 <= k < |sorted| && sorted[k] == scans[id];
        var i :| 0 <= i < |r| && r[i] == x;
        assert sorted[i] == x;
        assert i < k;
      }
      forall i, j | 0 <= i < j < |r|
        ensures r[i].id != r[j].id
      {
        assert r[i] == sorted[i] && r[j] == sorted[j];
      }
    }

    /** The stored records of a connection, in no particular order. */
    method Matching(databaseId: Uuid) returns (found: seq<ScanResult>)
      requires Valid()
      ensures forall x :: x in found <==> x.id in scans && scans[x.id] == x && x.databaseId == databaseId
      ensures forall i, j :: 0 <= i < j < |found| ==> found[i].id != found[j].id
    {
      found := [];
      var remaining := scans.Keys;
      while remaining != {}
        invariant remaining <= scans.Keys
        invariant forall x :: x in found <==>
                    x.id in scans && x.id !in remaining && scans[x.id] == x && x.databaseId == databaseId
        invariant forall i, j :: 0 <= i < j < |found| ==> found[i].id != found[j].id
        decreases |remaining|
      {
        var id :| id in remaining;
        if scans[id].databaseId == databaseId {
          found := found + [scans[id]];
        }
        remaining := remaining - {id};
      }
    }

    /** The completed scan of a connection that started last, or the not-found error when there is none. */
    method GetLatestClassification(databaseId: Uuid) returns (r: Result<ScanResult, string>)
      requires Valid()
      ensures r.Failure? <==> forall id :: id in scans ==> !(scans[id].databaseId == databaseId && scans[id].status == Completed)
      ensures r.Failure? ==> r.error == "failed to get latest classification: " + ScanNotFound
      ensures r.Success? ==>
                && r.value.id in scans && scans[r.value.id] == r.value
                && r.value.databaseId == databaseId && r.value.status == Completed
      ensures r.Success? ==>
                forall id :: id in scans && scans[id].databaseId == databaseId && scans[id].status == Completed ==>
                  scans[id].startedAt <= r.value.startedAt
    {
      var best: Option<ScanResult> := None;
      var remaining := scans.Keys;
      while remaining != {}
        invariant remaining <= scans.Keys
        invariant best.Some? ==>
                    && best.value.id in scans && scans[best.value.id] == best.value
                    && best.value.databaseId == databaseId && best.value.status == Completed
        invariant forall id :: id in scans && id !in remaining && scans[id].databaseId == databaseId && scans[id].status == Completed ==>
                    best.Some? && scans[id].startedAt <= best.value.startedAt
        decreases |remaining|
      {
        var id :| id in remaining;
        var candidate := scans[id];
        if candidate.databaseId == databaseId && candidate.status == Completed {
          if best.None? || best.value.startedAt < candidate.startedAt {
            best := Some(candidate);
          }
        }
        remaining := remaining - {id};
      }
      if best.None? {
        return Failure("failed to get latest classification: " + ScanNotFound);
      }
      return Success(best.value);
    }
  }

  // ---------------------------------------------------------------------
  // Steps of the walk

  lemma ColumnResultsStep(cols: seq<ColumnInfo>, k: nat, classify: string -> Classification)
    requires k < |cols|
    ensures ColumnResults(cols[..k + 1], classify) ==
              ColumnResults(cols[..k], classify) + [ColumnResultOf(cols[k], classify(cols[k].columnName))]
  {
    assert cols[..k + 1][..k] == cols[..k];
  }

  /** The running totals after one more column, in the terms the column walk keeps them. */
  lemma TallyStep(before: seq<ColumnResult>, done: seq<ColumnResult>, result: ColumnResult,
                  classified: nat, counts: map<InformationType, int>)
    requires classified == Classified(before + done) && counts == CountByType(before + done)
    ensures Classified(before + (done + [result])) == classified + (if result.informationType != NA then 1 else 0)
    ensures CountByType(before + (done + [result])) ==
              if result.informationType != NA
              then counts[result.informationType := TypeCount(counts, result.informationType) + 1]
              else counts
  {
    AppendOne(before + done, result);
    ConcatAssociative(before, done, [result]);
  }

  lemma AppendOne(cols: seq<ColumnResult>, c: ColumnResult)
    ensures Classified(cols + [c]) == Classified(cols) + (if c.informationType != NA then 1 else 0)
    ensures CountByType(cols + [c]) ==
              if c.informationType != NA
              then CountByType(cols)[c.informationType := TypeCount(CountByType(cols), c.informationType) + 1]
              else CountByType(cols)
  {
    assert (cols + [c])[..|cols|] == cols;
  }

  lemma AppendTable(ts: seq<TableResult>, t: TableResult)
    ensures TableColumns(ts + [t]) == TableColumns(ts) + t.columns
  {
    assert (ts + [t])[..|ts|] == ts;
  }

  lemma ConcatAssociative<T>(a: seq<T>, b: seq<T>, c: seq<T>)
    ensures a + (b + c) == (a + b) + c
  {
  }

  lemma AppendSchema(tree: seq<SchemaResult>, s: SchemaResult)
    ensures TreeColumns(tree + [s]) == TreeColumns(tree) + TableColumns(s.tables)
    ensures TreeTables(tree + [s]) == TreeTables(tree) + |s.tables|
  {
    assert (tree + [s])[..|tree|] == tree;
  }

  /** One more schema extends the walk of a prefix by its result, or by its error. */
  lemma SchemasTreeStep(insp: Inspector, schemas: seq<string>, i: nat, classify: string -> Classification)
    requires i < |schemas|
    requires SchemasTree(insp, schemas[..i], classify).Success?
    ensures insp.tables(schemas[i]).Failure? ==>
              SchemasTree(insp, schemas[..i + 1], classify) == Failure(TablesError(schemas[i], insp.tables(schemas[i]).error))
    ensures insp.tables(schemas[i]).Success? && TablesTree(insp, schemas[i], insp.tables(schemas[i]).value, classify).Failure? ==>
              SchemasTree(insp, schemas[..i + 1], classify) ==
                Failure(TablesTree(insp, schemas[i], insp.tables(schemas[i]).value, classify).error)
    ensures insp.tables(schemas[i]).Success? && TablesTree(insp, schemas[i], insp.tables(schemas[i]).value, classify).Success? ==>
              SchemasTree(insp, schemas[..i + 1], classify) ==
                Success(SchemasTree(insp, schemas[..i], classify).value
                        + [SchemaResult(schemas[i], TablesTree(insp, schemas[i], insp.tables(schemas[i]).value, classify).value)])
  {
    assert schemas[..i + 1][..i] == schemas[..i];
  }

  /** One more table extends the walk of a prefix by its result, or by its error. */
  lemma TablesTreeStep(insp: Inspector, schema: string, tables: seq<string>, j: nat, classify: string -> Classification)
    requires j < |tables|
    requires TablesTree(insp, schema, tables[..j], classify).Success?
    ensures insp.columns(schema, tables[j]).Failure? ==>
              TablesTree(insp, schema, tables[..j + 1], classify) ==
                Failure(TableInfoError(schema, tables[j], insp.columns(schema, tables[j]).error))
    ensures insp.columns(schema, tables[j]).Success? ==>
              TablesTree(insp, schema, tables[..j + 1], classify) ==
                Success(TablesTree(insp, schema, tables[..j], classify).value
                        + [TableResult(tables[j], ColumnResults(insp.columns(schema, tables[j]).value, classify))])
  {
    assert tables[..j + 1][..j] == tables[..j];
  }

  /** Once a prefix of the schemas fails, the whole walk fails with the same error. */
  lemma {:induction false} SchemasTreeFailurePersists(insp: Inspector, schemas: seq<string>, k: nat, classify: string -> Classification)
    requires k <= |schemas|
    requires SchemasTree(insp, schemas[..k], classify).Failure?
    ensures SchemasTree(insp, schemas, classify) == SchemasTree(insp, schemas[..k], classify)
    decreases |schemas| - k
  {
    if k < |schemas| {
      var init := schemas[..|schemas| - 1];
      assert init[..k] == schemas[..k];
      SchemasTreeFailurePersists(insp, init, k, classify);
    } else {
      assert schemas[..k] == schemas;
    }
  }

  /** Once a prefix of the tables fails, the whole table walk fails with the same error. */
  lemma {:induction false} TablesTreeFailurePersists(insp: Inspector, schema: string, tables: seq<string>, k: nat,
                                                     classify: string -> Classification)
    requires k <= |tables|
    requires TablesTree(insp, schema, tables[..k], classify).Failure?
    ensures TablesTree(insp, schema, tables, classify) == TablesTree(insp, schema, tables[..k], classify)
    decreases |tables| - k
  {
    if k < |tables| {
      var init := tables[..|tables| - 1];
      assert init[..k] == tables[..k];
      TablesTreeFailurePersists(insp, schema, init, k, classify);
    } else {
      assert tables[..k] == tables;
    }
  }
}
