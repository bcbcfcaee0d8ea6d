/**
 * What one scan computes, as functions of what the schema inspector reports
 * and of the column classifier: the schema → table → column result tree (or
 * the first error, with the text the scan reports), and the summary counts
 * over that tree.
 */
module Scan {
  import opened Wrappers
  import opened Domain
  import opened Risk

  /**
   * The schema inspector of the scanned server, given by its answers: the
   * error of connecting with a host, port, user and password (None when it
   * connects), the non-system schemas, the tables of a schema and the columns
   * of a table. Each failure carries the inspector's error text.
   */
  datatype Inspector = Inspector(
    connect: (string, int, string, string) -> Option<string>,
    schemas: Result<seq<string>, string>,
    tables: string -> Result<seq<string>, string>,
    columns: (string, string) -> Result<seq<ColumnInfo>, string>)

  // ---------------------------------------------------------------------
  // The result tree

  /** A column's result: its metadata copied, with the classifier's answer for its name. */
  function ColumnResultOf(c: ColumnInfo, k: Classification): ColumnResult
  {
    ColumnResult(c.columnName, c.dataType, k.informationType, k.confidenceScore, k.matchedPatterns,
                 c.isNullable, c.defaultValue)
  }

  /** The results of a table's columns, one per column and in the inspector's order. */
  function ColumnResults(cols: seq<ColumnInfo>, classify: string -> Classification): (r: seq<ColumnResult>)
    ensures |r| == |cols|
    ensures forall i :: 0 <= i < |cols| ==> r[i] == ColumnResultOf(cols[i], classify(cols[i].columnName))
  {
    if cols == [] then []
    else ColumnResults(cols[..|cols| - 1], classify) + [ColumnResultOf(cols[|cols| - 1], classify(cols[|cols| - 1].columnName))]
  }

  function TableInfoError(schema: string, table: string, e: string): string
  {
    "failed to get table info for " + schema + "." + table + ": " + e
  }

  function TablesError(schema: string, e: string): string
  {
    "failed to get tables for schema " + schema + ": " + e
  }

  /** The results of the tables of `schema`, in order, or the error of the first table whose columns cannot be read. */
  function TablesTree(insp: Inspector, schema: string, tables: seq<string>, classify: string -> Classification)
    : Result<seq<TableResult>, string>
  {
    if tables == [] then Success([])
    else
      var prev := TablesTree(insp, schema, tables[..|tables| - 1], classify);
      var t := tables[|tables| - 1];
      if prev.Failure? then prev
      else match insp.columns(schema, t)
        case Failure(e) => Failure(TableInfoError(schema, t, e))
        case Success(cols) => Success(prev.value + [TableResult(t, ColumnResults(cols, classify))])
  }

  /** The results of `schemas`, in order, or the error of the first schema or table that cannot be read. */
  function SchemasTree(insp: Inspector, schemas: seq<string>, classify: string -> Classification)
    : Result<seq<SchemaResult>, string>
  {
    if schemas == [] then Success([])
    else
      var prev := SchemasTree(insp, schemas[..|schemas| - 1], classify);
      var s := schemas[|schemas| - 1];
      if prev.Failure? then prev
      else match insp.tables(s)
        case Failure(e) => Failure(TablesError(s, e))
        case Success(tables) =>
          match TablesTree(insp, s, tables, classify)
          case Failure(e) => Failure(e)
          case Success(ts) => Success(prev.value + [SchemaResult(s, ts)])
  }

  /**
   * The whole walk of a scan over the connection `conn`, given the outcome of
   * decrypting its password: the tree, or the text of the first error.
   */
  function ScanTree(insp: Inspector, conn: DatabaseConnection, password: Result<string, string>,
                    classify: string -> Classification): Result<seq<SchemaResult>, string>
  {
    if password.Failure? then Failure("failed to decrypt password: " + password.error)
    else if insp.connect(conn.host, conn.port, conn.username, password.value).Some? then
      Failure("failed to connect to MySQL: " + insp.connect(conn.host, conn.port, conn.username, password.value).value)
    else if insp.schemas.Failure? then Failure("failed to get schemas: " + insp.schemas.error)
    else SchemasTree(insp, insp.schemas.value, classify)
  }

  /**
   * A table walk succeeds exactly when the columns of every table can be read,
   * and then holds one result per table, in order, named after it and holding
   * the results of its columns.
   */
  lemma {:induction false} TablesTreeMirrors(insp: Inspector, schema: string, tables: seq<string>, classify: string -> Classification)
    ensures TablesTree(insp, schema, tables, classify).Success? <==>
              forall j :: 0 <= j < |tables| ==> insp.columns(schema, tables[j]).Success?
    ensures TablesTree(insp, schema, tables, classify).Success? ==>
              var ts := TablesTree(insp, schema, tables, classify).value;
              && |ts| == |tables|
              && forall j :: 0 <= j < |tables| ==>
                   ts[j] == TableResult(tables[j], ColumnResults(insp.columns(schema, tables[j]).value, classify))
  {
    if tables != [] {
      var init := tables[..|tables| - 1];
      TablesTreeMirrors(insp, schema, init, classify);
      if TablesTree(insp, schema, init, classify).Failure? {
        var j :| 0 <= j < |init| && !insp.columns(schema, init[j]).Success?;
        assert tables[j] == init[j];
      }
    }
  }

  /** A successful walk has one result per schema. */
  lemma SchemasTreeLength(insp: Inspector, schemas: seq<string>, classify: string -> Classification)
    requires SchemasTree(insp, schemas, classify).Success?
    ensures |SchemasTree(insp, schemas, classify).value| == |schemas|
  {
    SchemasTreeMirrors(insp, schemas, classify);
  }

  /**
   * A schema walk succeeds exactly when the tables of every schema can be
   * listed and walked, and then holds one result per schema, in order, named
   * after it and holding the walk of its tables.
   */
  lemma {:induction false} SchemasTreeMirrors(insp: Inspector, schemas: seq<string>, classify: string -> Classification)
    ensures SchemasTree(insp, schemas, classify).Success? <==>
              forall i :: 0 <= i < |schemas| ==>
                && insp.tables(schemas[i]).Success?
                && TablesTree(insp, schemas[i], insp.tables(schemas[i]).value, classify).Success?
    ensures SchemasTree(insp, schemas, classify).Success? ==>
              var tree := SchemasTree(insp, schemas, classify).value;
              && |tree| == |schemas|
              && forall i :: 0 <= i < |schemas| ==>
                   tree[i] == SchemaResult(schemas[i], TablesTree(insp, schemas[i], insp.tables(schemas[i]).value, classify).value)
  {
    if schemas != [] {
      var init := schemas[..|schemas| - 1];
      SchemasTreeMirrors(insp, init, classify);
      if SchemasTree(insp, init, classify).Failure? {
        var i :| 0 <= i < |init| && !(insp.tables(init[i]).Success? && TablesTree(insp, init[i], insp.tables(init[i]).value, classify).Success?);
        assert schemas[i] == init[i];
      }
    }
  }

  // ---------------------------------------------------------------------
  // Totals

  /** Every column of a list of tables, table after table. */
  function TableColumns(ts: seq<TableResult>): seq<ColumnResult>
  {
    if ts == [] then [] else TableColumns(ts[..|ts| - 1]) + ts[|ts| - 1].columns
  }

  /** Every column of a tree, schema after schema. */
  function TreeColumns(tree: seq<SchemaResult>): seq<ColumnResult>
  {
    if tree == [] then [] else TreeColumns(tree[..|tree| - 1]) + TableColumns(tree[|tree| - 1].tables)
  }

  /** The number of tables of a tree. */
  function TreeTables(tree: seq<SchemaResult>): nat
  {
    if tree == [] then 0 else TreeTables(tree[..|tree| - 1]) + |tree[|tree| - 1].tables|
  }

  /** The number of columns of type `t`. */
  function Occurrences(cols: seq<ColumnResult>, t: InformationType): nat
  {
    if cols == [] then 0
    else Occurrences(cols[..|cols| - 1], t) + (if cols[|cols| - 1].informationType == t then 1 else 0)
  }

  /** The number of columns whose type is not "N/A". */
  function Classified(cols: seq<ColumnResult>): (n: nat)
    ensures n <= |cols|
  {
    if cols == [] then 0
    else Classified(cols[..|cols| - 1]) + (if cols[|cols| - 1].informationType != NA then 1 else 0)
  }

  /** The per-type count map: one more for the type of each column that is not "N/A". */
  function CountByType(cols: seq<ColumnResult>): map<InformationType, int>
  {
    if cols == [] then map[]
    else
      var m := CountByType(cols[..|cols| - 1]);
      var t := cols[|cols| - 1].informationType;
      if t != NA then m[t := TypeCount(m, t) + 1] else m
  }

  /**
   * The count map has a key exactly for each type other than "N/A" that some
   * column has, and its value is the number of such columns.
   */
  lemma {:induction false} CountByTypeCounts(cols: seq<ColumnResult>, t: InformationType)
    ensures t in CountByType(cols) <==> t != NA && Occurrences(cols, t) > 0
    ensures TypeCount(CountByType(cols), t) == if t == NA then 0 else Occurrences(cols, t)
  {
    if cols != [] {
      CountByTypeCounts(cols[..|cols| - 1], t);
    }
  }

  /** The values of the count map add up to the number of classified columns. */
  lemma {:induction false} CountsSumToClassified(cols: seq<ColumnResult>)
    ensures MapSum(CountByType(cols)) == Classified(cols)
  {
    if cols == [] {
      assert CountByType(cols).Keys == {};
    } else {
      var init := cols[..|cols| - 1];
      CountsSumToClassified(init);
      var t := cols[|cols| - 1].informationType;
      if t != NA {
        MapSumUpdate(CountByType(init), t, TypeCount(CountByType(init), t) + 1);
      }
    }
  }

  lemma {:induction false} CountsPositive(cols: seq<ColumnResult>)
    ensures forall t :: t in CountByType(cols) ==> CountByType(cols)[t] > 0
  {
    forall t | t in CountByType(cols)
      ensures CountByType(cols)[t] > 0
    {
      CountByTypeCounts(cols, t);
    }
  }

  /** The summary of a finished walk, its risk level computed over all columns. */
  function Summary(tree: seq<SchemaResult>, durationMilliseconds: int): ScanSummary
  {
    var cols := TreeColumns(tree);
    ScanSummary(|tree|, TreeTables(tree), |cols|, Classified(cols), CountByType(cols),
                Some(RiskLevelOf(CountByType(cols), |cols|)), durationMilliseconds)
  }

  /**
   * In a summary the classified columns are at most all columns and are the
   * sum of the count map, "N/A" is never a key, every count is positive, and
   * the high- and medium-risk columns are at most all columns.
   */
  lemma SummaryConsistent(tree: seq<SchemaResult>, durationMilliseconds: int)
    ensures var s := Summary(tree, durationMilliseconds);
            && 0 <= s.classifiedColumns <= s.totalColumns
            && s.classifiedColumns == MapSum(s.informationTypesCounts)
            && NA !in s.informationTypesCounts
            && (forall t :: t in s.informationTypesCounts ==> s.informationTypesCounts[t] > 0)
            && ListCount(s.informationTypesCounts, HighRiskTypes) + ListCount(s.informationTypesCounts, MediumRiskTypes)
               <= s.totalColumns
  {
    var cols := TreeColumns(tree);
    CountsSumToClassified(cols);
    CountByTypeCounts(cols, NA);
    CountsPositive(cols);
    SensitiveAtMostAll(CountByType(cols));
  }

  /** The totals count what the inspector reported: its schemas, their tables, and the tables' columns. */
  lemma {:induction false} TreeTotals(insp: Inspector, schemas: seq<string>, classify: string -> Classification)
    requires SchemasTree(insp, schemas, classify).Success?
    ensures var tree := SchemasTree(insp, schemas, classify).value;
            && |tree| == |schemas|
            && TreeTables(tree) == InspectedTables(insp, schemas)
            && |TreeColumns(tree)| == InspectedColumns(insp, schemas)
  {
    if schemas != [] {
      var init := schemas[..|schemas| - 1];
      var s := schemas[|schemas| - 1];
      TreeTotals(insp, init, classify);
      var tables := insp.tables(s).value;
      TablesTreeMirrors(insp, s, tables, classify);
      TableColumnsCount(insp, s, tables, classify);
      var tree := SchemasTree(insp, schemas, classify).value;
      assert tree[..|tree| - 1] == SchemasTree(insp, init, classify).value;
    }
  }

  lemma {:induction false} TableColumnsCount(insp: Inspector, schema: string, tables: seq<string>, classify: string -> Classification)
    requires TablesTree(insp, schema, tables, classify).Success?
    ensures |TableColumns(TablesTree(insp, schema, tables, classify).value)| == TableColumnsOf(insp, schema, tables)
  {
    if tables != [] {
      var init := tables[..|tables| - 1];
      TableColumnsCount(insp, schema, init, classify);
      var ts := TablesTree(insp, schema, tables, classify).value;
      assert ts[..|ts| - 1] == TablesTree(insp, schema, init, classify).value;
    }
  }

  /** The number of tables the inspector lists for `schemas` (0 for a schema it cannot list). */
  function InspectedTables(insp: Inspector, schemas: seq<string>): nat
  {
    if schemas == [] then 0
    else
      var s := schemas[|schemas| - 1];
      InspectedTables(insp, schemas[..|schemas| - 1]) + (if insp.tables(s).Success? then |insp.tables(s).value| else 0)
  }

  /** The number of columns the inspector reports for the tables of `schema`. */
  function TableColumnsOf(insp: Inspector, schema: string, tables: seq<string>): nat
  {
    if tables == [] then 0
    else
      var t := tables[|tables| - 1];
      TableColumnsOf(insp, schema, tables[..|tables| - 1]) + (if insp.columns(schema, t).Success? then |insp.columns(schema, t).value| else 0)
  }

  /** The number of columns the inspector reports for every table of `schemas`. */
  function InspectedColumns(insp: Inspector, schemas: seq<string>): nat
  {
    if schemas == [] then 0
    else
      var s := schemas[|schemas| - 1];
      InspectedColumns(insp, schemas[..|schemas| - 1]) + (if insp.tables(s).Success? then TableColumnsOf(insp, s, insp.tables(s).value) else 0)
  }
}
