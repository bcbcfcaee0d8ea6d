/**
 * The classification service: a store of pattern records and the classifier
 * built from the active ones. Every change to the store is followed by a
 * reload of the classifier; a classifier that does not build leaves the
 * previous one in place. The store is an in-memory list of rows in insertion
 * order; its queries are the functions below.
 */
module ClassificationService {
  import opened Wrappers
  import opened Sorting
  import opened Domain
  import C = Classifier

  datatype ServiceError =
    | AlreadyExists
    | NotFound
    | PrepareFailed(cause: C.ClassifierError)
    | SeedsUnavailable(message: string)
  {
    function Message(): string
    {
      match this
      case AlreadyExists => "pattern already exists"
      case NotFound => "classification pattern not found"
      case PrepareFailed(CompileError(p)) => "failed to prepare classifier: failed to compile regex pattern '" + p + "'"
      case SeedsUnavailable(m) => m
    }
  }

  /** One entry of the seed file. */
  datatype PatternSeed = PatternSeed(
    informationType: string,
    pattern: string,
    description: string,
    priority: int)

  // ---------------------------------------------------------------------
  // The store's queries

  /** The active rows, in store order. */
  function Active(rows: seq<ClassificationPattern>): (r: seq<ClassificationPattern>)
    ensures |r| <= |rows|
  {
    if rows == [] then []
    else
      var init := Active(rows[..|rows| - 1]);
      if rows[|rows| - 1].isActive then init + [rows[|rows| - 1]] else init
  }

  lemma {:induction false} ActiveMembers(rows: seq<ClassificationPattern>)
    ensures forall p :: p in Active(rows) <==> p in rows && p.isActive
  {
    if rows != [] {
      var init := rows[..|rows| - 1];
      ActiveMembers(init);
      assert rows == init + [rows[|rows| - 1]];
    }
  }

  function RowPriority(p: ClassificationPattern): int { p.priority }

  function RowCreatedAt(p: ClassificationPattern): Time { p.createdAt }

  /**
   * `ordered` is an answer the store's `GetActive` query may give: the active
   * rows, highest priority first and, among equal priorities, the most
   * recently created first. Rows equal in both keys may come in any order.
   */
  ghost predicate ActiveOrder(rows: seq<ClassificationPattern>, ordered: seq<ClassificationPattern>)
  {
    multiset(ordered) == multiset(Active(rows)) && SortedDescBy(ordered, RowPriority, RowCreatedAt)
  }

  /** The store's `GetActive`, with ties broken as the insertion sort leaves them. */
  function GetActive(rows: seq<ClassificationPattern>): (r: seq<ClassificationPattern>)
    ensures ActiveOrder(rows, r)
  {
    SortDescBy(Active(rows), RowPriority, RowCreatedAt)
  }

  /**
   * `p` is an active row of `rows` whose pattern does not compile, and no
   * other such row comes before it in `GetActive`'s order.
   */
  ghost predicate FirstFailingActive(e: C.Engine, rows: seq<ClassificationPattern>, p: ClassificationPattern)
  {
    && p in rows && p.isActive && !e.compiles(p.pattern)
    && forall q :: q in rows && q.isActive && !e.compiles(q.pattern) ==> NotAfter(p, q, RowPriority, RowCreatedAt)
  }

  /**
   * Whatever order `GetActive` gives to rows that tie, a build over its answer
   * reports the pattern of an active row that does not compile and that no
   * other failing active row precedes: none has a higher priority, or the
   * same priority and a later creation.
   */
  lemma ActiveOrderFirstError(e: C.Engine, rows: seq<ClassificationPattern>, ordered: seq<ClassificationPattern>,
                              err: C.ClassifierError)
    requires ActiveOrder(rows, ordered) && C.FirstCompileError(e, ordered, err)
    ensures exists p :: FirstFailingActive(e, rows, p) && err == C.CompileError(p.pattern)
  {
    ActiveMembers(rows);
    var i :| 0 <= i < |ordered| && !e.compiles(ordered[i].pattern)
             && (forall k :: 0 <= k < i ==> e.compiles(ordered[k].pattern))
             && err == C.CompileError(ordered[i].pattern);
    var p := ordered[i];
    PermutationMembers(ordered, Active(rows), p);
    forall q | q in rows && q.isActive && !e.compiles(q.pattern)
      ensures NotAfter(p, q, RowPriority, RowCreatedAt)
    {
      PermutationMembers(ordered, Active(rows), q);
      var k :| 0 <= k < |ordered| && ordered[k] == q;
      assert i <= k;
    }
    assert FirstFailingActive(e, rows, p);
  }

  /** Some row, active or not, has this pattern text. */
  predicate TextStored(rows: seq<ClassificationPattern>, text: string)
  {
    exists i :: 0 <= i < |rows| && rows[i].pattern == text
  }

  predicate HasId(rows: seq<ClassificationPattern>, id: Uuid)
  {
    exists i :: 0 <= i < |rows| && rows[i].id == id
  }

  /** No two rows share an id, the table's primary key. */
  ghost predicate DistinctIds(rows: seq<ClassificationPattern>)
  {
    forall i, j :: 0 <= i < j < |rows| ==> rows[i].id != rows[j].id
  }

  /** Ids for new rows, as `uuid.New` hands them out: pairwise distinct and none of them stored yet. */
  ghost predicate FreshIds(rows: seq<ClassificationPattern>, ids: seq<Uuid>)
  {
    && (forall i, j :: 0 <= i < j < |ids| ==> ids[i] != ids[j])
    && (forall k :: 0 <= k < |ids| ==> !HasId(rows, ids[k]))
  }

  /** No two rows share a pattern text. */
  ghost predicate DistinctTexts(rows: seq<ClassificationPattern>)
  {
    forall i, j :: 0 <= i < j < |rows| ==> rows[i].pattern != rows[j].pattern
  }

  /** The row a creation request stores: active, created and updated now. */
  function CreatedRow(id: Uuid, req: CreatePatternRequest, now: Time): ClassificationPattern
  {
    ClassificationPattern(id, req.informationType, req.pattern, req.description, req.priority, true, now, now)
  }

  /** The rows after every row with `id` takes the request's fields and is reactivated. */
  function Updated(rows: seq<ClassificationPattern>, id: Uuid, req: CreatePatternRequest, now: Time): (r: seq<ClassificationPattern>)
    ensures |r| == |rows|
  {
    seq(|rows|, i requires 0 <= i < |rows| =>
      if rows[i].id == id
      then rows[i].(informationType := req.informationType, pattern := req.pattern, description := req.description,
                    priority := req.priority, isActive := true, updatedAt := now)
      else rows[i])
  }

  /** An update touches only the rows with that id, and keeps every id and creation time. */
  lemma UpdatedRows(rows: seq<ClassificationPattern>, id: Uuid, req: CreatePatternRequest, now: Time, i: nat)
    requires i < |rows|
    ensures Updated(rows, id, req, now)[i].id == rows[i].id
    ensures Updated(rows, id, req, now)[i].createdAt == rows[i].createdAt
    ensures rows[i].id != id ==> Updated(rows, id, req, now)[i] == rows[i]
    ensures rows[i].id == id ==>
              && Updated(rows, id, req, now)[i].isActive
              && C.FromRecord(Updated(rows, id, req, now)[i])
                 == C.Pattern(req.informationType, req.pattern, req.description, req.priority)
  {
  }

  /** The rows without those with `id`, in store order. */
  function Dropped(rows: seq<ClassificationPattern>, id: Uuid): (r: seq<ClassificationPattern>)
    ensures |r| <= |rows|
  {
    if rows == [] then []
    else
      var init := Dropped(rows[..|rows| - 1], id);
      if rows[|rows| - 1].id == id then init else init + [rows[|rows| - 1]]
  }

  lemma {:induction false} DroppedMembers(rows: seq<ClassificationPattern>, id: Uuid)
    ensures forall p :: p in Dropped(rows, id) <==> p in rows && p.id != id
  {
    if rows != [] {
      var init := rows[..|rows| - 1];
      DroppedMembers(init, id);
      assert rows == init + [rows[|rows| - 1]];
    }
  }

  /** An update keeps the ids distinct, since it keeps every row's id. */
  lemma UpdatedKeepsIdsDistinct(rows: seq<ClassificationPattern>, id: Uuid, req: CreatePatternRequest, now: Time)
    requires DistinctIds(rows)
    ensures DistinctIds(Updated(rows, id, req, now))
  {
    var r := Updated(rows, id, req, now);
    forall i, j | 0 <= i < j < |r|
      ensures r[i].id != r[j].id
    {
      UpdatedRows(rows, id, req, now, i);
      UpdatedRows(rows, id, req, now, j);
    }
  }

  /** A delete keeps the ids distinct. */
  lemma {:induction false} DroppedKeepsIdsDistinct(rows: seq<ClassificationPattern>, id: Uuid)
    requires DistinctIds(rows)
    ensures DistinctIds(Dropped(rows, id))
  {
    if rows != [] {
      var init, last := rows[..|rows| - 1], rows[|rows| - 1];
      DroppedKeepsIdsDistinct(init, id);
      if last.id != id {
        DroppedMembers(init, id);
        forall p | p in Dropped(init, id)
          ensures p.id != last.id
        {
          var k :| 0 <= k < |init| && init[k] == p;
          assert rows[k] == p;
        }
        AppendKeepsIdsDistinct(Dropped(init, id), last);
      }
    }
  }

  /** Appending a row whose id is not stored keeps the ids distinct. */
  lemma AppendKeepsIdsDistinct(rows: seq<ClassificationPattern>, row: ClassificationPattern)
    requires DistinctIds(rows) && forall p :: p in rows ==> p.id != row.id
    ensures DistinctIds(rows + [row])
  {
    var r := rows + [row];
    forall i, j | 0 <= i < j < |r|
      ensures r[i].id != r[j].id
    {
      assert r[i] == rows[i];
      if j < |rows| {
        assert r[j] == rows[j];
      }
    }
  }

  /** A delete of a stored id removes at least one row. */
  lemma {:induction false} DroppedShrinks(rows: seq<ClassificationPattern>, id: Uuid)
    requires HasId(rows, id)
    ensures |Dropped(rows, id)| < |rows|
  {
    var init := rows[..|rows| - 1];
    if rows[|rows| - 1].id != id {
      var i :| 0 <= i < |rows| && rows[i].id == id;
      assert init[i].id == id;
      DroppedShrinks(init, id);
    }
  }

  // ---------------------------------------------------------------------
  // Seeding

  /** The row stored for a seed; the seed's type name is taken as is. */
  function SeedRow(id: Uuid, s: PatternSeed, now: Time): ClassificationPattern
  {
    ClassificationPattern(id, s.informationType, s.pattern, s.description, s.priority, true, now, now)
  }

  /**
   * The rows after seeding `seeds` in order: a seed whose text is already
   * stored (including by an earlier seed) is skipped, the others are appended
   * as active rows, seed `k` taking id `ids[k]`.
   */
  function Seeded(rows: seq<ClassificationPattern>, seeds: seq<PatternSeed>, ids: seq<Uuid>, now: Time): (r: seq<ClassificationPattern>)
    requires |seeds| <= |ids|
    ensures rows <= r
  {
    if seeds == [] then rows
    else
      var prev := Seeded(rows, seeds[..|seeds| - 1], ids, now);
      var s := seeds[|seeds| - 1];
      if TextStored(prev, s.pattern) then prev else prev + [SeedRow(ids[|seeds| - 1], s, now)]
  }

  /** After seeding, the text of every seed is stored. */
  lemma {:induction false} SeededCoversSeeds(rows: seq<ClassificationPattern>, seeds: seq<PatternSeed>, ids: seq<Uuid>, now: Time)
    requires |seeds| <= |ids|
    ensures forall k :: 0 <= k < |seeds| ==> TextStored(Seeded(rows, seeds, ids, now), seeds[k].pattern)
  {
    if seeds != [] {
      var init := seeds[..|seeds| - 1];
      var prev := Seeded(rows, init, ids, now);
      var r := Seeded(rows, seeds, ids, now);
      SeededCoversSeeds(rows, init, ids, now);
      forall k | 0 <= k < |seeds|
        ensures TextStored(r, seeds[k].pattern)
      {
        if k < |seeds| - 1 {
          assert TextStored(prev, init[k].pattern);
          var i :| 0 <= i < |prev| && prev[i].pattern == init[k].pattern;
          assert r[i] == prev[i];
        } else if !TextStored(prev, seeds[k].pattern) {
          assert r[|prev|].pattern == seeds[k].pattern;
        }
      }
    }
  }

  /** Seeding a store with distinct pattern texts keeps them distinct. */
  lemma {:induction false} SeededKeepsTextsDistinct(rows: seq<ClassificationPattern>, seeds: seq<PatternSeed>, ids: seq<Uuid>, now: Time)
    requires |seeds| <= |ids|
    requires DistinctTexts(rows)
    ensures DistinctTexts(Seeded(rows, seeds, ids, now))
  {
    if seeds != [] {
      SeededKeepsTextsDistinct(rows, seeds[..|seeds| - 1], ids, now);
      var prev := Seeded(rows, seeds[..|seeds| - 1], ids, now);
      AppendKeepsTextsDistinct(prev, SeedRow(ids[|seeds| - 1], seeds[|seeds| - 1], now));
    }
  }

  /** Every row seeding adds is an active row taken from a seed. */
  lemma {:induction false} SeededAddsOnlySeeds(rows: seq<ClassificationPattern>, seeds: seq<PatternSeed>, ids: seq<Uuid>, now: Time)
    requires |seeds| <= |ids|
    ensures forall i :: |rows| <= i < |Seeded(rows, seeds, ids, now)| ==>
              exists k :: 0 <= k < |seeds| && Seeded(rows, seeds, ids, now)[i] == SeedRow(ids[k], seeds[k], now)
  {
    if seeds != [] {
      var init := seeds[..|seeds| - 1];
      SeededAddsOnlySeeds(rows, init, ids, now);
      var prev := Seeded(rows, init, ids, now);
      var r := Seeded(rows, seeds, ids, now);
      forall i | |rows| <= i < |r|
        ensures exists k :: 0 <= k < |seeds| && r[i] == SeedRow(ids[k], seeds[k], now)
      {
        if i < |prev| {
          var k :| 0 <= k < |init| && prev[i] == SeedRow(ids[k], init[k], now);
          assert r[i] == SeedRow(ids[k], seeds[k], now);
        } else {
          assert r[i] == SeedRow(ids[|seeds| - 1], seeds[|seeds| - 1], now);
        }
      }
    } else {
      assert Seeded(rows, seeds, ids, now) == rows;
    }
  }

  /** Seeding with fresh ids keeps the ids distinct: each appended row has an id no other row has. */
  lemma {:induction false} SeededKeepsIdsDistinct(rows: seq<ClassificationPattern>, seeds: seq<PatternSeed>, ids: seq<Uuid>, now: Time)
    requires |seeds| <= |ids|
    requires DistinctIds(rows) && FreshIds(rows, ids)
    ensures DistinctIds(Seeded(rows, seeds, ids, now))
  {
    if seeds != [] {
      var init := seeds[..|seeds| - 1];
      var prev := Seeded(rows, init, ids, now);
      var id := ids[|seeds| - 1];
      SeededKeepsIdsDistinct(rows, init, ids, now);
      if !TextStored(prev, seeds[|seeds| - 1].pattern) {
        SeededAddsOnlySeeds(rows, init, ids, now);
        forall p | p in prev
          ensures p.id != id
        {
          var i :| 0 <= i < |prev| && prev[i] == p;
          if i < |rows| {
            assert rows[i] == p;
          } else {
            var k :| 0 <= k < |init| && prev[i] == SeedRow(ids[k], init[k], now);
          }
        }
        AppendKeepsIdsDistinct(prev, SeedRow(id, seeds[|seeds| - 1], now));
      }
    }
  }

  /** When every seed's text is already stored, seeding adds nothing. */
  lemma {:induction false} SeededSkipsStored(rows: seq<ClassificationPattern>, seeds: seq<PatternSeed>, ids: seq<Uuid>, now: Time)
    requires |seeds| <= |ids|
    requires forall k :: 0 <= k < |seeds| ==> TextStored(rows, seeds[k].pattern)
    ensures Seeded(rows, seeds, ids, now) == rows
  {
    if seeds != [] {
      SeededSkipsStored(rows, seeds[..|seeds| - 1], ids, now);
    }
  }

  /** Appending a row whose text is new keeps the texts distinct. */
  lemma AppendKeepsTextsDistinct(rows: seq<ClassificationPattern>, row: ClassificationPattern)
    ensures DistinctTexts(rows) && !TextStored(rows, row.pattern) ==> DistinctTexts(rows + [row])
  {
    if DistinctTexts(rows) && !TextStored(rows, row.pattern) {
      var r := rows + [row];
      forall i, j | 0 <= i < j < |r|
        ensures r[i].pattern != r[j].pattern
      {
        if j == |rows| {
          assert r[i] == rows[i];
        } else {
          assert r[i] == rows[i] && r[j] == rows[j];
        }
      }
    }
  }

  // ---------------------------------------------------------------------
  // The service object

  class ClassificationService {
    const engine: C.Engine
    var store: seq<ClassificationPattern>
    var matcher: Option<C.Classifier>

    /** The loaded classifier, when there is one, is well formed and uses the service's engine. */
    ghost predicate Valid()
      reads this, if matcher.Some? then {matcher.value} else {}
    {
      matcher.Some? ==> matcher.value.Valid() && matcher.value.engine == engine
    }

    /** The loaded classifier holds exactly the active rows of `rows`. */
    ghost predicate Loaded(rows: seq<ClassificationPattern>)
      reads this, if matcher.Some? then {matcher.value} else {}
    {
      matcher.Some? && multiset(matcher.value.patterns) == multiset(C.FromRecords(Active(rows)))
    }

    /** A service over `rows` with no classifier loaded yet. */
    constructor (engine: C.Engine, rows: seq<ClassificationPattern>)
      ensures Valid()
      ensures this.engine == engine && store == rows && matcher == None
    {
      this.engine := engine;
      store := rows;
      matcher := None;
    }

    /**
     * Builds the service and loads its classifier, seeding an empty active set
     * from `seeds` (the outcome of reading the seed file at `path`). `stored`
     * is the repository's rows afterwards: seeded rows stay in the database
     * even when the classifier then fails to build and no service is returned.
     */
    static method New(engine: C.Engine, rows: seq<ClassificationPattern>, path: string,
                      seeds: Result<seq<PatternSeed>, string>, ids: seq<Uuid>, now: Time)
      returns (r: Result<ClassificationService, ServiceError>, stored: seq<ClassificationPattern>)
      requires seeds.Success? ==> |seeds.value| <= |ids| && FreshIds(rows, ids)
      ensures stored == if |Active(rows)| == 0 && path != "" && seeds.Success?
                        then Seeded(rows, seeds.value, ids, now) else rows
      ensures |Active(rows)| == 0 && path != "" && seeds.Failure? ==> r == Failure(SeedsUnavailable(seeds.error))
      ensures !(|Active(rows)| == 0 && path != "" && seeds.Failure?) ==> (r.Success? <==> C.AllCompile(engine, Active(stored)))
      ensures r.Success? ==> fresh(r.value) && r.value.Valid() && r.value.engine == engine
      ensures r.Success? ==> r.value.store == stored && r.value.Loaded(stored)
      ensures DistinctIds(rows) ==> DistinctIds(stored)
    {
      var svc := new ClassificationService(engine, rows);
      var err := svc.EnsurePatterns(path, seeds, ids, now);
      stored := svc.store;
      if err.Some? {
        return Failure(err.value), stored;
      }
      return Success(svc), stored;
    }

    /** Installs a classifier built from `rows`; when it does not build, the previous one stays. */
    method RefreshClassifier(rows: seq<ClassificationPattern>) returns (err: Option<ServiceError>)
      requires Valid()
      modifies this
      ensures Valid()
      ensures store == old(store)
      ensures err.None? <==> C.AllCompile(engine, rows)
      ensures err.None? ==> matcher.Some? && fresh(matcher.value)
      ensures err.None? ==> multiset(matcher.value.patterns) == multiset(C.FromRecords(rows))
      ensures err.Some? ==> matcher == old(matcher)
      ensures err.Some? ==> err.value.PrepareFailed? && C.FirstCompileError(engine, rows, err.value.cause)
    {
      var built := C.Classifier.NewClassifier(engine, rows);
      if built.Failure? {
        return Some(PrepareFailed(built.error));
      }
      matcher := Some(built.value);
      return None;
    }

    /** Rebuilds the classifier from the store's active rows. */
    method ReloadMatcher() returns (err: Option<ServiceError>)
      requires Valid()
      modifies this
      ensures Valid()
      ensures store == old(store)
      ensures err.None? <==> C.AllCompile(engine, Active(store))
      ensures err.None? ==> Loaded(store) && fresh(matcher.value)
      ensures err.Some? ==> matcher == old(matcher) && err.value.PrepareFailed?
      ensures err.Some? ==> exists ordered :: ActiveOrder(store, ordered) && C.FirstCompileError(engine, ordered, err.value.cause)
      ensures err.Some? ==> exists p :: FirstFailingActive(engine, store, p) && err.value.cause == C.CompileError(p.pattern)
    {
      var ordered := GetActive(store);
      C.AllCompilePermutation(engine, ordered, Active(store));
      C.FromRecordsOfPermutation(ordered, Active(store));
      err := RefreshClassifier(ordered);
      if err.Some? {
        ActiveOrderFirstError(engine, store, ordered, err.value.cause);
      }
    }

    /**
     * The classifier's answer for a column name; "N/A", 0, no patterns while
     * none is loaded.
     */
    method ClassifyColumn(columnName: string) returns (r: Classification)
      requires Valid()
      ensures matcher.None? ==> r == Unclassified
      ensures matcher.Some? ==> C.IsClassification(engine, matcher.value.patterns, columnName, r)
      ensures Loaded(store) ==> C.IsClassification(engine, C.FromRecords(Active(store)), columnName, r)
    {
      if matcher.None? {
        return Unclassified;
      }
      var m := matcher.value;
      r := m.ClassifyColumn(columnName);
      if Loaded(store) {
        C.ClassificationIgnoresPatternOrder(engine, m.patterns, C.FromRecords(Active(store)), columnName, r);
      }
    }

    /**
     * Stores a new active pattern under `id` unless its text is already
     * stored, then reloads; a failed reload does not remove the new row.
     */
    method CreatePattern(id: Uuid, req: CreatePatternRequest, now: Time) returns (r: Result<Uuid, ServiceError>)
      requires Valid()
      requires !HasId(store, id)
      modifies this
      ensures Valid()
      ensures TextStored(old(store), req.pattern) ==> r == Failure(AlreadyExists)
      ensures TextStored(old(store), req.pattern) ==> store == old(store) && matcher == old(matcher)
      ensures !TextStored(old(store), req.pattern) ==> store == old(store) + [CreatedRow(id, req, now)]
      ensures !TextStored(old(store), req.pattern) ==> (r.Success? <==> C.AllCompile(engine, Active(store)))
      ensures r.Success? ==> r.value == id && Loaded(store)
      ensures r.Failure? && r.error.PrepareFailed? ==> matcher == old(matcher)
      ensures DistinctTexts(old(store)) ==> DistinctTexts(store)
      ensures DistinctIds(old(store)) ==> DistinctIds(store)
    {
      if TextStored(store, req.pattern) {
        return Failure(AlreadyExists);
      }
      AppendKeepsTextsDistinct(store, CreatedRow(id, req, now));
      if DistinctIds(store) {
        AppendKeepsIdsDistinct(store, CreatedRow(id, req, now));
      }
      store := store + [CreatedRow(id, req, now)];
      var err := ReloadMatcher();
      if err.Some? {
        return Failure(err.value);
      }
      return Success(id);
    }

    /**
     * Overwrites type, text, description and priority of the row with `id`,
     * reactivates it and reloads; an unknown id changes nothing.
     */
    method UpdatePattern(id: Uuid, req: CreatePatternRequest, now: Time) returns (err: Option<ServiceError>)
      requires Valid()
      modifies this
      ensures Valid()
      ensures !HasId(old(store), id) ==> err == Some(NotFound) && store == old(store) && matcher == old(matcher)
      ensures HasId(old(store), id) ==> store == Updated(old(store), id, req, now)
      ensures HasId(old(store), id) ==> (err.None? <==> C.AllCompile(engine, Active(store)))
      ensures err.None? ==> Loaded(store)
      ensures err.Some? ==> matcher == old(matcher)
      ensures DistinctIds(old(store)) ==> DistinctIds(store)
    {
      if !HasId(store, id) {
        return Some(NotFound);
      }
      if DistinctIds(store) {
        UpdatedKeepsIdsDistinct(store, id, req, now);
      }
      store := Updated(store, id, req, now);
      err := ReloadMatcher();
    }

    /** Removes the row with `id` and reloads; an unknown id changes nothing. */
    method DeletePattern(id: Uuid) returns (err: Option<ServiceError>)
      requires Valid()
      modifies this
      ensures Valid()
      ensures !HasId(old(store), id) ==> err == Some(NotFound) && store == old(store) && matcher == old(matcher)
      ensures HasId(old(store), id) ==> store == Dropped(old(store), id)
      ensures HasId(old(store), id) ==> (err.None? <==> C.AllCompile(engine, Active(store)))
      ensures err.None? ==> Loaded(store)
      ensures err.Some? ==> matcher == old(matcher)
      ensures DistinctIds(old(store)) ==> DistinctIds(store)
    {
      if !HasId(store, id) {
        return Some(NotFound);
      }
      if DistinctIds(store) {
        DroppedKeepsIdsDistinct(store, id);
      }
      store := Dropped(store, id);
      err := ReloadMatcher();
    }

    /**
     * Loads the classifier at start-up. When the store has no active row and
     * a seed file is named, the seeds (or the error reading them) come in
     * `seeds`; each seed whose text is not yet stored is added with the next
     * id. The classifier is then built from the active rows.
     */
    method EnsurePatterns(path: string, seeds: Result<seq<PatternSeed>, string>, ids: seq<Uuid>, now: Time)
      returns (err: Option<ServiceError>)
      requires Valid()
      requires seeds.Success? ==> |seeds.value| <= |ids| && FreshIds(store, ids)
      modifies this
      ensures Valid()
      ensures !(|Active(old(store))| == 0 && path != "") ==> store == old(store)
      ensures |Active(old(store))| == 0 && path != "" && seeds.Failure? ==>
                err == Some(SeedsUnavailable(seeds.error)) && store == old(store) && matcher == old(matcher)
      ensures |Active(old(store))| == 0 && path != "" && seeds.Success? ==>
                store == Seeded(old(store), seeds.value, ids, now)
      ensures !(|Active(old(store))| == 0 && path != "" && seeds.Failure?) ==>
                (err.None? <==> C.AllCompile(engine, Active(store)))
      ensures err.None? ==> Loaded(store)
      ensures err.Some? ==> matcher == old(matcher)
      ensures DistinctIds(old(store)) ==> DistinctIds(store)
    {
      if |Active(store)| == 0 && path != "" {
        if seeds.Failure? {
          return Some(SeedsUnavailable(seeds.error));
        }
        var all := seeds.value;
        for i := 0 to |all|
          invariant store == Seeded(old(store), all[..i], ids, now)
          invariant matcher == old(matcher)
        {
          assert all[..i + 1][..i] == all[..i];
          if TextStored(store, all[i].pattern) {
            continue;
          }
          store := store + [SeedRow(ids[i], all[i], now)];
        }
        assert all[..|all|] == all;
        if DistinctIds(old(store)) {
          SeededKeepsIdsDistinct(old(store), all, ids, now);
        }
      }
      err := ReloadMatcher();
    }
  }
}
