/**
 * The column-name classifier: a list of regular-expression patterns kept in
 * non-increasing priority order, and the scoring of a column name against
 * every pattern. Scores are integer hundredths (100 stands for 1.0).
 */
module Classifier {
  import opened Wrappers
  import opened Sorting
  import opened Text
  import opened Domain

  /**
   * The library functions the classifier calls, given by what it asks of
   * them: from the regular-expression engine, whether a pattern text
   * compiles, whether a compiled pattern matches somewhere in a text, and the
   * leftmost match it finds there; from the Unicode tables, the lower-case
   * form of a rune (`unicode.ToLower`, which `strings.ToLower` applies rune
   * by rune).
   */
  datatype Engine = Engine(
    compiles: string -> bool,
    matches: (string, string) -> bool,
    leftmost: (string, string) -> string,
    lower: char -> char)

  /** A compiled pattern; the compiled expression is its text run through the engine. */
  datatype Pattern = Pattern(
    informationType: InformationType,
    pattern: string,
    description: string,
    priority: int)

  function Priority(p: Pattern): int { p.priority }

  function FromRecord(p: ClassificationPattern): Pattern
  {
    Pattern(p.informationType, p.pattern, p.description, p.priority)
  }

  function FromRecords(ps: seq<ClassificationPattern>): (r: seq<Pattern>)
    ensures |r| == |ps|
    ensures forall i :: 0 <= i < |ps| ==> r[i] == FromRecord(ps[i])
  {
    seq(|ps|, i requires 0 <= i < |ps| => FromRecord(ps[i]))
  }

  /** A pattern that matched, with its score. */
  datatype Match = Match(pattern: Pattern, score: int)

  function MatchScore(m: Match): int { m.score }

  datatype ClassifierError = CompileError(pattern: string)

  ghost predicate AllCompile(e: Engine, ps: seq<ClassificationPattern>)
  {
    forall i :: 0 <= i < |ps| ==> e.compiles(ps[i].pattern)
  }

  /** `err` reports the first pattern, in input order, that does not compile. */
  ghost predicate FirstCompileError(e: Engine, ps: seq<ClassificationPattern>, err: ClassifierError)
  {
    exists i :: 0 <= i < |ps| && !e.compiles(ps[i].pattern)
      && (forall k :: 0 <= k < i ==> e.compiles(ps[k].pattern))
      && err == CompileError(ps[i].pattern)
  }

  // ---------------------------------------------------------------------
  // Scoring

  /** Words whose presence marks a short column name as generic. */
  const CommonWords: seq<string> := ["id", "name", "number", "date", "time", "status", "type"]

  /** The name every pattern is tested against: trimmed, then lower-cased. */
  function CleanName(e: Engine, columnName: string): string
  {
    ToLower(e.lower, TrimSpace(columnName))
  }

  /**
   * For a name written in ASCII, and a rune mapping that agrees with
   * `unicode.ToLower` there, the cleaned name is the trimmed name with
   * 'A'..'Z' lower-cased and nothing else changed.
   */
  lemma CleanNameOfAscii(e: Engine, columnName: string)
    requires AgreesOnAscii(e.lower)
    requires forall i :: 0 <= i < |columnName| ==> columnName[i] as int < 0x80
    ensures var t := TrimSpace(columnName);
            && |CleanName(e, columnName)| == |t|
            && forall i :: 0 <= i < |t| ==> CleanName(e, columnName)[i] == LowerChar(t[i])
  {
    var left := TrimLeft(columnName);
    var t := TrimRight(left);
    forall i | 0 <= i < |t|
      ensures CleanName(e, columnName)[i] == LowerChar(t[i])
    {
      assert t[i] == left[i] == columnName[|columnName| - |left| + i];
    }
  }

  function Clamp(x: int): (r: int)
    ensures 0 <= r <= 100
    ensures 0 <= x <= 100 ==> r == x
  {
    if x > 100 then 100 else if x < 0 then 0 else x
  }

  /** 20 when the leftmost match is the whole name, 10 for any other match, 0 without a match. */
  function ExactnessBonus(e: Engine, name: string, p: Pattern): int
  {
    if e.matches(p.pattern, name) then
      (if e.leftmost(p.pattern, name) == name then 20 else 10)
    else 0
  }

  ghost predicate HasCommonWord(name: string)
  {
    exists k :: 0 <= k < |CommonWords| && Contains(name, CommonWords[k])
  }

  /** 10 when a short name (under 10 bytes) contains a generic word, else 0. */
  ghost function GenericPenalty(name: string): int
  {
    if HasCommonWord(name) && ByteLength(name) < 10 then 10 else 0
  }

  /** The confidence of `p` for `name`, clamped to [0, 100] hundredths. */
  ghost function ConfidenceScore(e: Engine, name: string, p: Pattern): (s: int)
    ensures 0 <= s <= 100
  {
    Clamp(p.priority + ExactnessBonus(e, name, p) - GenericPenalty(name))
  }

  /** For one name and one kind of match, a higher priority never scores lower. */
  lemma ScoreMonotoneInPriority(e: Engine, name: string, p: Pattern, q: Pattern)
    requires ExactnessBonus(e, name, p) == ExactnessBonus(e, name, q)
    requires p.priority >= q.priority
    ensures ConfidenceScore(e, name, p) >= ConfidenceScore(e, name, q)
  {
  }

  /** A matching pattern whose priority is within the bound 1..100 always scores above 0. */
  lemma BoundPriorityScoresPositive(e: Engine, name: string, p: Pattern)
    requires 1 <= p.priority <= 100
    requires e.matches(p.pattern, name)
    ensures 0 < ConfidenceScore(e, name, p)
  {
  }

  // ---------------------------------------------------------------------
  // Classification, as a specification

  /** The patterns of `ps` that match `name`, in list order, each with its score. */
  ghost function MatchesOf(e: Engine, ps: seq<Pattern>, name: string): (ms: seq<Match>)
    ensures |ms| <= |ps|
  {
    if ps == [] then []
    else
      var init := MatchesOf(e, ps[..|ps| - 1], name);
      var p := ps[|ps| - 1];
      if e.matches(p.pattern, name) then init + [Match(p, ConfidenceScore(e, name, p))] else init
  }

  /** The pattern texts of a list of matches, in the same order. */
  function Texts(ms: seq<Match>): (r: seq<string>)
    ensures |r| == |ms|
  {
    if ms == [] then [] else [ms[0].pattern.pattern] + Texts(ms[1..])
  }

  /** The answer built from the matches once ordered: the first one wins. */
  function Outcome(sorted: seq<Match>): Classification
    requires sorted != []
  {
    Classification(sorted[0].pattern.informationType, sorted[0].score, Texts(sorted))
  }

  /**
   * `r` is a possible answer for `columnName`: an empty raw name and a name no
   * pattern matches give "N/A", 0, no patterns; otherwise the matches are put
   * in some order of non-increasing score (which order among equal scores is
   * not fixed), the first one decides type and score, and all texts are listed.
   */
  ghost predicate IsClassification(e: Engine, ps: seq<Pattern>, columnName: string, r: Classification)
  {
    if columnName == "" then r == Unclassified
    else
      var ms := MatchesOf(e, ps, CleanName(e, columnName));
      if ms == [] then r == Unclassified
      else exists sorted ::
             && sorted != []
             && multiset(sorted) == multiset(ms)
             && SortedDesc(sorted, MatchScore)
             && r == Outcome(sorted)
  }

  /** The loop of `SetPatterns` that compiles the records in input order, stopping at the first failure. */
  method CompileAll(e: Engine, ps: seq<ClassificationPattern>) returns (err: Option<ClassifierError>, compiled: seq<Pattern>)
    ensures err.None? <==> AllCompile(e, ps)
    ensures err.None? ==> compiled == FromRecords(ps)
    ensures err.Some? ==> FirstCompileError(e, ps, err.value)
  {
    compiled := [];
    for i := 0 to |ps|
      invariant compiled == FromRecords(ps[..i])
      invariant forall k :: 0 <= k < i ==> e.compiles(ps[k].pattern)
    {
      if !e.compiles(ps[i].pattern) {
        assert FirstCompileError(e, ps, CompileError(ps[i].pattern));
        return Some(CompileError(ps[i].pattern)), compiled;
      }
      compiled := compiled + [FromRecord(ps[i])];
    }
    assert ps[..|ps|] == ps;
    return None, compiled;
  }

  /** A reordering of records that all compile holds only patterns that compile. */
  lemma CompiledPermutation(e: Engine, ps: seq<ClassificationPattern>, sorted: seq<Pattern>)
    requires AllCompile(e, ps)
    requires multiset(sorted) == multiset(FromRecords(ps))
    ensures forall i :: 0 <= i < |sorted| ==> e.compiles(sorted[i].pattern)
  {
    forall i | 0 <= i < |sorted|
      ensures e.compiles(sorted[i].pattern)
    {
      PermutationMembers(sorted, FromRecords(ps), sorted[i]);
      var k :| 0 <= k < |ps| && FromRecords(ps)[k] == sorted[i];
    }
  }

  /** Whether every record compiles does not depend on their order. */
  lemma AllCompilePermutation(e: Engine, a: seq<ClassificationPattern>, b: seq<ClassificationPattern>)
    requires multiset(a) == multiset(b)
    ensures AllCompile(e, a) <==> AllCompile(e, b)
  {
    if AllCompile(e, a) {
      forall i | 0 <= i < |b|
        ensures e.compiles(b[i].pattern)
      {
        PermutationMembers(a, b, b[i]);
      }
    }
    if AllCompile(e, b) {
      forall i | 0 <= i < |a|
        ensures e.compiles(a[i].pattern)
      {
        PermutationMembers(a, b, a[i]);
      }
    }
  }

  /** Putting one record back at the front of `a` and at `j` in `b` keeps their patterns permutations of each other. */
  lemma FromRecordsPutBack(a: seq<ClassificationPattern>, b: seq<ClassificationPattern>, j: nat)
    requires a != [] && j < |b| && b[j] == a[0]
    requires multiset(FromRecords(a[1..])) == multiset(FromRecords(b[..j] + b[j + 1..]))
    ensures multiset(FromRecords(a)) == multiset(FromRecords(b))
  {
    var fb := FromRecords(b);
    assert FromRecords(b[..j] + b[j + 1..]) == fb[..j] + fb[j + 1..];
    MultisetSplit(fb, j);
    assert FromRecords(a) == [FromRecord(a[0])] + FromRecords(a[1..]);
  }

  /** Reordering the records reorders their patterns the same way. */
  lemma {:induction false} FromRecordsOfPermutation(a: seq<ClassificationPattern>, b: seq<ClassificationPattern>)
    requires multiset(a) == multiset(b)
    ensures multiset(FromRecords(a)) == multiset(FromRecords(b))
    decreases |a|
  {
    PermutationLength(a, b);
    if a != [] {
      assert a[0] in multiset(b);
      var j :| 0 <= j < |b| && b[j] == a[0];
      PermutationWithout(a, b, j);
      FromRecordsOfPermutation(a[1..], b[..j] + b[j + 1..]);
      FromRecordsPutBack(a, b, j);
    }
  }

  /** The loop of `ClassifyColumn` that lists the texts of the ordered matches. */
  method ListTexts(sorted: seq<Match>) returns (texts: seq<string>)
    ensures texts == Texts(sorted)
  {
    texts := [];
    for i := 0 to |sorted|
      invariant texts == Texts(sorted[..i])
    {
      TextsAppend(sorted[..i], [sorted[i]]);
      assert sorted[..i + 1] == sorted[..i] + [sorted[i]];
      texts := texts + [sorted[i].pattern.pattern];
    }
    assert sorted[..|sorted|] == sorted;
  }

  // ---------------------------------------------------------------------
  // The classifier object

  class Classifier {
    const engine: Engine
    var patterns: seq<Pattern>

    /** Every held pattern compiled, and the list is in non-increasing priority order. */
    ghost predicate Valid()
      reads this
    {
      SortedDesc(patterns, Priority)
      && forall i :: 0 <= i < |patterns| ==> engine.compiles(patterns[i].pattern)
    }

    /** An empty classifier (`&Classifier{}`). */
    constructor (engine: Engine)
      ensures Valid()
      ensures this.engine == engine && patterns == []
    {
      this.engine := engine;
      patterns := [];
    }

    /** A classifier holding `ps`, or the first compile error. */
    static method NewClassifier(engine: Engine, ps: seq<ClassificationPattern>) returns (r: Result<Classifier, ClassifierError>)
      ensures r.Success? <==> AllCompile(engine, ps)
      ensures r.Success? ==> fresh(r.value) && r.value.Valid() && r.value.engine == engine
      ensures r.Success? ==> multiset(r.value.patterns) == multiset(FromRecords(ps))
      ensures r.Failure? ==> FirstCompileError(engine, ps, r.error)
    {
      var c := new Classifier(engine);
      var err := c.SetPatterns(ps);
      if err.Some? {
        return Failure(err.value);
      }
      return Success(c);
    }

    /**
     * Compiles every record and, when all compile, replaces the list with them
     * in priority order; the first failure leaves the list as it was.
     */
    method SetPatterns(ps: seq<ClassificationPattern>) returns (err: Option<ClassifierError>)
      requires Valid()
      modifies this
      ensures Valid()
      ensures err.None? <==> AllCompile(engine, ps)
      ensures err.None? ==> multiset(patterns) == multiset(FromRecords(ps))
      ensures err.Some? ==> FirstCompileError(engine, ps, err.value) && patterns == old(patterns)
    {
      var failure, compiled := CompileAll(engine, ps);
      if failure.Some? {
        return failure;
      }
      var sorted := SortDesc(compiled, Priority);
      CompiledPermutation(engine, ps, sorted);
      patterns := sorted;
      return None;
    }

    /** The score of one pattern for an already cleaned name. */
    method CalculateConfidenceScore(columnName: string, p: Pattern) returns (score: int)
      ensures score == ConfidenceScore(engine, columnName, p)
    {
      var baseScore := p.priority;
      var exactMatch := 0;
      if engine.matches(p.pattern, columnName) {
        var found := engine.leftmost(p.pattern, columnName);
        if found == columnName {
          exactMatch := 20;
        } else {
          exactMatch := 10;
        }
      }
      var penalty := 0;
      var k := 0;
      while k < |CommonWords|
        invariant 0 <= k <= |CommonWords|
        invariant penalty == 0
        invariant forall j :: 0 <= j < k ==> !(Contains(columnName, CommonWords[j]) && ByteLength(columnName) < 10)
      {
        if Contains(columnName, CommonWords[k]) && ByteLength(columnName) < 10 {
          penalty := 10;
          break;
        }
        k := k + 1;
      }
      score := Clamp(baseScore + exactMatch - penalty);
    }

    /** Classifies one column name against every held pattern. */
    method ClassifyColumn(columnName: string) returns (r: Classification)
      ensures IsClassification(engine, patterns, columnName, r)
    {
      if columnName == "" {
        return Unclassified;
      }
      var cleanName := CleanName(engine, columnName);
      var matches := CollectMatches(cleanName);
      if matches == [] {
        return Unclassified;
      }
      var sorted := SortDesc(matches, MatchScore);
      PermutationLength(sorted, matches);
      var matchedPatterns := ListTexts(sorted);
      r := Classification(sorted[0].pattern.informationType, sorted[0].score, matchedPatterns);
    }

    /** The loop of `ClassifyColumn` that tests every pattern, in list order, and scores each match. */
    method CollectMatches(cleanName: string) returns (matches: seq<Match>)
      ensures matches == MatchesOf(engine, patterns, cleanName)
    {
      matches := [];
      for i := 0 to |patterns|
        invariant matches == MatchesOf(engine, patterns[..i], cleanName)
      {
        assert patterns[..i + 1][..i] == patterns[..i];
        if engine.matches(patterns[i].pattern, cleanName) {
          var score := CalculateConfidenceScore(cleanName, patterns[i]);
          matches := matches + [Match(patterns[i], score)];
        }
      }
      assert patterns[..|patterns|] == patterns;
    }

    /** Appends one pattern and restores priority order; a compile error changes nothing. */
    method AddPattern(p: Pattern) returns (err: Option<ClassifierError>)
      requires Valid()
      modifies this
      ensures Valid()
      ensures err.None? <==> engine.compiles(p.pattern)
      ensures err.Some? ==> err.value == CompileError(p.pattern) && patterns == old(patterns)
      ensures err.None? ==> |patterns| == |old(patterns)| + 1
      ensures err.None? ==> multiset(patterns) == multiset(old(patterns)) + multiset{p}
    {
      if !engine.compiles(p.pattern) {
        return Some(CompileError(p.pattern));
      }
      var grown := patterns + [p];
      patterns := SortDesc(grown, Priority);
      PermutationLength(patterns, grown);
      assert forall i :: 0 <= i < |patterns| ==> patterns[i] in multiset(grown);
      return None;
    }

    /** The held patterns, in non-increasing priority order. */
    function GetPatterns(): (ps: seq<Pattern>)
      reads this
      requires Valid()
      ensures SortedDesc(ps, Priority)
    {
      patterns
    }

    /** Drops every pattern with this type and this text, keeping the rest in order. */
    method RemovePattern(infoType: InformationType, patternText: string)
      requires Valid()
      modifies this
      ensures Valid()
      ensures patterns == Without(old(patterns), infoType, patternText)
    {
      var newPatterns: seq<Pattern> := [];
      for i := 0 to |patterns|
        invariant newPatterns == Without(patterns[..i], infoType, patternText)
      {
        assert patterns[..i + 1][..i] == patterns[..i];
        if patterns[i].informationType != infoType || patterns[i].pattern != patternText {
          newPatterns := newPatterns + [patterns[i]];
        }
      }
      assert patterns[..|patterns|] == patterns;
      WithoutKeepsOrder(patterns, infoType, patternText, Priority);
      WithoutSubset(patterns, infoType, patternText);
      forall i | 0 <= i < |newPatterns|
        ensures engine.compiles(newPatterns[i].pattern)
      {
        assert newPatterns[i] in patterns;
        var k :| 0 <= k < |patterns| && patterns[k] == newPatterns[i];
      }
      patterns := newPatterns;
    }
  }

  // ---------------------------------------------------------------------
  // Removal

  predicate Removed(p: Pattern, infoType: InformationType, patternText: string)
  {
    p.informationType == infoType && p.pattern == patternText
  }

  /** `ps` without the entries of the given type and text, in the original order. */
  function Without(ps: seq<Pattern>, infoType: InformationType, patternText: string): (r: seq<Pattern>)
    ensures |r| <= |ps|
  {
    if ps == [] then []
    else
      var last := ps[|ps| - 1];
      Without(ps[..|ps| - 1], infoType, patternText) + (if Removed(last, infoType, patternText) then [] else [last])
  }

  /** Removal acts on each part of a list separately, so it keeps the relative order. */
  lemma {:induction false} WithoutAppend(a: seq<Pattern>, b: seq<Pattern>, t: InformationType, s: string)
    ensures Without(a + b, t, s) == Without(a, t, s) + Without(b, t, s)
    decreases |b|
  {
    if b == [] {
      assert a + b == a;
    } else {
      var b' := b[..|b| - 1];
      assert (a + b)[..|a + b| - 1] == a + b';
      WithoutAppend(a, b', t, s);
    }
  }

  /** Exactly the removed entries disappear; every other entry keeps its multiplicity. */
  lemma {:induction false} WithoutMembers(ps: seq<Pattern>, t: InformationType, s: string)
    ensures forall q :: multiset(Without(ps, t, s))[q] == if Removed(q, t, s) then 0 else multiset(ps)[q]
  {
    if ps != [] {
      var init := ps[..|ps| - 1];
      WithoutMembers(init, t, s);
      assert ps == init + [ps[|ps| - 1]];
    }
  }

  /** Every entry of the result is an entry of `ps` that is not removed. */
  lemma {:induction false} WithoutSubset(ps: seq<Pattern>, t: InformationType, s: string)
    ensures forall q :: q in Without(ps, t, s) <==> q in ps && !Removed(q, t, s)
  {
    if ps != [] {
      var init := ps[..|ps| - 1];
      WithoutSubset(init, t, s);
      assert ps == init + [ps[|ps| - 1]];
    }
  }

  /** Removal keeps a list ordered by any key. */
  lemma {:induction false} WithoutKeepsOrder(ps: seq<Pattern>, t: InformationType, s: string, key: Pattern -> int)
    requires SortedDesc(ps, key)
    ensures SortedDesc(Without(ps, t, s), key)
  {
    if ps != [] {
      var init := ps[..|ps| - 1];
      var last := ps[|ps| - 1];
      WithoutKeepsOrder(init, t, s, key);
      WithoutSubset(init, t, s);
      var w := Without(init, t, s);
      forall q | q in w
        ensures key(q) >= key(last)
      {
        var i :| 0 <= i < |init| && init[i] == q;
      }
    }
  }

  // ---------------------------------------------------------------------
  // Texts of matches

  /** The text at each position is the text of the pattern of the match there. */
  lemma {:induction false} TextsAt(ms: seq<Match>, k: nat)
    requires k < |ms|
    ensures Texts(ms)[k] == ms[k].pattern.pattern
  {
    if k > 0 {
      TextsAt(ms[1..], k - 1);
    }
  }

  lemma {:induction false} TextsAppend(a: seq<Match>, b: seq<Match>)
    ensures Texts(a + b) == Texts(a) + Texts(b)
  {
    if a == [] {
      assert a + b == b;
    } else {
      assert (a + b)[1..] == a[1..] + b;
      TextsAppend(a[1..], b);
    }
  }

  /** The texts of a list with the match at `j` left out are its texts with the text at `j` left out. */
  lemma TextsSkip(b: seq<Match>, j: nat)
    requires j < |b|
    ensures Texts(b[..j] + b[j + 1..]) == Texts(b)[..j] + Texts(b)[j + 1..]
  {
    var rest, skipped := b[..j] + b[j + 1..], Texts(b)[..j] + Texts(b)[j + 1..];
    forall k | 0 <= k < |rest|
      ensures Texts(rest)[k] == skipped[k]
    {
      TextsSkipAt(b, j, k);
    }
  }

  lemma TextsSkipAt(b: seq<Match>, j: nat, k: nat)
    requires j < |b| && k < |b| - 1
    ensures Texts(b[..j] + b[j + 1..])[k] == (Texts(b)[..j] + Texts(b)[j + 1..])[k]
  {
    var t := Texts(b);
    SkipAt(b, j, k);
    SkipAt(t, j, k);
    TextsAt(b[..j] + b[j + 1..], k);
    TextsAt(b, if k < j then k else k + 1);
  }

  /** Position `k` of a list with position `j` left out. */
  lemma SkipAt<T>(b: seq<T>, j: nat, k: nat)
    requires j < |b| && k < |b| - 1
    ensures (b[..j] + b[j + 1..])[k] == b[if k < j then k else k + 1]
  {
  }

  /** Taking out the match at `j` takes out its text. */
  lemma TextsWithout(b: seq<Match>, j: nat)
    requires j < |b|
    ensures multiset(Texts(b)) == multiset(Texts(b[..j] + b[j + 1..])) + multiset{b[j].pattern.pattern}
  {
    TextsSkip(b, j);
    TextsAt(b, j);
    MultisetSplit(Texts(b), j);
  }

  lemma MultisetWithout<T>(b: seq<T>, j: nat)
    requires j < |b|
    ensures multiset(b[..j] + b[j + 1..]) == multiset(b) - multiset{b[j]}
  {
    assert b == b[..j] + [b[j]] + b[j + 1..];
  }

  /** A sequence counts its element at `j` once more than the sequence without it. */
  lemma MultisetSplit<T>(b: seq<T>, j: nat)
    requires j < |b|
    ensures multiset(b) == multiset(b[..j] + b[j + 1..]) + multiset{b[j]}
  {
    assert b == b[..j] + [b[j]] + b[j + 1..];
  }

  /** Taking the same element out of two permutations of each other leaves permutations of each other. */
  lemma PermutationWithout<T>(a: seq<T>, b: seq<T>, j: nat)
    requires multiset(a) == multiset(b) && a != [] && j < |b| && b[j] == a[0]
    ensures multiset(a[1..]) == multiset(b[..j] + b[j + 1..])
  {
    MultisetWithout(b, j);
    assert a == [a[0]] + a[1..];
    assert multiset(a[1..]) == multiset(a) - multiset{a[0]};
  }

  /** Putting one match back at the front of `a` and at `j` in `b` keeps their texts permutations of each other. */
  lemma TextsPutBack(a: seq<Match>, b: seq<Match>, j: nat)
    requires a != [] && j < |b| && b[j] == a[0]
    requires multiset(Texts(a[1..])) == multiset(Texts(b[..j] + b[j + 1..]))
    ensures multiset(Texts(a)) == multiset(Texts(b))
  {
    TextsWithout(b, j);
    assert Texts(a) == [a[0].pattern.pattern] + Texts(a[1..]);
  }

  /** Reordering the matches reorders their texts the same way. */
  lemma {:induction false} TextsOfPermutation(a: seq<Match>, b: seq<Match>)
    requires multiset(a) == multiset(b)
    ensures multiset(Texts(a)) == multiset(Texts(b))
    decreases |a|
  {
    PermutationLength(a, b);
    if a != [] {
      assert a[0] in multiset(b);
      var j :| 0 <= j < |b| && b[j] == a[0];
      PermutationWithout(a, b, j);
      TextsOfPermutation(a[1..], b[..j] + b[j + 1..]);
      TextsPutBack(a, b, j);
    }
  }

  // ---------------------------------------------------------------------
  // Properties of a classification

  /** The texts of the patterns of `ps` that match `name`, in list order. */
  ghost function MatchingTexts(e: Engine, ps: seq<Pattern>, name: string): seq<string>
  {
    if ps == [] then []
    else (if e.matches(ps[0].pattern, name) then [ps[0].pattern] else []) + MatchingTexts(e, ps[1..], name)
  }

  lemma {:induction false} MatchingTextsAppend(e: Engine, a: seq<Pattern>, b: seq<Pattern>, name: string)
    ensures MatchingTexts(e, a + b, name) == MatchingTexts(e, a, name) + MatchingTexts(e, b, name)
    decreases |a|
  {
    if a != [] {
      assert (a + b)[1..] == a[1..] + b;
      MatchingTextsAppend(e, a[1..], b, name);
    } else {
      assert a + b == b;
    }
  }

  /** One match per matching pattern, in list order: the texts are exactly the matching texts. */
  lemma {:induction false} MatchesOfTexts(e: Engine, ps: seq<Pattern>, name: string)
    ensures Texts(MatchesOf(e, ps, name)) == MatchingTexts(e, ps, name)
  {
    if ps != [] {
      var init, last := ps[..|ps| - 1], ps[|ps| - 1];
      MatchesOfTexts(e, init, name);
      assert ps == init + [last];
      MatchingTextsAppend(e, init, [last], name);
      TextsAppend(MatchesOf(e, init, name), [Match(last, ConfidenceScore(e, name, last))]);
    }
  }

  /** Each match is a matching pattern of the list with its own score, and every matching pattern has one. */
  lemma {:induction false} MatchesOfMembers(e: Engine, ps: seq<Pattern>, name: string)
    ensures forall m :: m in MatchesOf(e, ps, name) ==>
      m.pattern in ps && e.matches(m.pattern.pattern, name) && m.score == ConfidenceScore(e, name, m.pattern)
    ensures forall p :: p in ps && e.matches(p.pattern, name) ==> Match(p, ConfidenceScore(e, name, p)) in MatchesOf(e, ps, name)
  {
    if ps != [] {
      var init := ps[..|ps| - 1];
      MatchesOfMembers(e, init, name);
      assert ps == init + [ps[|ps| - 1]];
    }
  }

  /** A pattern that matched always earns an exactness bonus: the re-test inside the scoring never fails. */
  lemma MatchedBonusNeverZero(e: Engine, ps: seq<Pattern>, name: string, m: Match)
    requires m in MatchesOf(e, ps, name)
    ensures ExactnessBonus(e, name, m.pattern) == 10 || ExactnessBonus(e, name, m.pattern) == 20
  {
    MatchesOfMembers(e, ps, name);
  }

  /** An answer lists the text of every matching pattern, once per matching pattern. */
  lemma ClassificationListsEveryMatch(e: Engine, ps: seq<Pattern>, columnName: string, r: Classification)
    requires IsClassification(e, ps, columnName, r)
    requires columnName != ""
    ensures multiset(r.matchedPatterns) == multiset(MatchingTexts(e, ps, CleanName(e, columnName)))
  {
    var ms := MatchesOf(e, ps, CleanName(e, columnName));
    MatchesOfTexts(e, ps, CleanName(e, columnName));
    if ms != [] {
      var sorted :| sorted != [] && multiset(sorted) == multiset(ms) && SortedDesc(sorted, MatchScore) && r == Outcome(sorted);
      TextsOfPermutation(sorted, ms);
    }
  }

  /**
   * When something matched, the answer's type and score are those of a match
   * whose score no other match exceeds, and that score is within [0, 100].
   */
  lemma ClassificationPicksBest(e: Engine, ps: seq<Pattern>, columnName: string, r: Classification)
    requires IsClassification(e, ps, columnName, r)
    requires columnName != "" && MatchesOf(e, ps, CleanName(e, columnName)) != []
    ensures r.matchedPatterns != []
    ensures exists m ::
              && m in MatchesOf(e, ps, CleanName(e, columnName))
              && m.pattern.informationType == r.informationType
              && m.score == r.confidenceScore
    ensures forall m :: m in MatchesOf(e, ps, CleanName(e, columnName)) ==> m.score <= r.confidenceScore
    ensures 0 <= r.confidenceScore <= 100
  {
    var ms := MatchesOf(e, ps, CleanName(e, columnName));
    var sorted :| sorted != [] && multiset(sorted) == multiset(ms) && SortedDesc(sorted, MatchScore) && r == Outcome(sorted);
    PermutationMembers(sorted, ms, sorted[0]);
    MatchesOfMembers(e, ps, CleanName(e, columnName));
    forall m | m in ms
      ensures m.score <= r.confidenceScore
    {
      PermutationMembers(sorted, ms, m);
      var j :| 0 <= j < |sorted| && sorted[j] == m;
      assert MatchScore(sorted[0]) >= MatchScore(sorted[j]) || j == 0;
    }
  }

  lemma {:induction false} MatchesOfAppend(e: Engine, a: seq<Pattern>, b: seq<Pattern>, name: string)
    ensures MatchesOf(e, a + b, name) == MatchesOf(e, a, name) + MatchesOf(e, b, name)
    decreases |b|
  {
    if b == [] {
      assert a + b == a;
    } else {
      var init := b[..|b| - 1];
      assert (a + b)[..|a + b| - 1] == a + init;
      MatchesOfAppend(e, a, init, name);
    }
  }

  /** Which patterns match, and with which scores, does not depend on the order of the list. */
  lemma {:induction false} MatchesOfPermutation(e: Engine, a: seq<Pattern>, b: seq<Pattern>, name: string)
    requires multiset(a) == multiset(b)
    ensures multiset(MatchesOf(e, a, name)) == multiset(MatchesOf(e, b, name))
    decreases |a|
  {
    PermutationLength(a, b);
    if a != [] {
      var x := a[|a| - 1];
      var init := a[..|a| - 1];
      assert x in multiset(b);
      var j :| 0 <= j < |b| && b[j] == x;
      assert multiset(init) == multiset(b[..j] + b[j + 1..]) by {
        assert a == init + [x];
        MultisetWithout(b, j);
      }
      MatchesOfPermutation(e, init, b[..j] + b[j + 1..], name);
      assert a == init + [x];
      SplitAt(b, j);
      MatchesOfPutBack(e, init, x, b[..j], b[j + 1..], name);
    }
  }

  /** Putting one pattern back at the end of `init` and between `left` and `right` keeps their matches permutations of each other. */
  lemma MatchesOfPutBack(e: Engine, init: seq<Pattern>, x: Pattern, left: seq<Pattern>, right: seq<Pattern>, name: string)
    requires multiset(MatchesOf(e, init, name)) == multiset(MatchesOf(e, left + right, name))
    ensures multiset(MatchesOf(e, init + [x], name)) == multiset(MatchesOf(e, left + ([x] + right), name))
  {
    MatchesOfAppend(e, left, [x] + right, name);
    MatchesOfAppend(e, [x], right, name);
    MatchesOfAppend(e, left, right, name);
    MatchesOfAppend(e, init, [x], name);
  }

  /** Classifying against a reordering of the same patterns allows exactly the same answers. */
  lemma ClassificationIgnoresPatternOrder(e: Engine, a: seq<Pattern>, b: seq<Pattern>, columnName: string, r: Classification)
    requires multiset(a) == multiset(b)
    requires IsClassification(e, a, columnName, r)
    ensures IsClassification(e, b, columnName, r)
  {
    if columnName != "" {
      var name := CleanName(e, columnName);
      MatchesOfPermutation(e, a, b, name);
      PermutationLength(MatchesOf(e, a, name), MatchesOf(e, b, name));
    }
  }

  /** With nothing matched (or an empty raw name) the answer is "N/A", 0, no patterns. */
  lemma ClassificationOfNoMatch(e: Engine, ps: seq<Pattern>, columnName: string, r: Classification)
    requires IsClassification(e, ps, columnName, r)
    requires columnName == "" || MatchingTexts(e, ps, CleanName(e, columnName)) == []
    ensures r == Unclassified
  {
    if columnName != "" {
      MatchesOfTexts(e, ps, CleanName(e, columnName));
    }
  }

  /** Two answers for the same name and list differ at most in which of the equally scored matches wins. */
  lemma ClassificationUpToTies(e: Engine, ps: seq<Pattern>, columnName: string, r1: Classification, r2: Classification)
    requires IsClassification(e, ps, columnName, r1) && IsClassification(e, ps, columnName, r2)
    ensures r1.confidenceScore == r2.confidenceScore
    ensures multiset(r1.matchedPatterns) == multiset(r2.matchedPatterns)
  {
    if columnName != "" {
      ClassificationListsEveryMatch(e, ps, columnName, r1);
      ClassificationListsEveryMatch(e, ps, columnName, r2);
      if MatchesOf(e, ps, CleanName(e, columnName)) != [] {
        ClassificationPicksBest(e, ps, columnName, r1);
        ClassificationPicksBest(e, ps, columnName, r2);
      }
    }
  }

  /** When no held pattern is of type "N/A", an answer is "N/A" exactly when it lists no pattern. */
  lemma ClassifiedIffMatched(e: Engine, ps: seq<Pattern>, columnName: string, r: Classification)
    requires IsClassification(e, ps, columnName, r)
    requires forall p :: p in ps ==> p.informationType != NA
    ensures r.informationType == NA <==> r.matchedPatterns == []
  {
    if columnName != "" && MatchesOf(e, ps, CleanName(e, columnName)) != [] {
      ClassificationPicksBest(e, ps, columnName, r);
      MatchesOfMembers(e, ps, CleanName(e, columnName));
    }
  }

  /**
   * The empty-name check looks at the raw name: a name made only of white
   * space is not short-cut but matched as the empty string, so a pattern that
   * matches "" classifies it.
   */
  lemma BlankNameMatchedAsEmpty(e: Engine, ps: seq<Pattern>, columnName: string, r: Classification, p: Pattern)
    requires columnName != "" && forall i :: 0 <= i < |columnName| ==> IsSpace(columnName[i])
    requires IsClassification(e, ps, columnName, r)
    requires p in ps && e.matches(p.pattern, "")
    ensures CleanName(e, columnName) == ""
    ensures r != Unclassified && p.pattern in r.matchedPatterns
  {
    assert TrimLeft(columnName) == [];
    MatchesOfMembers(e, ps, "");
    ClassificationListsEveryMatch(e, ps, columnName, r);
    MatchesOfTexts(e, ps, "");
    var m := Match(p, ConfidenceScore(e, "", p));
    var ms := MatchesOf(e, ps, "");
    var k :| 0 <= k < |ms| && ms[k] == m;
    TextsAt(ms, k);
    assert p.pattern in multiset(r.matchedPatterns);
  }

  /** A short generic name that a pattern matches exactly: priority 50 + 20 - 10 gives 0.60. */
  lemma ScoreOfExactGenericName(e: Engine, p: Pattern)
    requires p.priority == 50
    requires e.matches(p.pattern, "id") && e.leftmost(p.pattern, "id") == "id"
    ensures ConfidenceScore(e, "id", p) == 60
  {
    assert Contains("id", CommonWords[0]) by { assert CommonWords[0] <= "id"[0..]; }
  }
}
