/**
 * The risk level of a scan, from the per-type count map and the number of
 * columns scanned. Five types count as high risk and five as medium risk;
 * every other type, "N/A" included, adds nothing. Percentages are compared by
 * cross-multiplication instead of in floating point.
 */
module Risk {
  import opened Domain
  import opened Sorting

  const HighRiskTypes: seq<InformationType> := [CreditCardNumber, SSN, PassportNumber, NationalID, BankAccount]

  const MediumRiskTypes: seq<InformationType> := [EmailAddress, PhoneNumber, DateOfBirth, DriverLicense, AccountNumber]

  /** The two lists have five distinct entries each, share none, and hold neither "N/A" nor a custom type. */
  lemma RiskTypeLists()
    ensures |HighRiskTypes| == 5 && Distinct(HighRiskTypes)
    ensures |MediumRiskTypes| == 5 && Distinct(MediumRiskTypes)
    ensures Distinct(HighRiskTypes + MediumRiskTypes)
    ensures forall t :: t in HighRiskTypes ==> t !in MediumRiskTypes && t != NA && t in DeclaredTypes
    ensures forall t :: t in MediumRiskTypes ==> t !in HighRiskTypes && t != NA && t in DeclaredTypes
  {
    var both := HighRiskTypes + MediumRiskTypes;
    forall i, j | 0 <= i < j < |both|
      ensures both[i] != both[j]
    {
    }
    DistinctAppend(HighRiskTypes, MediumRiskTypes);
  }

  // ---------------------------------------------------------------------
  // Sums over the count map

  /** The count recorded for `t`; a missing key counts 0. */
  function TypeCount(counts: map<InformationType, int>, t: InformationType): int
  {
    if t in counts then counts[t] else 0
  }

  /** The counts of the types of a list, added up. */
  function ListCount(counts: map<InformationType, int>, types: seq<InformationType>): int
  {
    if types == [] then 0 else TypeCount(counts, types[0]) + ListCount(counts, types[1..])
  }

  /** Like `ListCount`, but only for the types already in `seen`. */
  ghost function SeenCount(counts: map<InformationType, int>, types: seq<InformationType>, seen: set<InformationType>): int
  {
    if types == [] then 0
    else (if types[0] in seen then TypeCount(counts, types[0]) else 0) + SeenCount(counts, types[1..], seen)
  }

  /** Visiting one more key adds its count once when the list holds it, and nothing otherwise. */
  lemma {:induction false} SeenCountAdd(counts: map<InformationType, int>, types: seq<InformationType>,
                                        seen: set<InformationType>, k: InformationType)
    requires Distinct(types) && k !in seen
    ensures SeenCount(counts, types, seen + {k}) == SeenCount(counts, types, seen) + (if k in types then TypeCount(counts, k) else 0)
  {
    if types != [] {
      assert Distinct(types[1..]) by {
        forall i, j | 0 <= i < j < |types[1..]|
          ensures types[1..][i] != types[1..][j]
        {
          assert types[1..][i] == types[i + 1] && types[1..][j] == types[j + 1];
        }
      }
      SeenCountAdd(counts, types[1..], seen, k);
      if k == types[0] {
        assert k !in types[1..] by {
          forall i | 0 <= i < |types[1..]|
            ensures types[1..][i] != k
          {
            assert types[1..][i] == types[i + 1];
          }
        }
      } else {
        assert k in types <==> k in types[1..] by {
          assert types == [types[0]] + types[1..];
        }
      }
    }
  }

  /** Once every key is seen, the restricted sum is the whole sum. */
  lemma {:induction false} SeenCountComplete(counts: map<InformationType, int>, types: seq<InformationType>)
    ensures SeenCount(counts, types, counts.Keys) == ListCount(counts, types)
  {
    if types != [] {
      SeenCountComplete(counts, types[1..]);
    }
  }

  lemma {:induction false} SeenCountNone(counts: map<InformationType, int>, types: seq<InformationType>)
    ensures SeenCount(counts, types, {}) == 0
  {
    if types != [] {
      SeenCountNone(counts, types[1..]);
    }
  }

  /** The sum of the values of `m` at `keys`. */
  ghost function KeySum<K>(m: map<K, int>, keys: set<K>): int
    requires keys <= m.Keys
  {
    if keys == {} then 0
    else
      var k :| k in keys;
      m[k] + KeySum(m, keys - {k})
  }

  /** The sum of all values of a count map. */
  ghost function MapSum<K>(m: map<K, int>): int
  {
    KeySum(m, m.Keys)
  }

  /** Any key may be taken out first. */
  lemma {:induction false} KeySumRemove<K>(m: map<K, int>, keys: set<K>, k: K)
    requires keys <= m.Keys && k in keys
    ensures KeySum(m, keys) == m[k] + KeySum(m, keys - {k})
    decreases keys
  {
    var j :| j in keys && KeySum(m, keys) == m[j] + KeySum(m, keys - {j});
    if j != k {
      KeySumRemove(m, keys - {j}, k);
      KeySumRemove(m, keys - {k}, j);
      assert keys - {j} - {k} == keys - {k} - {j};
    }
  }

  /** The sum only depends on the values at the keys summed. */
  lemma {:induction false} KeySumAgree<K>(m: map<K, int>, m': map<K, int>, keys: set<K>)
    requires keys <= m.Keys && keys <= m'.Keys
    requires forall k :: k in keys ==> m[k] == m'[k]
    ensures KeySum(m, keys) == KeySum(m', keys)
    decreases keys
  {
    if keys != {} {
      var k :| k in keys;
      KeySumRemove(m, keys, k);
      KeySumRemove(m', keys, k);
      KeySumAgree(m, m', keys - {k});
    }
  }

  /** Setting a key to `v` changes the sum by the difference with its old count. */
  lemma MapSumUpdate(m: map<InformationType, int>, k: InformationType, v: int)
    ensures MapSum(m[k := v]) == MapSum(m) - TypeCount(m, k) + v
  {
    var m' := m[k := v];
    var rest := m.Keys - {k};
    KeySumRemove(m', m'.Keys, k);
    assert m'.Keys - {k} == rest;
    KeySumAgree(m, m', rest);
    if k in m {
      KeySumRemove(m, m.Keys, k);
    } else {
      assert m.Keys == rest;
    }
  }

  lemma {:induction false} KeySumNonNegative<K>(m: map<K, int>, keys: set<K>)
    requires keys <= m.Keys
    requires forall k :: k in keys ==> m[k] >= 0
    ensures KeySum(m, keys) >= 0
    decreases keys
  {
    if keys != {} {
      var k :| k in keys;
      KeySumRemove(m, keys, k);
      KeySumNonNegative(m, keys - {k});
    }
  }

  /**
   * A list of distinct types never counts more than the sum over any key set
   * holding every listed type that has a count, when no count is negative.
   */
  lemma {:induction false} ListCountAtMostKeySum(m: map<InformationType, int>, types: seq<InformationType>, keys: set<InformationType>)
    requires Distinct(types) && keys <= m.Keys
    requires forall t :: t in m ==> m[t] >= 0
    requires forall i :: 0 <= i < |types| && types[i] in m ==> types[i] in keys
    ensures ListCount(m, types) <= KeySum(m, keys)
    decreases |types|
  {
    if types == [] {
      KeySumNonNegative(m, keys);
    } else {
      var t, rest := types[0], types[1..];
      assert Distinct(rest) by {
        forall i, j | 0 <= i < j < |rest|
          ensures rest[i] != rest[j]
        {
          assert rest[i] == types[i + 1] && rest[j] == types[j + 1];
        }
      }
      if t in m {
        forall i | 0 <= i < |rest| && rest[i] in m
          ensures rest[i] in keys - {t}
        {
          assert rest[i] == types[i + 1];
        }
        ListCountAtMostKeySum(m, rest, keys - {t});
        KeySumRemove(m, keys, t);
      } else {
        forall i | 0 <= i < |rest| && rest[i] in m
          ensures rest[i] in keys
        {
          assert rest[i] == types[i + 1];
        }
        ListCountAtMostKeySum(m, rest, keys);
      }
    }
  }

  lemma {:induction false} ListCountAppend(m: map<InformationType, int>, a: seq<InformationType>, b: seq<InformationType>)
    ensures ListCount(m, a + b) == ListCount(m, a) + ListCount(m, b)
  {
    if a != [] {
      assert (a + b)[1..] == a[1..] + b;
      ListCountAppend(m, a[1..], b);
    } else {
      assert a + b == b;
    }
  }

  /** The high- and medium-risk counts together never exceed the sum of the whole map. */
  lemma SensitiveAtMostAll(m: map<InformationType, int>)
    requires forall t :: t in m ==> m[t] >= 0
    ensures ListCount(m, HighRiskTypes) + ListCount(m, MediumRiskTypes) <= MapSum(m)
  {
    RiskTypeLists();
    ListCountAppend(m, HighRiskTypes, MediumRiskTypes);
    ListCountAtMostKeySum(m, HighRiskTypes + MediumRiskTypes, m.Keys);
  }

  // ---------------------------------------------------------------------
  // The ladder

  /** The order of the levels, lowest first. */
  function Severity(level: RiskLevel): nat
  {
    match level
    case Low => 0
    case Medium => 1
    case High => 2
    case Critical => 3
  }

  /**
   * The level for `high` high-risk and `medium` medium-risk columns out of
   * `total`: with p = (high + medium) / total * 100, Critical when there is a
   * high-risk column and p > 20, else High when there is one or p > 15, else
   * Medium when there is a medium-risk column or p > 5, else Low; Low for an
   * empty scan.
   */
  function LevelOf(high: int, medium: int, total: nat): RiskLevel
  {
    if total == 0 then Low
    else if high > 0 && (high + medium) * 100 > 20 * total then Critical
    else if high > 0 || (high + medium) * 100 > 15 * total then High
    else if medium > 0 || (high + medium) * 100 > 5 * total then Medium
    else Low
  }

  /** The level of a count map over `total` columns. */
  function RiskLevelOf(counts: map<InformationType, int>, total: nat): RiskLevel
  {
    LevelOf(ListCount(counts, HighRiskTypes), ListCount(counts, MediumRiskTypes), total)
  }

  /**
   * Goes over the entries of the count map, adding each count to the high or
   * medium sum when its type is in that list.
   */
  method SensitiveCounts(counts: map<InformationType, int>) returns (high: int, medium: int)
    ensures high == ListCount(counts, HighRiskTypes)
    ensures medium == ListCount(counts, MediumRiskTypes)
  {
    RiskTypeLists();
    high, medium := 0, 0;
    var remaining := counts.Keys;
    ghost var seen: set<InformationType> := {};
    SeenCountNone(counts, HighRiskTypes);
    SeenCountNone(counts, MediumRiskTypes);
    while remaining != {}
      invariant remaining + seen == counts.Keys && remaining !! seen
      invariant high == SeenCount(counts, HighRiskTypes, seen)
      invariant medium == SeenCount(counts, MediumRiskTypes, seen)
      decreases |remaining|
    {
      var t :| t in remaining;
      if t in HighRiskTypes {
        high := high + counts[t];
      }
      if t in MediumRiskTypes {
        medium := medium + counts[t];
      }
      SeenCountAdd(counts, HighRiskTypes, seen, t);
      SeenCountAdd(counts, MediumRiskTypes, seen, t);
      remaining := remaining - {t};
      seen := seen + {t};
    }
    SeenCountComplete(counts, HighRiskTypes);
    SeenCountComplete(counts, MediumRiskTypes);
  }

  /** Sums the high- and medium-risk counts, then climbs the ladder; an empty scan is Low. */
  method CalculateRiskLevel(counts: map<InformationType, int>, total: nat) returns (level: RiskLevel)
    ensures level == RiskLevelOf(counts, total)
  {
    if total == 0 {
      return Low;
    }
    var high, medium := SensitiveCounts(counts);
    var sensitive := high + medium;
    if high > 0 && sensitive * 100 > 20 * total {
      level := Critical;
    } else if high > 0 || sensitive * 100 > 15 * total {
      level := High;
    } else if medium > 0 || sensitive * 100 > 5 * total {
      level := Medium;
    } else {
      level := Low;
    }
  }

  /**
   * With non-negative counts over a non-empty scan, the level is Low exactly
   * when no high- or medium-risk column was found, at least High exactly when
   * a high-risk column was found or more than 15 percent of the columns are
   * sensitive, and Critical exactly when a high-risk column was found and more
   * than 20 percent of the columns are sensitive.
   */
  lemma LevelLadder(high: int, medium: int, total: nat)
    requires high >= 0 && medium >= 0 && total > 0
    ensures LevelOf(high, medium, total) == Low <==> high == 0 && medium == 0
    ensures Severity(LevelOf(high, medium, total)) >= 2 <==> high > 0 || (high + medium) * 100 > 15 * total
    ensures LevelOf(high, medium, total) == Critical <==> high > 0 && (high + medium) * 100 > 20 * total
  {
  }

  /** More sensitive columns over the same total never lower the level. */
  lemma LevelMonotone(high: int, medium: int, high': int, medium': int, total: nat)
    requires 0 <= high <= high' && 0 <= medium <= medium'
    ensures Severity(LevelOf(high, medium, total)) <= Severity(LevelOf(high', medium', total))
  {
  }
}
