/**
 * The feature layout that the customer preprocessing fixes: the six numeric
 * columns first, in listed order, then one indicator block per categorical
 * feature, in listed order.
 */
module CustomerLayout {
  import opened Wrappers
  import opened Records
  import opened Preprocessing
  import opened TransformProperties

  /** The two name lists are duplicate-free and disjoint, and together name eleven required fields. */
  lemma {:induction false} NameLists()
    ensures Distinct(NumericNames + CategoricalNames)
    ensures (set n | n in NumericNames) !! (set n | n in CategoricalNames)
    ensures |RequiredNames(BuildPreprocessing())| == 11
  {
    // The numeric names differ in their first letter, the categorical ones in
    // their third, and no numeric name starts like a categorical one.
    DistinctByLetter(NumericNames, 0, "catbne");
    DistinctByLetter(CategoricalNames, 2, "sAnoZ");
    DisjointByLetter(NumericNames, CategoricalNames, "catbne", "higgi");
    DistinctConcat(NumericNames, CategoricalNames);
    DistinctSetSize(NumericNames + CategoricalNames);
  }

  /** Strings whose letters at one position are pairwise different are pairwise different. */
  lemma {:induction false} DistinctByLetter(s: seq<string>, pos: nat, letters: string)
    requires |letters| == |s| && Distinct(letters)
    requires forall i :: 0 <= i < |s| ==> pos < |s[i]| && s[i][pos] == letters[i]
    ensures Distinct(s)
  {
  }

  /** Strings whose first letters come from two disjoint alphabets are pairwise different. */
  lemma {:induction false} DisjointByLetter(a: seq<string>, b: seq<string>, la: string, lb: string)
    requires |la| == |a| && |lb| == |b|
    requires forall i :: 0 <= i < |a| ==> 0 < |a[i]| && a[i][0] == la[i]
    requires forall j :: 0 <= j < |b| ==> 0 < |b[j]| && b[j][0] == lb[j]
    requires forall i, j :: 0 <= i < |la| && 0 <= j < |lb| ==> la[i] != lb[j]
    ensures forall i, j :: 0 <= i < |a| && 0 <= j < |b| ==> a[i] != b[j]
  {
  }

  lemma {:induction false} DistinctConcat<T>(a: seq<T>, b: seq<T>)
    requires Distinct(a) && Distinct(b)
    requires forall i, j :: 0 <= i < |a| && 0 <= j < |b| ==> a[i] != b[j]
    ensures Distinct(a + b)
  {
  }

  lemma {:induction false} DistinctSetSize(s: seq<string>)
    requires Distinct(s)
    ensures |set n | n in s| == |s|
  {
    if s != [] {
      var rest := s[1..];
      assert Distinct(rest) by {
        forall i, j | 0 <= i < j < |rest| ensures rest[i] != rest[j] {
          assert rest[i] == s[i + 1] && rest[j] == s[j + 1];
        }
      }
      DistinctSetSize(rest);
      assert s[0] !in rest by {
        forall k | 0 <= k < |rest| ensures rest[k] != s[0] {
          assert rest[k] == s[k + 1];
        }
      }
      assert (set n | n in s) == (set n | n in rest) + {s[0]} by {
        assert s == [s[0]] + rest;
      }
    }
  }

  /** The shape that fitting the customer preprocessing gives its parameters. */
  lemma {:induction false} FittedShape(fit: Fitted)
    requires FitsConfig(BuildPreprocessing(), fit)
    ensures |fit| == 2 && |fit[0]| == |NumericNames| && |fit[1]| == |CategoricalNames|
    ensures forall i :: 0 <= i < |fit[0]| ==> fit[0][i].Scale? && fit[0][i].scale > 0.0
    ensures forall j :: 0 <= j < |fit[1]| ==> fit[1][j].Vocabulary? && Distinct(fit[1][j].categories)
    ensures Flatten(fit) == fit[0] + fit[1]
  {
    var c := BuildPreprocessing();
    assert forall i :: 0 <= i < |fit[0]| ==> FitsPolicy(c.transformers[0].policy, fit[0][i]);
    assert forall j :: 0 <= j < |fit[1]| ==> FitsPolicy(c.transformers[1].policy, fit[1][j]);
    assert fit[1..] == [fit[1]] && fit[1..][1..] == [];
    assert Flatten(fit) == fit[0] + (fit[1] + Flatten([]));
    assert fit[1] + [] == fit[1];
  }

  /** Standardised columns are one output column each. */
  lemma {:induction false} WidthBeforeScales(fs: seq<ColumnFit>, i: nat)
    requires i <= |fs| && forall k :: 0 <= k < i ==> fs[k].Scale?
    ensures WidthBefore(fs, i) == i
  {
    if i > 0 {
      WidthBeforeScales(fs, i - 1);
    }
  }

  /** The widths before a position of a concatenation of fits. */
  lemma {:induction false} WidthBeforeAppend(a: seq<ColumnFit>, b: seq<ColumnFit>, j: nat)
    requires j <= |b|
    ensures WidthBefore(a + b, |a| + j) == WidthBefore(a, |a|) + WidthBefore(b, j)
  {
    if j == 0 {
      WidthBeforePrefix(a, b, |a|);
    } else {
      WidthBeforeAppend(a, b, j - 1);
      assert (a + b)[|a| + j - 1] == b[j - 1];
    }
  }

  lemma {:induction false} WidthBeforePrefix(a: seq<ColumnFit>, b: seq<ColumnFit>, i: nat)
    requires i <= |a|
    ensures WidthBefore(a + b, i) == WidthBefore(a, i)
  {
    if i > 0 {
      WidthBeforePrefix(a, b, i - 1);
      assert (a + b)[i - 1] == a[i - 1];
    }
  }

  /** Every row has width six plus the sizes of the five vocabularies. */
  lemma {:induction false} RowWidthOfCustomerLayout(fit: Fitted)
    requires FitsConfig(BuildPreprocessing(), fit)
    ensures RowWidth(fit) == |NumericNames| + |fit[1][0].categories| + |fit[1][1].categories| + |fit[1][2].categories|
                                            + |fit[1][3].categories| + |fit[1][4].categories|
  {
    FittedShape(fit);
    WidthBeforeAppend(fit[0], fit[1], |fit[1]|);
    WidthBeforeScales(fit[0], |fit[0]|);
    var v := fit[1];
    assert WidthBefore(v, 5) == WidthBefore(v, 4) + |v[4].categories|;
    assert WidthBefore(v, 4) == WidthBefore(v, 3) + |v[3].categories|;
    assert WidthBefore(v, 3) == WidthBefore(v, 2) + |v[2].categories|;
    assert WidthBefore(v, 2) == WidthBefore(v, 1) + |v[1].categories|;
    assert WidthBefore(v, 1) == |v[0].categories|;
  }

  /** Column i < 6 is the standardised value of the i-th numeric field, by that column's mean and scale alone. */
  lemma {:induction false} NumericColumn(fit: Fitted, rec: Record, i: nat)
    requires FitsConfig(BuildPreprocessing(), fit)
    requires Transform(BuildPreprocessing(), fit, rec).Success? && i < |NumericNames|
    ensures NumericNames[i] in rec && rec[NumericNames[i]].Num?
    ensures i < |Transform(BuildPreprocessing(), fit, rec).value|
    ensures Transform(BuildPreprocessing(), fit, rec).value[i]
            == Standardize(rec[NumericNames[i]].x, fit[0][i].mean, fit[0][i].scale)
  {
    NumericPosition(fit, i);
    TransformBlocks(BuildPreprocessing(), fit, rec);
    ScaleAt(BuildPreprocessing(), fit, rec, i);
  }

  /** Numeric field i is column i, of fit fit[0][i], at output position i. */
  lemma {:induction false} NumericPosition(fit: Fitted, i: nat)
    requires FitsConfig(BuildPreprocessing(), fit) && i < |NumericNames|
    ensures i < |Flatten(fit)| && i < |Columns(BuildPreprocessing())|
    ensures |fit| == 2 && i < |fit[0]| && fit[0][i].Scale?
    ensures Flatten(fit)[i] == fit[0][i] && Columns(BuildPreprocessing())[i] == NumericNames[i]
    ensures WidthBefore(Flatten(fit), i) == i
  {
    FittedShape(fit);
    WidthBeforePrefix(fit[0], fit[1], i);
    WidthBeforeScales(fit[0], i);
  }

  /** The offset of categorical block j: six, plus the sizes of the vocabularies before it. */
  function BlockStart(fit: Fitted, j: nat): nat
    requires |fit| == 2 && j <= |fit[1]|
  {
    |NumericNames| + WidthBefore(fit[1], j)
  }

  /** Block j is the indicator block of the j-th categorical field over its own vocabulary. */
  lemma {:induction false} CategoricalBlock(fit: Fitted, rec: Record, j: nat)
    requires FitsConfig(BuildPreprocessing(), fit)
    requires Transform(BuildPreprocessing(), fit, rec).Success? && j < |CategoricalNames|
    ensures CategoricalNames[j] in rec
    ensures BlockStart(fit, j) + Width(fit[1][j]) <= |Transform(BuildPreprocessing(), fit, rec).value|
    ensures Transform(BuildPreprocessing(), fit, rec).value[BlockStart(fit, j)..BlockStart(fit, j) + Width(fit[1][j])]
            == OneHot(fit[1][j].categories, rec[CategoricalNames[j]])
  {
    var k := CategoricalPosition(fit, j, rec);
    TransformBlocks(BuildPreprocessing(), fit, rec);
    VocabularyAt(BuildPreprocessing(), fit, rec, k);
  }

  /** Categorical field j is column 6 + j, of fit fit[1][j], starting at BlockStart(fit, j). */
  lemma {:induction false} CategoricalPosition(fit: Fitted, j: nat, rec: Record) returns (k: nat)
    requires FitsConfig(BuildPreprocessing(), fit) && j < |CategoricalNames|
    ensures k == |NumericNames| + j && k < |Flatten(fit)| && k < |Columns(BuildPreprocessing())|
    ensures Flatten(fit)[k] == fit[1][j] && Columns(BuildPreprocessing())[k] == CategoricalNames[j]
    ensures |fit| == 2 && j < |fit[1]| && fit[1][j].Vocabulary? && Distinct(fit[1][j].categories)
    ensures Width(fit[1][j]) == |fit[1][j].categories|
    ensures Columns(BuildPreprocessing())[k] in rec <==> CategoricalNames[j] in rec
    ensures CategoricalNames[j] in rec ==> rec[Columns(BuildPreprocessing())[k]] == rec[CategoricalNames[j]]
    ensures WidthBefore(Flatten(fit), k) == BlockStart(fit, j)
  {
    FittedShape(fit);
    k := |NumericNames| + j;
    WidthBeforeAppend(fit[0], fit[1], j);
    WidthBeforeScales(fit[0], |fit[0]|);
  }

  /** The fit of categorical field j is a duplicate-free vocabulary, as wide as it is long. */
  lemma {:induction false} CategoricalFit(fit: Fitted, j: nat)
    requires FitsConfig(BuildPreprocessing(), fit) && j < |CategoricalNames|
    ensures |fit| == 2 && j < |fit[1]| && fit[1][j].Vocabulary? && Distinct(fit[1][j].categories)
    ensures Width(fit[1][j]) == |fit[1][j].categories|
  {
    FittedShape(fit);
  }

  /** A categorical value outside its vocabulary yields an all-zero block. */
  lemma {:induction false} UnknownCategoryGivesZeros(fit: Fitted, rec: Record, j: nat)
    requires FitsConfig(BuildPreprocessing(), fit)
    requires Transform(BuildPreprocessing(), fit, rec).Success? && j < |CategoricalNames|
    requires CategoricalNames[j] in rec && rec[CategoricalNames[j]] !in fit[1][j].categories
    ensures BlockStart(fit, j) + Width(fit[1][j]) <= |Transform(BuildPreprocessing(), fit, rec).value|
    ensures forall k :: BlockStart(fit, j) <= k < BlockStart(fit, j) + Width(fit[1][j]) ==>
              Transform(BuildPreprocessing(), fit, rec).value[k] == 0.0
  {
    CategoricalBlock(fit, rec, j);
    CategoricalFit(fit, j);
    ZeroEntries(Transform(BuildPreprocessing(), fit, rec).value, BlockStart(fit, j), Width(fit[1][j]),
                fit[1][j].categories, rec[CategoricalNames[j]]);
  }

  /** A categorical value at index k of its vocabulary yields a 1 at offset k of its block and 0 elsewhere in it. */
  lemma {:induction false} KnownCategoryGivesIndicator(fit: Fitted, rec: Record, j: nat, k: nat)
    requires FitsConfig(BuildPreprocessing(), fit)
    requires Transform(BuildPreprocessing(), fit, rec).Success? && j < |CategoricalNames|
    requires CategoricalNames[j] in rec && k < |fit[1][j].categories| && rec[CategoricalNames[j]] == fit[1][j].categories[k]
    ensures BlockStart(fit, j) + Width(fit[1][j]) <= |Transform(BuildPreprocessing(), fit, rec).value|
    ensures Transform(BuildPreprocessing(), fit, rec).value[BlockStart(fit, j) + k] == 1.0
    ensures forall m :: BlockStart(fit, j) <= m < BlockStart(fit, j) + Width(fit[1][j]) && m != BlockStart(fit, j) + k ==>
              Transform(BuildPreprocessing(), fit, rec).value[m] == 0.0
  {
    CategoricalBlock(fit, rec, j);
    CategoricalFit(fit, j);
    IndicatorEntries(Transform(BuildPreprocessing(), fit, rec).value, BlockStart(fit, j), Width(fit[1][j]),
                     fit[1][j].categories, k);
  }

  /** A row holding an unknown value's block has zeros across it. */
  lemma {:induction false} ZeroEntries(row: seq<real>, b: nat, n: nat, cats: seq<Scalar>, v: Scalar)
    requires n == |cats| && v !in cats && b + n <= |row| && row[b..b + n] == OneHot(cats, v)
    ensures forall m :: b <= m < b + n ==> row[m] == 0.0
  {
    OneHotUnknown(cats, v);
    forall m | b <= m < b + n ensures row[m] == 0.0 {
      assert row[m] == row[b..b + n][m - b];
    }
  }

  /** A row holding a known value's block has a 1 at the value's offset and zeros elsewhere in it. */
  lemma {:induction false} IndicatorEntries(row: seq<real>, b: nat, n: nat, cats: seq<Scalar>, k: nat)
    requires n == |cats| && Distinct(cats) && k < n && b + n <= |row| && row[b..b + n] == OneHot(cats, cats[k])
    ensures row[b + k] == 1.0
    ensures forall m :: b <= m < b + n && m != b + k ==> row[m] == 0.0
  {
    OneHotKnown(cats, k);
    forall m | b <= m < b + n ensures row[m] == OneHot(cats, cats[k])[m - b] {
      assert row[m] == row[b..b + n][m - b];
    }
  }

  /**
   * A record transforms exactly when it holds all eleven fields and its six
   * numeric fields are numbers: categorical values, seen or not, never fail.
   */
  lemma {:induction false} CustomerRecordTransforms(fit: Fitted, rec: Record)
    requires FitsConfig(BuildPreprocessing(), fit)
    ensures Transform(BuildPreprocessing(), fit, rec).Success? <==>
      && (forall n :: n in NumericNames + CategoricalNames ==> n in rec)
      && (forall i :: 0 <= i < |NumericNames| ==> rec[NumericNames[i]].Num?)
  {
    var c := BuildPreprocessing();
    var ps := ColumnPolicies(c);
    assert c.transformers[1..] == [c.transformers[1]] && c.transformers[1..][1..] == [];
    assert ps == PolicyBlock(c.transformers[0]) + (PolicyBlock(c.transformers[1]) + ConcatPolicies([]));
    assert forall i :: 0 <= i < |ps| ==> (ps[i] == StandardScale <==> i < |NumericNames|);
    assert Columns(c) == NumericNames + CategoricalNames;
    assert forall i :: 0 <= i < |NumericNames| ==> Columns(c)[i] == NumericNames[i];
    assert forall n :: n in RequiredNames(c) <==> n in NumericNames + CategoricalNames;
  }

  /** Two records that agree on numeric field i give the same column i under fits that agree on column i. */
  lemma {:induction false} ScaledColumnIsolated(f1: Fitted, f2: Fitted, r1: Record, r2: Record, i: nat)
    requires FitsConfig(BuildPreprocessing(), f1) && FitsConfig(BuildPreprocessing(), f2)
    requires Transform(BuildPreprocessing(), f1, r1).Success? && Transform(BuildPreprocessing(), f2, r2).Success?
    requires i < |NumericNames| && NumericNames[i] in r1 && NumericNames[i] in r2
    requires r1[NumericNames[i]] == r2[NumericNames[i]] && f1[0][i] == f2[0][i]
    ensures i < |Transform(BuildPreprocessing(), f1, r1).value| && i < |Transform(BuildPreprocessing(), f2, r2).value|
    ensures Transform(BuildPreprocessing(), f1, r1).value[i] == Transform(BuildPreprocessing(), f2, r2).value[i]
  {
    NumericColumn(f1, r1, i);
    NumericColumn(f2, r2, i);
  }
}
