/** Properties of the column transformer's semantics, for any configuration. */
module TransformProperties {
  import opened Wrappers
  import opened Records
  import opened Preprocessing

  /** Block i of a concatenation starts at the total length of the blocks before it. */
  lemma {:induction false} ConcatSlice(bs: seq<seq<real>>, i: nat)
    requires i < |bs|
    ensures |Concat(bs[..i])| + |bs[i]| <= |Concat(bs)|
    ensures Concat(bs)[|Concat(bs[..i])|..|Concat(bs[..i])| + |bs[i]|] == bs[i]
  {
    var init := bs[..|bs| - 1];
    assert Concat(bs) == Concat(init) + bs[|bs| - 1];
    if i == |bs| - 1 {
      assert bs[..i] == init;
    } else {
      ConcatSlice(init, i);
      assert init[..i] == bs[..i] && init[i] == bs[i];
    }
  }

  /** When every block has its column's width, the blocks before i span the widths before i. */
  lemma {:induction false} ConcatStart(bs: seq<seq<real>>, fs: seq<ColumnFit>, i: nat)
    requires |bs| == |fs| && i <= |bs|
    requires forall k :: 0 <= k < |bs| ==> |bs[k]| == Width(fs[k])
    ensures |Concat(bs[..i])| == WidthBefore(fs, i)
  {
    if i > 0 {
      ConcatStart(bs, fs, i - 1);
      assert bs[..i][..i - 1] == bs[..i - 1];
    }
  }

  /** A successful transform is the concatenation of the blocks of the selected columns. */
  lemma {:induction false} TransformBlocks(c: Config, fit: Fitted, rec: Record)
    requires FitsConfig(c, fit) && Transform(c, fit, rec).Success?
    ensures EncodeBlocks(SelectedColumns(c, fit), rec).Success?
    ensures Transform(c, fit, rec).value == Concat(EncodeBlocks(SelectedColumns(c, fit), rec).value)
    ensures forall k :: 0 <= k < |Columns(c)| ==> Columns(c)[k] in rec
  {
    assert forall k :: 0 <= k < |Columns(c)| ==> Columns(c)[k] in RequiredNames(c);
  }

  /** The blocks of a successful transform: block k encodes column k's field and has column k's width. */
  lemma {:induction false} ColumnBlocks(c: Config, fit: Fitted, rec: Record) returns (bs: seq<seq<real>>)
    requires FitsConfig(c, fit) && Transform(c, fit, rec).Success?
    ensures |bs| == |Columns(c)| == |Flatten(fit)|
    ensures Transform(c, fit, rec).value == Concat(bs)
    ensures forall k :: 0 <= k < |bs| ==> Columns(c)[k] in rec
    ensures forall k :: 0 <= k < |bs| ==> bs[k] == EncodeValue(Flatten(fit)[k], Columns(c)[k], rec[Columns(c)[k]]).value
    ensures forall k :: 0 <= k < |bs| ==> |bs[k]| == Width(Flatten(fit)[k])
  {
    TransformBlocks(c, fit, rec);
    var cols := SelectedColumns(c, fit);
    bs := EncodeBlocks(cols, rec).value;
    forall k | 0 <= k < |bs|
      ensures bs[k] == EncodeValue(Flatten(fit)[k], Columns(c)[k], rec[Columns(c)[k]]).value
      ensures |bs[k]| == Width(Flatten(fit)[k])
    {
      assert bs[k] == EncodeCell(cols[k], rec).value;
      assert cols[k] == Column(Columns(c)[k], Flatten(fit)[k]);
    }
  }

  /**
   * Column i of the configuration occupies the output positions from the
   * width of the columns before it, for its own width, and holds the
   * encoding of the record's field of that name.
   */
  lemma {:induction false} ColumnSlice(c: Config, fit: Fitted, rec: Record, i: nat)
    requires FitsConfig(c, fit) && Transform(c, fit, rec).Success? && i < |Columns(c)|
    ensures |Flatten(fit)| == |Columns(c)| && Columns(c)[i] in rec
    ensures WidthBefore(Flatten(fit), i) + Width(Flatten(fit)[i]) <= |Transform(c, fit, rec).value|
    ensures Transform(c, fit, rec).value[WidthBefore(Flatten(fit), i)..WidthBefore(Flatten(fit), i) + Width(Flatten(fit)[i])]
            == EncodeValue(Flatten(fit)[i], Columns(c)[i], rec[Columns(c)[i]]).value
  {
    var fs := Flatten(fit);
    var bs := ColumnBlocks(c, fit, rec);
    ConcatSlice(bs, i);
    ConcatStart(bs, fs, i);
  }

  /** A one-hot column's slice is the indicator block of its field over its vocabulary. */
  lemma {:induction false} VocabularyAt(c: Config, fit: Fitted, rec: Record, i: nat)
    requires FitsConfig(c, fit) && Transform(c, fit, rec).Success? && i < |Columns(c)|
    requires i < |Flatten(fit)| && Flatten(fit)[i].Vocabulary?
    ensures Columns(c)[i] in rec
    ensures WidthBefore(Flatten(fit), i) + Width(Flatten(fit)[i]) <= |Transform(c, fit, rec).value|
    ensures Transform(c, fit, rec).value[WidthBefore(Flatten(fit), i)..WidthBefore(Flatten(fit), i) + Width(Flatten(fit)[i])]
            == OneHot(Flatten(fit)[i].categories, rec[Columns(c)[i]])
  {
    ColumnSlice(c, fit, rec, i);
    VocabularyEncoding(Flatten(fit)[i], Columns(c)[i], rec[Columns(c)[i]]);
  }

  /** EncodeValue's Vocabulary branch, spelled out for VocabularyAt: a one-hot column encodes a value as its indicator block. */
  lemma {:induction false} VocabularyEncoding(f: ColumnFit, name: string, v: Scalar)
    requires f.Vocabulary?
    ensures EncodeValue(f, name, v) == Success(OneHot(f.categories, v))
  {
  }

  /** A standardised column's entry is its numeric field standardised by the column's mean and scale. */
  lemma {:induction false} ScaleAt(c: Config, fit: Fitted, rec: Record, i: nat)
    requires FitsConfig(c, fit) && Transform(c, fit, rec).Success? && i < |Columns(c)|
    requires i < |Flatten(fit)| && Flatten(fit)[i].Scale?
    ensures Columns(c)[i] in rec && rec[Columns(c)[i]].Num?
    ensures WidthBefore(Flatten(fit), i) < |Transform(c, fit, rec).value|
    ensures Transform(c, fit, rec).value[WidthBefore(Flatten(fit), i)]
            == Standardize(rec[Columns(c)[i]].x, Flatten(fit)[i].mean, Flatten(fit)[i].scale)
  {
    FlattenMatchesColumns(c, fit);
    assert ColumnPolicies(c)[i] == StandardScale;
    ColumnSlice(c, fit, rec, i);
    ScaleEncoding(Flatten(fit)[i], Columns(c)[i], rec[Columns(c)[i]]);
    var row, w := Transform(c, fit, rec).value, WidthBefore(Flatten(fit), i);
    assert row[w] == row[w..w + 1][0];
  }

  /** EncodeValue's Scale branch, spelled out for ScaleAt: a standardised column encodes a number as its one-entry standardised block. */
  lemma {:induction false} ScaleEncoding(f: ColumnFit, name: string, v: Scalar)
    requires f.Scale? && v.Num?
    ensures EncodeValue(f, name, v) == Success([Standardize(v.x, f.mean, f.scale)])
  {
  }

  /** Every transformed row has the configuration's row width. */
  lemma {:induction false} TransformWidth(c: Config, fit: Fitted, rec: Record)
    requires FitsConfig(c, fit) && Transform(c, fit, rec).Success?
    ensures |Transform(c, fit, rec).value| == RowWidth(fit)
  {
    var bs := ColumnBlocks(c, fit, rec);
    ConcatStart(bs, Flatten(fit), |bs|);
    assert bs[..|bs|] == bs;
  }

  /** All rows of a transformed batch have the same width. */
  lemma {:induction false} BatchRowsShareWidth(c: Config, fit: Fitted, rs: seq<Record>)
    requires FitsConfig(c, fit) && TransformBatch(c, fit, rs).Success?
    ensures forall i :: 0 <= i < |rs| ==> |TransformBatch(c, fit, rs).value[i]| == RowWidth(fit)
  {
    forall i | 0 <= i < |rs| ensures |TransformBatch(c, fit, rs).value[i]| == RowWidth(fit) {
      TransformWidth(c, fit, rs[i]);
    }
  }

  /** MapAll of two functions that agree on every element is the same. */
  lemma {:induction false} MapAllCongruent<A, B, E>(f: A -> Result<B, E>, g: A -> Result<B, E>, xs: seq<A>)
    requires forall i :: 0 <= i < |xs| ==> f(xs[i]) == g(xs[i])
    ensures MapAll(f, xs) == MapAll(g, xs)
  {
    if xs != [] {
      assert forall i :: 0 <= i < |xs| - 1 ==> xs[1..][i] == xs[i + 1];
      MapAllCongruent(f, g, xs[1..]);
    }
  }

  /** Fields outside the configuration, and so extra keys, never change the result. */
  lemma {:induction false} ExtraFieldsIgnored(c: Config, fit: Fitted, r1: Record, r2: Record)
    requires FitsConfig(c, fit)
    requires forall n :: n in RequiredNames(c) ==> (n in r1 <==> n in r2) && (n in r1 ==> r1[n] == r2[n])
    ensures Transform(c, fit, r1) == Transform(c, fit, r2)
  {
    assert RequiredNames(c) - r1.Keys == RequiredNames(c) - r2.Keys;
    var cols := SelectedColumns(c, fit);
    assert forall k :: 0 <= k < |cols| ==> cols[k].name in RequiredNames(c);
    BlocksAgree(cols, r1, r2);
  }

  /** Records that agree on the selected names give the same blocks. */
  lemma {:induction false} BlocksAgree(cols: seq<Column>, r1: Record, r2: Record)
    requires forall k :: 0 <= k < |cols| ==> (cols[k].name in r1 <==> cols[k].name in r2)
    requires forall k :: 0 <= k < |cols| && cols[k].name in r1 ==> r1[cols[k].name] == r2[cols[k].name]
    ensures EncodeBlocks(cols, r1) == EncodeBlocks(cols, r2)
    ensures EncodeColumns(cols, r1) == EncodeColumns(cols, r2)
  {
    forall k | 0 <= k < |cols| ensures EncodeCell(cols[k], r1) == EncodeCell(cols[k], r2) {
    }
    MapAllCongruent((col: Column) => EncodeCell(col, r1), (col: Column) => EncodeCell(col, r2), cols);
  }

  /** The remainder is dropped: a record transforms like its restriction to the required fields. */
  lemma {:induction false} RemainderDropped(c: Config, fit: Fitted, rec: Record)
    requires FitsConfig(c, fit)
    ensures Transform(c, fit, rec) == Transform(c, fit, map n | n in rec && n in RequiredNames(c) :: rec[n])
  {
    ExtraFieldsIgnored(c, fit, rec, map n | n in rec && n in RequiredNames(c) :: rec[n]);
  }

  /** Adding fields the configuration does not name leaves the result unchanged. */
  lemma {:induction false} ExtraKeysIgnored(c: Config, fit: Fitted, rec: Record, extra: Record)
    requires FitsConfig(c, fit)
    requires extra.Keys !! RequiredNames(c)
    ensures Transform(c, fit, rec + extra) == Transform(c, fit, rec)
  {
    ExtraFieldsIgnored(c, fit, rec + extra, rec);
  }

  /** The order in which a client lists the fields of a record never changes the result. */
  lemma {:induction false} FieldOrderIgnored(c: Config, fit: Fitted, fs1: seq<Field>, fs2: seq<Field>)
    requires FitsConfig(c, fit)
    requires DistinctNames(fs1) && DistinctNames(fs2) && multiset(fs1) == multiset(fs2)
    ensures Transform(c, fit, RecordOf(fs1)) == Transform(c, fit, RecordOf(fs2))
  {
    KeyOrderIrrelevant(fs1, fs2);
  }
}
