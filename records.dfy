/**
 * Customer records: a record maps feature names to scalar cells (a number or
 * a short string). A client may send more fields than the pipeline needs and
 * may list them in any order.
 */
module Records {

  /** One cell of a record: a number (a real, not a float) or a string. */
  datatype Scalar = Num(x: real) | Str(s: string)

  /** A customer record, keyed by feature name. */
  type Record = map<string, Scalar>

  /** A named field, as a client lists it when it builds a record. */
  datatype Field = Field(name: string, value: Scalar)

  /** No two fields share a name. */
  predicate DistinctNames(fs: seq<Field>) {
    forall i, j :: 0 <= i < j < |fs| ==> fs[i].name != fs[j].name
  }

  /** The record built from fields in the order they are listed; a later field wins on a repeated name. */
  function RecordOf(fs: seq<Field>): Record {
    if fs == [] then map[] else RecordOf(fs[..|fs| - 1])[fs[|fs| - 1].name := fs[|fs| - 1].value]
  }

  /** The record holds exactly the names of its fields. */
  lemma {:induction false} RecordOfKeys(fs: seq<Field>)
    ensures RecordOf(fs).Keys == set f | f in fs :: f.name
  {
    if fs != [] {
      var init, last := fs[..|fs| - 1], fs[|fs| - 1];
      RecordOfKeys(init);
      assert fs == init + [last];
      assert forall f :: f in fs <==> f in init || f == last;
    }
  }

  /** With distinct names, every field's value is what the record holds under its name. */
  lemma {:induction false} RecordOfAt(fs: seq<Field>, i: nat)
    requires DistinctNames(fs) && i < |fs|
    ensures fs[i].name in RecordOf(fs) && RecordOf(fs)[fs[i].name] == fs[i].value
  {
    var init := fs[..|fs| - 1];
    if i < |fs| - 1 {
      assert DistinctNames(init);
      RecordOfAt(init, i);
      assert init[i] == fs[i];
    }
  }

  /** Listing the same fields in another order yields the same record. */
  lemma {:induction false} KeyOrderIrrelevant(fs1: seq<Field>, fs2: seq<Field>)
    requires DistinctNames(fs1) && DistinctNames(fs2)
    requires multiset(fs1) == multiset(fs2)
    ensures RecordOf(fs1) == RecordOf(fs2)
  {
    forall f | f in fs1 ensures f in fs2 {
      assert f in multiset(fs1);
    }
    forall f | f in fs2 ensures f in fs1 {
      assert f in multiset(fs2);
    }
    SameFieldsSameRecord(fs1, fs2);
  }

  /** Two duplicate-free field lists holding the same fields build the same record. */
  lemma {:induction false} SameFieldsSameRecord(fs1: seq<Field>, fs2: seq<Field>)
    requires DistinctNames(fs1) && DistinctNames(fs2)
    requires forall f :: f in fs1 <==> f in fs2
    ensures RecordOf(fs1) == RecordOf(fs2)
  {
    var r1, r2 := RecordOf(fs1), RecordOf(fs2);
    RecordOfKeys(fs1);
    RecordOfKeys(fs2);
    assert r1.Keys == r2.Keys;
    forall k | k in r1.Keys
      ensures r1[k] == r2[k]
    {
      var f :| f in fs1 && f.name == k;
      var i :| 0 <= i < |fs1| && fs1[i] == f;
      var j :| 0 <= j < |fs2| && fs2[j] == f;
      RecordOfAt(fs1, i);
      RecordOfAt(fs2, j);
    }
  }
}
