/**
  Comparison of two selection records (item id to boolean), used to skip
  committing a selection that did not change.
*/
module SelectionRecords {

  /**
    Same number of keys, and every key of `x` has the same boolean in `y`
    (a key missing from `y` reads as undefined there, which equals no
    boolean). Over finite maps this is exactly map equality.
  */
  function ShallowEqual(x: map<string, bool>, y: map<string, bool>): (r: bool)
    ensures r <==> x == y
  {
    var result := |x| == |y| && forall key :: key in x ==> key in y && x[key] == y[key];
    if result then
      SameSizeSubsetIsEqual(x.Keys, y.Keys);
      result
    else
      result
  }

  /** A subset as large as its superset is the whole superset. */
  lemma SameSizeSubsetIsEqual<T>(a: set<T>, b: set<T>)
    requires a <= b && |a| == |b|
    ensures a == b
  {
    if a != b {
      var e :| e in b && e !in a;
      assert a <= b - {e};
      SubsetSize(a, b - {e});
    }
  }

  /** A subset is no larger than its superset. */
  lemma {:induction false} SubsetSize<T>(a: set<T>, b: set<T>)
    requires a <= b
    ensures |a| <= |b|
    decreases b
  {
    if a != {} {
      var e :| e in a;
      SubsetSize(a - {e}, b - {e});
    }
  }

  /** Two empty records are equal. */
  lemma EmptyRecordsEqual()
    ensures ShallowEqual(map[], map[])
  {
  }

  /** Records with different key counts are never equal. */
  lemma DifferentSizesDiffer(x: map<string, bool>, y: map<string, bool>)
    requires |x| != |y|
    ensures !ShallowEqual(x, y)
  {
  }

  /** Equal records agree on every key of the first. */
  lemma EqualAgreesOnKeys(x: map<string, bool>, y: map<string, bool>, key: string)
    requires ShallowEqual(x, y) && key in x
    ensures key in y && y[key] == x[key]
  {
  }

  lemma ShallowEqualReflexive(x: map<string, bool>)
    ensures ShallowEqual(x, x)
  {
  }

  lemma ShallowEqualSymmetric(x: map<string, bool>, y: map<string, bool>)
    ensures ShallowEqual(x, y) == ShallowEqual(y, x)
  {
  }

  lemma ShallowEqualTransitive(x: map<string, bool>, y: map<string, bool>, z: map<string, bool>)
    requires ShallowEqual(x, y) && ShallowEqual(y, z)
    ensures ShallowEqual(x, z)
  {
  }
}
