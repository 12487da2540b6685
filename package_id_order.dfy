/**
 * The order in which packages are listed. `PackageId` is not part of this
 * model; its comparison is taken to be the ordinal order of the id strings:
 * character codes compared left to right, a proper prefix first.
 */
module PackageIdOrder {

  predicate IdLessEq(a: string, b: string)
    decreases |a|
  {
    |a| == 0 || (|b| > 0 && (a[0] < b[0] || (a[0] == b[0] && IdLessEq(a[1..], b[1..]))))
  }

  lemma {:induction false} IdLessEqReflexive(a: string)
    ensures IdLessEq(a, a)
    decreases |a|
  {
    if |a| > 0 {
      IdLessEqReflexive(a[1..]);
    }
  }

  lemma {:induction false} IdLessEqAntisymmetric(a: string, b: string)
    requires IdLessEq(a, b) && IdLessEq(b, a)
    ensures a == b
    decreases |a|
  {
    if |a| > 0 && |b| > 0 && a[0] == b[0] {
      IdLessEqAntisymmetric(a[1..], b[1..]);
      assert a == [a[0]] + a[1..];
      assert b == [b[0]] + b[1..];
    }
  }

  lemma {:induction false} IdLessEqTransitive(a: string, b: string, c: string)
    requires IdLessEq(a, b) && IdLessEq(b, c)
    ensures IdLessEq(a, c)
    decreases |a|
  {
    if |a| > 0 && a[0] == b[0] && b[0] == c[0] {
      IdLessEqTransitive(a[1..], b[1..], c[1..]);
    }
  }

  lemma {:induction false} IdLessEqTotal(a: string, b: string)
    ensures IdLessEq(a, b) || IdLessEq(b, a)
    decreases |a|
  {
    if |a| > 0 && |b| > 0 && a[0] == b[0] {
      IdLessEqTotal(a[1..], b[1..]);
    }
  }
}
