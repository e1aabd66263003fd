/**
 * The similarity scorer of the knowledge base: the Jaccard index of two
 * keyword sets, kept as an exact rational (`real`), and 0 when either set is
 * empty.
 */
module Similarity {
  import opened Ratios

  /** The intersection is no larger than the union, strictly unless the sets are equal. */
  lemma IntersectionWithinUnion(a: set<string>, b: set<string>)
    ensures |a * b| <= |a + b|
    ensures a != b ==> |a * b| < |a + b|
  {
    var rest := (a + b) - (a * b);
    assert a + b == (a * b) + rest;
    assert (a * b) * rest == {};
    if a != b {
      var x :| x in (a - b) + (b - a);
      assert x in rest;
    }
  }

  /** |a ∩ b| / |a ∪ b|, or 0 when either set is empty. */
  function Jaccard(a: set<string>, b: set<string>): (r: real)
    ensures 0.0 <= r <= 1.0
    ensures a == {} || b == {} ==> r == 0.0
  {
    if a == {} || b == {} then 0.0
    else
      IntersectionWithinUnion(a, b);
      var i, u := |a * b| as real, |a + b| as real;
      assert u >= 1.0 by { assert a <= a + b; }
      QuotientAtMostOne(i, u);
      i / u
  }

  /** The score does not depend on the order of its arguments. */
  lemma JaccardSymmetric(a: set<string>, b: set<string>)
    ensures Jaccard(a, b) == Jaccard(b, a)
  {
    assert a * b == b * a;
    assert a + b == b + a;
  }

  /** A non-empty set is fully similar to itself. */
  lemma JaccardSelf(a: set<string>)
    requires a != {}
    ensures Jaccard(a, a) == 1.0
  {
    assert a * a == a;
    assert a + a == a;
  }

  /** Two non-empty sets score 1 exactly when they are equal. */
  lemma JaccardOneExactly(a: set<string>, b: set<string>)
    requires a != {} && b != {}
    ensures Jaccard(a, b) == 1.0 <==> a == b
  {
    if a == b {
      JaccardSelf(a);
    } else {
      IntersectionWithinUnion(a, b);
    }
  }

  /** The default threshold 0.6 of the similarity search. */
  const DefaultThreshold: real := 0.6

  /**
   * For non-empty sets, "similar at the default threshold" is the integer
   * comparison 5 |a ∩ b| >= 3 |a ∪ b|; for an empty set it never holds.
   */
  lemma AtDefaultThreshold(a: set<string>, b: set<string>)
    ensures Jaccard(a, b) >= DefaultThreshold <==> a != {} && b != {} && 5 * |a * b| >= 3 * |a + b|
  {
    if a != {} && b != {} {
      var i, u := |a * b| as real, |a + b| as real;
      var r := Jaccard(a, b);
      IntersectionWithinUnion(a, b);
      assert u >= 1.0 by { assert a <= a + b; }
      QuotientAtMostOne(i, u);
      assert r == i / u;
      QuotientAtLeast(i, u, 0.6);
      assert 5.0 * i >= 3.0 * u <==> 5 * |a * b| >= 3 * |a + b|;
    }
  }
}
