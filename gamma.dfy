/**
 * Hypothesis lists (`Gamma` in src/core/sentence.py). A Gamma is modelled as
 * the value of its `_items` list; `+` is sequence concatenation and `+=` is a
 * reassignment of the owning field (see the Fitch module).
 */
module Gammas {
  import opened Sentences

  type Gamma = seq<Sentence>

  /**
   * `s in items`: each stored item is compared against the probe with the
   * `==` operator, stored item on the left.
   */
  predicate Mem(items: Gamma, s: Sentence)
  {
    exists i :: 0 <= i < |items| && PyEq(items[i], s)
  }

  /** `Gamma.__eq__` as written: equal lengths, and every item of `a` occurs in `b`. */
  predicate OneWayEq(a: Gamma, b: Gamma)
  {
    |a| == |b| && forall i :: 0 <= i < |a| ==> Mem(b, a[i])
  }

  /** `is_subset_of`: every item of `a` occurs in `b`. */
  predicate Subset(a: Gamma, b: Gamma)
  {
    forall i :: 0 <= i < |a| ==> Mem(b, a[i])
  }

  /** Context equality as intended: equal lengths, membership checked in both directions. */
  predicate SameContext(a: Gamma, b: Gamma)
  {
    OneWayEq(a, b) && OneWayEq(b, a)
  }

  predicate AllPlain(g: Gamma)
  {
    forall i :: 0 <= i < |g| ==> Plain(g[i])
  }

  /** The membership loop of Python's `in`, returning at the first match. */
  method Contains(items: Gamma, s: Sentence) returns (found: bool)
    ensures found == Mem(items, s)
  {
    var i := 0;
    while i < |items|
      invariant 0 <= i <= |items|
      invariant forall j :: 0 <= j < i ==> !PyEq(items[j], s)
    {
      if PyEq(items[i], s) {
        return true;
      }
      i := i + 1;
    }
    return false;
  }

  /** `Gamma.__eq__`: a length check, then one pass over `a` with an early return. */
  method Equals(a: Gamma, b: Gamma) returns (eq: bool)
    ensures eq == OneWayEq(a, b)
  {
    if |a| != |b| {
      return false;
    }
    var i := 0;
    while i < |a|
      invariant 0 <= i <= |a|
      invariant forall j :: 0 <= j < i ==> Mem(b, a[j])
    {
      var found := Contains(b, a[i]);
      if !found {
        return false;
      }
      i := i + 1;
    }
    return true;
  }

  /** Context equality as intended: `a == b and b == a`. */
  method SameContextCheck(a: Gamma, b: Gamma) returns (same: bool)
    ensures same == SameContext(a, b)
  {
    same := Equals(a, b);
    if same {
      same := Equals(b, a);
    }
  }

  /** `Gamma.is_subset_of`: one pass over `a` with an early return. */
  method IsSubsetOf(a: Gamma, b: Gamma) returns (sub: bool)
    ensures sub == Subset(a, b)
  {
    var i := 0;
    while i < |a|
      invariant 0 <= i <= |a|
      invariant forall j :: 0 <= j < i ==> Mem(b, a[j])
    {
      var found := Contains(b, a[i]);
      if !found {
        return false;
      }
      i := i + 1;
    }
    return true;
  }

  /** Over plain sentences, Python membership is membership. */
  lemma MemIsMembership(items: Gamma, s: Sentence)
    requires AllPlain(items)
    ensures Mem(items, s) <==> s in items
  {
    if Mem(items, s) {
      var i :| 0 <= i < |items| && PyEq(items[i], s);
      SameAsIsStructural(items[i], s);
    }
    if s in items {
      var i :| 0 <= i < |items| && items[i] == s;
      SameAsReflexive(s);
    }
  }

  /** Equality is insensitive to the order of the hypotheses. */
  lemma EqualsIgnoresOrder(a: Gamma, b: Gamma)
    requires multiset(a) == multiset(b)
    ensures OneWayEq(a, b) && SameContext(a, b)
  {
    assert |a| == |multiset(a)| == |multiset(b)| == |b|;
    forall i | 0 <= i < |a| ensures Mem(b, a[i]) {
      assert a[i] in multiset(a);
      var j :| 0 <= j < |b| && b[j] == a[i];
      SameAsReflexive(a[i]);
    }
    forall i | 0 <= i < |b| ensures Mem(a, b[i]) {
      assert b[i] in multiset(b);
      var j :| 0 <= j < |a| && a[j] == b[i];
      SameAsReflexive(b[i]);
    }
  }

  /** With duplicates, `Gamma.__eq__` is not symmetric. */
  lemma EqualsNotSymmetric()
    ensures OneWayEq([Atomic("A"), Atomic("A")], [Atomic("A"), Atomic("B")])
    ensures !OneWayEq([Atomic("A"), Atomic("B")], [Atomic("A"), Atomic("A")])
  {
    var b := [Atomic("A"), Atomic("B")];
    var aa := [Atomic("A"), Atomic("A")];
    assert PyEq(b[0], Atomic("A"));
    assert !PyEq(aa[0], b[1]) && !PyEq(aa[1], b[1]);
    assert !Mem(aa, b[1]);
  }

  /** Over plain sentences the corrected equality is equal size plus equal element sets. */
  lemma SameContextIsSetEquality(a: Gamma, b: Gamma)
    requires AllPlain(a) && AllPlain(b)
    ensures SameContext(a, b) <==> |a| == |b| && forall x :: x in a <==> x in b
  {
    forall x ensures Mem(a, x) <==> x in a { MemIsMembership(a, x); }
    forall x ensures Mem(b, x) <==> x in b { MemIsMembership(b, x); }
  }

  /** Over plain sentences `is_subset_of` is inclusion; the empty Gamma is a subset of every Gamma. */
  lemma SubsetIsInclusion(a: Gamma, b: Gamma)
    requires AllPlain(b)
    ensures Subset(a, b) <==> forall x :: x in a ==> x in b
    ensures Subset([], b)
  {
    forall x ensures Mem(b, x) <==> x in b { MemIsMembership(b, x); }
  }

  /** Every Gamma equals itself, in both directions. */
  lemma SameContextReflexive(g: Gamma)
    ensures SameContext(g, g)
  {
    forall i | 0 <= i < |g| ensures Mem(g, g[i]) {
      SameAsReflexive(g[i]);
    }
  }

  /** Appending items never removes a member. */
  lemma MemSurvivesAppend(a: Gamma, b: Gamma, s: Sentence)
    requires Mem(a, s)
    ensures Mem(a + b, s)
  {
    var i :| 0 <= i < |a| && PyEq(a[i], s);
    assert (a + b)[i] == a[i];
  }

  /** `a + b` holds both operands' items: each operand is a subset of the sum. */
  lemma ConcatKeepsMembers(a: Gamma, b: Gamma)
    ensures Subset(a, a + b) && Subset(b, a + b)
  {
    forall i | 0 <= i < |a| ensures Mem(a + b, a[i]) {
      SameAsReflexive(a[i]);
      assert (a + b)[i] == a[i];
    }
    forall i | 0 <= i < |b| ensures Mem(a + b, b[i]) {
      SameAsReflexive(b[i]);
      assert (a + b)[|a| + i] == b[i];
    }
  }
}
