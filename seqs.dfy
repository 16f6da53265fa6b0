/** Generic sequence helpers: `filter` by a key, and facts about membership and size. */
module Seqs {

  /** `filter(x => !drop.has(key(x)))`: keeps, in order, the elements whose key is not dropped. */
  function KeepUnless<T(!new)>(xs: seq<T>, key: T -> string, drop: set<string>): (r: seq<T>)
    ensures |r| <= |xs|
    ensures forall x :: x in r <==> x in xs && key(x) !in drop
    ensures (forall x :: x in xs ==> key(x) !in drop) ==> r == xs
    ensures Distinct(xs) ==> Distinct(r)
    ensures |xs| == 1 ==> r == if key(xs[0]) in drop then [] else xs
  {
    if xs == [] then []
    else
      var rest := KeepUnless(xs[1..], key, drop);
      assert forall x :: x in xs[1..] ==> x in xs;
      if key(xs[0]) in drop then rest else [xs[0]] + rest
  }

  /**
   * Filtering a concatenation filters each part: the kept elements stay in their order, with
   * each occurrence kept once. With the one-element case this fixes the result exactly.
   */
  lemma {:induction false} KeepUnlessAppend<T(!new)>(a: seq<T>, b: seq<T>, key: T -> string, drop: set<string>)
    ensures KeepUnless(a + b, key, drop) == KeepUnless(a, key, drop) + KeepUnless(b, key, drop)
  {
    if a == [] {
      assert a + b == b;
    } else {
      assert (a + b)[0] == a[0] && (a + b)[1..] == a[1..] + b;
      KeepUnlessAppend(a[1..], b, key, drop);
    }
  }

  /** Two drop sets that agree on the keys present filter alike. */
  lemma {:induction false} KeepUnlessAgrees<T(!new)>(xs: seq<T>, key: T -> string, d1: set<string>, d2: set<string>)
    requires forall x :: x in xs ==> (key(x) in d1 <==> key(x) in d2)
    ensures KeepUnless(xs, key, d1) == KeepUnless(xs, key, d2)
  {
    if xs != [] {
      assert xs[0] in xs;
      assert forall x :: x in xs[1..] ==> x in xs;
      KeepUnlessAgrees(xs[1..], key, d1, d2);
    }
  }

  /** No element occurs twice. */
  predicate Distinct<T(==)>(xs: seq<T>)
  {
    forall i, j :: 0 <= i < j < |xs| ==> xs[i] != xs[j]
  }

  /** The identity key, for filtering a sequence of ids. */
  function Id(s: string): string { s }

  /** A subset is no larger than its superset. */
  lemma {:induction false} SubsetCardinality<T>(a: set<T>, b: set<T>)
    requires a <= b
    ensures |a| <= |b|
  {
    if a != {} {
      var x :| x in a;
      SubsetCardinality(a - {x}, b - {x});
    }
  }

  /** A sequence is empty exactly when nothing is in it. */
  lemma EmptyIffNoMember<T>(xs: seq<T>)
    ensures xs == [] <==> forall x :: x !in xs
  {
    if xs != [] {
      assert xs[0] in xs;
    }
  }
}
