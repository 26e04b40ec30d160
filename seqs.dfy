/** `Array.prototype.filter` and the facts about it that the list
    derivations of the storefront share. */
module Seqs {

  /** `xs.filter(f)`. */
  function Filter<T>(xs: seq<T>, f: T -> bool): (r: seq<T>)
    ensures |r| <= |xs|
  {
    if xs == [] then []
    else if f(xs[0]) then [xs[0]] + Filter(xs[1..], f)
    else Filter(xs[1..], f)
  }

  predicate NoDup<T(==)>(xs: seq<T>)
  {
    forall i, j :: 0 <= i < j < |xs| ==> xs[i] != xs[j]
  }

  /** An element is kept exactly when it is in the input and passes. */
  lemma {:induction false} FilterMembers<T>(xs: seq<T>, f: T -> bool)
    ensures forall x :: x in Filter(xs, f) <==> x in xs && f(x)
  {
    if xs != [] {
      FilterMembers(xs[1..], f);
      assert xs == [xs[0]] + xs[1..];
    }
  }

  /** Filtering distributes over concatenation, so it keeps the input order. */
  lemma {:induction false} FilterAppend<T>(a: seq<T>, b: seq<T>, f: T -> bool)
    ensures Filter(a + b, f) == Filter(a, f) + Filter(b, f)
  {
    if a == [] {
      assert a + b == b;
    } else {
      assert (a + b)[0] == a[0] && (a + b)[1..] == a[1..] + b;
      FilterAppend(a[1..], b, f);
    }
  }

  /** Every element passes: nothing is dropped. */
  lemma {:induction false} FilterAll<T>(xs: seq<T>, f: T -> bool)
    requires forall k :: 0 <= k < |xs| ==> f(xs[k])
    ensures Filter(xs, f) == xs
  {
    if xs != [] {
      FilterAll(xs[1..], f);
    }
  }

  /** Filtering a duplicate-free list gives a duplicate-free list. */
  lemma {:induction false} FilterNoDup<T>(xs: seq<T>, f: T -> bool)
    requires NoDup(xs)
    ensures NoDup(Filter(xs, f))
  {
    if xs != [] {
      FilterNoDup(xs[1..], f);
      FilterMembers(xs[1..], f);
      if f(xs[0]) {
        var r := Filter(xs, f);
        forall j | 1 <= j < |r| ensures r[j] != xs[0] {
          assert r[j] in Filter(xs[1..], f);
        }
      }
    }
  }

  /** Number of elements equal to `v`. */
  function CountOf<T(==)>(xs: seq<T>, v: T): nat
  {
    if xs == [] then 0 else (if xs[0] == v then 1 else 0) + CountOf(xs[1..], v)
  }

  lemma {:induction false} CountOfAppend<T>(a: seq<T>, b: seq<T>, v: T)
    ensures CountOf(a + b, v) == CountOf(a, v) + CountOf(b, v)
  {
    if a == [] {
      assert a + b == b;
    } else {
      assert (a + b)[1..] == a[1..] + b;
      CountOfAppend(a[1..], b, v);
    }
  }

  lemma {:induction false} CountOfZero<T>(xs: seq<T>, v: T)
    ensures CountOf(xs, v) == 0 <==> v !in xs
  {
    if xs != [] {
      CountOfZero(xs[1..], v);
      assert xs == [xs[0]] + xs[1..];
    }
  }
}
