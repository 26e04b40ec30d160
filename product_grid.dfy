/** The comparator sort of components/features/products/ProductGrid.tsx:
    the current page's products, copied and sorted by the chosen key with
    JavaScript's stable `Array.prototype.sort`. */
module ProductGrid {
  import opened Types

  /** The sort key the grid uses when none is passed. */
  const DefaultSort: string := "rating"

  /** `b.rating || 0`. */
  function RatingOrZero(p: Product): int
  {
    if p.rating.Some? then p.rating.value else 0
  }

  /** `b.createdAt || 0`, already read as milliseconds. */
  function CreatedOrZero(p: Product): int
  {
    if p.createdAt.Some? then p.createdAt.value else 0
  }

  /** Ordinal string order, by code point. */
  predicate StrLess(a: string, b: string)
  {
    if a == [] then b != []
    else if b == [] then false
    else a[0] < b[0] || (a[0] == b[0] && StrLess(a[1..], b[1..]))
  }

  lemma {:induction false} StrLessIrreflexive(a: string)
    ensures !StrLess(a, a)
  {
    if a != [] {
      StrLessIrreflexive(a[1..]);
    }
  }

  lemma {:induction false} StrLessTransitive(a: string, b: string, c: string)
    requires StrLess(a, b) && StrLess(b, c)
    ensures StrLess(a, c)
  {
    if a != [] && b != [] && c != [] && a[0] == b[0] && b[0] == c[0] {
      StrLessTransitive(a[1..], b[1..], c[1..]);
    }
  }

  lemma {:induction false} StrLessTotal(a: string, b: string)
    ensures StrLess(a, b) || StrLess(b, a) || a == b
  {
    if a != [] && b != [] && a[0] == b[0] {
      StrLessTotal(a[1..], b[1..]);
      assert a == [a[0]] + a[1..] && b == [b[0]] + b[1..];
    }
  }

  /** The comparator of `key` puts `a` strictly before `b`. An unknown key
      orders nothing. */
  predicate Before(key: string, a: Product, b: Product)
  {
    if key == "price_asc" then a.price < b.price
    else if key == "price_desc" then a.price > b.price
    else if key == "rating" then RatingOrZero(a) > RatingOrZero(b)
    else if key == "newest" then CreatedOrZero(a) > CreatedOrZero(b)
    else if key == "name" then StrLess(a.model, b.model)
    else false
  }

  /** If neither of a, b is before the other and neither of b, c, then
      neither of a, c: each comparator is a strict weak order. */
  lemma NotBeforeTransitive(key: string, a: Product, b: Product, c: Product)
    requires !Before(key, a, b) && !Before(key, b, c)
    ensures !Before(key, a, c)
  {
    if key == "name" && StrLess(a.model, c.model) {
      StrLessTotal(a.model, b.model);
      StrLessTotal(b.model, c.model);
      if a.model == b.model {
      } else if b.model == c.model {
      } else {
        StrLessTransitive(b.model, a.model, c.model);
        StrLessTransitive(c.model, b.model, a.model);
        StrLessTransitive(a.model, c.model, b.model);
        StrLessIrreflexive(a.model);
      }
    }
  }

  lemma BeforeAsymmetric(key: string, a: Product, b: Product)
    requires Before(key, a, b)
    ensures !Before(key, b, a)
  {
    if key == "name" && StrLess(b.model, a.model) {
      StrLessTransitive(a.model, b.model, a.model);
      StrLessIrreflexive(a.model);
    }
  }

  /** No later product is strictly before an earlier one. */
  predicate Sorted(key: string, s: seq<Product>)
  {
    forall i, j :: 0 <= i < j < |s| ==> !Before(key, s[j], s[i])
  }

  /** Inserts `x` after every product strictly before it, and so before
      products that tie with it. */
  function Insert(key: string, x: Product, s: seq<Product>): seq<Product>
  {
    if s == [] then [x]
    else if Before(key, s[0], x) then [s[0]] + Insert(key, x, s[1..])
    else [x] + s
  }

  /** `[...paginatedProducts].sort(comparator(key))`. */
  function SortBy(key: string, s: seq<Product>): seq<Product>
  {
    if s == [] then [] else Insert(key, s[0], SortBy(key, s[1..]))
  }

  lemma {:induction false} InsertPerm(key: string, x: Product, s: seq<Product>)
    ensures multiset(Insert(key, x, s)) == multiset(s) + multiset{x}
  {
    if s != [] && Before(key, s[0], x) {
      InsertPerm(key, x, s[1..]);
      assert s == [s[0]] + s[1..];
    }
  }

  lemma {:induction false} InsertSorted(key: string, x: Product, s: seq<Product>)
    requires Sorted(key, s)
    ensures Sorted(key, Insert(key, x, s))
  {
    if s != [] {
      if Before(key, s[0], x) {
        InsertSorted(key, x, s[1..]);
        InsertPerm(key, x, s[1..]);
        var r := Insert(key, x, s);
        forall j | 1 <= j < |r| ensures !Before(key, r[j], s[0]) {
          assert r[j] in multiset(Insert(key, x, s[1..]));
          if r[j] == x {
            BeforeAsymmetric(key, s[0], x);
          } else {
            assert r[j] in multiset(s[1..]);
            var k :| 0 <= k < |s[1..]| && s[1..][k] == r[j];
            assert s[k + 1] == r[j];
          }
        }
      } else {
        forall j | 0 <= j < |s| ensures !Before(key, s[j], x) {
          if j > 0 {
            NotBeforeTransitive(key, s[j], s[0], x);
          }
        }
      }
    }
  }

  /** The sorted page is in comparator order and is a permutation of the
      page: same products, same multiplicities. */
  lemma {:induction false} SortBySpec(key: string, s: seq<Product>)
    ensures Sorted(key, SortBy(key, s))
    ensures multiset(SortBy(key, s)) == multiset(s)
    ensures |SortBy(key, s)| == |s|
  {
    if s != [] {
      SortBySpec(key, s[1..]);
      InsertSorted(key, s[0], SortBy(key, s[1..]));
      InsertPerm(key, s[0], SortBy(key, s[1..]));
      assert s == [s[0]] + s[1..];
    }
    assert |multiset(SortBy(key, s))| == |SortBy(key, s)|;
  }

  /** What each key promises of the sorted page. */
  lemma SortKeys(s: seq<Product>)
    ensures var r := SortBy("price_asc", s);
      forall i, j :: 0 <= i < j < |r| ==> r[i].price <= r[j].price
    ensures var r := SortBy("price_desc", s);
      forall i, j :: 0 <= i < j < |r| ==> r[i].price >= r[j].price
    ensures var r := SortBy("rating", s);
      forall i, j :: 0 <= i < j < |r| ==> RatingOrZero(r[i]) >= RatingOrZero(r[j])
    ensures var r := SortBy("newest", s);
      forall i, j :: 0 <= i < j < |r| ==> CreatedOrZero(r[i]) >= CreatedOrZero(r[j])
  {
    SortBySpec("price_asc", s);
    SortBySpec("price_desc", s);
    SortBySpec("rating", s);
    SortBySpec("newest", s);
  }

  /** An unrecognised key leaves the page in its original order. */
  lemma {:induction false} UnknownKeyKeepsOrder(key: string, s: seq<Product>)
    requires !(key in {"price_asc", "price_desc", "rating", "newest", "name"})
    ensures SortBy(key, s) == s
  {
    if s != [] {
      UnknownKeyKeepsOrder(key, s[1..]);
      assert [s[0]] + s[1..] == s;
    }
  }

  /** The sort only reorders the page it is given: which products appear
      never depends on the key. */
  lemma SortKeepsPage(k1: string, k2: string, s: seq<Product>)
    ensures multiset(SortBy(k1, s)) == multiset(SortBy(k2, s))
  {
    SortBySpec(k1, s);
    SortBySpec(k2, s);
  }
}
