/** The discount strip of components/features/cart/Discount.tsx: the products
    are shuffled (Fisher–Yates), each gets a discount drawn from a fixed list,
    and the first four are shown. `Math.random()` is a parameter: the draws,
    in the order the page makes them, each in [0, 1). */
module Discount {
  import opened Types

  const DiscountOptions: seq<int> := [5, 10, 15, 20, 25, 30]
  const MaxShown := 4

  predicate IsDraw(r: real)
  {
    0.0 <= r < 1.0
  }

  /** `Math.floor(r * (n))` for a draw `r`: an index below `n`. */
  function Pick(r: real, n: nat): (j: int)
    requires IsDraw(r) && n > 0
    ensures 0 <= j < n
  {
    var x := r * (n as real);
    assert 0.0 <= x < n as real by {
      assert (1.0 - r) * (n as real) > 0.0;
    }
    x.Floor
  }

  /** `getRandomDiscount`: every discount is one of the listed percentages. */
  function GetRandomDiscount(r: real): (d: int)
    requires IsDraw(r)
    ensures d in DiscountOptions
  {
    DiscountOptions[Pick(r, |DiscountOptions|)]
  }

  /** `shuffleArray`: a copy of `input` is shuffled in place, from the last
      position down to the second, each swapped with a position at or below
      it; `draws[k]` is the `k`-th draw. The result is a permutation of the
      input, and arrays of length 1 or less come back as they are. */
  method ShuffleArray<T>(input: seq<T>, draws: seq<real>) returns (shuffled: seq<T>)
    requires |input| <= |draws| + 1
    requires forall k :: 0 <= k < |draws| ==> IsDraw(draws[k])
    ensures |shuffled| == |input|
    ensures multiset(shuffled) == multiset(input)
    ensures |input| <= 1 ==> shuffled == input
  {
    if |input| <= 1 {
      return input;
    }
    var a := new T[|input|](k requires 0 <= k < |input| => input[k]);
    assert a[..] == input;
    var i := a.Length - 1;
    while i > 0
      invariant 0 <= i < a.Length
      invariant multiset(a[..]) == multiset(input)
    {
      var j := Pick(draws[a.Length - 1 - i], i + 1);
      SwapKeepsMultiset(a[..], i, j);
      a[i], a[j] := a[j], a[i];
      i := i - 1;
    }
    shuffled := a[..];
  }

  lemma SwapKeepsMultiset<T>(s: seq<T>, i: nat, j: nat)
    requires i < |s| && j < |s|
    ensures multiset(s[i := s[j]][j := s[i]]) == multiset(s)
  {
  }

  /** A product with the discount assigned to it. */
  datatype Discounted = Discounted(product: Product, discount: int)

  /** `shuffled.map(product => ({...product, discount: getRandomDiscount()}))`,
      with `draws[k]` the draw for the `k`-th product. */
  function WithDiscounts(products: seq<Product>, draws: seq<real>): (r: seq<Discounted>)
    requires |draws| == |products|
    requires forall k :: 0 <= k < |draws| ==> IsDraw(draws[k])
    ensures |r| == |products|
    ensures forall k :: 0 <= k < |r| ==> r[k].product == products[k] && r[k].discount in DiscountOptions
  {
    if products == [] then []
    else [Discounted(products[0], GetRandomDiscount(draws[0]))] + WithDiscounts(products[1..], draws[1..])
  }

  /** `products.slice(0, 4)`: the first four, or all of them when fewer. */
  function Shown(products: seq<Discounted>): (r: seq<Discounted>)
    ensures |r| <= MaxShown
    ensures r <= products
    ensures |products| <= MaxShown ==> r == products
  {
    if |products| <= MaxShown then products else products[..MaxShown]
  }

  /** The products of a run of discounted entries, in order. */
  function Products(xs: seq<Discounted>): (r: seq<Product>)
    ensures |r| == |xs|
    ensures forall k :: 0 <= k < |xs| ==> r[k] == xs[k].product
  {
    if xs == [] then [] else [xs[0].product] + Products(xs[1..])
  }

  lemma PrefixMultiset<T>(s: seq<T>, n: nat)
    requires n <= |s|
    ensures multiset(s[..n]) <= multiset(s)
  {
    assert s == s[..n] + s[n..];
  }

  /** The load effect followed by the cut to four. A fetch that fails is
      caught and leaves the products as they were (`current`), so the strip
      is what was shown before. A fetch that succeeds shows four products
      of the catalogue (all of them when there are fewer), each from its
      own position of the catalogue, so a product appears no more often
      than the catalogue lists it, and each with one of the listed
      discounts. */
  method LoadStrip(result: Fetch, current: seq<Discounted>, shuffleDraws: seq<real>, discountDraws: seq<real>)
    returns (strip: seq<Discounted>)
    requires result.Fetched? ==> |result.data| <= |shuffleDraws| + 1 && |discountDraws| == |result.data|
    requires forall k :: 0 <= k < |shuffleDraws| ==> IsDraw(shuffleDraws[k])
    requires forall k :: 0 <= k < |discountDraws| ==> IsDraw(discountDraws[k])
    ensures result.FetchFailed? ==> strip == Shown(current)
    ensures result.Fetched? ==> |strip| == if |result.data| < MaxShown then |result.data| else MaxShown
    ensures result.Fetched? ==> multiset(Products(strip)) <= multiset(result.data)
    ensures result.Fetched? ==>
      forall k :: 0 <= k < |strip| ==> strip[k].product in result.data && strip[k].discount in DiscountOptions
  {
    if result.FetchFailed? {
      return Shown(current);
    }
    var data := result.data;
    var shuffled := ShuffleArray(data, shuffleDraws);
    var products := WithDiscounts(shuffled, discountDraws);
    strip := Shown(products);
    assert Products(strip) == shuffled[..|strip|];
    PrefixMultiset(shuffled, |strip|);
    forall k | 0 <= k < |strip| ensures strip[k].product in data {
      assert strip[k] == products[k];
      assert shuffled[k] in multiset(shuffled);
    }
  }
}
