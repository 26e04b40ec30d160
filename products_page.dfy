/** The category listing of components/features/products/ProductsPageX.tsx:
    the filter state decoded from and encoded into the query string, the
    product predicate, the facet lists, the toggles, the 9-per-page slice
    and the price bounds. Prices are cents; the price range and its bounds
    are whole dollars, as in the query string. */
module ProductsPage {
  import opened Types
  import opened Strings
  import opened JsNumber
  import opened Seqs
  import Catalog

  /** The query string as a key-to-value map (one value per key). */
  type Params = map<string, string>

  /** `[min, max]` in whole dollars; either end may be NaN when it came
      from an unparseable parameter. */
  datatype PriceRange = PriceRange(lo: Num, hi: Num)

  /** `priceBounds`, in whole dollars. */
  datatype Bounds = Bounds(min: int, max: int)

  /** The page's filter state. */
  datatype Filters = Filters(
    brands: seq<string>,
    battery: seq<string>,
    size: seq<string>,
    page: Num,
    search: string,
    sort: string,
    price: PriceRange)

  // ---------------------------------------------------------------------
  // Decoding: the state initialisers

  /** `searchParams.get(key)` is truthy: present and not "". */
  predicate Present(params: Params, key: string)
  {
    key in params && params[key] != ""
  }

  /** `v ? v.split(',') : []`. */
  function ListParam(params: Params, key: string): seq<string>
  {
    if Present(params, key) then Split(params[key], ',') else []
  }

  /** `v || d`. */
  function TextParam(params: Params, key: string, d: string): string
  {
    if Present(params, key) then params[key] else d
  }

  /** `v ? parseInt(v) : d`. */
  function NumParam(params: Params, key: string, d: int): Num
  {
    if Present(params, key) then ParseInt(params[key]) else Finite(d)
  }

  function Decode(params: Params): Filters
  {
    Filters(
      ListParam(params, "brands"),
      ListParam(params, "battery"),
      ListParam(params, "size"),
      NumParam(params, "page", 1),
      TextParam(params, "search", ""),
      TextParam(params, "sort", "rating"),
      PriceRange(NumParam(params, "minPrice", 0), NumParam(params, "maxPrice", 2000)))
  }

  /** With no parameters every field takes its default. */
  lemma DecodeDefaults()
    ensures Decode(map[]) == Filters([], [], [], Finite(1), "", "rating", PriceRange(Finite(0), Finite(2000)))
  {
  }

  // ---------------------------------------------------------------------
  // Encoding: updateURL

  /** A value of the `updates` record: `null`, a string, a list or a number. */
  datatype UpdateValue = Null | Str(s: string) | List(xs: seq<string>) | Number(n: Num)

  datatype Update = Update(key: string, value: UpdateValue)

  /** What one entry leaves for its key: None when the key is deleted. */
  function Outcome(v: UpdateValue): Option<string>
  {
    match v
    case Null => None
    case Str(s) => if s == "" then None else Some(s)
    case List(xs) => if xs == [] then None else Some(Join(xs, ','))
    case Number(n) => Some(NumToString(n))
  }

  function ApplyOne(params: Params, u: Update): Params
  {
    match Outcome(u.value)
    case None => params - {u.key}
    case Some(s) => params[u.key := s]
  }

  /** The `forEach` over the entries, in order. */
  function ApplyAll(params: Params, updates: seq<Update>): Params
    decreases |updates|
  {
    if updates == [] then params else ApplyAll(ApplyOne(params, updates[0]), updates[1..])
  }

  /** Dropping the default `sort=rating` and `page=1`. */
  function Cleanup(params: Params): Params
  {
    var p := if "sort" in params && params["sort"] == "rating" then params - {"sort"} else params;
    if "page" in p && p["page"] == "1" then p - {"page"} else p
  }

  /** `updateURL(updates)` against the current query `params`: the query it
      hands to `router.replace`. */
  method UpdateUrl(params: Params, updates: seq<Update>) returns (url: Params)
    ensures url == Cleanup(ApplyAll(params, updates))
  {
    var cur := params;
    var i := 0;
    while i < |updates|
      invariant 0 <= i <= |updates|
      invariant ApplyAll(cur, updates[i..]) == ApplyAll(params, updates)
    {
      assert updates[i..][0] == updates[i] && updates[i..][1..] == updates[i + 1..];
      var u := updates[i];
      match u.value {
        case Null => cur := cur - {u.key};
        case Str(s) =>
          if s == "" { cur := cur - {u.key}; } else { cur := cur[u.key := s]; }
        case List(xs) =>
          if xs == [] { cur := cur - {u.key}; } else { cur := cur[u.key := Join(xs, ',')]; }
        case Number(n) => cur := cur[u.key := NumToString(n)];
      }
      i := i + 1;
    }
    if "sort" in cur && cur["sort"] == "rating" {
      cur := cur - {"sort"};
    }
    if "page" in cur && cur["page"] == "1" {
      cur := cur - {"page"};
    }
    url := cur;
  }

  /** The last entry naming `key`, if any. */
  function LastFor(updates: seq<Update>, key: string): Option<UpdateValue>
  {
    if updates == [] then None
    else
      var later := LastFor(updates[1..], key);
      if later.Some? then later
      else if updates[0].key == key then Some(updates[0].value)
      else None
  }

  function Lookup(params: Params, key: string): Option<string>
  {
    if key in params then Some(params[key]) else None
  }

  /** After the `forEach`, a key holds what its last entry says, and keys
      no entry names keep their value. */
  lemma {:induction false} ApplyAllKey(params: Params, updates: seq<Update>, key: string)
    ensures Lookup(ApplyAll(params, updates), key) ==
      (if LastFor(updates, key).Some? then Outcome(LastFor(updates, key).value) else Lookup(params, key))
    decreases |updates|
  {
    if updates != [] {
      ApplyAllKey(ApplyOne(params, updates[0]), updates[1..], key);
    }
  }

  /** The entry at `i` is the last one naming its key. */
  lemma {:induction false} LastForAt(updates: seq<Update>, i: nat)
    requires i < |updates|
    requires forall j :: i < j < |updates| ==> updates[j].key != updates[i].key
    ensures LastFor(updates, updates[i].key) == Some(updates[i].value)
  {
    if i > 0 {
      LastForAt(updates[1..], i - 1);
    } else {
      LastForNone(updates[1..], updates[0].key);
    }
  }

  lemma {:induction false} LastForNone(updates: seq<Update>, key: string)
    requires forall j :: 0 <= j < |updates| ==> updates[j].key != key
    ensures LastFor(updates, key) == None
  {
    if updates != [] {
      LastForNone(updates[1..], key);
    }
  }

  /** The entries that the URL effect and the sort, search and price
      handlers write for a state, in the effect's order. */
  function Encode(f: Filters): seq<Update>
  {
    [Update("brands", List(f.brands)),
     Update("battery", List(f.battery)),
     Update("size", List(f.size)),
     Update("page", if f.page == Finite(1) then Null else Number(f.page)),
     Update("search", Str(f.search)),
     Update("sort", Str(f.sort)),
     Update("minPrice", Number(f.price.lo)),
     Update("maxPrice", Number(f.price.hi))]
  }

  /** A list survives a comma-join: its values are non-empty and comma-free. */
  predicate ListEncodable(xs: seq<string>)
  {
    forall k :: 0 <= k < |xs| ==> xs[k] != "" && ',' !in xs[k]
  }

  predicate Encodable(f: Filters)
  {
    ListEncodable(f.brands) && ListEncodable(f.battery) && ListEncodable(f.size) &&
    f.page.Finite? && f.sort != "" && f.price.lo.Finite? && f.price.hi.Finite?
  }

  lemma ListRoundTrip(params: Params, key: string, xs: seq<string>)
    requires ListEncodable(xs)
    requires Lookup(params, key) == Outcome(List(xs))
    ensures ListParam(params, key) == xs
  {
    if xs != [] {
      JoinNonEmpty(xs, ',');
      SplitJoin(xs, ',');
    }
  }

  lemma NumRoundTrip(params: Params, key: string, n: int, d: int)
    requires Lookup(params, key) == Some(NumToString(Finite(n)))
    ensures NumParam(params, key, d) == Finite(n)
  {
    ParseIntToString(n);
    assert NumToString(Finite(n)) != [];
  }

  lemma EncodeLookup(params: Params, f: Filters, i: nat)
    requires i < 8
    ensures Lookup(ApplyAll(params, Encode(f)), Encode(f)[i].key) == Outcome(Encode(f)[i].value)
  {
    LastForAt(Encode(f), i);
    ApplyAllKey(params, Encode(f), Encode(f)[i].key);
  }

  lemma CleanupLookup(m: Params, k: string)
    ensures k != "sort" && k != "page" ==> Lookup(Cleanup(m), k) == Lookup(m, k)
    ensures Lookup(Cleanup(m), "sort") == (if Lookup(m, "sort") == Some("rating") then None else Lookup(m, "sort"))
    ensures Lookup(Cleanup(m), "page") == (if Lookup(m, "page") == Some("1") then None else Lookup(m, "page"))
  {
  }

  lemma RoundTripLists(params: Params, f: Filters)
    requires Encodable(f)
    ensures var c := Cleanup(ApplyAll(params, Encode(f)));
      ListParam(c, "brands") == f.brands && ListParam(c, "battery") == f.battery && ListParam(c, "size") == f.size
  {
    var m := ApplyAll(params, Encode(f));
    var c := Cleanup(m);
    EncodeLookup(params, f, 0);
    EncodeLookup(params, f, 1);
    EncodeLookup(params, f, 2);
    CleanupLookup(m, "brands");
    CleanupLookup(m, "battery");
    CleanupLookup(m, "size");
    ListRoundTrip(c, "brands", f.brands);
    ListRoundTrip(c, "battery", f.battery);
    ListRoundTrip(c, "size", f.size);
  }

  lemma RoundTripPrice(params: Params, f: Filters)
    requires Encodable(f)
    ensures var c := Cleanup(ApplyAll(params, Encode(f)));
      NumParam(c, "minPrice", 0) == f.price.lo && NumParam(c, "maxPrice", 2000) == f.price.hi
  {
    var m := ApplyAll(params, Encode(f));
    var c := Cleanup(m);
    EncodeLookup(params, f, 6);
    EncodeLookup(params, f, 7);
    CleanupLookup(m, "minPrice");
    CleanupLookup(m, "maxPrice");
    NumRoundTrip(c, "minPrice", f.price.lo.value, 0);
    NumRoundTrip(c, "maxPrice", f.price.hi.value, 2000);
  }

  /** Only the page 1 is written as "1". */
  lemma PageOneText(v: int)
    requires NumToString(Finite(v)) == "1"
    ensures v == 1
  {
    ParseIntToString(v);
    ParseIntToString(1);
    assert NumToString(Finite(1)) == [DigitChar(1)];
  }

  lemma RoundTripPage(params: Params, f: Filters)
    requires Encodable(f)
    ensures NumParam(Cleanup(ApplyAll(params, Encode(f))), "page", 1) == f.page
  {
    var m := ApplyAll(params, Encode(f));
    var c := Cleanup(m);
    EncodeLookup(params, f, 3);
    CleanupLookup(m, "page");
    if f.page != Finite(1) {
      if NumToString(f.page) == "1" {
        PageOneText(f.page.value);
      }
      NumRoundTrip(c, "page", f.page.value, 1);
    }
  }

  lemma RoundTripTexts(params: Params, f: Filters)
    requires Encodable(f)
    ensures var c := Cleanup(ApplyAll(params, Encode(f)));
      TextParam(c, "search", "") == f.search && TextParam(c, "sort", "rating") == f.sort
  {
    var m := ApplyAll(params, Encode(f));
    EncodeLookup(params, f, 4);
    EncodeLookup(params, f, 5);
    CleanupLookup(m, "search");
  }

  /** Decoding what the page writes gives the state back: lists of
      non-empty comma-free values are split back into themselves, numbers
      are parsed back, and the omitted defaults (`sort=rating`, `page=1`,
      empty lists, an empty search) decode to those same defaults. */
  lemma RoundTrip(params: Params, f: Filters)
    requires Encodable(f)
    ensures Decode(Cleanup(ApplyAll(params, Encode(f)))) == f
  {
    RoundTripLists(params, f);
    RoundTripPrice(params, f);
    RoundTripPage(params, f);
    RoundTripTexts(params, f);
  }

  // ---------------------------------------------------------------------
  // The product predicate

  /** `sel.length === 0 || sel.includes(v)`. */
  predicate BrandMatch(sel: seq<string>, brand: string)
  {
    |sel| == 0 || brand in sel
  }

  /** A specification value must be present and non-empty to match a
      non-empty selection. */
  predicate SpecMatch(sel: seq<string>, v: Option<string>)
  {
    |sel| == 0 || (v.Some? && v.value != "" && v.value in sel)
  }

  /** A blank query matches everything; otherwise the lower-cased query,
      untrimmed, must occur in the lower-cased brand, model or details. */
  predicate SearchMatch(q: string, p: Product)
  {
    Trim(q) == [] ||
    Contains(Lower(p.brand), Lower(q)) ||
    Contains(Lower(p.model), Lower(q)) ||
    (p.details != "" && Contains(Lower(p.details), Lower(q)))
  }

  /** `priceRange[0] <= price <= priceRange[1]` with the price in cents and
      the range in dollars; a NaN end matches nothing. */
  predicate PriceMatch(r: PriceRange, cents: int)
  {
    r.lo.Finite? && r.hi.Finite? && r.lo.value * 100 <= cents && cents <= r.hi.value * 100
  }

  predicate Matches(f: Filters, p: Product)
  {
    BrandMatch(f.brands, p.brand) && SpecMatch(f.battery, p.battery) && SpecMatch(f.size, p.screenSize) &&
    SearchMatch(f.search, p) && PriceMatch(f.price, p.price)
  }

  /** `filteredProducts`. */
  function FilteredProducts(products: seq<Product>, f: Filters): seq<Product>
  {
    Filter(products, (p: Product) => Matches(f, p))
  }

  /** A product is kept iff every criterion holds; the order of the
      catalogue is kept; a product without a battery (or size) value, or
      with an empty one, never passes a non-empty battery (or size)
      selection. */
  lemma FilteredIff(products: seq<Product>, f: Filters)
    ensures forall p :: p in FilteredProducts(products, f) <==>
      p in products && BrandMatch(f.brands, p.brand) && SpecMatch(f.battery, p.battery) &&
      SpecMatch(f.size, p.screenSize) && SearchMatch(f.search, p) && PriceMatch(f.price, p.price)
    ensures forall p :: p in FilteredProducts(products, f) && |f.battery| > 0 ==> p.battery.Some? && p.battery.value != ""
    ensures forall p :: p in FilteredProducts(products, f) && |f.size| > 0 ==> p.screenSize.Some? && p.screenSize.value != ""
  {
    FilterMembers(products, (p: Product) => Matches(f, p));
  }

  /** Filtering keeps relative order: it distributes over concatenation. */
  lemma FilteredKeepsOrder(a: seq<Product>, b: seq<Product>, f: Filters)
    ensures FilteredProducts(a + b, f) == FilteredProducts(a, f) + FilteredProducts(b, f)
  {
    FilterAppend(a, b, (p: Product) => Matches(f, p));
  }

  /** The search is vacuous exactly when the query is all white space. */
  lemma SearchVacuousIff(q: string)
    ensures (forall i :: 0 <= i < |q| ==> IsSpace(q[i])) ==> forall p :: SearchMatch(q, p)
    ensures (exists i :: 0 <= i < |q| && !IsSpace(q[i])) ==> forall p :: SearchMatch(q, p) <==>
      Contains(Lower(p.brand), Lower(q)) || Contains(Lower(p.model), Lower(q)) ||
      (p.details != "" && Contains(Lower(p.details), Lower(q)))
  {
    TrimEmptyIff(q);
  }

  /** The search ignores the case of the query. */
  lemma SearchIgnoresCase(q: string, p: Product)
    ensures SearchMatch(Lower(q), p) == SearchMatch(q, p)
  {
    LowerIdempotent(q);
    TrimEmptyIff(q);
    TrimEmptyIff(Lower(q));
    forall i | 0 <= i < |q| ensures IsSpace(Lower(q)[i]) == IsSpace(q[i]) {
      LowerCharSpace(q[i]);
    }
  }

  // ---------------------------------------------------------------------
  // Facets

  /** `canonical.filter(v => present.includes(v))`. */
  function Facet(canonical: seq<string>, present: seq<string>): seq<string>
  {
    Filter(canonical, (v: string) => v in present)
  }

  function Brands(products: seq<Product>): (r: seq<string>)
    ensures |r| == |products|
    ensures forall k :: 0 <= k < |products| ==> r[k] == products[k].brand
  {
    if products == [] then [] else [products[0].brand] + Brands(products[1..])
  }

  /** The defined values of an optional specification. */
  function Defined(vs: seq<Option<string>>): (r: seq<string>)
    ensures forall v :: v in r <==> Some(v) in vs
  {
    if vs == [] then []
    else
      var rest := Defined(vs[1..]);
      assert vs == [vs[0]] + vs[1..];
      if vs[0].Some? then [vs[0].value] + rest else rest
  }

  function Batteries(products: seq<Product>): (r: seq<Option<string>>)
    ensures |r| == |products|
    ensures forall k :: 0 <= k < |products| ==> r[k] == products[k].battery
  {
    if products == [] then [] else [products[0].battery] + Batteries(products[1..])
  }

  function ScreenSizes(products: seq<Product>): (r: seq<Option<string>>)
    ensures |r| == |products|
    ensures forall k :: 0 <= k < |products| ==> r[k] == products[k].screenSize
  {
    if products == [] then [] else [products[0].screenSize] + ScreenSizes(products[1..])
  }

  function AvailableBrands(products: seq<Product>): seq<string>
  {
    Facet(Catalog.BrandList, Brands(products))
  }

  function AvailableBattery(products: seq<Product>): seq<string>
  {
    Facet(Catalog.BatteryList, Defined(Batteries(products)))
  }

  function AvailableSize(products: seq<Product>): seq<string>
  {
    Facet(Catalog.ScreenSizeList, Defined(ScreenSizes(products)))
  }

  /** A facet lists exactly the canonical values some product carries, in
      canonical order, without repeating one. */
  lemma FacetSpec(canonical: seq<string>, present: seq<string>)
    ensures forall v :: v in Facet(canonical, present) <==> v in canonical && v in present
    ensures forall a, b :: Facet(canonical + a, present + b) == Facet(canonical, present + b) + Facet(a, present + b)
    ensures NoDup(canonical) ==> NoDup(Facet(canonical, present))
  {
    FilterMembers(canonical, (v: string) => v in present);
    forall a, b ensures Facet(canonical + a, present + b) == Facet(canonical, present + b) + Facet(a, present + b) {
      FilterAppend(canonical, a, (v: string) => v in present + b);
    }
    if NoDup(canonical) {
      FilterNoDup(canonical, (v: string) => v in present);
    }
  }

  /** The brand, battery and size facets offer exactly the canonical values
      carried by some product. */
  lemma AvailableFacets(products: seq<Product>)
    ensures forall b :: b in AvailableBrands(products) <==>
      b in Catalog.BrandList && exists p :: p in products && p.brand == b
    ensures forall v :: v in AvailableBattery(products) <==>
      v in Catalog.BatteryList && exists p :: p in products && p.battery == Some(v)
    ensures forall v :: v in AvailableSize(products) <==>
      v in Catalog.ScreenSizeList && exists p :: p in products && p.screenSize == Some(v)
  {
    FacetSpec(Catalog.BrandList, Brands(products));
    FacetSpec(Catalog.BatteryList, Defined(Batteries(products)));
    FacetSpec(Catalog.ScreenSizeList, Defined(ScreenSizes(products)));
    forall b ensures b in Brands(products) <==> exists p :: p in products && p.brand == b {
      if b in Brands(products) {
        var k :| 0 <= k < |products| && Brands(products)[k] == b;
        assert products[k] in products;
      }
    }
    forall v ensures Some(v) in Batteries(products) <==> exists p :: p in products && p.battery == Some(v) {
      if Some(v) in Batteries(products) {
        var k :| 0 <= k < |products| && Batteries(products)[k] == Some(v);
        assert products[k] in products;
      }
    }
    forall v ensures Some(v) in ScreenSizes(products) <==> exists p :: p in products && p.screenSize == Some(v) {
      if Some(v) in ScreenSizes(products) {
        var k :| 0 <= k < |products| && ScreenSizes(products)[k] == Some(v);
        assert products[k] in products;
      }
    }
  }

  // ---------------------------------------------------------------------
  // Toggles

  /** Remove `v` if selected, else append it. */
  function Toggle(sel: seq<string>, v: string): seq<string>
  {
    if v in sel then Filter(sel, (b: string) => b != v) else sel + [v]
  }

  /** A toggle flips the membership of `v` only, and keeps a selection
      duplicate-free. */
  lemma ToggleMembers(sel: seq<string>, v: string)
    ensures (v in Toggle(sel, v)) == (v !in sel)
    ensures forall w :: w != v ==> (w in Toggle(sel, v) <==> w in sel)
    ensures NoDup(sel) ==> NoDup(Toggle(sel, v))
  {
    FilterMembers(sel, (b: string) => b != v);
    if NoDup(sel) && v in sel {
      FilterNoDup(sel, (b: string) => b != v);
    }
  }

  /** Toggling a value twice restores the selection: exactly when the value
      was not selected, and as the same set of values (now with `v` last)
      when it was. */
  lemma ToggleTwice(sel: seq<string>, v: string)
    ensures v !in sel ==> Toggle(Toggle(sel, v), v) == sel
    ensures forall w :: w in Toggle(Toggle(sel, v), v) <==> w in sel
    ensures NoDup(sel) ==> NoDup(Toggle(Toggle(sel, v), v))
  {
    ToggleMembers(sel, v);
    ToggleMembers(Toggle(sel, v), v);
    if v !in sel {
      var t := sel + [v];
      assert v in t;
      var r := Filter(t, (b: string) => b != v);
      FilterAppend(sel, [v], (b: string) => b != v);
      FilterAll(sel, (b: string) => b != v);
      assert Filter([v], (b: string) => b != v) == [];
    }
  }

  // ---------------------------------------------------------------------
  // Pagination slice

  const ProductsPerPage: int := 9

  /** How `slice` reads an index: negative counts from the end, and the
      result is clamped to [0, len]. */
  function SliceIndex(len: nat, i: int): (r: nat)
    ensures r <= len
  {
    if i < 0 then (if len + i < 0 then 0 else len + i) else if i > len then len else i
  }

  /** `xs.slice(start, end)`. */
  function Slice<T>(xs: seq<T>, start: int, end: int): seq<T>
  {
    var s := SliceIndex(|xs|, start);
    var e := SliceIndex(|xs|, end);
    if s < e then xs[s..e] else []
  }

  /** The slice as written: `slice((page - 1) * 9, (page - 1) * 9 + 9)`; a
      NaN page makes both indices NaN, read as 0. */
  function PageSliceAsWritten<T>(xs: seq<T>, page: Num): seq<T>
  {
    match page
    case NaN => Slice(xs, 0, 0)
    case Finite(p) => Slice(xs, (p - 1) * ProductsPerPage, (p - 1) * ProductsPerPage + ProductsPerPage)
  }

  /** A negative page is read from the end of the list: with 20 products page
      -1 shows the products at positions 2 to 10. */
  lemma NegativePageShowsProducts<T>(xs: seq<T>)
    requires |xs| == 20
    ensures PageSliceAsWritten(xs, Finite(-1)) == xs[2..11]
    ensures |PageSliceAsWritten(xs, Finite(-1))| == 9
  {
  }

  /** The slice as evidently intended: a page below 1 (or NaN) is out of
      range like a page past the end, and shows nothing. */
  function PageSlice<T>(xs: seq<T>, page: Num): (r: seq<T>)
    ensures page.Finite? && page.value >= 1 ==> r == PageSliceAsWritten(xs, page)
  {
    if page.NaN? || page.value < 1 then [] else PageSliceAsWritten(xs, page)
  }

  /** `Math.ceil(n / 9)`. */
  function TotalPages(n: nat): (r: nat)
    ensures (r - 1) * ProductsPerPage < n <= r * ProductsPerPage || (n == 0 && r == 0)
  {
    (n + ProductsPerPage - 1) / ProductsPerPage
  }

  /** A page in 1..totalPages shows positions (p-1)*9 up to p*9 (or the end)
      and is never empty; any other page shows nothing. */
  lemma PageSliceSpec<T>(xs: seq<T>, p: int)
    ensures 1 <= p <= TotalPages(|xs|) ==>
      var lo := (p - 1) * ProductsPerPage;
      var hi := if p * ProductsPerPage < |xs| then p * ProductsPerPage else |xs|;
      PageSlice(xs, Finite(p)) == xs[lo..hi] && PageSlice(xs, Finite(p)) != []
    ensures !(1 <= p <= TotalPages(|xs|)) ==> PageSlice(xs, Finite(p)) == []
  {
  }

  /** The first `k` pages, one after the other. */
  function FirstPages<T>(xs: seq<T>, k: nat): seq<T>
  {
    if k == 0 then [] else FirstPages(xs, k - 1) + PageSlice(xs, Finite(k))
  }

  /** How many products the first `k` pages hold. */
  function Covered(k: nat, n: nat): nat
  {
    if k * ProductsPerPage < n then k * ProductsPerPage else n
  }

  /** The first `k` pages, read in order, are the first products of the
      list: no product is skipped or shown twice. */
  lemma {:induction false} PagesCover<T>(xs: seq<T>, k: nat)
    ensures FirstPages(xs, k) == xs[..Covered(k, |xs|)]
  {
    if k > 0 {
      PagesCover(xs, k - 1);
      var a := Covered(k - 1, |xs|);
      var b := Covered(k, |xs|);
      if a < |xs| {
        assert PageSlice(xs, Finite(k)) == xs[a..b] by {
          PageSliceSpec(xs, k);
          assert 1 <= k <= TotalPages(|xs|);
        }
        assert xs[..a] + xs[a..b] == xs[..b];
      } else {
        assert PageSlice(xs, Finite(k)) == [] by {
          PageSliceSpec(xs, k);
          assert k > TotalPages(|xs|);
        }
        assert b == |xs|;
      }
    }
  }

  /** The pages 1..totalPages together are the whole list. */
  lemma AllPagesCover<T>(xs: seq<T>)
    ensures FirstPages(xs, TotalPages(|xs|)) == xs
  {
    PagesCover(xs, TotalPages(|xs|));
    assert xs[..|xs|] == xs;
  }

  // ---------------------------------------------------------------------
  // Price bounds and clearing

  function MinPrice(products: seq<Product>): (r: int)
    requires products != []
    ensures forall p :: p in products ==> r <= p.price
    ensures exists p :: p in products && p.price == r
  {
    if |products| == 1 then products[0].price
    else
      var m := MinPrice(products[1..]);
      assert forall p :: p in products[1..] ==> p in products;
      if products[0].price <= m then products[0].price else m
  }

  function MaxPrice(products: seq<Product>): (r: int)
    requires products != []
    ensures forall p :: p in products ==> r >= p.price
    ensures exists p :: p in products && p.price == r
  {
    if |products| == 1 then products[0].price
    else
      var m := MaxPrice(products[1..]);
      assert forall p :: p in products[1..] ==> p in products;
      if products[0].price >= m then products[0].price else m
  }

  /** `Math.ceil(cents / 100)`. */
  function CeilDollars(cents: int): int
  {
    -((-cents) / 100)
  }

  /** `priceBounds`: {0, 2000} with no products, else the floor of the
      lowest and the ceiling of the highest price, in dollars. */
  function PriceBounds(products: seq<Product>): Bounds
  {
    if products == [] then Bounds(0, 2000)
    else Bounds(MinPrice(products) / 100, CeilDollars(MaxPrice(products)))
  }

  /** A range set to the bounds lets every product through on price, and
      no narrower whole-dollar range does. */
  lemma PriceBoundsCover(products: seq<Product>)
    ensures var b := PriceBounds(products);
      forall p :: p in products ==> PriceMatch(PriceRange(Finite(b.min), Finite(b.max)), p.price)
    ensures products != [] ==> var b := PriceBounds(products);
      (exists p :: p in products && p.price < (b.min + 1) * 100) &&
      (exists p :: p in products && p.price > (b.max - 1) * 100)
  {
    if products != [] {
      var lo := MinPrice(products);
      var hi := MaxPrice(products);
      assert (lo / 100) * 100 <= lo < (lo / 100 + 1) * 100;
      var q := (-hi) / 100;
      assert q * 100 <= -hi < (q + 1) * 100;
    }
  }

  /** The state `clearAllFilters` sets: Apple stays selected. */
  function ClearedFilters(bounds: Bounds): Filters
  {
    Filters(["Apple"], [], [], Finite(1), "", "rating", PriceRange(Finite(bounds.min), Finite(bounds.max)))
  }

  /** The "Active filters" row: some selection, a search, or a price
      differing from the bounds. */
  predicate ActiveFiltersShown(f: Filters, bounds: Bounds)
  {
    |f.brands| > 0 || |f.battery| > 0 || |f.size| > 0 || f.search != "" ||
    f.price.lo != Finite(bounds.min) || f.price.hi != Finite(bounds.max)
  }

  /** Products whose category equals the page's, ignoring case. */
  function CategoryProducts(data: seq<Product>, category: string): seq<Product>
  {
    Filter(data, (p: Product) => Lower(p.category) == Lower(category))
  }

  /** The URL effect's entries for a state. */
  function SyncUpdates(f: Filters): seq<Update>
  {
    [Update("brands", List(f.brands)),
     Update("battery", List(f.battery)),
     Update("size", List(f.size)),
     Update("page", if f.page == Finite(1) then Null else Number(f.page))]
  }

  /** `handleSortChange`'s entry. */
  function SortUpdates(key: string): seq<Update>
  {
    [Update("sort", Str(key))]
  }

  /** `handlePriceChange`'s entries. */
  function PriceUpdates(r: PriceRange): seq<Update>
  {
    [Update("minPrice", Number(r.lo)), Update("maxPrice", Number(r.hi)), Update("page", Number(Finite(1)))]
  }

  /** `handleSearchChange`'s entries. */
  function SearchUpdates(q: string): seq<Update>
  {
    [Update("search", Str(q)), Update("page", Number(Finite(1)))]
  }

  /** The page component: the query string it was rendered with, the query
      string the router holds after its last `replace`, the category, the
      loaded products and the filter state. Every `updateURL` starts from
      `rendered`, the `searchParams` of the render whose handlers run, so
      two updates in one event do not see each other. */
  class QueryPage {
    var rendered: Params
    var url: Params
    var category: string
    var products: seq<Product>
    var loading: bool
    var filters: Filters

    /** The state initialisers read the query string. */
    constructor (params: Params, cat: string)
      ensures rendered == params && url == params && category == cat && products == [] && loading
      ensures filters == Decode(params)
    {
      rendered := params;
      url := params;
      category := cat;
      products := [];
      loading := true;
      filters := Decode(params);
    }

    /** A navigation re-renders the page with the router's query string. */
    method Render()
      modifies this`rendered
      ensures rendered == url
    {
      rendered := url;
    }

    /** The load effect once `fetchProducts` has answered: on success the
        category's products are kept, and when the query names neither price
        end the range becomes their bounds; a failed fetch is caught and
        leaves the products and the filters as they were. Loading ends
        either way. */
    method LoadProducts(result: Fetch)
      modifies this`products, this`loading, this`filters
      ensures !loading
      ensures result.FetchFailed? ==> products == old(products) && filters == old(filters)
      ensures result.Fetched? ==> products == CategoryProducts(result.data, category)
      ensures result.Fetched? && products != [] && !Present(rendered, "minPrice") && !Present(rendered, "maxPrice") ==>
        filters == old(filters).(price := PriceRange(Finite(PriceBounds(products).min), Finite(PriceBounds(products).max)))
      ensures !(result.Fetched? && products != [] && !Present(rendered, "minPrice") && !Present(rendered, "maxPrice")) ==>
        filters == old(filters)
    {
      loading := true;
      if result.Fetched? {
        products := CategoryProducts(result.data, category);
        if products != [] && !Present(rendered, "minPrice") && !Present(rendered, "maxPrice") {
          var b := PriceBounds(products);
          filters := filters.(price := PriceRange(Finite(b.min), Finite(b.max)));
        }
      }
      loading := false;
    }

    /** The effect that writes the selections and the page after they change. */
    method SyncUrl()
      modifies this`url
      ensures url == Cleanup(ApplyAll(rendered, SyncUpdates(filters)))
    {
      url := UpdateUrl(rendered, SyncUpdates(filters));
    }

    method ToggleBrand(brand: string)
      modifies this`filters
      ensures filters == old(filters).(brands := Toggle(old(filters).brands, brand), page := Finite(1))
    {
      filters := filters.(brands := Toggle(filters.brands, brand), page := Finite(1));
    }

    method ToggleBattery(battery: string)
      modifies this`filters
      ensures filters == old(filters).(battery := Toggle(old(filters).battery, battery), page := Finite(1))
    {
      filters := filters.(battery := Toggle(filters.battery, battery), page := Finite(1));
    }

    method ToggleSize(size: string)
      modifies this`filters
      ensures filters == old(filters).(size := Toggle(old(filters).size, size), page := Finite(1))
    {
      filters := filters.(size := Toggle(filters.size, size), page := Finite(1));
    }

    method HandleSortChange(key: string)
      modifies this`filters, this`url
      ensures filters == old(filters).(sort := key)
      ensures url == Cleanup(ApplyAll(rendered, SortUpdates(key)))
    {
      filters := filters.(sort := key);
      url := UpdateUrl(rendered, SortUpdates(key));
    }

    method HandlePriceChange(r: PriceRange)
      modifies this`filters, this`url
      ensures filters == old(filters).(price := r, page := Finite(1))
      ensures url == Cleanup(ApplyAll(rendered, PriceUpdates(r)))
    {
      filters := filters.(price := r);
      url := UpdateUrl(rendered, PriceUpdates(r));
      filters := filters.(page := Finite(1));
    }

    method HandleSearchChange(q: string)
      modifies this`filters, this`url
      ensures filters == old(filters).(search := q, page := Finite(1))
      ensures url == Cleanup(ApplyAll(rendered, SearchUpdates(q)))
    {
      filters := filters.(search := q);
      url := UpdateUrl(rendered, SearchUpdates(q));
      filters := filters.(page := Finite(1));
    }

    method HandlePageChange(p: Num)
      modifies this`filters, this`url
      ensures filters == old(filters).(page := p)
      ensures url == Cleanup(ApplyAll(rendered, [Update("page", Number(p))]))
    {
      filters := filters.(page := p);
      url := UpdateUrl(rendered, [Update("page", Number(p))]);
    }

    /** "Clear all": the cleared state and a bare path. The brand selection
        it leaves is not empty, so the active-filters row stays visible. */
    method ClearAllFilters()
      modifies this`filters, this`url
      ensures filters == ClearedFilters(PriceBounds(products))
      ensures ActiveFiltersShown(filters, PriceBounds(products))
      ensures url == map[]
    {
      filters := ClearedFilters(PriceBounds(products));
      url := map[];
    }

    /** `filteredProducts`: the loaded products that pass the current
        filters, and only those. */
    function VisibleProducts(): (r: seq<Product>)
      reads this
      ensures forall p :: p in r <==>
        p in products && BrandMatch(filters.brands, p.brand) && SpecMatch(filters.battery, p.battery) &&
        SpecMatch(filters.size, p.screenSize) && SearchMatch(filters.search, p) && PriceMatch(filters.price, p.price)
    {
      FilteredIff(products, filters);
      FilteredProducts(products, filters)
    }

    /** `paginatedProducts`, as written: the window of the filtered products
        that the page number selects. For a page of 1 or more it is the
        page of `PageSliceSpec`; a page below 1 is read from the end of the
        list (see `NegativePageShowsProducts`). */
    function PaginatedProducts(): (r: seq<Product>)
      reads this
      ensures r == PageSliceAsWritten(FilteredProducts(products, filters), filters.page)
      ensures filters.page.Finite? && filters.page.value >= 1 ==>
        r == PageSlice(FilteredProducts(products, filters), filters.page)
      ensures |r| <= ProductsPerPage
      ensures forall p :: p in r ==> p in products && Matches(filters, p)
    {
      var all := FilteredProducts(products, filters);
      FilteredIff(products, filters);
      var r := PageSliceAsWritten(all, filters.page);
      PageSliceAsWrittenBound(all, filters.page);
      assert forall p :: p in r ==> p in all;
      r
    }

    /** "Clear all" followed, once the router's `replace` has re-rendered
        the page with the bare path, by the URL effect that the new
        selections trigger. The order is an assumption about the router:
        `ClearAllSyncFromOldQuery` shows the other order. */
    method ClearAllAndSync()
      modifies this`filters, this`url, this`rendered
      ensures filters == ClearedFilters(PriceBounds(products))
      ensures rendered == map[]
      ensures url == map["brands" := "Apple"]
    {
      ClearAllFilters();
      Render();
      SyncUrl();
      ClearAllThenSync(PriceBounds(products));
    }
  }

  /** The page window as written never holds more than a page, whatever
      the page number. */
  lemma PageSliceAsWrittenBound<T>(xs: seq<T>, page: Num)
    ensures |PageSliceAsWritten(xs, page)| <= ProductsPerPage
  {
  }

  /** After "Clear all" and the URL effect it triggers, run from the bare
      path that "Clear all" navigates to, the query string holds
      `brands=Apple` and nothing else. */
  lemma ClearAllThenSync(bounds: Bounds)
    ensures Cleanup(ApplyAll(map[], SyncUpdates(ClearedFilters(bounds)))) == map["brands" := "Apple"]
  {
    var u := SyncUpdates(ClearedFilters(bounds));
    var m := ApplyAll(map[], u);
    var target := map["brands" := "Apple"];
    assert Join(["Apple"], ',') == "Apple";
    forall k ensures Lookup(m, k) == Lookup(target, k) {
      ApplyAllKey(map[], u, k);
      if k in {"brands", "battery", "size", "page"} {
        var i := if k == "brands" then 0 else if k == "battery" then 1 else if k == "size" then 2 else 3;
        LastForAt(u, i);
      } else {
        LastForNone(u, k);
      }
    }
    assert forall k :: k in m <==> k in target by {
      forall k ensures k in m <==> k in target {
        assert Lookup(m, k) == Lookup(target, k);
      }
    }
    assert forall k :: k in m ==> m[k] == target[k] by {
      forall k | k in m ensures m[k] == target[k] {
        assert Lookup(m, k) == Lookup(target, k);
      }
    }
    assert m == target;
    assert Cleanup(target) == target;
  }

  /** When the URL effect runs before the router has re-rendered the page,
      it starts from the query the page was rendered with: the search, the
      sort and the price range of that query come back, next to
      `brands=Apple`, although the page's own state has cleared them. */
  lemma ClearAllSyncFromOldQuery(rendered: Params, bounds: Bounds)
    ensures var u := Cleanup(ApplyAll(rendered, SyncUpdates(ClearedFilters(bounds))));
      Lookup(u, "search") == Lookup(rendered, "search") &&
      Lookup(u, "minPrice") == Lookup(rendered, "minPrice") &&
      Lookup(u, "maxPrice") == Lookup(rendered, "maxPrice") &&
      Lookup(u, "sort") == (if Lookup(rendered, "sort") == Some("rating") then None else Lookup(rendered, "sort")) &&
      Lookup(u, "brands") == Some("Apple")
  {
    var upd := SyncUpdates(ClearedFilters(bounds));
    var m := ApplyAll(rendered, upd);
    LastForNone(upd, "search");
    LastForNone(upd, "minPrice");
    LastForNone(upd, "maxPrice");
    LastForNone(upd, "sort");
    LastForAt(upd, 0);
    ApplyAllKey(rendered, upd, "search");
    ApplyAllKey(rendered, upd, "minPrice");
    ApplyAllKey(rendered, upd, "maxPrice");
    ApplyAllKey(rendered, upd, "sort");
    ApplyAllKey(rendered, upd, "brands");
    assert Join(["Apple"], ',') == "Apple";
    CleanupLookup(m, "search");
    CleanupLookup(m, "minPrice");
    CleanupLookup(m, "maxPrice");
    CleanupLookup(m, "brands");
  }
}
