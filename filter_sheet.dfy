/** The mobile filter sheet of components/features/products/FilterSheet.tsx:
    "Clear all" replays the page's own toggles and handlers; the active mark
    and Apply. */
module FilterSheet {
  import opened Types
  import opened Seqs
  import opened JsNumber
  import opened ProductsPage

  /** `values.forEach(v => toggle(v))` with a functional state update: each
      toggle sees the selection the previous one left. */
  function ToggleAll(sel: seq<string>, values: seq<string>): seq<string>
    decreases |values|
  {
    if values == [] then sel else ToggleAll(Toggle(sel, values[0]), values[1..])
  }

  /** Toggling the first value of a duplicate-free selection drops it. */
  lemma ToggleHead(sel: seq<string>)
    requires sel != [] && NoDup(sel)
    ensures Toggle(sel, sel[0]) == sel[1..]
    ensures NoDup(sel[1..])
  {
    var f := (b: string) => b != sel[0];
    assert sel == [sel[0]] + sel[1..];
    assert Filter(sel, f) == Filter(sel[1..], f);
    forall k | 0 <= k < |sel[1..]| ensures f(sel[1..][k]) {
      assert sel[1..][k] == sel[k + 1];
    }
    FilterAll(sel[1..], f);
  }

  /** Toggling every value of a duplicate-free selection empties it. */
  lemma {:induction false} ToggleAllClears(sel: seq<string>)
    requires NoDup(sel)
    ensures ToggleAll(sel, sel) == []
    decreases |sel|
  {
    if sel != [] {
      ToggleHead(sel);
      ToggleAllClears(sel[1..]);
    }
  }

  /** A repeated value survives: `["Apple", "Apple"]`, as the query string
      `brands=Apple,Apple` decodes, clears to `["Apple"]`. */
  lemma RepeatedValueSurvives()
    ensures ToggleAll(["Apple", "Apple"], ["Apple", "Apple"]) == ["Apple"]
  {
    var s := ["Apple", "Apple"];
    var f := (b: string) => b != "Apple";
    assert Filter(s, f) == [] by {
      assert s[1..] == ["Apple"];
      assert ["Apple"][1..] == [];
    }
    assert Toggle(s, "Apple") == [];
    assert Toggle([], "Apple") == ["Apple"];
    assert ToggleAll(["Apple"], ["Apple"][1..]) == ["Apple"];
  }

  /** `hasActiveFilters`. */
  predicate HasActiveFilters(brands: seq<string>, battery: seq<string>, size: seq<string>,
                             search: string, price: PriceRange, bounds: Bounds)
  {
    |brands| > 0 || |battery| > 0 || |size| > 0 || |search| > 0 ||
    price.lo != Finite(bounds.min) || price.hi != Finite(bounds.max)
  }

  /** The sheet's "Clear all" against the page it belongs to. The three
      `forEach` loops toggle the selections as they were rendered; then the
      search and the price are reset through the page's handlers. Both
      handlers start their `updateURL` from the same rendered query string,
      so the query the router ends with is the price handler's alone. */
  method ClearAllFilters(page: QueryPage)
    modifies page`filters, page`url
    ensures page.filters == old(page.filters).(
      brands := ToggleAll(old(page.filters.brands), old(page.filters.brands)),
      battery := ToggleAll(old(page.filters.battery), old(page.filters.battery)),
      size := ToggleAll(old(page.filters.size), old(page.filters.size)),
      search := "",
      price := PriceRange(Finite(PriceBounds(page.products).min), Finite(PriceBounds(page.products).max)),
      page := Finite(1))
    ensures page.url == Cleanup(ApplyAll(page.rendered,
      PriceUpdates(PriceRange(Finite(PriceBounds(page.products).min), Finite(PriceBounds(page.products).max)))))
  {
    var brands, battery, size := page.filters.brands, page.filters.battery, page.filters.size;
    var bounds := PriceBounds(page.products);
    ToggleBrands(page, brands);
    ToggleBatteries(page, battery);
    ToggleSizes(page, size);
    page.HandleSearchChange("");
    page.HandlePriceChange(PriceRange(Finite(bounds.min), Finite(bounds.max)));
  }

  /** `selectedBrands.forEach(brand => toggleBrand(brand))`. */
  method ToggleBrands(page: QueryPage, values: seq<string>)
    modifies page`filters
    ensures page.filters.brands == ToggleAll(old(page.filters.brands), values)
    ensures page.filters == old(page.filters).(brands := page.filters.brands, page := page.filters.page)
  {
    ghost var start := page.filters.brands;
    var i := 0;
    while i < |values|
      invariant 0 <= i <= |values|
      invariant page.filters.brands == ToggleAll(start, values[..i])
      invariant page.filters == old(page.filters).(brands := page.filters.brands, page := page.filters.page)
    {
      ToggleAllSnoc(start, values[..i], values[i]);
      assert values[..i + 1] == values[..i] + [values[i]];
      page.ToggleBrand(values[i]);
      i := i + 1;
    }
    assert values[..|values|] == values;
  }

  /** `selectedBattery.forEach(battery => toggleBattery(battery))`. */
  method ToggleBatteries(page: QueryPage, values: seq<string>)
    modifies page`filters
    ensures page.filters.battery == ToggleAll(old(page.filters.battery), values)
    ensures page.filters == old(page.filters).(battery := page.filters.battery, page := page.filters.page)
  {
    ghost var start := page.filters.battery;
    var i := 0;
    while i < |values|
      invariant 0 <= i <= |values|
      invariant page.filters.battery == ToggleAll(start, values[..i])
      invariant page.filters == old(page.filters).(battery := page.filters.battery, page := page.filters.page)
    {
      ToggleAllSnoc(start, values[..i], values[i]);
      assert values[..i + 1] == values[..i] + [values[i]];
      page.ToggleBattery(values[i]);
      i := i + 1;
    }
    assert values[..|values|] == values;
  }

  /** `selectedSize.forEach(size => toggleSize(size))`. */
  method ToggleSizes(page: QueryPage, values: seq<string>)
    modifies page`filters
    ensures page.filters.size == ToggleAll(old(page.filters.size), values)
    ensures page.filters == old(page.filters).(size := page.filters.size, page := page.filters.page)
  {
    ghost var start := page.filters.size;
    var i := 0;
    while i < |values|
      invariant 0 <= i <= |values|
      invariant page.filters.size == ToggleAll(start, values[..i])
      invariant page.filters == old(page.filters).(size := page.filters.size, page := page.filters.page)
    {
      ToggleAllSnoc(start, values[..i], values[i]);
      assert values[..i + 1] == values[..i] + [values[i]];
      page.ToggleSize(values[i]);
      i := i + 1;
    }
    assert values[..|values|] == values;
  }

  lemma {:induction false} ToggleAllSnoc(sel: seq<string>, values: seq<string>, v: string)
    ensures ToggleAll(sel, values + [v]) == Toggle(ToggleAll(sel, values), v)
    decreases |values|
  {
    if values == [] {
      assert [] + [v] == [v];
      assert ToggleAll(Toggle(sel, v), []) == Toggle(sel, v);
    } else {
      assert (values + [v])[0] == values[0] && (values + [v])[1..] == values[1..] + [v];
      ToggleAllSnoc(Toggle(sel, values[0]), values[1..], v);
    }
  }

  /** After "Clear all" on duplicate-free selections nothing is active any
      more. */
  lemma ClearedIsInactive(f: Filters, bounds: Bounds)
    requires NoDup(f.brands) && NoDup(f.battery) && NoDup(f.size)
    ensures !HasActiveFilters(ToggleAll(f.brands, f.brands), ToggleAll(f.battery, f.battery),
      ToggleAll(f.size, f.size), "", PriceRange(Finite(bounds.min), Finite(bounds.max)), bounds)
  {
    ToggleAllClears(f.brands);
    ToggleAllClears(f.battery);
    ToggleAllClears(f.size);
  }

  /** The query string "Clear all" leaves: the price handler's update of the
      rendered query, in which a search term survives. */
  function SheetClearUrl(rendered: Params, bounds: Bounds): Params
  {
    Cleanup(ApplyAll(rendered, PriceUpdates(PriceRange(Finite(bounds.min), Finite(bounds.max)))))
  }

  /** The search term of the rendered query is still in the query after
      "Clear all", although the search box is empty. */
  lemma SearchSurvivesClear(rendered: Params, bounds: Bounds)
    ensures Lookup(SheetClearUrl(rendered, bounds), "search") == Lookup(rendered, "search")
  {
    var u := PriceUpdates(PriceRange(Finite(bounds.min), Finite(bounds.max)));
    LastForNone(u, "search");
    ApplyAllKey(rendered, u, "search");
    CleanupLookup(ApplyAll(rendered, u), "search");
  }

  /** The query as evidently intended: the search and price entries applied
      together in one update. */
  function SheetClearUrlIntended(rendered: Params, bounds: Bounds): Params
  {
    Cleanup(ApplyAll(rendered, SearchUpdates("") + PriceUpdates(PriceRange(Finite(bounds.min), Finite(bounds.max)))))
  }

  /** With both entries applied together, no search term is left and the
      price is the bounds. */
  lemma IntendedClearDropsSearch(rendered: Params, bounds: Bounds)
    ensures Lookup(SheetClearUrlIntended(rendered, bounds), "search") == None
    ensures Lookup(SheetClearUrlIntended(rendered, bounds), "minPrice") == Some(NumToString(Finite(bounds.min)))
    ensures Lookup(SheetClearUrlIntended(rendered, bounds), "maxPrice") == Some(NumToString(Finite(bounds.max)))
    ensures Lookup(SheetClearUrlIntended(rendered, bounds), "page") == None
  {
    var lo, hi := Finite(bounds.min), Finite(bounds.max);
    var u := [Update("search", Str("")), Update("page", Number(Finite(1))),
              Update("minPrice", Number(lo)), Update("maxPrice", Number(hi)), Update("page", Number(Finite(1)))];
    assert SearchUpdates("") + PriceUpdates(PriceRange(lo, hi)) == u;
    var m := ApplyAll(rendered, u);
    SearchCleared(rendered, u);
    PriceSet(rendered, u, 2);
    PriceSet(rendered, u, 3);
    LastForAt(u, 4);
    ApplyAllKey(rendered, u, "page");
    ParseIntToString(1);
    CleanupLookup(m, "page");
  }

  lemma SearchCleared(rendered: Params, u: seq<Update>)
    requires |u| == 5 && u[0] == Update("search", Str("")) && forall j :: 0 < j < 5 ==> u[j].key != "search"
    ensures Lookup(Cleanup(ApplyAll(rendered, u)), "search") == None
  {
    LastForAt(u, 0);
    ApplyAllKey(rendered, u, "search");
    CleanupLookup(ApplyAll(rendered, u), "search");
  }

  lemma PriceSet(rendered: Params, u: seq<Update>, i: nat)
    requires i < |u| && u[i].key != "sort" && u[i].key != "page" && u[i].value.Number?
    requires forall j :: i < j < |u| ==> u[j].key != u[i].key
    ensures Lookup(Cleanup(ApplyAll(rendered, u)), u[i].key) == Some(NumToString(u[i].value.n))
  {
    LastForAt(u, i);
    ApplyAllKey(rendered, u, u[i].key);
    CleanupLookup(ApplyAll(rendered, u), u[i].key);
  }

  /** Apply closes the sheet and nothing else. */
  class Sheet {
    var open: bool

    constructor ()
      ensures !open
    {
      open := false;
    }

    method HandleApply()
      modifies this
      ensures !open
    {
      open := false;
    }
  }
}
