/** The facet checkboxes of components/features/products/FilterSidebar.tsx:
    per-brand product counts and one checkbox row per available value. */
module FilterSidebar {
  import opened Types
  import opened Seqs
  import opened ProductsPage

  /** `brandCounts`: a `forEach` over the products that adds one to the
      entry of each product's brand. */
  method BrandCounts(products: seq<Product>) returns (counts: map<string, nat>)
    ensures Tally(counts, Brands(products))
  {
    ghost var brands := Brands(products);
    counts := map[];
    var i := 0;
    while i < |products|
      invariant 0 <= i <= |products|
      invariant Tally(counts, brands[..i])
    {
      var brand := products[i].brand;
      TallyStep(counts, brands, i);
      counts := counts[brand := (if brand in counts then counts[brand] else 0) + 1];
      i := i + 1;
    }
    assert brands[..|products|] == brands;
  }

  /** `counts` holds, for every value of `xs` and no other key, how often it
      occurs. */
  ghost predicate Tally(counts: map<string, nat>, xs: seq<string>)
  {
    (forall b :: b in counts <==> b in xs) &&
    (forall b :: b in counts ==> counts[b] == CountOf(xs, b))
  }

  lemma CountOfSnoc(xs: seq<string>, x: string)
    ensures forall b :: CountOf(xs + [x], b) == CountOf(xs, b) + (if b == x then 1 else 0)
  {
    forall b ensures CountOf(xs + [x], b) == CountOf(xs, b) + (if b == x then 1 else 0) {
      CountOfAppend(xs, [x], b);
      assert [x][1..] == [];
    }
  }

  /** One more value adds one to its entry, which starts from 0. */
  lemma TallyStep(counts: map<string, nat>, ys: seq<string>, i: nat)
    requires i < |ys| && Tally(counts, ys[..i])
    ensures Tally(counts[ys[i] := (if ys[i] in counts then counts[ys[i]] else 0) + 1], ys[..i + 1])
  {
    assert ys[..i + 1] == ys[..i] + [ys[i]];
    TallyAppend(counts, ys[..i], ys[i]);
  }

  lemma TallyAppend(counts: map<string, nat>, xs: seq<string>, x: string)
    requires Tally(counts, xs)
    ensures Tally(counts[x := (if x in counts then counts[x] else 0) + 1], xs + [x])
  {
    CountOfSnoc(xs, x);
    if x !in counts {
      CountOfZero(xs, x);
    }
    var c := counts[x := (if x in counts then counts[x] else 0) + 1];
    forall b ensures b in c <==> b in xs + [x] {
      assert b in xs + [x] <==> b in xs || b == x;
    }
  }

  /** `brandCounts[brand] || 0`: a brand with no products shows 0. */
  function DisplayCount(counts: map<string, nat>, brand: string): (n: nat)
    ensures brand !in counts ==> n == 0
  {
    if brand in counts then counts[brand] else 0
  }

  /** The counts of the given brands, added up. */
  function SumCounts(keys: seq<string>, brands: seq<string>): nat
  {
    if keys == [] then 0 else CountOf(brands, keys[0]) + SumCounts(keys[1..], brands)
  }

  lemma {:induction false} SumCountsStep(keys: seq<string>, brands: seq<string>)
    requires brands != []
    ensures SumCounts(keys, brands) == CountOf(keys, brands[0]) + SumCounts(keys, brands[1..])
  {
    if keys != [] {
      SumCountsStep(keys[1..], brands);
      assert brands == [brands[0]] + brands[1..];
      CountOfAppend([brands[0]], brands[1..], keys[0]);
      assert CountOf([brands[0]], keys[0]) == (if brands[0] == keys[0] then 1 else 0) by {
        assert [brands[0]][1..] == [];
      }
    }
  }

  lemma {:induction false} CountOfDistinct(keys: seq<string>, v: string)
    requires NoDup(keys) && v in keys
    ensures CountOf(keys, v) == 1
  {
    if keys[0] == v {
      assert v !in keys[1..] by {
        forall k | 0 <= k < |keys[1..]| ensures keys[1..][k] != v {
          assert keys[1..][k] == keys[k + 1];
        }
      }
      CountOfZero(keys[1..], v);
    } else {
      assert keys == [keys[0]] + keys[1..];
      assert NoDup(keys[1..]) by {
        forall i, j | 0 <= i < j < |keys[1..]| ensures keys[1..][i] != keys[1..][j] {
          assert keys[1..][i] == keys[i + 1] && keys[1..][j] == keys[j + 1];
        }
      }
      CountOfDistinct(keys[1..], v);
    }
  }

  /** Counted over any duplicate-free list naming every brand present, the
      counts add up to the number of products. */
  lemma {:induction false} CountsSumToTotal(keys: seq<string>, brands: seq<string>)
    requires NoDup(keys)
    requires forall b :: b in brands ==> b in keys
    ensures SumCounts(keys, brands) == |brands|
  {
    if brands == [] {
      SumCountsEmpty(keys);
    } else {
      SumCountsStep(keys, brands);
      assert brands[0] in brands;
      CountOfDistinct(keys, brands[0]);
      assert forall b :: b in brands[1..] ==> b in brands;
      CountsSumToTotal(keys, brands[1..]);
    }
  }

  lemma {:induction false} SumCountsEmpty(keys: seq<string>)
    ensures SumCounts(keys, []) == 0
  {
    if keys != [] {
      SumCountsEmpty(keys[1..]);
    }
  }

  /** The shown counts of the given brands, added up. */
  function SumShown(counts: map<string, nat>, keys: seq<string>): nat
  {
    if keys == [] then 0 else DisplayCount(counts, keys[0]) + SumShown(counts, keys[1..])
  }

  /** With the counts `BrandCounts` returns, the shown counts of a
      duplicate-free list naming every brand present add up to the number
      of products, and each shown count is the number of that brand's
      products, 0 included. */
  lemma {:induction false} ShownCountsAddUp(products: seq<Product>, counts: map<string, nat>, keys: seq<string>)
    requires Tally(counts, Brands(products))
    requires NoDup(keys) && forall b :: b in Brands(products) ==> b in keys
    ensures forall b :: DisplayCount(counts, b) == CountOf(Brands(products), b)
    ensures SumShown(counts, keys) == |products|
  {
    forall b ensures DisplayCount(counts, b) == CountOf(Brands(products), b) {
      CountOfZero(Brands(products), b);
    }
    ShownIsCounted(products, counts, keys);
    CountsSumToTotal(keys, Brands(products));
  }

  lemma {:induction false} ShownIsCounted(products: seq<Product>, counts: map<string, nat>, keys: seq<string>)
    requires forall b :: DisplayCount(counts, b) == CountOf(Brands(products), b)
    ensures SumShown(counts, keys) == SumCounts(keys, Brands(products))
  {
    if keys != [] {
      ShownIsCounted(products, counts, keys[1..]);
    }
  }

  /** One checkbox row: the value it toggles, whether it is checked, and the
      count shown beside it (brands only). */
  datatype Row = Row(value: string, checked: bool, count: nat)

  /** The rows of a facet: one per available value, in order, checked iff
      the value is selected. */
  function Rows(available: seq<string>, selected: seq<string>, counts: map<string, nat>): (r: seq<Row>)
    ensures |r| == |available|
    ensures forall i :: 0 <= i < |r| ==> r[i].value == available[i]
    ensures forall i :: 0 <= i < |r| ==> (r[i].checked <==> available[i] in selected)
    ensures forall i :: 0 <= i < |r| ==> r[i].count == DisplayCount(counts, available[i])
  {
    if available == [] then []
    else [Row(available[0], available[0] in selected, DisplayCount(counts, available[0]))] + Rows(available[1..], selected, counts)
  }

  /** Changing a row toggles its own value and resets the page; the row is
      checked afterwards exactly when it was not before. */
  method ChangeBrandRow(page: QueryPage, row: Row)
    modifies page`filters
    ensures page.filters == old(page.filters).(brands := Toggle(old(page.filters).brands, row.value), page := JsNumber.Finite(1))
    ensures (row.value in page.filters.brands) == (row.value !in old(page.filters.brands))
  {
    page.ToggleBrand(row.value);
    ToggleMembers(old(page.filters.brands), row.value);
  }

  method ChangeBatteryRow(page: QueryPage, row: Row)
    modifies page`filters
    ensures page.filters == old(page.filters).(battery := Toggle(old(page.filters).battery, row.value), page := JsNumber.Finite(1))
    ensures (row.value in page.filters.battery) == (row.value !in old(page.filters.battery))
  {
    page.ToggleBattery(row.value);
    ToggleMembers(old(page.filters.battery), row.value);
  }

  method ChangeSizeRow(page: QueryPage, row: Row)
    modifies page`filters
    ensures page.filters == old(page.filters).(size := Toggle(old(page.filters).size, row.value), page := JsNumber.Finite(1))
    ensures (row.value in page.filters.size) == (row.value !in old(page.filters.size))
  {
    page.ToggleSize(row.value);
    ToggleMembers(old(page.filters.size), row.value);
  }
}
