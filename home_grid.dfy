/** The tabbed product grid of components/features/home/HomeGrid.tsx: the
    products whose `value`, lower-cased, names the selected tab, at most
    eight of them, with an empty state when none match. */
module HomeGrid {
  import opened Types
  import opened Strings
  import opened Seqs

  datatype Tab = New | Bestseller | Featured

  const MaxShown := 8

  function TabName(t: Tab): string
  {
    match t
    case New => "new"
    case Bestseller => "bestseller"
    case Featured => "featured"
  }

  /** `product.value?.toLowerCase() === selectedTab`. */
  predicate OnTab(tab: Tab, p: Product)
  {
    p.value.Some? && Lower(p.value.value) == TabName(tab)
  }

  /** `filteredProducts`. */
  function Filtered(products: seq<Product>, tab: Tab): (r: seq<Product>)
    ensures forall p :: p in r <==> p in products && OnTab(tab, p)
  {
    FilterMembers(products, p => OnTab(tab, p));
    Filter(products, p => OnTab(tab, p))
  }

  /** Filtering keeps the catalogue's order: the products of a longer list
      come after those of its first part. */
  lemma FilteredKeepsOrder(a: seq<Product>, b: seq<Product>, tab: Tab)
    ensures Filtered(a + b, tab) == Filtered(a, tab) + Filtered(b, tab)
  {
    FilterAppend(a, b, p => OnTab(tab, p));
  }

  /** `filteredProducts.slice(0, 8)`: the first eight, or all when fewer. */
  function Shown(products: seq<Product>, tab: Tab): (r: seq<Product>)
    ensures |r| <= MaxShown
    ensures r <= Filtered(products, tab)
    ensures |Filtered(products, tab)| <= MaxShown ==> r == Filtered(products, tab)
  {
    var f := Filtered(products, tab);
    if |f| <= MaxShown then f else f[..MaxShown]
  }

  /** Every shown product's lower-cased `value` is the tab's name, so a
      product without a `value` never shows. */
  lemma ShownAreOnTab(products: seq<Product>, tab: Tab)
    ensures forall k :: 0 <= k < |Shown(products, tab)| ==>
      Shown(products, tab)[k] in products &&
      Shown(products, tab)[k].value.Some? && Lower(Shown(products, tab)[k].value.value) == TabName(tab)
  {
    var r := Shown(products, tab);
    forall k | 0 <= k < |r| ensures r[k] in Filtered(products, tab) {
      assert r[k] == Filtered(products, tab)[k];
    }
  }

  /** What the section shows. */
  datatype View = Spinner | ErrorView(message: string) | Grid(shown: seq<Product>, emptyState: bool)

  /** The section's state. */
  class Section {
    var products: seq<Product>
    var loading: bool
    var error: Option<string>
    var selectedTab: Tab

    /** The first render: no products, loading, the 'new' tab. */
    constructor ()
      ensures products == [] && loading && error == None && selectedTab == New
    {
      products := [];
      loading := true;
      error := None;
      selectedTab := New;
    }

    /** The load effect, with the fetch as a parameter: the products on
        success, the message on failure, and loading ends either way. */
    method Load(result: Fetch)
      modifies this`products, this`loading, this`error
      ensures !loading
      ensures result.Fetched? ==> products == result.data && error == old(error)
      ensures result.FetchFailed? ==> products == old(products) && error == Some(result.message)
    {
      loading := true;
      if result.Fetched? {
        products := result.data;
      } else {
        error := Some(result.message);
      }
      loading := false;
    }

    method SelectTab(tab: Tab)
      modifies this`selectedTab
      ensures selectedTab == tab
    {
      selectedTab := tab;
    }

    /** `if (error)`: a message that is there and not empty. */
    predicate HasError()
      reads this
    {
      error.Some? && error.value != ""
    }

    /** The render: the spinner while loading, then the error when its
        message is truthy, then the grid with the empty state exactly when
        nothing is on the tab. */
    function Render(): (v: View)
      reads this
      ensures loading ==> v == Spinner
      ensures !loading && HasError() ==> v == ErrorView(error.value)
      ensures !loading && !HasError() ==> v.Grid?
      ensures v.Grid? ==> !loading && !HasError() && v.shown == Shown(products, selectedTab)
      ensures v.Grid? ==> (v.emptyState <==> forall p :: p in products ==> !OnTab(selectedTab, p))
    {
      if loading then Spinner
      else if HasError() then ErrorView(error.value)
      else
        var f := Filtered(products, selectedTab);
        assert f != [] ==> f[0] in f;
        Grid(Shown(products, selectedTab), |f| == 0)
    }
  }
}
