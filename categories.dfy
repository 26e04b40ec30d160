/** The category strip of components/features/home/Categories.tsx: the
    entries of the catalogue's category list that some product belongs to,
    and the chevrons that scroll the strip. DOM positions are whole pixels
    here. */
module Categories {
  import opened Types
  import opened Seqs
  import opened Catalog

  const ScrollAmount := 300

  /** `uniqueCategories.includes(title)`: some product has that category
      (compared case-sensitively). */
  predicate Offered(products: seq<Product>, title: string)
  {
    exists k :: 0 <= k < |products| && products[k].category == title
  }

  /** The list names each category once. */
  lemma CategoriesDataNoDup()
    ensures NoDup(CategoriesData)
  {
    forall i, j | 0 <= i < j < |CategoriesData| ensures CategoriesData[i] != CategoriesData[j] {
      assert CategoriesData[i].title != CategoriesData[j].title;
    }
  }

  /** `categories`: `categoriesData` filtered to the titles of the products'
      categories. Entries keep the list's order, none is repeated, and an
      entry is there exactly when some product is in its category. */
  function CategoriesOf(products: seq<Product>): (r: seq<CategoryEntry>)
    ensures forall c :: c in r <==> c in CategoriesData && Offered(products, c.title)
    ensures NoDup(r)
  {
    FilterMembers(CategoriesData, (c: CategoryEntry) => Offered(products, c.title));
    CategoriesDataNoDup();
    FilterNoDup(CategoriesData, (c: CategoryEntry) => Offered(products, c.title));
    Filter(CategoriesData, (c: CategoryEntry) => Offered(products, c.title))
  }

  /** Adding products never removes a category. */
  lemma MoreProductsMoreCategories(a: seq<Product>, b: seq<Product>)
    ensures forall c :: c in CategoriesOf(a) ==> c in CategoriesOf(a + b)
  {
    forall c | c in CategoriesOf(a) ensures c in CategoriesOf(a + b) {
      var k :| 0 <= k < |a| && a[k].category == c.title;
      assert (a + b)[k].category == c.title;
    }
  }

  /** `categories.length === 0`: the "No categories available" view, shown
      exactly when no product's category is one of the listed titles. */
  predicate ShowsEmptyView(products: seq<Product>)
  {
    |CategoriesOf(products)| == 0
  }

  lemma EmptyViewIff(products: seq<Product>)
    ensures ShowsEmptyView(products) <==>
      forall c :: c in CategoriesData ==> !Offered(products, c.title)
  {
    var r := CategoriesOf(products);
    if r != [] {
      assert r[0] in r;
    }
  }

  datatype Direction = Left | Right

  /** `scroll(direction)`: where the strip is asked to scroll to. */
  function ScrollTarget(scrollLeft: int, direction: Direction): (t: int)
    ensures direction == Left ==> t == scrollLeft - ScrollAmount
    ensures direction == Right ==> t == scrollLeft + ScrollAmount
  {
    match direction
    case Left => scrollLeft - ScrollAmount
    case Right => scrollLeft + ScrollAmount
  }

  /** `container.scrollLeft > 0`. */
  predicate LeftChevron(scrollLeft: int)
  {
    scrollLeft > 0
  }

  /** `scrollLeft < scrollWidth - clientWidth - 10`. */
  predicate RightChevron(scrollLeft: int, scrollWidth: int, clientWidth: int)
  {
    scrollLeft < scrollWidth - clientWidth - 10
  }

  /** Where `scrollTo({ left: target })` leaves the strip: the browser
      keeps the position between 0 and `scrollWidth - clientWidth` (0 when
      the strip fits its box). The smooth animation is not modelled; only
      where it ends. */
  function Settle(target: int, scrollWidth: int, clientWidth: int): (s: int)
    ensures 0 <= s
    ensures s <= scrollWidth - clientWidth || s == 0
    ensures 0 <= target <= scrollWidth - clientWidth ==> s == target
  {
    var max := if scrollWidth - clientWidth < 0 then 0 else scrollWidth - clientWidth;
    if target < 0 then 0 else if target > max then max else target
  }

  /** A position the strip can be at. */
  predicate Reachable(scrollLeft: int, scrollWidth: int, clientWidth: int)
  {
    0 <= scrollLeft && (scrollLeft <= scrollWidth - clientWidth || scrollLeft == 0)
  }

  /** Pressing a chevron: the position after the scroll has settled. */
  function Press(scrollLeft: int, direction: Direction, scrollWidth: int, clientWidth: int): int
  {
    Settle(ScrollTarget(scrollLeft, direction), scrollWidth, clientWidth)
  }

  /** The right chevron leads somewhere the left one shows, and the left
      chevron, on a strip that overflows by more than 10 pixels, leads
      somewhere the right one shows: each chevron brings up the other. */
  lemma ChevronsLeadBack(scrollLeft: int, scrollWidth: int, clientWidth: int)
    requires Reachable(scrollLeft, scrollWidth, clientWidth)
    ensures RightChevron(scrollLeft, scrollWidth, clientWidth) ==>
      LeftChevron(Press(scrollLeft, Right, scrollWidth, clientWidth))
    ensures scrollWidth - clientWidth > 10 ==>
      RightChevron(Press(scrollLeft, Left, scrollWidth, clientWidth), scrollWidth, clientWidth)
  {
  }

  /** The position after `n` presses of the same chevron. */
  function PressTimes(scrollLeft: int, direction: Direction, n: nat, scrollWidth: int, clientWidth: int): int
    decreases n
  {
    if n == 0 then scrollLeft
    else PressTimes(Press(scrollLeft, direction, scrollWidth, clientWidth), direction, n - 1, scrollWidth, clientWidth)
  }

  /** Enough presses of the right chevron reach the end of the strip, where
      the right chevron is hidden: one press per 300 pixels still to go. */
  lemma {:induction false} RightPressesReachEnd(scrollLeft: int, n: nat, scrollWidth: int, clientWidth: int)
    requires 0 <= scrollLeft <= scrollWidth - clientWidth
    requires n * ScrollAmount >= scrollWidth - clientWidth - scrollLeft
    ensures PressTimes(scrollLeft, Right, n, scrollWidth, clientWidth) == scrollWidth - clientWidth
    ensures !RightChevron(PressTimes(scrollLeft, Right, n, scrollWidth, clientWidth), scrollWidth, clientWidth)
    decreases n
  {
    if n > 0 {
      var next := Press(scrollLeft, Right, scrollWidth, clientWidth);
      RightPressesReachEnd(next, n - 1, scrollWidth, clientWidth);
    }
  }

  /** Enough presses of the left chevron bring the strip back to its start,
      where the left chevron is hidden. */
  lemma {:induction false} LeftPressesReachStart(scrollLeft: int, n: nat, scrollWidth: int, clientWidth: int)
    requires Reachable(scrollLeft, scrollWidth, clientWidth)
    requires n * ScrollAmount >= scrollLeft
    ensures PressTimes(scrollLeft, Left, n, scrollWidth, clientWidth) == 0
    ensures !LeftChevron(PressTimes(scrollLeft, Left, n, scrollWidth, clientWidth))
    decreases n
  {
    if n > 0 {
      var next := Press(scrollLeft, Left, scrollWidth, clientWidth);
      LeftPressesReachStart(next, n - 1, scrollWidth, clientWidth);
    }
  }

  /** The chevrons' state, set by `handleScroll` on mount, on every scroll
      and on every resize. */
  class Strip {
    var scrollLeft: int
    var showLeftChevron: bool
    var showRightChevron: bool

    constructor ()
      ensures scrollLeft == 0 && !showLeftChevron && !showRightChevron
    {
      scrollLeft := 0;
      showLeftChevron := false;
      showRightChevron := false;
    }

    /** `scroll(direction)` followed by the `scroll` event it fires once
        the strip has settled. */
    method Scroll(direction: Direction, scrollWidth: int, clientWidth: int)
      modifies this
      ensures scrollLeft == Press(old(scrollLeft), direction, scrollWidth, clientWidth)
      ensures showLeftChevron == LeftChevron(scrollLeft)
      ensures showRightChevron == RightChevron(scrollLeft, scrollWidth, clientWidth)
    {
      scrollLeft := Settle(ScrollTarget(scrollLeft, direction), scrollWidth, clientWidth);
      HandleScroll(scrollWidth, clientWidth);
    }

    /** `handleScroll`. */
    method HandleScroll(scrollWidth: int, clientWidth: int)
      modifies this`showLeftChevron, this`showRightChevron
      ensures showLeftChevron == LeftChevron(scrollLeft)
      ensures showRightChevron == RightChevron(scrollLeft, scrollWidth, clientWidth)
    {
      showLeftChevron := scrollLeft > 0;
      showRightChevron := scrollLeft < scrollWidth - clientWidth - 10;
    }
  }
}
