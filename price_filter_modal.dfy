/** The price editor of components/features/products/PriceFilterModal.tsx:
    a working copy `tempRange` of the applied range, edited through two text
    fields and two sliders, and handed back on Apply. */
module PriceFilterModal {
  import opened JsNumber
  import opened ProductsPage

  /** Both ends are numbers and the low end is not above the high end. */
  predicate Ordered(r: PriceRange)
  {
    Le(r.lo, r.hi)
  }

  /** `parseInt(value) || fallback`: a text field that is empty, not a
      number or 0 yields the fallback. */
  function FieldValue(value: string, fallback: int): (n: int)
    ensures ParseInt(value).NaN? ==> n == fallback
    ensures ParseInt(value) == Finite(0) ==> n == fallback
    ensures ParseInt(value).Finite? && ParseInt(value).value != 0 ==> n == ParseInt(value).value
  {
    OrElse(ParseInt(value), fallback)
  }

  /** `[Math.min(n, r[1]), r[1]]`: the new low end, capped by the high end. */
  function WithMin(r: PriceRange, n: Num): (s: PriceRange)
    ensures s.hi == r.hi
    ensures r.hi.Finite? && n.Finite? ==> Ordered(s) && s.lo.value <= n.value
    ensures r.hi.Finite? && n.Finite? && n.value <= r.hi.value ==> s.lo == n
    ensures r.hi.Finite? && n.Finite? && n.value > r.hi.value ==> s.lo == r.hi
    ensures r.hi.NaN? || n.NaN? ==> s.lo.NaN?
  {
    PriceRange(Min(n, r.hi), r.hi)
  }

  /** `[r[0], Math.max(n, r[0])]`: the new high end, raised to the low end. */
  function WithMax(r: PriceRange, n: Num): (s: PriceRange)
    ensures s.lo == r.lo
    ensures r.lo.Finite? && n.Finite? ==> Ordered(s) && s.hi.value >= n.value
    ensures r.lo.Finite? && n.Finite? && n.value >= r.lo.value ==> s.hi == n
    ensures r.lo.Finite? && n.Finite? && n.value < r.lo.value ==> s.hi == r.lo
    ensures r.lo.NaN? || n.NaN? ==> s.hi.NaN?
  {
    PriceRange(r.lo, Max(n, r.lo))
  }

  /** One edit of the working range. A slider always reports a number, so
      its value is an integer here. */
  datatype Change = MinText(text: string) | MaxText(text: string) | Slider(value: int, isMax: bool)

  /** The range after one edit. */
  function Edited(r: PriceRange, c: Change, bounds: Bounds): (s: PriceRange)
    ensures c.MinText? || (c.Slider? && !c.isMax) ==> s.hi == r.hi
    ensures c.MaxText? || (c.Slider? && c.isMax) ==> s.lo == r.lo
  {
    match c
    case MinText(text) => WithMin(r, Finite(FieldValue(text, bounds.min)))
    case MaxText(text) => WithMax(r, Finite(FieldValue(text, bounds.max)))
    case Slider(v, isMax) => if isMax then WithMax(r, Finite(v)) else WithMin(r, Finite(v))
  }

  /** The range after a run of edits, first to last. */
  function EditedAll(r: PriceRange, cs: seq<Change>, bounds: Bounds): PriceRange
    decreases |cs|
  {
    if cs == [] then r else EditedAll(Edited(r, cs[0], bounds), cs[1..], bounds)
  }

  /** Whatever is typed or dragged, a range whose ends are numbers is ordered
      after any non-empty run of edits, and its ends stay numbers. */
  lemma {:induction false} EditsKeepOrder(r: PriceRange, cs: seq<Change>, bounds: Bounds)
    requires r.lo.Finite? && r.hi.Finite?
    ensures EditedAll(r, cs, bounds).lo.Finite? && EditedAll(r, cs, bounds).hi.Finite?
    ensures cs != [] ==> Ordered(EditedAll(r, cs, bounds))
    decreases |cs|
  {
    if cs != [] {
      var s := Edited(r, cs[0], bounds);
      assert Ordered(s) && s.lo.Finite? && s.hi.Finite?;
      EditsKeepOrder(s, cs[1..], bounds);
      if cs[1..] == [] {
        assert EditedAll(s, cs[1..], bounds) == s;
      }
    }
  }

  /** A NaN end, as a malformed `minPrice` or `maxPrice` in the query gives,
      spreads: whichever end is edited becomes NaN as well. */
  lemma NaNSpreads(r: PriceRange, c: Change, bounds: Bounds)
    requires r.lo.NaN? && r.hi.NaN?
    ensures Edited(r, c, bounds).lo.NaN? && Edited(r, c, bounds).hi.NaN?
  {
  }

  /** The component's state. `tempRange` is seeded from the applied range
      once, when the component mounts. */
  class PriceEditor {
    var isOpen: bool
    var tempRange: PriceRange

    constructor (priceRange: PriceRange)
      ensures !isOpen && tempRange == priceRange
    {
      isOpen := false;
      tempRange := priceRange;
    }

    /** The header button. */
    method ToggleOpen()
      modifies this`isOpen
      ensures isOpen == !old(isOpen)
    {
      isOpen := !isOpen;
    }

    method HandleMinChange(value: string, bounds: Bounds)
      modifies this`tempRange
      ensures tempRange == Edited(old(tempRange), MinText(value), bounds)
      ensures tempRange.hi == old(tempRange).hi
      ensures old(tempRange).hi.Finite? ==> Ordered(tempRange)
    {
      tempRange := WithMin(tempRange, Finite(FieldValue(value, bounds.min)));
    }

    method HandleMaxChange(value: string, bounds: Bounds)
      modifies this`tempRange
      ensures tempRange == Edited(old(tempRange), MaxText(value), bounds)
      ensures tempRange.lo == old(tempRange).lo
      ensures old(tempRange).lo.Finite? ==> Ordered(tempRange)
    {
      tempRange := WithMax(tempRange, Finite(FieldValue(value, bounds.max)));
    }

    method HandleSliderChange(value: int, isMax: bool)
      modifies this`tempRange
      ensures isMax ==> tempRange == WithMax(old(tempRange), Finite(value))
      ensures !isMax ==> tempRange == WithMin(old(tempRange), Finite(value))
    {
      if isMax {
        tempRange := WithMax(tempRange, Finite(value));
      } else {
        tempRange := WithMin(tempRange, Finite(value));
      }
    }

    /** Apply hands the working range over unchanged and closes the panel. */
    method HandleApply() returns (applied: PriceRange)
      modifies this`isOpen
      ensures applied == tempRange && !isOpen
    {
      applied := tempRange;
      isOpen := false;
    }
  }
}
