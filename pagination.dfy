/** The page navigation of components/features/products/Pagination.tsx: the
    Prev/Next guards and `generatePageNumbers`, which lists the first page,
    the pages around the current one and the last page, with "…" entries. */
module Pagination {
  import opened Types
  import opened JsNumber

  /** An entry of the page list: a page number or "…". */
  datatype Entry = Page(n: int) | Ellipsis

  /** The component renders nothing for a single page. */
  predicate Visible(totalPages: int)
  {
    totalPages > 1
  }

  /** The page Prev asks for, if any. */
  function PrevTarget(current: int): (r: Option<int>)
    ensures r.Some? <==> current > 1
    ensures r.Some? ==> r.value == current - 1
  {
    if current > 1 then Some(current - 1) else None
  }

  /** The page Next asks for, if any. */
  function NextTarget(current: int, total: int): (r: Option<int>)
    ensures r.Some? <==> current < total
    ensures r.Some? ==> r.value == current + 1
  {
    if current < total then Some(current + 1) else None
  }

  /** `lo, lo+1, ..., hi`. */
  function Range(lo: int, hi: int): seq<Entry>
  {
    seq(if hi < lo then 0 else hi - lo + 1, k => Page(lo + k))
  }

  /** A range grows by its next page. */
  lemma RangeSnoc(lo: int, hi: int)
    requires lo <= hi + 1
    ensures Range(lo, hi + 1) == Range(lo, hi) + [Page(hi + 1)]
  {
  }

  function MaxInt(a: int, b: int): int { if a >= b then a else b }
  function MinInt(a: int, b: int): int { if a <= b then a else b }

  /** What the three loops push before the duplicates are removed. */
  function RawPages(c: int, t: int): seq<Entry>
  {
    (if c > 3 then [Page(1), Ellipsis] else Range(1, c - 1)) +
    Range(MaxInt(1, c - 2), MinInt(t, c + 2)) +
    (if c < t - 2 then [Ellipsis, Page(t)] else Range(c + 1, t))
  }

  /** `Array.from(new Set(xs))`, continuing from the entries in `seen`:
      first occurrences in order. */
  function DedupFrom(seen: seq<Entry>, xs: seq<Entry>): seq<Entry>
    decreases |xs|
  {
    if xs == [] then seen
    else DedupFrom(if xs[0] in seen then seen else seen + [xs[0]], xs[1..])
  }

  /** `generatePageNumbers` for `currentPage` and `totalPages`; a NaN page
      fails every loop condition and gives no entries. */
  method GeneratePageNumbers(currentPage: Num, totalPages: int) returns (pages: seq<Entry>)
    ensures currentPage.NaN? ==> pages == []
    ensures currentPage.Finite? ==> pages == DedupFrom([], RawPages(currentPage.value, totalPages))
  {
    if currentPage.NaN? {
      return [];
    }
    var c := currentPage.value;
    var lead := FirstPages(c);
    var around := PagesAround(c, totalPages);
    var last := LastPages(c, totalPages);
    pages := Unique(lead + around + last);
  }

  /** "Always show first page": 1 and "…" past page 3, else the pages
      before the current one. */
  method FirstPages(c: int) returns (raw: seq<Entry>)
    ensures raw == if c > 3 then [Page(1), Ellipsis] else Range(1, c - 1)
  {
    if c > 3 {
      return [Page(1), Ellipsis];
    }
    raw := [];
    var i := 1;
    while i < c
      invariant 1 <= i <= MaxInt(1, c)
      invariant raw == Range(1, i - 1)
    {
      RangeSnoc(1, i - 1);
      raw := raw + [Page(i)];
      i := i + 1;
    }
  }

  /** "Pages around current": up to two pages on each side, within 1 .. t. */
  method PagesAround(c: int, t: int) returns (raw: seq<Entry>)
    ensures raw == Range(MaxInt(1, c - 2), MinInt(t, c + 2))
  {
    var lo := MaxInt(1, c - 2);
    var hi := MinInt(t, c + 2);
    raw := [];
    var i := lo;
    while i <= hi
      invariant lo <= i <= MaxInt(lo, hi + 1)
      invariant raw == Range(lo, i - 1)
    {
      RangeSnoc(lo, i - 1);
      raw := raw + [Page(i)];
      i := i + 1;
    }
  }

  /** "Always show last page": "…" and t when the current page is more
      than two before it, else the pages after the current one. */
  method LastPages(c: int, t: int) returns (raw: seq<Entry>)
    ensures raw == if c < t - 2 then [Ellipsis, Page(t)] else Range(c + 1, t)
  {
    if c < t - 2 {
      return [Ellipsis, Page(t)];
    }
    raw := [];
    var i := c + 1;
    while i <= t
      invariant c + 1 <= i <= MaxInt(c + 1, t + 1)
      invariant raw == Range(c + 1, i - 1)
    {
      RangeSnoc(c + 1, i - 1);
      raw := raw + [Page(i)];
      i := i + 1;
    }
  }

  /** `Array.from(new Set(raw))`: the entries in order of first occurrence. */
  method Unique(raw: seq<Entry>) returns (out: seq<Entry>)
    ensures out == DedupFrom([], raw)
  {
    out := [];
    var k := 0;
    while k < |raw|
      invariant 0 <= k <= |raw|
      invariant DedupFrom(out, raw[k..]) == DedupFrom([], raw)
    {
      assert raw[k..][0] == raw[k] && raw[k..][1..] == raw[k + 1..];
      if raw[k] !in out {
        out := out + [raw[k]];
      }
      k := k + 1;
    }
    assert raw[|raw|..] == [];
  }

  // ---------------------------------------------------------------------
  // Facts about ranges and the Set pass

  lemma RangeSpec(lo: int, hi: int)
    ensures |Range(lo, hi)| == if lo <= hi then hi - lo + 1 else 0
    ensures forall k :: 0 <= k < |Range(lo, hi)| ==> Range(lo, hi)[k] == Page(lo + k)
    ensures forall e :: e in Range(lo, hi) <==> e.Page? && lo <= e.n <= hi
  {
    var r := Range(lo, hi);
    forall e ensures e in r <==> e.Page? && lo <= e.n <= hi {
      if e.Page? && lo <= e.n <= hi {
        assert r[e.n - lo] == e;
      }
    }
  }

  lemma RangeSplit(lo: int, mid: int, hi: int)
    requires lo - 1 <= mid <= hi
    ensures Range(lo, hi) == Range(lo, mid) + Range(mid + 1, hi)
  {
    var r, a, b := Range(lo, hi), Range(lo, mid), Range(mid + 1, hi);
    assert |r| == |a| + |b|;
    forall k | 0 <= k < |r| ensures r[k] == (a + b)[k] {
      if k >= |a| {
        assert (a + b)[k] == b[k - |a|];
      }
    }
  }

  lemma {:induction false} DedupAppend(seen: seq<Entry>, a: seq<Entry>, b: seq<Entry>)
    ensures DedupFrom(seen, a + b) == DedupFrom(DedupFrom(seen, a), b)
    decreases |a|
  {
    if a == [] {
      assert a + b == b;
    } else {
      assert (a + b)[0] == a[0] && (a + b)[1..] == a[1..] + b;
      DedupAppend(if a[0] in seen then seen else seen + [a[0]], a[1..], b);
    }
  }

  /** Entries already seen add nothing. */
  lemma {:induction false} DedupSeen(seen: seq<Entry>, xs: seq<Entry>)
    requires forall e :: e in xs ==> e in seen
    ensures DedupFrom(seen, xs) == seen
    decreases |xs|
  {
    if xs != [] {
      assert xs[0] in xs;
      DedupSeen(seen, xs[1..]);
    }
  }

  /** New, distinct entries are all appended. */
  lemma {:induction false} DedupFresh(seen: seq<Entry>, xs: seq<Entry>)
    requires forall i, j :: 0 <= i < j < |xs| ==> xs[i] != xs[j]
    requires forall e :: e in xs ==> e !in seen
    ensures DedupFrom(seen, xs) == seen + xs
    decreases |xs|
  {
    if xs != [] {
      assert xs[0] in xs;
      forall e | e in xs[1..] ensures e !in seen + [xs[0]] {
        var k :| 0 <= k < |xs[1..]| && xs[1..][k] == e;
        assert xs[k + 1] == e;
      }
      DedupFresh(seen + [xs[0]], xs[1..]);
      assert seen + [xs[0]] + xs[1..] == seen + xs;
    }
  }

  lemma RangeDistinct(lo: int, hi: int)
    ensures forall i, j :: 0 <= i < j < |Range(lo, hi)| ==> Range(lo, hi)[i] != Range(lo, hi)[j]
  {
    RangeSpec(lo, hi);
  }

  /** Page numbers increase strictly from left to right. */
  predicate Increasing(xs: seq<Entry>)
  {
    forall i, j :: 0 <= i < j < |xs| && xs[i].Page? && xs[j].Page? ==> xs[i].n < xs[j].n
  }

  /** Every page number of `a` is below every page number of `b`. */
  predicate AllBelow(a: seq<Entry>, b: seq<Entry>)
  {
    forall x, y :: x in a && y in b && x.Page? && y.Page? ==> x.n < y.n
  }

  lemma IncreasingAppend(a: seq<Entry>, b: seq<Entry>)
    requires Increasing(a) && Increasing(b) && AllBelow(a, b)
    ensures Increasing(a + b)
  {
    var r := a + b;
    forall i, j | 0 <= i < j < |r| && r[i].Page? && r[j].Page? ensures r[i].n < r[j].n {
      if j < |a| {
        assert r[i] == a[i] && r[j] == a[j];
      } else if i >= |a| {
        assert r[i] == b[i - |a|] && r[j] == b[j - |a|];
      } else {
        assert r[i] == a[i] && r[j] == b[j - |a|];
        assert a[i] in a && b[j - |a|] in b;
      }
    }
  }

  /** Number of "…" entries. */
  function Ellipses(xs: seq<Entry>): nat
  {
    if xs == [] then 0 else (if xs[0].Ellipsis? then 1 else 0) + Ellipses(xs[1..])
  }

  lemma {:induction false} EllipsesAppend(a: seq<Entry>, b: seq<Entry>)
    ensures Ellipses(a + b) == Ellipses(a) + Ellipses(b)
  {
    if a == [] {
      assert a + b == b;
    } else {
      assert (a + b)[1..] == a[1..] + b;
      EllipsesAppend(a[1..], b);
    }
  }

  /** A list of page numbers only holds no "…". */
  lemma {:induction false} EllipsesNone(xs: seq<Entry>)
    requires forall k :: 0 <= k < |xs| ==> xs[k].Page?
    ensures Ellipses(xs) == 0
  {
    if xs != [] {
      assert xs[0].Page?;
      EllipsesNone(xs[1..]);
    }
  }

  lemma EllipsesRange(lo: int, hi: int)
    ensures Ellipses(Range(lo, hi)) == 0
  {
    EllipsesNone(Range(lo, hi));
  }

  lemma RangeIncreasing(lo: int, hi: int)
    ensures Increasing(Range(lo, hi))
  {
  }

  /** The list as written, in closed form: the Set pass drops the second
      "…" as a duplicate of the first. */
  function PageListAsWritten(c: int, t: int): seq<Entry>
  {
    Head(c) + Range(Low(c), MinInt(t, c + 2)) + TailAsWritten(c, t)
  }

  /** Page 1 and "…" past page 3. */
  function Head(c: int): seq<Entry>
  {
    if c > 3 then [Page(1), Ellipsis] else []
  }

  /** The first page of the middle run. */
  function Low(c: int): int
  {
    if c > 3 then c - 2 else 1
  }

  /** What the trailing loop adds once duplicates are gone. */
  function TailAsWritten(c: int, t: int): seq<Entry>
  {
    if c < t - 2 then (if c > 3 then [Page(t)] else [Ellipsis, Page(t)]) else []
  }

  /** Pages 1 .. a-1 followed by pages 1 .. hi deduplicate to 1 .. hi. */
  lemma DedupRangeTwice(a: int, hi: int)
    requires 1 <= a <= hi + 1
    ensures DedupFrom([], Range(1, a - 1) + Range(1, hi)) == Range(1, hi)
  {
    var lead := Range(1, a - 1);
    DedupAppend([], lead, Range(1, hi));
    RangeSpec(1, a - 1);
    DedupFresh([], lead);
    assert [] + lead == lead;
    RangeSplit(1, a - 1, hi);
    DedupAppend(lead, lead, Range(a, hi));
    DedupSeen(lead, lead);
    RangeSpec(a, hi);
    DedupFresh(lead, Range(a, hi));
  }

  /** For c <= 3 the leading loop's pages repeat the middle range's and the
      trailing loop's pages (when it runs) are inside it. */
  lemma DedupSmall(c: int, t: int)
    requires 1 <= c <= 3 && c <= t
    ensures DedupFrom([], RawPages(c, t)) == PageListAsWritten(c, t)
  {
    var hi := MinInt(t, c + 2);
    var mid := Range(1, hi);
    var tail := if c < t - 2 then [Ellipsis, Page(t)] else Range(c + 1, t);
    assert MaxInt(1, c - 2) == 1;
    assert RawPages(c, t) == Range(1, c - 1) + mid + tail;
    DedupAppend([], Range(1, c - 1) + mid, tail);
    DedupRangeTwice(c, hi);
    SmallTail(c, t);
  }

  /** The trailing loop's entries after pages 1 .. min(t, c + 2), for c <= 3:
      a fresh "…" and last page, or pages already listed. */
  lemma SmallTail(c: int, t: int)
    requires 1 <= c <= 3 && c <= t
    ensures var mid := Range(1, MinInt(t, c + 2));
      DedupFrom(mid, if c < t - 2 then [Ellipsis, Page(t)] else Range(c + 1, t)) ==
        PageListAsWritten(c, t)
  {
    var hi := MinInt(t, c + 2);
    var mid := Range(1, hi);
    RangeSpec(1, hi);
    if c < t - 2 {
      DedupFresh(mid, [Ellipsis, Page(t)]);
      assert PageListAsWritten(c, t) == [] + mid + [Ellipsis, Page(t)];
    } else {
      RangeSpec(c + 1, t);
      DedupSeen(mid, Range(c + 1, t));
      assert PageListAsWritten(c, t) == [] + mid + [];
    }
  }

  /** Page 1 and "…" followed by pages above 1 are all kept. */
  lemma DedupHeadRun(lo: int, hi: int)
    requires 1 < lo
    ensures DedupFrom([], [Page(1), Ellipsis] + Range(lo, hi)) == [Page(1), Ellipsis] + Range(lo, hi)
  {
    var lead: seq<Entry> := [Page(1), Ellipsis];
    DedupAppend([], lead, Range(lo, hi));
    DedupFresh([], lead);
    assert [] + lead == lead;
    RangeSpec(lo, hi);
    DedupFresh(lead, Range(lo, hi));
  }

  /** For c > 3 the middle range is new, and the trailing "…" repeats the
      leading one. */
  lemma DedupLarge(c: int, t: int)
    requires 3 < c <= t
    ensures DedupFrom([], RawPages(c, t)) == PageListAsWritten(c, t)
  {
    var hi := MinInt(t, c + 2);
    var seen := [Page(1), Ellipsis] + Range(c - 2, hi);
    var tail := if c < t - 2 then [Ellipsis, Page(t)] else Range(c + 1, t);
    assert RawPages(c, t) == seen + tail;
    DedupAppend([], seen, tail);
    DedupHeadRun(c - 2, hi);
    if c < t - 2 {
      assert Ellipsis in seen;
      assert DedupFrom(seen, tail) == DedupFrom(seen, [Page(t)]);
      RangeSpec(c - 2, hi);
      DedupFresh(seen, [Page(t)]);
    } else {
      RangeSpec(c - 2, hi);
      RangeSpec(c + 1, t);
      DedupSeen(seen, tail);
      assert PageListAsWritten(c, t) == seen + [];
    }
  }

  lemma DedupClosedForm(c: int, t: int)
    requires 1 <= c <= t
    ensures DedupFrom([], RawPages(c, t)) == PageListAsWritten(c, t)
  {
    if c <= 3 {
      DedupSmall(c, t);
    } else {
      DedupLarge(c, t);
    }
  }

  /** The pages shown: 1, the last page and those within 2 of the current one. */
  predicate Shown(c: int, t: int, n: int)
  {
    1 <= n <= t && (n == 1 || n == t || c - 2 <= n <= c + 2)
  }

  /** A run of pages between a head whose pages are all below it and a tail
      whose pages are all above it keeps page numbers increasing, and brings
      no "…" of its own. */
  lemma Assembled(a: seq<Entry>, lo: int, hi: int, z: seq<Entry>)
    requires Increasing(a) && Increasing(z)
    requires forall e :: e in a && e.Page? ==> e.n < lo
    requires lo <= hi && forall e :: e in z && e.Page? ==> hi < e.n
    ensures Increasing(a + Range(lo, hi) + z)
    ensures Ellipses(a + Range(lo, hi) + z) == Ellipses(a) + Ellipses(z)
    ensures forall n :: Page(n) in a + Range(lo, hi) + z <==> Page(n) in a || lo <= n <= hi || Page(n) in z
  {
    var m := Range(lo, hi);
    RangeSpec(lo, hi);
    IncreasingAppend(a, m);
    assert AllBelow(a + m, z) by {
      forall x, y | x in a + m && y in z && x.Page? && y.Page? ensures x.n < y.n {
        assert x in a || x in m;
      }
    }
    IncreasingAppend(a + m, z);
    EllipsesRange(lo, hi);
    EllipsesAppend(a, m);
    EllipsesAppend(a + m, z);
  }

  lemma EllipsesPair(n: int)
    ensures Ellipses([Page(n), Ellipsis]) == 1
    ensures Ellipses([Ellipsis, Page(n)]) == 1
    ensures Ellipses([Page(n)]) == 0
  {
    assert [Page(n), Ellipsis][1..] == [Ellipsis];
    assert [Ellipsis, Page(n)][1..] == [Page(n)];
    assert [Ellipsis][1..] == [] && [Page(n)][1..] == [];
  }

  /** The shown pages are page 1 past page 3, the pages around the current
      one, and page t when the current page is more than two before it. */
  lemma ShownParts(c: int, t: int, n: int)
    requires 1 <= c <= t
    ensures Shown(c, t, n) <==>
      (c > 3 && n == 1) || (Low(c) <= n <= MinInt(t, c + 2)) || (c < t - 2 && n == t)
  {
  }

  lemma HeadFacts(c: int)
    ensures Increasing(Head(c)) && Ellipses(Head(c)) == (if c > 3 then 1 else 0)
    ensures forall e :: e in Head(c) && e.Page? ==> e.n < Low(c)
    ensures forall n :: Page(n) in Head(c) <==> c > 3 && n == 1
  {
    EllipsesPair(1);
  }

  lemma TailFacts(c: int, t: int)
    requires c <= t
    ensures Increasing(Tail(c, t)) && Ellipses(Tail(c, t)) == (if c < t - 2 then 1 else 0)
    ensures Increasing(TailAsWritten(c, t))
    ensures Ellipses(TailAsWritten(c, t)) == (if c < t - 2 && c <= 3 then 1 else 0)
    ensures forall e :: (e in Tail(c, t) || e in TailAsWritten(c, t)) && e.Page? ==> MinInt(t, c + 2) < e.n
    ensures forall n :: Page(n) in Tail(c, t) <==> c < t - 2 && n == t
    ensures forall n :: Page(n) in TailAsWritten(c, t) <==> c < t - 2 && n == t
  {
    EllipsesPair(t);
  }

  /** The list as written shows exactly the pages `Shown` names, with page
      numbers strictly increasing, and holds at most one "…". */
  lemma PageListAsWrittenSpec(c: int, t: int)
    requires 1 <= c <= t
    ensures forall n :: Page(n) in PageListAsWritten(c, t) <==> Shown(c, t, n)
    ensures Increasing(PageListAsWritten(c, t))
    ensures Ellipses(PageListAsWritten(c, t)) <= 1
  {
    HeadFacts(c);
    TailFacts(c, t);
    Assembled(Head(c), Low(c), MinInt(t, c + 2), TailAsWritten(c, t));
    forall n ensures Page(n) in PageListAsWritten(c, t) <==> Shown(c, t, n) {
      ShownParts(c, t, n);
    }
  }

  /** With pages hidden on both sides, the second "…" is lost: the list
      ends with pages c + 2 and t side by side although pages c + 3 .. t - 1
      are hidden (page 6 of 10 lists 1, …, 4, 5, 6, 7, 8, 10). */
  lemma TrailingEllipsisLost(c: int, t: int)
    requires 3 < c < t - 3
    ensures var r := DedupFrom([], RawPages(c, t));
      |r| >= 2 && r[|r| - 2] == Page(c + 2) && r[|r| - 1] == Page(t) && Ellipses(r) == 1
  {
    var head, m, tail := [Page(1), Ellipsis], Range(c - 2, c + 2), [Page(t)];
    DedupClosedForm(c, t);
    assert PageListAsWritten(c, t) == head + m + tail;
    RangeSpec(c - 2, c + 2);
    EllipsesPair(1);
    EllipsesPair(t);
    EllipsesRange(c - 2, c + 2);
    EllipsesAppend(head, m);
    EllipsesAppend(head + m, tail);
  }

  /** The list as evidently intended: repeated page numbers removed, both
      "…" marks kept. */
  function PageList(c: int, t: int): seq<Entry>
  {
    Head(c) + Range(Low(c), MinInt(t, c + 2)) + Tail(c, t)
  }

  /** "…" and page t when the current page is more than two before t. */
  function Tail(c: int, t: int): seq<Entry>
  {
    if c < t - 2 then [Ellipsis, Page(t)] else []
  }

  /** Consecutive page entries are consecutive page numbers: wherever
      pages are hidden, a "…" stands between them. */
  predicate NoSilentGap(xs: seq<Entry>)
  {
    forall k :: 0 <= k < |xs| - 1 && xs[k].Page? && xs[k + 1].Page? ==> xs[k + 1].n == xs[k].n + 1
  }

  /** A list made of an optional page 1 and "…", a run of pages, and an
      optional "…" and last page: where each part sits, and that the "…"
      entries are the framing ones and no others. */
  lemma Framed(head: bool, lo: int, hi: int, tail: bool, t: int)
    requires lo <= hi
    requires head ==> 1 < lo
    requires tail ==> hi < t
    ensures var r := (if head then [Page(1), Ellipsis] else []) + Range(lo, hi) + (if tail then [Ellipsis, Page(t)] else []);
      |r| >= 1 &&
      (head ==> |r| >= 3 && r[0] == Page(1) && r[1] == Ellipsis && r[2] == Page(lo)) &&
      (!head ==> r[0] == Page(lo)) &&
      (tail ==> |r| >= 3 && r[|r| - 3] == Page(hi) && r[|r| - 2] == Ellipsis && r[|r| - 1] == Page(t)) &&
      (!tail ==> r[|r| - 1] == Page(hi)) &&
      (forall k :: 0 <= k < |r| && r[k].Ellipsis? ==> (head && k == 1) || (tail && k == |r| - 2)) &&
      NoSilentGap(r)
  {
    var h: seq<Entry> := if head then [Page(1), Ellipsis] else [];
    var m := Range(lo, hi);
    var z: seq<Entry> := if tail then [Ellipsis, Page(t)] else [];
    var r := h + m + z;
    RangeSpec(lo, hi);
    forall k | 0 <= k < |r|
      ensures r[k] == if k < |h| then h[k] else if k < |h| + |m| then Page(lo + k - |h|) else z[k - |h| - |m|]
    {
      if k < |h| {
        assert r[k] == (h + m)[k];
      } else if k < |h| + |m| {
        assert r[k] == (h + m)[k] == m[k - |h|];
      }
    }
  }

  /** The intended list shows the same pages in the same order as the
      code, and holds one "…" past page 3 and one more when the current page
      is more than two before the last; `PageListPositions` says where. */
  lemma PageListSpec(c: int, t: int)
    requires 1 <= c <= t
    ensures forall n :: Page(n) in PageList(c, t) <==> Shown(c, t, n)
    ensures Increasing(PageList(c, t))
    ensures Ellipses(PageList(c, t)) == (if c > 3 then 1 else 0) + (if c < t - 2 then 1 else 0)
  {
    HeadFacts(c);
    TailFacts(c, t);
    Assembled(Head(c), Low(c), MinInt(t, c + 2), Tail(c, t));
    forall n ensures Page(n) in PageList(c, t) <==> Shown(c, t, n) {
      ShownParts(c, t, n);
    }
  }

  /** Where the intended list puts its "…", with the code's own thresholds:
      it starts with page 1 and a "…" exactly past page 3, that "…" hiding
      pages 2 .. c - 3, and it ends with a "…" and the last page exactly
      when the current page is more than two before it, that "…" hiding
      pages c + 3 .. t - 1. Those are its only "…" entries, and wherever no
      "…" stands the page numbers are consecutive. With page 4, or page
      t - 3, a "…" hides no page, as in the code (see
      `LeadingEllipsisHidesNothing`). */
  lemma PageListPositions(c: int, t: int)
    requires 1 <= c <= t
    ensures var r := PageList(c, t);
      (c > 3 ==> |r| >= 3 && r[0] == Page(1) && r[1] == Ellipsis && r[2] == Page(c - 2)) &&
      (c <= 3 ==> r[0] == Page(1)) &&
      (c < t - 2 ==> |r| >= 3 && r[|r| - 3] == Page(c + 2) && r[|r| - 2] == Ellipsis && r[|r| - 1] == Page(t)) &&
      (c >= t - 2 ==> r[|r| - 1] == Page(t)) &&
      (forall k :: 0 <= k < |r| && r[k].Ellipsis? ==> (c > 3 && k == 1) || (c < t - 2 && k == |r| - 2)) &&
      NoSilentGap(r)
  {
    var head, tail := c > 3, c < t - 2;
    var hi := MinInt(t, c + 2);
    assert PageList(c, t) == (if head then [Page(1), Ellipsis] else []) + Range(Low(c), hi) + (if tail then [Ellipsis, Page(t)] else []);
    Framed(head, Low(c), hi, tail, t);
  }

  /** As written, page 4 puts a "…" between pages 1 and 2, which are
      consecutive: the leading "…" hides nothing (page 4 of 10 lists 1, …,
      2, 3, 4, 5, 6, …, 10 before the `Set` pass, 1, …, 2, 3, 4, 5, 6, 10
      after it). */
  lemma LeadingEllipsisHidesNothing(t: int)
    requires t >= 4
    ensures var r := DedupFrom([], RawPages(4, t));
      |r| >= 3 && r[0] == Page(1) && r[1] == Ellipsis && r[2] == Page(2)
  {
    DedupClosedForm(4, t);
    Framed(true, 2, MinInt(t, 6), false, t);
    assert PageListAsWritten(4, t) == [Page(1), Ellipsis] + Range(2, MinInt(t, 6)) + TailAsWritten(4, t);
    assert Range(2, MinInt(t, 6))[0] == Page(2);
  }

  /** A "…" that stands between two pages and hides at least one. */
  predicate EllipsesHidePages(xs: seq<Entry>)
  {
    forall k :: 0 <= k < |xs| && xs[k].Ellipsis? ==>
      0 < k < |xs| - 1 && xs[k - 1].Page? && xs[k + 1].Page? && xs[k - 1].n + 1 < xs[k + 1].n
  }

  /** The list with a "…" only where it hides a page: page 1 and "…" from
      page 5 on, "…" and the last page while more than three pages follow
      the current one. */
  function PageListTight(c: int, t: int): seq<Entry>
  {
    TightHead(c) + Range(TightLow(c), TightHigh(c, t)) + TightTail(c, t)
  }

  function TightHead(c: int): seq<Entry>
  {
    if c > 4 then [Page(1), Ellipsis] else []
  }

  function TightTail(c: int, t: int): seq<Entry>
  {
    if c < t - 3 then [Ellipsis, Page(t)] else []
  }

  function TightLow(c: int): int
  {
    if c > 4 then c - 2 else 1
  }

  function TightHigh(c: int, t: int): int
  {
    if c < t - 3 then c + 2 else t
  }

  /** The head and the tail of the tight list: ordered, outside the run of
      pages, and holding page 1 and the last page exactly when they are
      there at all. */
  lemma TightEnds(c: int, t: int)
    requires 1 <= c <= t
    ensures TightLow(c) <= TightHigh(c, t)
    ensures Increasing(TightHead(c)) && Increasing(TightTail(c, t))
    ensures forall e :: e in TightHead(c) && e.Page? ==> e.n < TightLow(c)
    ensures forall e :: e in TightTail(c, t) && e.Page? ==> TightHigh(c, t) < e.n
    ensures forall n :: Page(n) in TightHead(c) <==> c > 4 && n == 1
    ensures forall n :: Page(n) in TightTail(c, t) <==> c < t - 3 && n == t
  {
  }

  /** The tight list shows the same pages as the code, in increasing order. */
  lemma PageListTightShows(c: int, t: int)
    requires 1 <= c <= t
    ensures forall n :: Page(n) in PageListTight(c, t) <==> Shown(c, t, n)
    ensures Increasing(PageListTight(c, t))
  {
    TightEnds(c, t);
    Assembled(TightHead(c), TightLow(c), TightHigh(c, t), TightTail(c, t));
  }

  /** Every "…" of the tight list stands between two pages and hides at
      least one, and wherever no "…" stands the page numbers are
      consecutive: a side carries a "…" exactly when it hides a page. */
  lemma PageListTightSpec(c: int, t: int)
    requires 1 <= c <= t
    ensures EllipsesHidePages(PageListTight(c, t))
    ensures NoSilentGap(PageListTight(c, t))
  {
    TightEnds(c, t);
    Framed(c > 4, TightLow(c), TightHigh(c, t), c < t - 3, t);
  }
}
