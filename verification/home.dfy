/** The home page's logic: the hero slide carousel, the pagination bar
    under the product grid, and the featured-products strip. */
module Home {
  import opened Js
  import opened Http

  // ---------------------------------------------------------------- Carousel

  /** `heroSlides.length`. */
  const SlideCount: int := 3

  /** JavaScript's `%`: the remainder takes the sign of the dividend. */
  function JsRem(a: int, b: int): (r: int)
    requires b > 0
    ensures a >= 0 ==> r == a % b
    ensures a < 0 ==> -b < r <= 0
  {
    if a >= 0 then a % b else -((-a) % b)
  }

  /** One timer tick: `(prev + 1) % heroSlides.length`. */
  function NextSlide(prev: int): (n: int)
    ensures 0 <= prev ==> 0 <= n < SlideCount
    ensures 0 <= prev < SlideCount - 1 ==> n == prev + 1
    ensures prev == SlideCount - 1 ==> n == 0
  {
    JsRem(prev + 1, SlideCount)
  }

  /** The slide shown after `ticks` ticks of the timer, starting at 0. */
  function SlideAfter(ticks: nat): (s: int)
    ensures 0 <= s < SlideCount
  {
    if ticks == 0 then 0 else NextSlide(SlideAfter(ticks - 1))
  }

  /** The carousel cycles through the slides in order. */
  lemma {:induction false} SlideCycles(ticks: nat)
    ensures SlideAfter(ticks) == ticks % SlideCount
  {
    if ticks > 0 {
      SlideCycles(ticks - 1);
    }
  }

  // -------------------------------------------------------------- Pagination

  /** The address of result page `n`, within a search when there is a
      keyword. */
  function PageUrl(keyword: Option<string>, n: int): string
  {
    if Truthy(keyword) then "/search/" + keyword.value + "/page/" + IntToString(n)
    else "/page/" + IntToString(n)
  }

  /** What the bar shows for one page number: a link, an ellipsis, or
      nothing. */
  datatype PageCell = PageLink(n: int, target: string, current: bool) | Ellipsis | Blank

  /** Pages shown as links: the first, the last, and the current page with
      its two neighbours. */
  predicate IsLink(n: int, page: int, pages: int)
  {
    n == 1 || n == pages || (page - 1 <= n && n <= page + 1)
  }

  /** An ellipsis stands just outside the neighbours, and only where it
      hides at least one page. */
  predicate IsEllipsis(n: int, page: int, pages: int)
  {
    !IsLink(n, page, pages) && ((n == page - 2 && page > 3) || (n == page + 2 && page < pages - 2))
  }

  function Cell(n: int, page: int, pages: int, keyword: Option<string>): (c: PageCell)
    ensures c.PageLink? <==> IsLink(n, page, pages)
    ensures c.Ellipsis? <==> IsEllipsis(n, page, pages)
    ensures c.PageLink? ==> c.n == n && c.target == PageUrl(keyword, n) && (c.current <==> n == page)
  {
    if n == 1 || n == pages || (n >= page - 1 && n <= page + 1) then PageLink(n, PageUrl(keyword, n), n == page)
    else if (n == page - 2 && page > 3) || (n == page + 2 && page < pages - 2) then Ellipsis
    else Blank
  }

  /** The cells for page numbers `from` to `pages`, in order. */
  function Cells(from: int, pages: int, page: int, keyword: Option<string>): (r: seq<PageCell>)
    requires from <= pages + 1
    ensures |r| == pages - from + 1
    ensures forall i :: 0 <= i < |r| ==> r[i] == Cell(from + i, page, pages, keyword)
  {
    seq(pages - from + 1, i => Cell(from + i, page, pages, keyword))
  }

  /** The rendered bar: Previous, the page cells for `1..pages`, Next. */
  datatype Nav = Nav(previous: Option<string>, cells: seq<PageCell>, next: Option<string>)

  /** The bar for result page `page` of `pages`, or `None` when it is not
      rendered. */
  function Pagination(pages: int, page: int, keyword: Option<string>): (r: Option<Nav>)
    ensures r.Some? <==> pages > 1
    ensures r.Some? ==> |r.value.cells| == pages
    ensures r.Some? ==> forall n :: 1 <= n <= pages ==> r.value.cells[n - 1] == Cell(n, page, pages, keyword)
  {
    if pages > 1 then
      Some(Nav(
        if page > 1 then Some(PageUrl(keyword, page - 1)) else None,
        Cells(1, pages, page, keyword),
        if page < pages then Some(PageUrl(keyword, page + 1)) else None))
    else None
  }

  /** Previous appears exactly when there is an earlier page and leads to
      it; Next exactly when there is a later page and leads to it. */
  lemma PreviousAndNext(pages: int, page: int, keyword: Option<string>)
    requires pages > 1
    ensures var nav := Pagination(pages, page, keyword).value;
      (nav.previous.Some? <==> page > 1) && (nav.previous.Some? ==> nav.previous.value == PageUrl(keyword, page - 1)) &&
      (nav.next.Some? <==> page < pages) && (nav.next.Some? ==> nav.next.value == PageUrl(keyword, page + 1))
  {
  }

  /** On a real page (`1 <= page <= pages`) the first, the last and the
      current page are always links, and the current one is marked. */
  lemma AnchorsAreLinks(pages: int, page: int, keyword: Option<string>)
    requires 1 <= page <= pages && pages > 1
    ensures var cells := Pagination(pages, page, keyword).value.cells;
      cells[0].PageLink? && cells[pages - 1].PageLink? && cells[page - 1].PageLink? && cells[page - 1].current
  {
  }

  function CountLinks(cells: seq<PageCell>): nat
  {
    if cells == [] then 0 else (if cells[0].PageLink? then 1 else 0) + CountLinks(cells[1..])
  }

  function CountEllipses(cells: seq<PageCell>): nat
  {
    if cells == [] then 0 else (if cells[0].Ellipsis? then 1 else 0) + CountEllipses(cells[1..])
  }

  /** The page numbers from `from` on that show as links. */
  function LinkPages(from: int, pages: int, page: int): set<int>
  {
    set n | from <= n <= pages && IsLink(n, page, pages)
  }

  function EllipsisPages(from: int, pages: int, page: int): set<int>
  {
    set n | from <= n <= pages && IsEllipsis(n, page, pages)
  }

  /** The first cell of a non-empty run, and the run after it. */
  lemma CellsStep(from: int, pages: int, page: int, keyword: Option<string>)
    requires from <= pages
    ensures Cells(from, pages, page, keyword)[0] == Cell(from, page, pages, keyword)
    ensures Cells(from, pages, page, keyword)[1..] == Cells(from + 1, pages, page, keyword)
  {
  }

  /** Peeling the lowest page number off a set of page numbers. */
  lemma PeelLowest(from: int, all: set<int>, rest: set<int>, member: bool)
    requires from !in rest
    requires all == (if member then {from} else {}) + rest
    ensures |all| == (if member then 1 else 0) + |rest|
  {
  }

  lemma LinkPagesStep(from: int, pages: int, page: int)
    requires from <= pages
    ensures from !in LinkPages(from + 1, pages, page)
    ensures LinkPages(from, pages, page) ==
      (if IsLink(from, page, pages) then {from} else {}) + LinkPages(from + 1, pages, page)
  {
  }

  lemma EllipsisPagesStep(from: int, pages: int, page: int)
    requires from <= pages
    ensures from !in EllipsisPages(from + 1, pages, page)
    ensures EllipsisPages(from, pages, page) ==
      (if IsEllipsis(from, page, pages) then {from} else {}) + EllipsisPages(from + 1, pages, page)
  {
  }

  /** Counting the link cells counts the link pages. */
  lemma {:induction false} CountLinksIsLinkPages(from: int, pages: int, page: int, keyword: Option<string>)
    requires from <= pages + 1
    ensures CountLinks(Cells(from, pages, page, keyword)) == |LinkPages(from, pages, page)|
    decreases pages - from + 1
  {
    if from > pages {
      assert LinkPages(from, pages, page) == {};
    } else {
      CountLinksIsLinkPages(from + 1, pages, page, keyword);
      CellsStep(from, pages, page, keyword);
      LinkPagesStep(from, pages, page);
      PeelLowest(from, LinkPages(from, pages, page), LinkPages(from + 1, pages, page), IsLink(from, page, pages));
    }
  }

  lemma {:induction false} CountEllipsesIsEllipsisPages(from: int, pages: int, page: int, keyword: Option<string>)
    requires from <= pages + 1
    ensures CountEllipses(Cells(from, pages, page, keyword)) == |EllipsisPages(from, pages, page)|
    decreases pages - from + 1
  {
    if from > pages {
      assert EllipsisPages(from, pages, page) == {};
    } else {
      CountEllipsesIsEllipsisPages(from + 1, pages, page, keyword);
      CellsStep(from, pages, page, keyword);
      EllipsisPagesStep(from, pages, page);
      PeelLowest(from, EllipsisPages(from, pages, page), EllipsisPages(from + 1, pages, page), IsEllipsis(from, page, pages));
    }
  }

  /** A subset of a finite set is no larger. */
  lemma SubsetCard(a: set<int>, b: set<int>)
    requires a <= b
    ensures |a| <= |b|
  {
    assert b == a + (b - a);
    assert a * (b - a) == {};
  }

  /** However many pages there are, the bar shows at most five numbered
      links and at most two ellipses. */
  lemma BarIsBounded(pages: int, page: int, keyword: Option<string>)
    requires pages > 1
    ensures CountLinks(Pagination(pages, page, keyword).value.cells) <= 5
    ensures CountEllipses(Pagination(pages, page, keyword).value.cells) <= 2
  {
    CountLinksIsLinkPages(1, pages, page, keyword);
    CountEllipsesIsEllipsisPages(1, pages, page, keyword);
    var five := {1, pages, page - 1, page, page + 1};
    assert LinkPages(1, pages, page) <= five;
    SubsetCard(LinkPages(1, pages, page), five);
    assert |five| <= 5;
    var two := {page - 2, page + 2};
    assert EllipsisPages(1, pages, page) <= two;
    SubsetCard(EllipsisPages(1, pages, page), two);
  }

  /** The page address read back the way the client router reads it: the
      search keyword, if any, and the page number, taken from the path
      before any query or fragment. */
  function ParsePageUrl(url: string): Option<(Option<string>, nat)>
  {
    var segs := Segments(Pathname(url));
    if |segs| == 4 && segs[0] == "search" && segs[2] == "page" && IsDecimal(segs[3]) then
      Some((Some(segs[1]), DecimalToNat(segs[3])))
    else if |segs| == 2 && segs[0] == "page" && IsDecimal(segs[1]) then
      Some((None, DecimalToNat(segs[1])))
    else None
  }

  predicate IsDecimal(s: string)
  {
    forall i :: 0 <= i < |s| ==> '0' <= s[i] <= '9'
  }

  lemma DecimalIsPlain(n: nat)
    ensures PlainSegment(NatToDecimal(n)) && IsDecimal(NatToDecimal(n))
  {
    var d := NatToDecimal(n);
    assert forall i :: 0 <= i < |d| ==> d[i] != '/';
  }

  lemma SearchUrl(keyword: string, n: nat)
    ensures "/search/" + keyword + "/page/" + NatToDecimal(n) == Join(["search", keyword, "page", NatToDecimal(n)])
  {
    Join4("search", keyword, "page", NatToDecimal(n));
    assert "/search/" == "/" + "search" + "/";
    assert "/page/" == "/" + "page" + "/";
  }

  lemma PlainUrl(n: nat)
    ensures "/page/" + NatToDecimal(n) == Join(["page", NatToDecimal(n)])
  {
    Join2("page", NatToDecimal(n));
    assert "/page/" == "/" + "page" + "/";
  }

  lemma LiteralsArePlain()
    ensures PlainSegment("search") && PlainSegment("page")
  {
    assert "search" == ['s', 'e', 'a', 'r', 'c', 'h'];
    assert "page" == ['p', 'a', 'g', 'e'];
  }

  /** Round trip: every link the bar renders leads back to the same
      keyword and page number, provided the browser delivers the keyword
      as one path segment. */
  lemma PageUrlRoundTrip(keyword: Option<string>, n: nat)
    requires Truthy(keyword) ==> UrlSegment(keyword.value)
    ensures ParsePageUrl(PageUrl(keyword, n)) == Some((if Truthy(keyword) then keyword else None, n))
  {
    DecimalIsPlain(n);
    DecimalRoundTrip(n);
    LiteralsArePlain();
    var d := NatToDecimal(n);
    assert '?' !in d && '#' !in d;
    PathnameWhole(PageUrl(keyword, n));
    if Truthy(keyword) {
      assert '?' !in keyword.value && '#' !in keyword.value;
      SearchUrl(keyword.value, n);
      var segs := ["search", keyword.value, "page", d];
      assert forall i :: 0 <= i < |segs| ==> PlainSegment(segs[i]);
      SegmentsJoin(segs);
    } else {
      PlainUrl(n);
      var segs := ["page", d];
      assert forall i :: 0 <= i < |segs| ==> PlainSegment(segs[i]);
      SegmentsJoin(segs);
    }
  }

  /** A keyword holding `?` does not survive the trip: the router reads
      `/search/a?b/page/2` as the path `/search/a`, which is no page
      address at all. */
  lemma QueryInKeywordBreaksRoundTrip(head: string, tail: string, n: nat)
    requires UrlSegment(head)
    ensures ParsePageUrl(PageUrl(Some(head + "?" + tail), n)) == None
  {
    var k := head + "?" + tail;
    var d := NatToDecimal(n);
    var rest := "?" + tail + "/page/" + d;
    assert PageUrl(Some(k), n) == "/search/" + head + rest;
    assert '?' !in head && '#' !in head;
    assert '?' !in "/search/" + head && '#' !in "/search/" + head;
    PathnameAppend("/search/" + head, rest);
    assert Pathname(rest) == "";
    assert Pathname(PageUrl(Some(k), n)) == "/search/" + head;
    Join2("search", head);
    assert "/search/" == "/" + "search" + "/";
    LiteralsArePlain();
    SegmentsJoin(["search", head]);
    assert Segments(Pathname(PageUrl(Some(k), n))) == ["search", head];
  }

  // ---------------------------------------------------------------- Featured

  function Min(a: int, b: int): int
  {
    if a <= b then a else b
  }

  /** The featured strip: the first products of the list, at most four,
      or `None` when the strip is not rendered (a search is on, or there
      are no products). */
  function Featured<P>(keyword: Option<string>, products: Option<seq<P>>): (r: Option<seq<P>>)
    ensures r.Some? <==> !Truthy(keyword) && products.Some? && |products.value| > 0
    ensures r.Some? ==> |r.value| == Min(4, |products.value|) && r.value <= products.value
  {
    if !Truthy(keyword) && products.Some? && |products.value| > 0 then
      Some(products.value[..if |products.value| < 4 then |products.value| else 4])
    else None
  }
}
