/**
 * The recipe list page: the list query built from the filters, the page
 * number read from a pagination link, the "Page X of Y" label, the
 * next/previous guards and the placeholder image of each card.
 */
module RecipeList {
  import opened Wrappers
  import opened RecipeSerializers

  /** The filter state: debounced search term, category, diet type and ordering. */
  datatype Filters = Filters(search: string, category: string, dietType: string, ordering: string)

  /** The initial state: no filters, ordered by most likes. */
  const DefaultFilters: Filters := Filters("", "", "", "-like_count_ann")

  /** The query keys in the order the builder appends them. */
  const QueryKeys: seq<string> := ["search", "category", "diet_type", "ordering"]

  /** The filter value behind each query key, by position in `QueryKeys`. */
  function FilterValue(f: Filters, rank: nat): string
    requires rank < |QueryKeys|
  {
    [f.search, f.category, f.dietType, f.ordering][rank]
  }

  /** The position of a key in `QueryKeys`. */
  function KeyRank(key: string): (r: Option<nat>)
    ensures r.Some? ==> r.value < |QueryKeys| && QueryKeys[r.value] == key
    ensures r.None? ==> key !in QueryKeys
  {
    if key == "search" then Some(0)
    else if key == "category" then Some(1)
    else if key == "diet_type" then Some(2)
    else if key == "ordering" then Some(3)
    else None
  }

  /** How many of the four filters hold a value. */
  function SetFilterCount(f: Filters): (n: nat)
    ensures n <= |QueryKeys|
  {
    (if f.search != "" then 1 else 0) + (if f.category != "" then 1 else 0)
    + (if f.dietType != "" then 1 else 0) + (if f.ordering != "" then 1 else 0)
  }

  /**
   * The query parameters `URLSearchParams` holds: each key with a non-empty
   * filter value, with that value, and the keys in their fixed order, one
   * parameter per set filter.
   */
  method BuildQuery(f: Filters) returns (params: seq<(string, string)>)
    ensures forall i :: 0 <= i < |params| ==>
      KeyRank(params[i].0).Some? && params[i].1 == FilterValue(f, KeyRank(params[i].0).value) && params[i].1 != ""
    ensures forall i, j :: 0 <= i < j < |params| ==> KeyRank(params[i].0).value < KeyRank(params[j].0).value
    ensures forall rank :: 0 <= rank < |QueryKeys| && FilterValue(f, rank) != "" ==>
      (QueryKeys[rank], FilterValue(f, rank)) in params
    ensures |params| == SetFilterCount(f)
  {
    params := [];
    if f.search != "" {
      params := params + [("search", f.search)];
    }
    if f.category != "" {
      params := params + [("category", f.category)];
    }
    if f.dietType != "" {
      params := params + [("diet_type", f.dietType)];
    }
    if f.ordering != "" {
      params := params + [("ordering", f.ordering)];
    }
  }

  /** `params.toString()`, leaving out percent-encoding: `k=v` pairs joined by `&`. */
  function QueryString(params: seq<(string, string)>): string {
    if params == [] then ""
    else if |params| == 1 then params[0].0 + "=" + params[0].1
    else params[0].0 + "=" + params[0].1 + "&" + QueryString(params[1..])
  }

  /** With the initial filters the list request asks for `ordering=-like_count_ann` and nothing else. */
  method InitialQuery() returns (query: string)
    ensures query == "ordering=-like_count_ann"
  {
    var params := BuildQuery(DefaultFilters);
    assert FilterValue(DefaultFilters, 3) == "-like_count_ann" && QueryKeys[3] == "ordering";
    assert ("ordering", "-like_count_ann") in params;
    assert |params| == 1;
    assert params == [("ordering", "-like_count_ann")];
    query := QueryString(params);
  }

  /** What `new URL(href)` and `searchParams.get("page")` give for a link. */
  datatype PageUrl = Unparseable | Parsed(page: Option<nat>)

  datatype Link = Link(href: string, parsed: PageUrl)

  /** One page of the list response. */
  datatype Pagination = Pagination(results: seq<RecipeOut>, count: nat, next: Option<Link>, previous: Option<Link>)

  /** `getPageNumber`: the link's `page` parameter, or 1 without a link, a parse or a parameter. */
  function GetPageNumber(url: Option<Link>): (n: nat)
    ensures url.None? || url.value.parsed.Unparseable? || url.value.parsed.page.None? ==> n == 1
    ensures url.Some? && url.value.parsed.Parsed? && url.value.parsed.page.Some? ==> n == url.value.parsed.page.value
  {
    match url
    case None => 1
    case Some(link) =>
      match link.parsed
      case Unparseable => 1
      case Parsed(page) => page.GetOr(1)
  }

  /** The "Page X" of the label: one past the previous link's page, and 1 without one. */
  function CurrentPage(previous: Option<Link>): (n: nat)
    ensures n >= 1
    ensures previous.None? ==> n == 1
    ensures previous.Some? ==> n == GetPageNumber(previous) + 1
  {
    if previous.Some? then GetPageNumber(previous) + 1 else 1
  }

  /**
   * The `previous` link the server's page-number pagination gives page `p`
   * (1-based): none on page 1, the list URL without `page` on page 2, and
   * `page=p-1` beyond.
   */
  function PreviousLink(listUrl: string, p: nat): Option<Link>
    requires p >= 1
  {
    if p == 1 then None
    else if p == 2 then Some(Link(listUrl, Parsed(None)))
    else Some(Link(listUrl, Parsed(Some(p - 1))))
  }

  /** The label's current page is the page being shown. */
  lemma CurrentPageIsShownPage(listUrl: string, p: nat)
    requires p >= 1
    ensures CurrentPage(PreviousLink(listUrl, p)) == p
  {
  }

  /** `Math.ceil(count / results.length)` for `count > 0`, which is infinite on an empty page. */
  datatype PageTotal = Pages(n: nat) | Infinity

  /**
   * The "of Y" of the label as the page computes it, from the size of the
   * page being shown: 1 for an empty list, infinite for an empty page of a
   * non-empty list, and otherwise the least number of pages of `shown`
   * results that hold `count`.
   */
  function TotalPagesAsWritten(count: nat, shown: nat): (t: PageTotal)
    ensures count == 0 ==> t == Pages(1)
    ensures t.Infinity? <==> count > 0 && shown == 0
    ensures count > 0 && shown > 0 ==> t.Pages? && (t.n - 1) * shown < count <= t.n * shown
  {
    if count == 0 then Pages(1)
    else if shown == 0 then Infinity
    else Pages(TotalPages(count, shown))
  }

  /** The number of pages of `count` results at `pageSize` per page, at least one. */
  function TotalPages(count: nat, pageSize: nat): (n: nat)
    requires pageSize > 0
    ensures n >= 1
    ensures count == 0 ==> n == 1
    ensures count > 0 ==> (n - 1) * pageSize < count <= n * pageSize
  {
    if count == 0 then 1
    else
      var q := (count + pageSize - 1) / pageSize;
      var r := (count + pageSize - 1) % pageSize;
      assert q * pageSize + r == count + pageSize - 1;
      assert (q - 1) * pageSize == q * pageSize - pageSize;
      q
  }

  /** How many results page `p` shows. */
  function ShownOnPage(count: nat, pageSize: nat, p: nat): (shown: nat)
    requires pageSize > 0 && 1 <= p <= TotalPages(count, pageSize)
    ensures shown <= pageSize
    ensures p < TotalPages(count, pageSize) ==> shown == pageSize
  {
    if count <= (p - 1) * pageSize then 0
    else if count - (p - 1) * pageSize < pageSize then count - (p - 1) * pageSize
    else pageSize
  }

  /** On a full page the label's total is the true number of pages. */
  lemma TotalPagesAsWrittenOnFullPage(count: nat, pageSize: nat)
    requires pageSize > 0
    ensures TotalPagesAsWritten(count, pageSize) == Pages(TotalPages(count, pageSize))
  {
  }

  /**
   * On a last page that is not full the label's total is too large: with 7
   * results at 5 per page, page 2 shows 2 results and is labelled "of 4".
   */
  lemma TotalPagesAsWrittenOnLastPartialPage()
    ensures TotalPages(7, 5) == 2 && ShownOnPage(7, 5, 2) == 2
    ensures TotalPagesAsWritten(7, ShownOnPage(7, 5, 2)) == Pages(4)
  {
    assert TotalPages(7, 5) == 2;
  }

  /**
   * The label "Page X of Y" with the total computed from the server's page
   * size: the least number of full pages that hold every result.
   */
  function PageLabel(d: Pagination, pageSize: nat): (caption: (nat, nat))
    requires pageSize > 0
    ensures caption.0 == CurrentPage(d.previous) && caption.1 >= 1
    ensures d.count > 0 ==> (caption.1 - 1) * pageSize < d.count <= caption.1 * pageSize
  {
    (CurrentPage(d.previous), TotalPages(d.count, pageSize))
  }

  /** The label "Page X of Y" as the page builds it, dividing by the number of results shown. */
  function PageLabelAsWritten(d: Pagination): (caption: (nat, PageTotal))
    ensures caption.0 == CurrentPage(d.previous)
    ensures caption.1.Infinity? <==> d.count > 0 && d.results == []
    ensures d.count > 0 && d.results != [] ==>
      (caption.1.n - 1) * |d.results| < d.count <= caption.1.n * |d.results|
  {
    (CurrentPage(d.previous), TotalPagesAsWritten(d.count, |d.results|))
  }

  /**
   * The label as written never shows fewer pages than there are: it agrees
   * with the corrected label on a full page and can only overstate on a
   * shorter one.
   */
  lemma PageLabelAsWrittenOverstates(d: Pagination, pageSize: nat)
    requires 0 < pageSize && |d.results| <= pageSize
    ensures PageLabelAsWritten(d).0 == PageLabel(d, pageSize).0
    ensures PageLabelAsWritten(d).1.Pages? ==> PageLabelAsWritten(d).1.n >= PageLabel(d, pageSize).1
    ensures |d.results| == pageSize ==> PageLabelAsWritten(d).1 == Pages(PageLabel(d, pageSize).1)
  {
    var shown := |d.results|;
    if d.count > 0 && shown > 0 {
      PagesOfFewerAreMore(d.count, shown, pageSize);
    }
    if shown == pageSize {
      TotalPagesAsWrittenOnFullPage(d.count, pageSize);
    }
  }

  /** Holding the same results in pages of at most `pageSize` takes at least as many pages. */
  lemma PagesOfFewerAreMore(count: nat, shown: nat, pageSize: nat)
    requires 0 < count && 0 < shown <= pageSize
    ensures TotalPages(count, shown) >= TotalPages(count, pageSize)
  {
    var a, b := TotalPages(count, shown), TotalPages(count, pageSize);
    if a < b {
      MulMonotone(a, shown, pageSize);
      MulMonotone(pageSize, a, b - 1);
      assert false;
    }
  }

  lemma MulMonotone(x: nat, y: nat, z: nat)
    requires y <= z
    ensures x * y <= x * z
  {
  }

  /** `handleNextPage`: fetch the next link only when there is one. */
  function NextPageFetch(d: Pagination): (url: Option<string>)
    ensures url.Some? <==> d.next.Some?
    ensures url.Some? ==> url.value == d.next.value.href
  {
    if d.next.Some? then Some(d.next.value.href) else None
  }

  /** `handlePreviousPage`: fetch the previous link only when there is one. */
  function PreviousPageFetch(d: Pagination): (url: Option<string>)
    ensures url.Some? <==> d.previous.Some?
    ensures url.Some? ==> url.value == d.previous.value.href
  {
    if d.previous.Some? then Some(d.previous.value.href) else None
  }

  const PlaceholderImages: seq<string> := ["/recipe_1.png", "/recipe_2.png", "/recipe_3.png"]

  /** The placeholder image of the card at `index`: the images cycle. */
  function ImageIndex(index: nat): (i: nat)
    ensures i < |PlaceholderImages|
    ensures index < |PlaceholderImages| ==> i == index
  {
    index % |PlaceholderImages|
  }

  /** The images cycle: the card three places on shows the same image. */
  lemma ImageIndexCycles(index: nat)
    ensures ImageIndex(index + |PlaceholderImages|) == ImageIndex(index)
  {
  }
}
