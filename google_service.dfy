/** The Google search service: the request parameters it sends and how each
    upstream item becomes a result, with a per-item scrape that may fail. */
module GoogleService {
  import opened Wrappers
  import opened Interfaces

  /** The query parameters of the Custom Search request. */
  datatype SearchRequest = SearchRequest(q: string, key: string, cx: string, start: int)

  const FileTypeFilter: string := " filetype:html"

  /** Stride between the start indices of consecutive pages. */
  const PageStride: int := 3

  function SearchParams(searchQuery: string, pageNumber: int, key: string, cx: string): (r: SearchRequest)
    ensures r.q == searchQuery + FileTypeFilter && r.key == key && r.cx == cx
    ensures r.start == pageNumber * PageStride + 1
  {
    SearchRequest(searchQuery + FileTypeFilter, key, cx, pageNumber * PageStride + 1)
  }

  /** Page 0 starts at index 1, each next page 3 further on, so distinct
      pages never ask for the same start index. */
  lemma PageStarts(q: string, n: int, m: int, key: string, cx: string)
    ensures SearchParams(q, 0, key, cx).start == 1
    ensures SearchParams(q, n + 1, key, cx).start == SearchParams(q, n, key, cx).start + PageStride
    ensures n != m ==> SearchParams(q, n, key, cx).start != SearchParams(q, m, key, cx).start
  {
  }

  /** `item.pagemap?.metatags?.[0]`. */
  function FirstMetaTag(item: SearchItem): (t: Option<MetaTag>)
    ensures t.Some? <==> item.pagemap.Some? && item.pagemap.value.metatags.Some? && |item.pagemap.value.metatags.value| > 0
    ensures t.Some? ==> t.value == item.pagemap.value.metatags.value[0]
  {
    match item.pagemap
    case None => None
    case Some(pagemap) =>
      match pagemap.metatags
      case None => None
      case Some(tags) => if |tags| > 0 then Some(tags[0]) else None
  }

  /** `…?.['og:title']`: absent when any link of the chain is absent. */
  function OgTitle(item: SearchItem): Option<string> {
    match FirstMetaTag(item)
    case None => None
    case Some(tag) => tag.ogTitle
  }

  /** `…?.['twitter:description']`. */
  function TwitterDescription(item: SearchItem): Option<string> {
    match FirstMetaTag(item)
    case None => None
    case Some(tag) => tag.twitterDescription
  }

  /** The result for one upstream item, given the outcome of scraping its
      link (fetch, clean, convert to markdown). */
  function ShapeItem(item: SearchItem, scraped: Result<string, Exception>): (r: Item)
    ensures r.link == item.link
    ensures r.title == OgTitle(item).GetOr(item.title)
    ensures r.snippet == TwitterDescription(item).GetOr(item.snippet)
    ensures r.content == Some(if scraped.Success? then scraped.value else "")
  {
    match scraped
    case Success(markdown) =>
      Item(OgTitle(item).GetOr(item.title), item.link, TwitterDescription(item).GetOr(item.snippet), Some(markdown))
    case Failure(_) =>
      Item(OgTitle(item).GetOr(item.title), item.link, TwitterDescription(item).GetOr(item.snippet), Some(""))
  }

  /** The fallback only replaces a missing meta value: a present one, even
      the empty string, wins over the item's own title. */
  lemma OgTitleWins(item: SearchItem, scraped: Result<string, Exception>)
    requires FirstMetaTag(item).Some? && FirstMetaTag(item).value.ogTitle.Some?
    ensures ShapeItem(item, scraped).title == FirstMetaTag(item).value.ogTitle.value
  {
  }

  /** A scrape failure changes only the content of its own item. */
  lemma ScrapeFailureOnlyEmptiesContent(item: SearchItem, markdown: string, e: Exception)
    ensures var ok := ShapeItem(item, Success(markdown));
      var failed := ShapeItem(item, Failure(e));
      failed == ok.(content := Some(""))
  {
  }

  /** `search`: send the request; a failure of the request itself propagates
      to the caller; otherwise every upstream item is shaped, in order, with
      its own scrape outcome. */
  method Search(
    searchQuery: string,
    pageNumber: int,
    key: string,
    cx: string,
    fetch: SearchRequest -> Result<seq<SearchItem>, Exception>,
    scrape: string -> Result<string, Exception>)
    returns (r: Result<seq<Item>, Exception>)
    ensures var response := fetch(SearchParams(searchQuery, pageNumber, key, cx));
      && (response.Failure? ==> r == Failure(response.error))
      && (response.Success? ==>
            && r.Success?
            && |r.value| == |response.value|
            && forall i :: 0 <= i < |response.value| ==>
                 r.value[i] == ShapeItem(response.value[i], scrape(response.value[i].link)))
  {
    var params := SearchParams(searchQuery, pageNumber, key, cx);
    var response := fetch(params);
    if response.Failure? {
      return Failure(response.error);
    }
    var upstream := response.value;
    var items: seq<Item> := [];
    var i := 0;
    while i < |upstream|
      invariant 0 <= i <= |upstream|
      invariant |items| == i
      invariant forall k :: 0 <= k < i ==> items[k] == ShapeItem(upstream[k], scrape(upstream[k].link))
    {
      var item := upstream[i];
      var scraped := scrape(item.link);
      items := items + [ShapeItem(item, scraped)];
      i := i + 1;
    }
    r := Success(items);
  }
}
