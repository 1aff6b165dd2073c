/** The paged colour list of `InfiniteQueriesPage`: the URL `fetchColors`
    requests for a page parameter, and the `getNextPageParam` rule that
    decides which page comes next. */
module InfiniteQueries {
  import opened JsValue
  import opened JsNumber
  import opened QueryCache

  /** The key of the colours query, `["colors"]`. */
  const ColorsKey: QueryKey := ["colors"]

  /** Every page request is this string followed by the page parameter. */
  const ColorsPageUrlPrefix: string := "http://localhost:4000/colors?_limit=2&_page="

  /** `getNextPageParam` offers a next page only while fewer pages are loaded. */
  const MaxPages: nat := 4

  /** The page parameter `fetchColors` uses: the one the library passes,
      else the default `pageParam = 1` (the library passes none for the
      first page). */
  function PageParamOrDefault(pageParam: Option<int>): (p: int)
    ensures pageParam.None? ==> p == 1
    ensures pageParam.Some? ==> p == pageParam.value
  {
    match pageParam
    case Some(p) => p
    case None => 1
  }

  /** The URL `fetchColors` requests: the fixed prefix, then the page
      parameter in decimal, which can be read back from the URL. */
  function ColorsUrl(pageParam: Option<int>): (url: string)
    ensures |url| > |ColorsPageUrlPrefix| && url[..|ColorsPageUrlPrefix|] == ColorsPageUrlPrefix
    ensures ParseInt(url[|ColorsPageUrlPrefix|..]) == Some(PageParamOrDefault(pageParam))
  {
    var page := NumberToString(PageParamOrDefault(pageParam));
    var url := ColorsPageUrlPrefix + page;
    assert url[|ColorsPageUrlPrefix|..] == page;
    ParseIntOfNumberToString(PageParamOrDefault(pageParam));
    url
  }

  /** Different page parameters are requested from different URLs. */
  lemma ColorsUrlInjective(p: Option<int>, q: Option<int>)
    ensures ColorsUrl(p) == ColorsUrl(q) ==> PageParamOrDefault(p) == PageParamOrDefault(q)
  {
    if ColorsUrl(p) == ColorsUrl(q) {
      var a, b := PageParamOrDefault(p), PageParamOrDefault(q);
      assert ColorsUrl(p)[|ColorsPageUrlPrefix|..] == NumberToString(a);
      assert ColorsUrl(q)[|ColorsPageUrlPrefix|..] == NumberToString(b);
      NumberToStringInjective(a, b);
    }
  }

  /** `getNextPageParam(lastPage, pages)`: the number of the page after the
      loaded ones while fewer than four are loaded, `undefined` (no next
      page) from then on. The last page's content plays no part. */
  function GetNextPageParam(lastPage: Json, pages: seq<Json>): (next: Option<int>)
    ensures next.Some? <==> |pages| < MaxPages
    ensures next.Some? ==> next.value == |pages| + 1
  {
    if |pages| < 4 then Some(|pages| + 1) else None
  }

  /** The page parameters requested by `fetchNextPage` from the moment
      `pages` are loaded until `getNextPageParam` reports no next page;
      `response(p)` is the page the server returns for parameter `p`. */
  function RemainingPageParams(pages: seq<Json>, response: int -> Json): (params: seq<int>)
    requires |pages| >= 1
    ensures |pages| >= MaxPages ==> params == []
    ensures |pages| < MaxPages ==> |pages| + |params| <= MaxPages
    ensures forall i :: 0 <= i < |params| ==> |pages| < params[i] <= MaxPages
    decreases MaxPages - |pages|
  {
    match GetNextPageParam(pages[|pages| - 1], pages)
    case None => []
    case Some(p) => [p] + RemainingPageParams(pages + [response(p)], response)
  }

  /** Every page parameter the colours query requests when the next page is
      fetched for as long as there is one: first the default, then the rule. */
  function RequestedPageParams(response: int -> Json): (params: seq<int>)
    ensures 1 <= |params| <= MaxPages && params[0] == 1
    ensures forall i :: 0 <= i < |params| ==> 1 <= params[i] <= MaxPages
  {
    var first := PageParamOrDefault(None);
    [first] + RemainingPageParams([response(first)], response)
  }

  /** With `n` pages loaded, the pages still to come are `n + 1` up to four. */
  lemma {:induction false} RemainingPageParamsCountUp(pages: seq<Json>, response: int -> Json)
    requires 1 <= |pages| <= MaxPages
    ensures RemainingPageParams(pages, response) == seq(MaxPages - |pages|, i => |pages| + 1 + i)
    decreases MaxPages - |pages|
  {
    if |pages| < MaxPages {
      var p := |pages| + 1;
      RemainingPageParamsCountUp(pages + [response(p)], response);
    }
  }

  /** Whatever the server returns, the query requests pages 1, 2, 3 and 4,
      once each and in that order, and no other page. */
  lemma RequestedPageParamsAreOneToFour(response: int -> Json)
    ensures RequestedPageParams(response) == [1, 2, 3, 4]
  {
    RemainingPageParamsCountUp([response(1)], response);
  }

  /** So exactly `MaxPages` pages are requested, the i-th of them from the
      URL ending in `i + 1`. */
  lemma RequestedUrls(response: int -> Json)
    ensures |RequestedPageParams(response)| == MaxPages
    ensures forall i :: 0 <= i < |RequestedPageParams(response)| ==>
              ColorsUrl(Some(RequestedPageParams(response)[i])) == ColorsPageUrlPrefix + NatToString(i + 1)
  {
    RequestedPageParamsAreOneToFour(response);
  }
}
