/** `google_search` of the research script: normalise the site restriction,
    build the query and the result count, call the provider and map its items. */
module GeminiSearch {
  import opened Values
  import opened Text
  import opened Services

  /** The provider's largest page of results. */
  const MaxResults := 10

  /** The credentials read once from the environment at start-up. */
  datatype Credentials = Credentials(searchApiKey: string, cseId: string)

  /** A site value of None, "", "null" or "none" (in any case) means no restriction. */
  predicate NoRestriction(site: Option<string>) {
    site.None? || site.value == "" || Lower(site.value) == "null" || Lower(site.value) == "none"
  }

  /** The site check ignores case: two sites that agree letter for letter up
      to case are both restrictions or both not. */
  lemma NoRestrictionIgnoresCase(a: string, b: string)
    requires |a| == |b| && forall k | 0 <= k < |a| :: LowerChar(a[k]) == LowerChar(b[k])
    ensures NoRestriction(Some(a)) == NoRestriction(Some(b))
  {
    assert Lower(a) == Lower(b);
  }

  /** The query sent to the provider: ` site:<site>` is appended once for a real
      restriction, and not at all when the query already names a site. */
  function FinalQuery(query: string, site: Option<string>): (r: string)
    ensures NoRestriction(site) ==> r == query
    ensures Contains(query, "site:") ==> r == query
    ensures !NoRestriction(site) && !Contains(query, "site:") ==> r == query + " site:" + site.value
    ensures query <= r
  {
    if NoRestriction(site) then query
    else if Contains(query, "site:") then query
    else query + " site:" + site.value
  }

  /** `min(num_results, 10)` */
  function RequestCount(numResults: int): (n: int)
    ensures n <= MaxResults && n <= numResults
    ensures n == MaxResults || n == numResults
  {
    if numResults < MaxResults then numResults else MaxResults
  }

  function SearchRequest(creds: Credentials, query: string, numResults: int, site: Option<string>): Request {
    Request(creds.searchApiKey, creds.cseId, VStr(FinalQuery(query, site)), VInt(RequestCount(numResults)))
  }

  /** One provider item with this script's defaults for missing fields. */
  function ToResult(item: Item): (r: SearchResult)
    ensures "title" !in item ==> r.title == "No title"
    ensures "link" !in item ==> r.link == ""
    ensures "snippet" !in item ==> r.snippet == "No description available"
    ensures "title" in item ==> r.title == item["title"]
    ensures "link" in item ==> r.link == item["link"]
    ensures "snippet" in item ==> r.snippet == item["snippet"]
  {
    SearchResult(Field(item, "title", "No title"), Field(item, "link", ""),
                 Field(item, "snippet", "No description available"))
  }

  /** The list `google_search` returns for a given provider answer: the items
      in provider order, or nothing on a response without items and on every
      failure. */
  function ResultsOf(outcome: SearchOutcome): (r: seq<SearchResult>)
    ensures !outcome.Answered? ==> r == []
    ensures outcome.Answered? && outcome.items.None? ==> r == []
    ensures outcome.Answered? && outcome.items.Some? ==>
              |r| == |outcome.items.value| &&
              forall k | 0 <= k < |r| :: r[k] == ToResult(outcome.items.value[k])
  {
    match outcome
    case Answered(Some(items)) => seq(|items|, k requires 0 <= k < |items| => ToResult(items[k]))
    case _ => []
  }

  /** What `google_search(query, num_results, site_search)` returns. */
  function Search(creds: Credentials, query: string, numResults: int, site: Option<string>,
                  provider: Request -> SearchOutcome): (r: seq<SearchResult>)
    ensures var o := provider(SearchRequest(creds, query, numResults, site));
            && (!o.Answered? ==> r == [])
            && (o.Answered? && o.items.Some? ==> |r| == |o.items.value|)
  {
    ResultsOf(provider(SearchRequest(creds, query, numResults, site)))
  }

  /** The search itself, building the result list item by item as the script does. */
  method GoogleSearch(creds: Credentials, query: string, numResults: int, site: Option<string>,
                      provider: Request -> SearchOutcome)
    returns (results: seq<SearchResult>)
    ensures results == Search(creds, query, numResults, site, provider)
  {
    var siteSearch := if NoRestriction(site) then None else site;
    var finalQuery := query;
    if siteSearch.Some? && !Contains(query, "site:") {
      finalQuery := query + " site:" + siteSearch.value;
    }
    var outcome := provider(Request(creds.searchApiKey, creds.cseId, VStr(finalQuery), VInt(RequestCount(numResults))));
    results := [];
    if outcome.Answered? && outcome.items.Some? {
      var items := outcome.items.value;
      var k := 0;
      while k < |items|
        invariant 0 <= k <= |items|
        invariant |results| == k
        invariant forall j | 0 <= j < k :: results[j] == ToResult(items[j])
      {
        results := results + [ToResult(items[k])];
        k := k + 1;
      }
    }
  }

  /** The HttpError handler reads `error_details["error"]["errors"][0]["reason"]`
      with `.get` defaults; it completes only when the body decodes to a dict
      whose "error" entry (default `{}`) is a dict whose "errors" entry
      (default `[{}]`) is a non-empty list starting with a dict. */
  predicate ErrorDetailsReadable(details: Option<Value>) {
    && details.Some?
    && details.value.VDict?
    && var err := Get(details.value, "error", VDict([]));
    && err.VDict?
    && var errs := Get(err, "errors", VList([VDict([])]));
    && errs.VList? && errs.items != [] && errs.items[0].VDict?
  }

  /** `google_search` as written: None when an exception escapes, which
      happens when an HttpError's body cannot be read by the handler, since an
      exception raised inside `except HttpError` is not caught by the
      `except Exception` beside it. */
  function SearchAsWritten(creds: Credentials, query: string, numResults: int, site: Option<string>,
                           provider: Request -> SearchOutcome, loads: string -> Option<Value>)
    : (r: Option<seq<SearchResult>>)
    ensures r.Some? ==> r.value == Search(creds, query, numResults, site, provider)
    ensures r.None? <==> var o := provider(SearchRequest(creds, query, numResults, site));
                         o.HttpFailure? && !ErrorDetailsReadable(loads(o.body))
  {
    var outcome := provider(SearchRequest(creds, query, numResults, site));
    if outcome.HttpFailure? && !ErrorDetailsReadable(loads(outcome.body)) then None
    else Some(ResultsOf(outcome))
  }

  /** An HTTP error page that is not JSON (a proxy's HTML "502 Bad Gateway")
      makes the as-written search raise instead of returning `[]`. */
  lemma HtmlErrorBodyEscapes(creds: Credentials, query: string)
    ensures var provider := (r: Request) => HttpFailure("<HttpError 502>", "<html>Bad Gateway</html>");
            var loads := (s: string) => None;
            SearchAsWritten(creds, query, 5, None, provider, loads) == None &&
            Search(creds, query, 5, None, provider) == []
  {
  }
}
