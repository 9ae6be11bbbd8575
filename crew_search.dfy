/** `GoogleCustomSearchTool._run` of the crew: the credential checks, the
    precedence among the ways the agent framework passes the input, the
    request with its count cap and site suffix, and the mapping of the answer
    to a result list or an error dictionary. */
module CrewSearch {
  import opened Values
  import opened Text
  import opened Services
  import GeminiSearch

  /** The search parameters taken from one of the input forms. */
  datatype Params = Params(query: Value, numResults: Value, siteSearch: Value)

  const DefaultNumResults := VInt(3)

  /** `d.get("query")`, `d.get("num_results", 3)`, `d.get("site_search")` */
  function FromEntries(d: seq<(string, Value)>): (p: Params)
    ensures (forall k | 0 <= k < |d| :: d[k].0 != "query") ==> p.query == VNone
    ensures (forall k | 0 <= k < |d| :: d[k].0 != "num_results") ==> p.numResults == DefaultNumResults
    ensures (forall k | 0 <= k < |d| :: d[k].0 != "site_search") ==> p.siteSearch == VNone
    ensures forall k | FirstAt(d, "query", k) :: p.query == d[k].1
    ensures forall k | FirstAt(d, "num_results", k) :: p.numResults == d[k].1
    ensures forall k | FirstAt(d, "site_search", k) :: p.siteSearch == d[k].1
  {
    Params(Lookup(d, "query", VNone), Lookup(d, "num_results", DefaultNumResults), Lookup(d, "site_search", VNone))
  }

  /** The parameters `tool_input` alone supplies: a string that decodes as a
      JSON object is read as one, any other string is the query itself, a
      dict is read directly, and anything else supplies nothing. `decode` is
      `json.loads` restricted to objects (None when it raises), whose entries
      have unique keys as in the dict it builds. */
  function FromToolInput(toolInput: Value, decode: string -> Option<seq<(string, Value)>>): (p: Params)
    ensures toolInput.VStr? && decode(toolInput.s).Some? ==> p == FromEntries(decode(toolInput.s).value)
    ensures toolInput.VStr? && decode(toolInput.s).None? ==> p == Params(toolInput, DefaultNumResults, VNone)
    ensures toolInput.VDict? ==> p == FromEntries(toolInput.entries)
    ensures !toolInput.VStr? && !toolInput.VDict? ==> p == Params(VNone, DefaultNumResults, VNone)
  {
    match toolInput
    case VStr(s) =>
      (match decode(s)
       case Some(d) => FromEntries(d)
       case None => Params(toolInput, DefaultNumResults, VNone))
    case VDict(d) => FromEntries(d)
    case _ => Params(VNone, DefaultNumResults, VNone)
  }

  /** A string whose stripped form starts with `{` and ends with `}`. */
  predicate LooksLikeObject(s: string) {
    StartsWithChar(Strip(s), '{') && EndsWithChar(Strip(s), '}')
  }

  /** The decoded object of the single keyword argument, when there is exactly
      one, it is a string that looks like an object and it decodes. */
  function JsonKwarg(kwargs: seq<(string, Value)>, decode: string -> Option<seq<(string, Value)>>)
    : (r: Option<seq<(string, Value)>>)
    ensures r.Some? ==> |kwargs| == 1 && kwargs[0].1.VStr? && LooksLikeObject(kwargs[0].1.s) &&
                        r == decode(kwargs[0].1.s)
    ensures |kwargs| != 1 ==> r.None?
    ensures |kwargs| == 1 && kwargs[0].1.VStr? && LooksLikeObject(kwargs[0].1.s) ==> r == decode(kwargs[0].1.s)
  {
    if |kwargs| == 1 && kwargs[0].1.VStr? && LooksLikeObject(kwargs[0].1.s) then decode(kwargs[0].1.s) else None
  }

  /** The parameters the tool settles on: those of `tool_input` when they hold
      a truthy query; otherwise those of a single JSON keyword argument when
      they do; otherwise the keyword arguments read directly. */
  function ResolvedParams(toolInput: Value, kwargs: seq<(string, Value)>,
                          decode: string -> Option<seq<(string, Value)>>): Params
  {
    var first := FromToolInput(toolInput, decode);
    if Truthy(first.query) then first
    else
      var second := match JsonKwarg(kwargs, decode) case Some(d) => FromEntries(d) case None => first;
      if Truthy(second.query) then second else FromEntries(kwargs)
  }

  /** The if-cascade of `_run` that reassigns `query`, `num_results` and `site_search`. */
  method ResolveSearchParams(toolInput: Value, kwargs: seq<(string, Value)>,
                             decode: string -> Option<seq<(string, Value)>>)
    returns (query: Value, numResults: Value, siteSearch: Value)
    ensures Params(query, numResults, siteSearch) == ResolvedParams(toolInput, kwargs, decode)
  {
    query := VNone;
    numResults := VInt(3);
    siteSearch := VNone;
    if toolInput.VStr? {
      var parsed := decode(toolInput.s);
      if parsed.Some? {
        query := Lookup(parsed.value, "query", VNone);
        numResults := Lookup(parsed.value, "num_results", VInt(3));
        siteSearch := Lookup(parsed.value, "site_search", VNone);
      } else {
        query := toolInput;
      }
    } else if toolInput.VDict? {
      query := Lookup(toolInput.entries, "query", VNone);
      numResults := Lookup(toolInput.entries, "num_results", VInt(3));
      siteSearch := Lookup(toolInput.entries, "site_search", VNone);
    }
    if !Truthy(query) {
      if |kwargs| == 1 {
        var value := kwargs[0].1;
        if value.VStr? && StartsWithChar(Strip(value.s), '{') && EndsWithChar(Strip(value.s), '}') {
          var parsed := decode(value.s);
          if parsed.Some? {
            query := Lookup(parsed.value, "query", VNone);
            numResults := Lookup(parsed.value, "num_results", VInt(3));
            siteSearch := Lookup(parsed.value, "site_search", VNone);
          }
        }
      }
      if !Truthy(query) {
        query := Lookup(kwargs, "query", VNone);
        numResults := Lookup(kwargs, "num_results", VInt(3));
        siteSearch := Lookup(kwargs, "site_search", VNone);
      }
    }
  }

  /** A truthy query from `tool_input` wins: the keyword arguments are not consulted. */
  lemma ToolInputFirst(toolInput: Value, kwargs: seq<(string, Value)>, other: seq<(string, Value)>,
                       decode: string -> Option<seq<(string, Value)>>)
    requires Truthy(FromToolInput(toolInput, decode).query)
    ensures ResolvedParams(toolInput, kwargs, decode) == FromToolInput(toolInput, decode)
    ensures ResolvedParams(toolInput, kwargs, decode) == ResolvedParams(toolInput, other, decode)
  {
  }

  /** A non-empty string that is not JSON is the query, searched for the
      default three results without a site restriction. */
  lemma PlainStringIsQuery(s: string, kwargs: seq<(string, Value)>, decode: string -> Option<seq<(string, Value)>>)
    requires s != "" && decode(s).None?
    ensures ResolvedParams(VStr(s), kwargs, decode) == Params(VStr(s), VInt(3), VNone)
  {
  }

  /** Without a query from `tool_input`, a single JSON keyword argument with a
      query supplies all three parameters; without one either, the keyword
      arguments are read directly and the parameters of `tool_input` are dropped. */
  lemma KwargsPrecedence(toolInput: Value, kwargs: seq<(string, Value)>,
                         decode: string -> Option<seq<(string, Value)>>)
    requires !Truthy(FromToolInput(toolInput, decode).query)
    ensures JsonKwarg(kwargs, decode).Some? && Truthy(FromEntries(JsonKwarg(kwargs, decode).value).query) ==>
              ResolvedParams(toolInput, kwargs, decode) == FromEntries(JsonKwarg(kwargs, decode).value)
    ensures (JsonKwarg(kwargs, decode).None? || !Truthy(FromEntries(JsonKwarg(kwargs, decode).value).query)) ==>
              ResolvedParams(toolInput, kwargs, decode) == FromEntries(kwargs)
  {
  }

  /** How `_run` answers: a list of results or an error dictionary. */
  datatype Answer = ToolError(message: string) | ToolResults(results: seq<SearchResult>)

  const ApiKeyMissing := "GOOGLE_API_KEY environment variable is not set"
  const CseIdMissing := "GOOGLE_CSE_ID environment variable is not set"
  const QueryRequired := "Query is required for Google Search."
  // The fixed parts of the tool's messages.
  const HttpErrorText := "Google API HTTP error: "
  const SearchErrorText := "Error during Google search: "
  const NoResultsText := "No search results found for query: "

  /** An environment variable that is set to a non-empty value. */
  predicate Configured(v: Option<string>) {
    v.Some? && v.value != ""
  }

  /** A computation that returns a value or raises with a message. */
  datatype Outcome<T> = Ok(value: T) | Raised(message: string)

  /** `min(num_results, 10)`: an int is capped, a bool is kept (it is an int
      below 10), and any other value cannot be compared with 10. */
  function CappedNum(num: Value): (r: Outcome<Value>)
    ensures num.VInt? ==> r == Ok(VInt(GeminiSearch.RequestCount(num.i)))
    ensures num.VBool? ==> r == Ok(num)
    ensures r.Raised? <==> !num.VInt? && !num.VBool?
  {
    match num
    case VInt(i) => Ok(VInt(if 10 < i then 10 else i))
    case VBool(_) => Ok(num)
    case _ => Raised("'<' not supported between instances of 'int' and '" + TypeName(num) + "'")
  }

  /** `q += suffix`: a string is extended, a list gets the suffix's characters
      appended one by one, and any other value cannot be added to. */
  function Appended(q: Value, suffix: string): (r: Outcome<Value>)
    ensures q.VStr? ==> r == Ok(VStr(q.s + suffix))
    ensures q.VList? ==> r.Ok? && r.value.VList? && |r.value.items| == |q.items| + |suffix| &&
                         r.value.items[..|q.items|] == q.items &&
                         forall k | 0 <= k < |suffix| :: r.value.items[|q.items| + k] == VStr([suffix[k]])
    ensures r.Raised? <==> !q.VStr? && !q.VList?
  {
    match q
    case VStr(s) => Ok(VStr(s + suffix))
    case VList(items) => Ok(VList(items + seq(|suffix|, k requires 0 <= k < |suffix| => VStr([suffix[k]]))))
    case _ => Raised("unsupported operand type(s) for +=: '" + TypeName(q) + "' and 'str'")
  }

  /** The request `_run` sends, or the message of the `TypeError` raised while
      building it: the count first, then the site suffix, added whenever
      `site_search` is truthy. */
  function RequestFor(apiKey: string, cseId: string, p: Params): Outcome<Request> {
    match CappedNum(p.numResults)
    case Raised(m) => Raised(m)
    case Ok(num) =>
      if !Truthy(p.siteSearch) then Ok(Request(apiKey, cseId, p.query, num))
      else
        match Appended(p.query, " site:" + Display(p.siteSearch))
        case Raised(m) => Raised(m)
        case Ok(q) => Ok(Request(apiKey, cseId, q, num))
  }

  /** One item with this tool's defaults: "" for every missing field. */
  function ToResult(item: Item): (r: SearchResult)
    ensures r.title == Field(item, "title", "") && r.link == Field(item, "link", "") &&
            r.snippet == Field(item, "snippet", "")
    ensures "title" !in item ==> r.title == ""
    ensures "link" !in item ==> r.link == ""
    ensures "snippet" !in item ==> r.snippet == ""
  {
    SearchResult(Field(item, "title", ""), Field(item, "link", ""), Field(item, "snippet", ""))
  }

  /** The query as the no-results message shows it: a list query is the very
      list the request extended. */
  function ShownQuery(query: Value, request: Request): Value {
    if query.VList? then request.q else query
  }

  function NoResultsMessage(shown: Value): string {
    NoResultsText + Display(shown)
  }

  /** The answer for the provider's outcome. */
  function AnswerOf(outcome: SearchOutcome, shown: Value): (a: Answer)
    ensures outcome.HttpFailure? ==> a == ToolError(HttpErrorText + outcome.text)
    ensures outcome.OtherFailure? ==> a == ToolError(SearchErrorText + outcome.text)
    ensures outcome.Answered? && (outcome.items.None? || outcome.items.value == []) ==>
              a == ToolError(NoResultsMessage(shown))
    ensures outcome.Answered? && outcome.items.Some? && outcome.items.value != [] ==>
              a.ToolResults? && |a.results| == |outcome.items.value| &&
              forall k | 0 <= k < |a.results| :: a.results[k] == ToResult(outcome.items.value[k])
  {
    match outcome
    case HttpFailure(text, _) => ToolError(HttpErrorText + text)
    case OtherFailure(text) => ToolError(SearchErrorText + text)
    case Answered(items) =>
      if items.None? || items.value == [] then ToolError(NoResultsMessage(shown))
      else ToolResults(seq(|items.value|, k requires 0 <= k < |items.value| => ToResult(items.value[k])))
  }

  /** What `_run(tool_input, **kwargs)` returns, given the two environment
      variables, `json.loads` and the search provider. */
  function SearchToolAnswer(apiKey: Option<string>, cseId: Option<string>, toolInput: Value,
                            kwargs: seq<(string, Value)>, decode: string -> Option<seq<(string, Value)>>,
                            provider: Request -> SearchOutcome): Answer
  {
    if !Configured(apiKey) then ToolError(ApiKeyMissing)
    else if !Configured(cseId) then ToolError(CseIdMissing)
    else ParamsAnswer(apiKey.value, cseId.value, ResolvedParams(toolInput, kwargs, decode), provider)
  }

  /** The answer once the parameters are settled. */
  function ParamsAnswer(apiKey: string, cseId: string, p: Params, provider: Request -> SearchOutcome): Answer {
    if !Truthy(p.query) then ToolError(QueryRequired)
    else
      match RequestFor(apiKey, cseId, p)
      case Raised(m) => ToolError(SearchErrorText + m)
      case Ok(request) => AnswerOf(provider(request), ShownQuery(p.query, request))
  }

  /** `_run`, step by step: the result list is built item by item. */
  method RunSearchTool(apiKey: Option<string>, cseId: Option<string>, toolInput: Value,
                       kwargs: seq<(string, Value)>, decode: string -> Option<seq<(string, Value)>>,
                       provider: Request -> SearchOutcome)
    returns (answer: Answer)
    ensures answer == SearchToolAnswer(apiKey, cseId, toolInput, kwargs, decode, provider)
  {
    if !Configured(apiKey) {
      return ToolError(ApiKeyMissing);
    }
    if !Configured(cseId) {
      return ToolError(CseIdMissing);
    }
    var query, numResults, siteSearch := ResolveSearchParams(toolInput, kwargs, decode);
    answer := RunSearch(apiKey.value, cseId.value, Params(query, numResults, siteSearch), provider);
  }

  /** The rest of `_run` once the parameters are settled: the query check,
      the request, and the result list built item by item. */
  method RunSearch(apiKey: string, cseId: string, p: Params, provider: Request -> SearchOutcome)
    returns (answer: Answer)
    ensures answer == ParamsAnswer(apiKey, cseId, p, provider)
  {
    var query := p.query;
    if !Truthy(query) {
      return ToolError(QueryRequired);
    }
    var request := RequestFor(apiKey, cseId, p);
    if request.Raised? {
      return ToolError(SearchErrorText + request.message);
    }
    var outcome := provider(request.value);
    if outcome.HttpFailure? {
      return ToolError(HttpErrorText + outcome.text);
    }
    if outcome.OtherFailure? {
      return ToolError(SearchErrorText + outcome.text);
    }
    var items := outcome.items.GetOr([]);
    if items == [] {
      return ToolError(NoResultsMessage(ShownQuery(query, request.value)));
    }
    var formatted: seq<SearchResult> := [];
    var k := 0;
    while k < |items|
      invariant 0 <= k <= |items|
      invariant |formatted| == k
      invariant forall j | 0 <= j < k :: formatted[j] == ToResult(items[j])
    {
      formatted := formatted + [ToResult(items[k])];
      k := k + 1;
    }
    answer := ToolResults(formatted);
  }

  /** The API key is checked before the engine id, both before anything else;
      with both set, a missing query is answered without a search. */
  lemma ChecksComeFirst(apiKey: Option<string>, cseId: Option<string>, toolInput: Value,
                        kwargs: seq<(string, Value)>, decode: string -> Option<seq<(string, Value)>>,
                        provider: Request -> SearchOutcome, other: Request -> SearchOutcome)
    ensures !Configured(apiKey) ==>
              SearchToolAnswer(apiKey, cseId, toolInput, kwargs, decode, provider) == ToolError(ApiKeyMissing)
    ensures Configured(apiKey) && !Configured(cseId) ==>
              SearchToolAnswer(apiKey, cseId, toolInput, kwargs, decode, provider) == ToolError(CseIdMissing)
    ensures Configured(apiKey) && Configured(cseId) && !Truthy(ResolvedParams(toolInput, kwargs, decode).query) ==>
              SearchToolAnswer(apiKey, cseId, toolInput, kwargs, decode, provider) == ToolError(QueryRequired) &&
              SearchToolAnswer(apiKey, cseId, toolInput, kwargs, decode, other) == ToolError(QueryRequired)
  {
  }

  /** For a string query and an int count the request carries the engine id,
      at most 10 as the count, and the query with ` site:<site>` appended
      whenever the site is truthy. */
  lemma RequestShape(apiKey: string, cseId: string, q: string, n: int, site: Value)
    ensures var r := RequestFor(apiKey, cseId, Params(VStr(q), VInt(n), site));
            && r.Ok?
            && r.value.cx == cseId && r.value.developerKey == apiKey
            && r.value.num == VInt(GeminiSearch.RequestCount(n))
            && r.value.q == VStr(if Truthy(site) then q + " site:" + Display(site) else q)
  {
  }

  /** Unlike the research script's search, the tool adds the site suffix even
      to a query that already names a site. */
  lemma SiteAddedEvenWhenNamed(apiKey: string, cseId: string, q: string, n: int, site: string)
    requires Contains(q, "site:") && site != "" && !GeminiSearch.NoRestriction(Some(site))
    ensures RequestFor(apiKey, cseId, Params(VStr(q), VInt(n), VStr(site))).value.q == VStr(q + " site:" + site)
    ensures GeminiSearch.FinalQuery(q, Some(site)) == q
  {
  }

  /** A response without items, or with an empty list, is an error dictionary
      here, where the research script's search returns an empty list. */
  lemma EmptyItemsIsError(items: Option<seq<Item>>, shown: Value)
    requires items.None? || items.value == []
    ensures AnswerOf(Answered(items), shown) == ToolError(NoResultsMessage(shown))
    ensures GeminiSearch.ResultsOf(Answered(items)) == []
  {
  }

  /** A non-numeric count is caught as an error of the search, before the provider is asked. */
  lemma TextCountIsError(apiKey: string, cseId: string, query: Value, count: string, site: Value)
    ensures RequestFor(apiKey, cseId, Params(query, VStr(count), site)) ==
              Raised("'<' not supported between instances of 'int' and 'str'")
  {
  }

  /** A list query is extended in place, so the no-results message shows the
      list with the characters of ` site:<site>` appended, one per entry. */
  lemma ListQueryAliasing(apiKey: string, cseId: string, items: seq<Value>, n: int, site: string)
    requires site != ""
    ensures var p := Params(VList(items), VInt(n), VStr(site));
            var r := RequestFor(apiKey, cseId, p);
            var suffix := " site:" + site;
            && r.Ok?
            && var shown := ShownQuery(p.query, r.value);
            && shown.VList?
            && |shown.items| == |items| + |suffix|
            && shown.items[..|items|] == items
            && forall k | 0 <= k < |suffix| :: shown.items[|items| + k] == VStr([suffix[k]])
  {
    assert Display(VStr(site)) == site;
  }
}
