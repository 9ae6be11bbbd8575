/** `execute_research`, the context loop of `synthesize_report` and the depth
    defaults of `main` in the research script. */
module Research {
  import opened Values
  import opened Services
  import opened GeminiSearch
  import opened GeminiScrape

  /** One entry of a query's `scraped_content`. */
  datatype Source = Source(title: string, url: string, snippet: string, content: string, error: string)

  /** One entry of `research_data`. */
  datatype QueryRecord = QueryRecord(query: string, searchResults: seq<SearchResult>, scraped: seq<Source>)

  /** A scraper as `execute_research` relies on it: every answer carries
      exactly one of content and error. */
  ghost predicate WellBehaved(scrape: string -> ScrapeResult) {
    forall url :: (ContentOf(scrape(url)) != "") != (ErrorOf(scrape(url)) != "")
  }

  /** The script's `scrape_web_content`, applied to a result's link. */
  function ScriptScraper(x: Extractors): string -> ScrapeResult {
    url => ScrapeWebContent(VStr(url), x)
  }

  /** The script's scraper is well behaved. */
  lemma ScriptScraperWellBehaved(x: Extractors)
    ensures WellBehaved(ScriptScraper(x))
  {
    forall url ensures (ContentOf(ScriptScraper(x)(url)) != "") != (ErrorOf(ScriptScraper(x)(url)) != "") {
      var r := ScrapeWebContent(VStr(url), x);
      assert ScriptScraper(x)(url) == r;
    }
  }

  /** The scraped entry for one search result: its fields, and the scraper's
      content and error with "" for the missing one. */
  function SourceOf(result: SearchResult, scrape: string -> ScrapeResult): (s: Source)
    ensures s.title == result.title && s.url == result.link && s.snippet == result.snippet
    ensures WellBehaved(scrape) ==> (s.content != "") != (s.error != "")
  {
    var scraped := scrape(result.link);
    Source(result.title, result.link, result.snippet, ContentOf(scraped), ErrorOf(scraped))
  }

  /** The record `execute_research` keeps for one query. */
  function RecordOf(query: string, creds: Credentials, resultsPerQuery: int, site: Option<string>,
                    provider: Request -> SearchOutcome, scrape: string -> ScrapeResult): QueryRecord
  {
    var results := Search(creds, query, resultsPerQuery, site, provider);
    QueryRecord(query, results, seq(|results|, k requires 0 <= k < |results| => SourceOf(results[k], scrape)))
  }

  /** `execute_research(queries, results_per_query, site_restriction)`: one
      record per query in query order, one scraped entry per search result in
      result order. `scrape` is the scraper it calls (`ScriptScraper` in the
      script). */
  method ExecuteResearch(queries: seq<string>, resultsPerQuery: int, site: Option<string>,
                         creds: Credentials, provider: Request -> SearchOutcome, scrape: string -> ScrapeResult)
    returns (data: seq<QueryRecord>)
    ensures |data| == |queries|
    ensures forall i | 0 <= i < |queries| ::
              data[i] == RecordOf(queries[i], creds, resultsPerQuery, site, provider, scrape)
  {
    data := [];
    var i := 0;
    while i < |queries|
      invariant 0 <= i <= |queries|
      invariant |data| == i
      invariant forall j | 0 <= j < i :: data[j] == RecordOf(queries[j], creds, resultsPerQuery, site, provider, scrape)
    {
      var query := queries[i];
      var results := GoogleSearch(creds, query, resultsPerQuery, site, provider);
      if results == [] {
        data := data + [QueryRecord(query, [], [])];
      } else {
        var scraped := ScrapeResults(results, scrape);
        data := data + [QueryRecord(query, results, scraped)];
      }
      i := i + 1;
    }
  }

  /** The inner loop of `execute_research`: one scraped entry per result, in order. */
  method ScrapeResults(results: seq<SearchResult>, scrape: string -> ScrapeResult) returns (scraped: seq<Source>)
    ensures |scraped| == |results|
    ensures forall k | 0 <= k < |results| :: scraped[k] == SourceOf(results[k], scrape)
  {
    scraped := [];
    var k := 0;
    while k < |results|
      invariant 0 <= k <= |results|
      invariant |scraped| == k
      invariant forall j | 0 <= j < k :: scraped[j] == SourceOf(results[j], scrape)
    {
      var url := results[k].link;
      var result := scrape(url);
      scraped := scraped + [Source(results[k].title, url, results[k].snippet, ContentOf(result), ErrorOf(result))];
      k := k + 1;
    }
  }

  /** A query without results keeps empty lists; otherwise every search
      result has exactly one scraped entry, at the same position, carrying its
      title and link and, from a well-behaved scraper, exactly one of content
      and error. */
  lemma RecordShape(query: string, creds: Credentials, resultsPerQuery: int, site: Option<string>,
                    provider: Request -> SearchOutcome, scrape: string -> ScrapeResult)
    requires WellBehaved(scrape)
    ensures var r := RecordOf(query, creds, resultsPerQuery, site, provider, scrape);
            && r.query == query
            && r.searchResults == Search(creds, query, resultsPerQuery, site, provider)
            && |r.scraped| == |r.searchResults|
            && (r.searchResults == [] ==> r.scraped == [])
            && forall k | 0 <= k < |r.scraped| ::
                 && r.scraped[k].url == r.searchResults[k].link
                 && r.scraped[k].title == r.searchResults[k].title
                 && (r.scraped[k].content != "") != (r.scraped[k].error != "")
  {
  }

  /** With the script's scraper, a result without a link (the search's
      default "") is not fetched: its entry carries the URL error and no content. */
  lemma MissingLinkIsError(result: SearchResult, x: Extractors)
    requires result.link == ""
    ensures SourceOf(result, ScriptScraper(x)).content == ""
    ensures SourceOf(result, ScriptScraper(x)).error == InvalidUrlMessage(VStr(""))
  {
    assert ScriptScraper(x)(result.link) == ScrapeWebContent(VStr(""), x);
  }

  /** Content longer than this is cut in the synthesis context. */
  const MaxContextContent := 10000

  /** The context after one scraped entry: unchanged unless the entry has
      content; then its title line, its URL line and its content, cut to
      10000 characters followed by "..." when longer, each appended in turn. */
  function WithSource(context: string, s: Source): (r: string)
    ensures s.content == "" ==> r == context
    ensures context <= r
  {
    if s.content == "" then context
    else
      var head := context + ("### Source: " + s.title + "\n") + ("URL: " + s.url + "\n\n");
      if |s.content| > MaxContextContent then head + (s.content[..MaxContextContent] + "...\n\n")
      else head + (s.content + "\n\n")
  }

  /** The context after a query's entries, in order. */
  function WithSources(context: string, sources: seq<Source>): (r: string)
    ensures context <= r
  {
    if sources == [] then context
    else WithSource(WithSources(context, sources[..|sources| - 1]), sources[|sources| - 1])
  }

  /** The context after one record: its query header directly after the
      old context, then its entries. */
  function WithQuery(context: string, r: QueryRecord): (c: string)
    ensures context + ("## Search Query: " + r.query + "\n\n") <= c
  {
    WithSources(context + ("## Search Query: " + r.query + "\n\n"), r.scraped)
  }

  /** The context after all records, in order. */
  function WithQueries(context: string, data: seq<QueryRecord>): (r: string)
    ensures context <= r
  {
    if data == [] then context
    else WithQuery(WithQueries(context, data[..|data| - 1]), data[|data| - 1])
  }

  /** The context handed to the language model. */
  function Context(topic: string, data: seq<QueryRecord>): (c: string)
    ensures "# Research Topic: " + topic + "\n\n" <= c
  {
    WithQueries("# Research Topic: " + topic + "\n\n", data)
  }

  /** The context loop of `synthesize_report`, growing the string as the script does. */
  method BuildContext(topic: string, data: seq<QueryRecord>) returns (context: string)
    ensures context == Context(topic, data)
  {
    context := "# Research Topic: " + topic + "\n\n";
    var start := context;
    var i := 0;
    while i < |data|
      invariant 0 <= i <= |data|
      invariant context == WithQueries(start, data[..i])
    {
      assert data[..i + 1][..i] == data[..i];
      var record := data[i];
      context := context + ("## Search Query: " + record.query + "\n\n");
      context := AppendSources(context, record.scraped);
      i := i + 1;
    }
    assert data[..i] == data;
  }

  /** The inner loop of the context builder: the entries of one query. */
  method AppendSources(start: string, sources: seq<Source>) returns (context: string)
    ensures context == WithSources(start, sources)
  {
    context := start;
    var k := 0;
    while k < |sources|
      invariant 0 <= k <= |sources|
      invariant context == WithSources(start, sources[..k])
    {
      assert sources[..k + 1][..k] == sources[..k];
      var item := sources[k];
      if item.content != "" {
        context := context + ("### Source: " + item.title + "\n");
        context := context + ("URL: " + item.url + "\n\n");
        if |item.content| > MaxContextContent {
          context := context + (item.content[..MaxContextContent] + "...\n\n");
        } else {
          context := context + (item.content + "\n\n");
        }
      }
      k := k + 1;
    }
    assert sources[..k] == sources;
  }

  /** Adding records only extends the context: every earlier query's part
      stays in place, so the headers appear in query order. */
  lemma {:induction false} ContextExtends(topic: string, data: seq<QueryRecord>, more: seq<QueryRecord>)
    ensures Context(topic, data) <= Context(topic, data + more)
    decreases |more|
  {
    if more != [] {
      var init := more[..|more| - 1];
      ContextExtends(topic, data, init);
      var all := data + more;
      assert all[..|all| - 1] == data + init;
      var before := WithQueries("# Research Topic: " + topic + "\n\n", data + init);
      assert Context(topic, all) == WithQuery(before, all[|all| - 1]);
      assert Context(topic, data) <= before <= Context(topic, all);
    } else {
      assert data + more == data;
    }
  }

  /** The context `execute_research` would give with no entry scraped
      successfully: the topic header and the query headers alone. */
  function Headers(context: string, data: seq<QueryRecord>): string {
    if data == [] then context
    else Headers(context, data[..|data| - 1]) + ("## Search Query: " + data[|data| - 1].query + "\n\n")
  }

  /** Entries without content leave no trace. */
  lemma {:induction false} NoContentNoBlocks(context: string, sources: seq<Source>)
    requires forall k | 0 <= k < |sources| :: sources[k].content == ""
    ensures WithSources(context, sources) == context
  {
    if sources != [] {
      NoContentNoBlocks(context, sources[..|sources| - 1]);
    }
  }

  /** When nothing was scraped successfully the context is the topic header
      followed by the query headers, in query order. */
  lemma {:induction false} NoContentContext(context: string, data: seq<QueryRecord>)
    requires forall i, k | 0 <= i < |data| && 0 <= k < |data[i].scraped| :: data[i].scraped[k].content == ""
    ensures WithQueries(context, data) == Headers(context, data)
  {
    if data != [] {
      var init := data[..|data| - 1];
      assert forall i | 0 <= i < |init| :: init[i] == data[i];
      NoContentContext(context, init);
      var last := data[|data| - 1];
      NoContentNoBlocks(Headers(context, init) + ("## Search Query: " + last.query + "\n\n"), last.scraped);
    }
  }

  /** An entry with content adds its title line and URL line, then at most
      10000 characters of its content: all of it followed by a blank line,
      or its first 10000 characters followed by "..." and a blank line. */
  lemma SourceBlockShape(context: string, s: Source)
    requires s.content != ""
    ensures var head := context + ("### Source: " + s.title + "\n") + ("URL: " + s.url + "\n\n");
            var r := WithSource(context, s);
            && head <= r
            && |r| <= |head| + MaxContextContent + 5
            && (|s.content| <= MaxContextContent ==> r[|head|..] == s.content + "\n\n")
            && (|s.content| > MaxContextContent ==> r[|head|..] == s.content[..MaxContextContent] + "...\n\n")
  {
  }

  /** The search parameters `main` settles on. */
  datatype Plan = Plan(numQueries: int, resultsPerQuery: int)

  /** The default number of queries and of results per query for a depth. */
  function DefaultPlan(depth: int): (p: Plan)
    ensures depth == 1 ==> p == Plan(3, 2)
    ensures depth == 2 ==> p == Plan(5, 3)
    ensures depth != 1 && depth != 2 ==> p == Plan(8, 4)
    ensures 0 < p.resultsPerQuery <= MaxResults
  {
    if depth == 1 then Plan(3, 2) else if depth == 2 then Plan(5, 3) else Plan(8, 4)
  }

  /** The plan for a depth and the optional `--queries` and `--results` values. */
  function ChosenPlan(depth: int, queries: Option<int>, results: Option<int>): (p: Plan)
    ensures p.numQueries == queries.GetOr(DefaultPlan(depth).numQueries)
    ensures p.resultsPerQuery == results.GetOr(DefaultPlan(depth).resultsPerQuery)
  {
    var d := DefaultPlan(depth);
    Plan(queries.GetOr(d.numQueries), results.GetOr(d.resultsPerQuery))
  }

  /** A deeper level asks for more queries and more results per query, and no
      default asks the provider for more than it returns in one page. */
  lemma DefaultsGrowWithDepth(d1: int, d2: int)
    requires 1 <= d1 < d2 <= 3
    ensures DefaultPlan(d1).numQueries < DefaultPlan(d2).numQueries
    ensures DefaultPlan(d1).resultsPerQuery < DefaultPlan(d2).resultsPerQuery
    ensures RequestCount(DefaultPlan(d1).resultsPerQuery) == DefaultPlan(d1).resultsPerQuery
    ensures RequestCount(DefaultPlan(d2).resultsPerQuery) == DefaultPlan(d2).resultsPerQuery
  {
  }
}
