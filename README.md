# Deep research pipeline — a Dafny model of its core

The repository is a command-line "deep research" tool. `gemini_research.py`
does four things in turn:

- it asks a language model for search queries on a topic;
- it runs each query against the Google Custom Search API;
- it scrapes every result page;
- it assembles one text context from the results, and a second model call
  turns that context into a report.

`research_crew.py` wraps the same search and scrape as two agent tools for
the CrewAI framework.

This project models the deterministic core of both files:

- the query planner's reply parser (a list literal, then quoted or
  bulleted lines, then a comma split, then five fixed templates);
- the search request and the mapping of its answer;
- the scraper's URL and Content-Type guards, its 100-character article
  threshold with an HTML fallback, its line cleaning and its 15000-character
  truncation;
- the research loop and the synthesis context it feeds;
- the depth defaults of `main`;
- the two crew tools' input precedence, request building and error answers.

Collaborators are parameters of the model, each written as a function:

- the language model's reply;
- Python's `eval` and `json.loads`;
- the search provider;
- the HTTP GET;
- newspaper3k;
- the BeautifulSoup/markdownify fallback.

A collaborator that raises is modelled as `None` or as a failure
constructor. Python's dynamic values are the `Values.Value` datatype, and a
dict is an ordered list of entries. Each loop of the source is a `method`
proved equal to a specification function, and the properties are proved
about those functions.

Modules:

- `Values`: the values and their `str()`.
- `Text`: `strip`, `split`, `join`, `splitlines`, `lower`, with round trips.
- `Services`: the shapes of the collaborators' answers.
- `GeminiSearch`, `GeminiScrape`, `QueryPlanner`, `Research`: the script.
- `CrewSearch`, `CrewScrape`: the crew tools.

Behaviour of the code worth knowing:

- A reply of `[]` yields no queries at all (`QueryPlanner.EmptyListReply`).
- The fallback has exactly five templates and is cut to the requested
  number. The templates are not repeated to reach a larger number.
- The comma split works on the stripped reply and keeps empty pieces.
- The crew search tool appends ` site:<site>` even when the query already
  names a site. The script's search does not (`CrewSearch.SiteAddedEvenWhenNamed`).
- The crew search tool answers an empty result list with an error
  dictionary. The script's search returns `[]` (`CrewSearch.EmptyItemsIsError`).

## Model

| member | source | states |
|---|---|---|
| GeminiSearch.NoRestriction | gemini_research.py:51 | A site of None, "", or a string that lower-cases to "null" or "none" means no restriction. Its property is `NoRestrictionIgnoresCase`. |
| GeminiSearch.NoRestrictionIgnoresCase | gemini_research.py:51 | Two sites that agree letter for letter up to case are both restrictions or both not. |
| GeminiSearch.FinalQuery | gemini_research.py:51-58 | A site of None, "", "null" or "none" (any case) adds nothing. So does a query that already contains "site:". Otherwise the query gets ` site:<site>` appended exactly once, and the query is always a prefix of the result. |
| GeminiSearch.SearchRequest | gemini_research.py:66-71 | The request carries the key, the engine id, `FinalQuery` and `RequestCount`. `GoogleSearch` is proved against it. |
| GeminiSearch.RequestCount | gemini_research.py:69 | The count sent is `min(num_results, 10)`: at most 10, at most the request, and equal to one of them. |
| GeminiSearch.ToResult | gemini_research.py:73-86 | A field present in the item is copied. A missing title becomes "No title", a missing link "", and a missing snippet "No description available". |
| Services.Field | gemini_research.py:77-79 | `item.get(key, default)` on a result item: the value when the key is present, else the default. The crew's `CrewSearch.ToResult` uses it at research_crew.py:158-160 with "" defaults. |
| GeminiSearch.ResultsOf | gemini_research.py:73-102 | Every failure and every answer without items give `[]`. Otherwise there is one result per item, in provider order. |
| GeminiSearch.GoogleSearch | gemini_research.py:37-102 | The imperative search equals `ResultsOf` applied to the provider's answer for the normalised request. |
| GeminiSearch.Search | gemini_research.py:37-102 | The corrected search: every failure, an HTTP error included, gives `[]`; an answer with items gives one result per item. |
| GeminiSearch.SearchAsWritten | gemini_research.py:88-102 | The search as written raises exactly when the provider reports an HTTP error whose body the handler cannot read. Otherwise it returns what the corrected `Search` returns. |
| GeminiSearch.HtmlErrorBodyEscapes | gemini_research.py:88-91 | For a non-JSON error page the as-written search raises, where the corrected search returns `[]`. |
| GeminiSearch.ErrorDetailsReadable | gemini_research.py:89-91 | The handler completes only on a decoded dict whose "error" entry is a dict whose "errors" entry is a non-empty list starting with a dict. `SearchAsWritten` raises exactly when this fails. |
| GeminiScrape.Truncate | gemini_research.py:175-178 | Text of up to 15000 characters is kept. Longer text keeps its first 15000 characters followed by the truncation marker. |
| GeminiScrape.ChosenText | gemini_research.py:143-164 | Article text of at least 100 characters is used. Otherwise the fallback's text is used if it has at least 100 characters. The result is None exactly when both are shorter. |
| GeminiScrape.ScrapeWebContent | gemini_research.py:105-202 | Every answer carries exactly one of a non-empty content and a non-empty error. A value that is not a string starting with "http" gets the input error. |
| GeminiScrape.UrlAcceptable | gemini_research.py:117 | Only a string starting with "http" is fetched. `BadUrlNeverFetched` states the rejection. |
| GeminiScrape.InvalidUrlMessage | gemini_research.py:117-120 | The input error, quoting `str()` of the value, is never empty. |
| GeminiScrape.NotHtmlMessage | gemini_research.py:137-141 | The Content-Type skip error is never empty. |
| GeminiScrape.TooLittleTextMessage | gemini_research.py:161-164 | The extraction error is never empty. |
| GeminiScrape.NothingAfterCleaningMessage | gemini_research.py:169-172 | The nothing-after-cleaning error is never empty. |
| GeminiScrape.FetchErrorMessage | gemini_research.py:182-193 | Each of the timeout, redirect, network and unexpected errors of the fetch has a non-empty message. |
| GeminiScrape.ArticleErrorMessage | gemini_research.py:194-197 | The newspaper3k error is never empty. |
| GeminiScrape.UnexpectedMessage | gemini_research.py:198-202 | The final handler's message, with the exception's type name, is never empty. |
| GeminiScrape.CleanLines | gemini_research.py:166-167 | The non-empty stripped lines, joined with newlines. `CleanedLinesAreTrimmed` and `NothingLeftIffBlank` state its result. |
| GeminiScrape.Finish | gemini_research.py:166-180 | Cleaned text that is blank gives the nothing-after-cleaning error. Otherwise the truncated text is the content, so there is exactly one of content and error. |
| GeminiScrape.BadUrlNeverFetched | gemini_research.py:117-120 | A rejected URL is answered before the fetch, whatever the collaborators do. |
| GeminiScrape.NonHtmlNeverParsed | gemini_research.py:130-141 | A Content-Type without "html" (lower-cased) is answered with the skip error before the page is parsed. |
| GeminiScrape.FallbackThreshold | gemini_research.py:143-164 | Article text of 100+ characters is cleaned as is, whatever the fallback. Below 100 the fallback text is cleaned if long enough. Otherwise the answer is the extraction error. |
| GeminiScrape.FromArticleText | gemini_research.py:143-180 | From HTML onwards, exactly one of content and error. |
| GeminiScrape.ScrapePage | gemini_research.py:137-202 | After the fetch, every article outcome, including an unexpected exception from newspaper3k, gives exactly one of content and error. |
| GeminiScrape.StrippedLines | gemini_research.py:166 | One stripped line per line of the text, in order. |
| GeminiScrape.CleanedLinesAreTrimmed | gemini_research.py:166-170 | No line of non-empty cleaned text is empty, and every line is already trimmed. |
| GeminiScrape.NothingLeftIffBlank | gemini_research.py:166-172 | Cleaning leaves nothing exactly when every line of the text is blank. |
| GeminiScrape.NonEmptyIsEmpty | gemini_research.py:167 | The filter of empty lines keeps nothing exactly when every line is empty. |
| GeminiScrape.NonEmptyAppend | gemini_research.py:167 | The filter works line by line: a concatenation keeps the lines of each part, in order. |
| GeminiScrape.NonEmptySingle | gemini_research.py:167 | One line is kept exactly when it is not empty. |
| GeminiScrape.NonEmpty | gemini_research.py:167 | Every kept line is a non-empty line of the input, and every non-empty input line is kept. There are no more kept lines than input lines. |
| QueryPlanner.Slice | gemini_research.py:245 | Python's `s[:n]` is a prefix, with length `min(n, len)` for `n >= 0` and `len + n` (not below 0) for negative `n`. |
| QueryPlanner.FallbackShape | gemini_research.py:275-283 | There are five templates, each the topic followed by a modifier, and all distinct. |
| QueryPlanner.StringList | gemini_research.py:241-245 | A value is used as the query list exactly when it is a list of strings. The result then has those strings in order. |
| QueryPlanner.LooksLikeList | gemini_research.py:241 | The list-literal gate: the stripped reply starts with "[" and ends with "]". `ListLiteralPath` states what each side of the gate leads to. |
| QueryPlanner.QuotedQuery | gemini_research.py:251-255 | A quoted line's query is already trimmed. |
| QueryPlanner.QuotedQueryInfix | gemini_research.py:251-255 | A quoted line's query is a contiguous part of the line, and everything around it is a quote, a comma or whitespace. |
| QueryPlanner.BulletQuery | gemini_research.py:256-260 | A bulleted line's query is already trimmed. |
| QueryPlanner.BulletQueryInfix | gemini_research.py:256-260 | A bulleted line's query is a contiguous part of the line after its first character, and everything else after that character is whitespace. |
| QueryPlanner.LineQuery | gemini_research.py:250-259 | A line contributes only when its stripped form starts with `"`, `'`, `-` or `*`, and the query it contributes is non-empty and trimmed. |
| QueryPlanner.LineQueryConverse | gemini_research.py:250-259 | A stripped line starting with a quote contributes its quoted query, and one starting with `-` or `*` (and no quote) its bullet query, whenever that query is not empty. |
| QueryPlanner.FilterMapAppend | gemini_research.py:248-260 | Collecting over a concatenation of lines gives the queries of each part, in order. |
| QueryPlanner.FilterMapSingle | gemini_research.py:250-260 | One line gives its contribution, if any. |
| QueryPlanner.FilterMapAt | gemini_research.py:248-260 | The collected queries are those of the lines before a line, that line's contribution, and those of the lines after it. |
| QueryPlanner.FilterMapFrom | gemini_research.py:248-260 | Every collected result comes from one of the lines. |
| QueryPlanner.LineQueriesFromLines | gemini_research.py:248-260 | Every collected query is the contribution of some line of the reply. |
| QueryPlanner.LineQueriesCollects | gemini_research.py:248-260 | Every line that contributes a query has it collected. |
| QueryPlanner.FilterMapSnoc | gemini_research.py:249-260 | One more line appends its contribution, if any, at the end. |
| QueryPlanner.ParseLines | gemini_research.py:248-260 | The imperative line loop collects exactly `LineQueries` of the reply's lines. |
| QueryPlanner.CommaQueries | gemini_research.py:267-270 | There is one trimmed entry per comma-separated piece, in order. |
| QueryPlanner.CommaPathCount | gemini_research.py:267-270 | The comma path yields one query more than the reply has commas. |
| QueryPlanner.ListLiteralPath | gemini_research.py:239-272 | A bracketed reply that `eval` turns into a list of strings is used as is. One that `eval` rejects goes straight to the templates. Any other reply goes to the line parser, then the comma split. |
| QueryPlanner.FallbackQueries | gemini_research.py:275-283 | The five templates. `FallbackShape` states their form. |
| QueryPlanner.LineQueries | gemini_research.py:248-260 | The queries of the line parser, in line order. `LineQueriesFromLines`, `LineQueriesCollects` and the FilterMap lemmas state them. |
| QueryPlanner.ParsedQueries | gemini_research.py:239-272 | The parsing cascade on the stripped reply: None for an `eval` that raises or nothing usable. `ListLiteralPath` and `CommaPathCount` state it. |
| QueryPlanner.PlannedQueries | gemini_research.py:205-296 | The planner's list on every path, cut to the requested number. `PlannedBound`, `FallbackPaths` and `EmptyListReply` state it. |
| QueryPlanner.GenerateSearchQueries | gemini_research.py:205-296 | The imperative planner equals `PlannedQueries` for every reply, including a failed model call. |
| QueryPlanner.PlannedBound | gemini_research.py:241-296 | No path returns more than the requested number of queries. |
| QueryPlanner.FallbackPaths | gemini_research.py:275-296 | An unusable reply and a failed model call both give the first `min(n, 5)` templates, each starting with the topic. |
| QueryPlanner.EmptyListReply | gemini_research.py:241-245 | A reply of `[]` gives an empty query list. |
| Research.SourceOf | gemini_research.py:331-344 | The title, link and snippet are copied from the search result. A well-behaved scraper gives exactly one of content and error. |
| Services.ContentOf | gemini_research.py:342 | `.get("content", "")`: the page text of a content answer, and "" for an error answer. `SourceOf` and `RecordShape` rely on it for exactly one of content and error being non-empty. |
| Services.ErrorOf | gemini_research.py:343 | `.get("error", "")`: the message of an error answer, and "" for a content answer. |
| Research.ScriptScraperWellBehaved | gemini_research.py:105-202 | The script's scraper always answers with exactly one of content and error. |
| Research.ExecuteResearch | gemini_research.py:299-356 | There is one record per query, in order. Each record is that query's search and one scraped entry per result, in order. A query without results keeps empty lists. |
| Research.ScrapeResults | gemini_research.py:329-347 | The inner loop makes one scraped entry per result, at the same position. |
| Research.ScriptScraper | gemini_research.py:105-202 | The script's scraper applied to a link. `ScriptScraperWellBehaved` states that it always gives exactly one of content and error. |
| Research.RecordOf | gemini_research.py:317-354 | One query's record: its search results and one entry per result. `RecordShape` states its shape. |
| Research.RecordShape | gemini_research.py:317-354 | A record holds its query and its search results. It has as many entries as results, each carrying its result's title and link and exactly one of content and error. |
| Research.MissingLinkIsError | gemini_research.py:331-335 | A result without a link is not fetched. Its entry holds the URL error and no content. |
| Research.WithSource | gemini_research.py:381-395 | An entry without content leaves the context unchanged. Every entry only extends it. |
| Research.WithSources | gemini_research.py:381-395 | A query's entries only extend the context. |
| Research.WithQuery | gemini_research.py:377-395 | A query's record adds its `## Search Query:` header right after the current context, and its entries only extend it further. |
| Research.WithQueries | gemini_research.py:377-395 | The records only extend the context. |
| Research.Context | gemini_research.py:374-395 | The context starts with the `# Research Topic:` header. `ContextExtends` and `NoContentContext` state the rest. |
| Research.Headers | gemini_research.py:377-379 | The topic header then the query headers, in order. `NoContentContext` shows it is the context when nothing was scraped. |
| Research.BuildContext | gemini_research.py:374-395 | The imperative context loop builds exactly `Context(topic, data)`. |
| Research.AppendSources | gemini_research.py:381-395 | The inner loop appends exactly the blocks of the entries that have content. |
| Research.ContextExtends | gemini_research.py:374-395 | More research data only extends the context, so earlier queries keep their place. |
| Research.NoContentNoBlocks | gemini_research.py:387 | Entries without content add nothing. |
| Research.NoContentContext | gemini_research.py:374-395 | With nothing scraped successfully, the context is the topic header followed by the query headers, in order. |
| Research.SourceBlockShape | gemini_research.py:387-395 | An entry with content adds its title and URL lines, then its content followed by a blank line. Content over 10000 characters is cut to its first 10000 characters followed by "..." and a blank line. |
| Research.DefaultPlan | gemini_research.py:472-480 | Depth 1 gives 3 queries and 2 results, depth 2 gives 5 and 3, and any other depth gives 8 and 4. The result count is always between 1 and the provider's page of 10. |
| Research.ChosenPlan | gemini_research.py:472-480 | `--queries` and `--results` override the depth defaults independently. |
| Research.DefaultsGrowWithDepth | gemini_research.py:472-480 | A deeper level asks for more queries and more results. Neither level's result count is cut by the page limit of 10. |
| Text.StripChars | gemini_research.py:236 | Neither end of a non-empty stripped string is a stripped character, and stripping never lengthens a string. |
| Text.StripCharsEmpty | gemini_research.py:166 | Stripping leaves nothing exactly when every character is stripped. |
| Text.StripCharsBounds | gemini_research.py:166 | The stripped string is `s[i..j]` for bounds whose surroundings consist only of stripped characters. |
| Text.StripCharsOfInfix | gemini_research.py:258 | Stripping a part of a string keeps a part of that part, and what it drops is in the stripped set. |
| Text.StripChars3Infix | gemini_research.py:253 | Three strips in turn keep a part of the string surrounded only by characters of the three sets. |
| Text.StripCharsInfix | gemini_research.py:166 | The stripped string is a contiguous part of the original, and everything around it is a stripped character. |
| Text.StripCharsFrom | gemini_research.py:166 | Stripping keeps only characters of the original. |
| Text.Split | gemini_research.py:249 | `split` gives at least one piece, and no piece contains the separator. |
| Text.SplitWithoutSep | gemini_research.py:249 | A string without the separator splits into itself alone. |
| Text.JoinSplit | gemini_research.py:167 | Joining a string's pieces with the separator gives the string back. |
| Text.SplitJoin | research_crew.py:266 | Splitting a join of separator-free pieces gives the pieces back. |
| Text.SplitCount | gemini_research.py:268 | A split has one piece more than the string has separators. |
| Text.SplitLines | gemini_research.py:166 | No line contains a newline, and non-empty text has at least one line. |
| Text.SplitLinesJoin | gemini_research.py:166 | Joining the lines with `'\n'` gives the text back, except for a final terminator, which `splitlines` drops. |
| Text.JoinSnoc | gemini_research.py:167 | Joining one more part appends the separator and that part. |
| Text.Contains | gemini_research.py:57 | `sub in s` holds exactly when `sub` occurs at some index of `s`. |
| Text.Lower | gemini_research.py:51 | Lower-casing keeps the length and maps every character through `LowerChar`. |
| Values.Lookup | research_crew.py:83-85 | `get` returns the value of the first entry with the key, or the default when there is none. Any other result is the value of some entry with the key. |
| Values.Get | gemini_research.py:90-91 | `d.get(key, default)` on a value already known to be a dict. It is `Lookup` on its entries, so the first entry with the key wins. `ErrorDetailsReadable` uses it for the `error`/`errors` chain. |
| Values.Truthy | research_crew.py:99 | Python's truthiness: None, False, 0, "", [] and {} are false, and everything else is true. |
| Values.Display | research_crew.py:143 | `str()` of a string is the string itself, and of None is "None". |
| Values.Render | research_crew.py:153 | `str()` and `repr()` of the modelled values, as f-strings show them. |
| Values.TypeName | research_crew.py:138 | `type(v).__name__`: the type names "NoneType", "bool", "int", "str", "list" and "dict". `CappedNum` and `Appended` quote it in their `TypeError` texts. |
| Values.NatToString | research_crew.py:153 | The decimal digits `str(n)` writes: never empty and digits only. `NatToStringValue` proves that they denote `n` and have no leading zero. |
| Values.NatToStringValue | research_crew.py:153 | The digits of `str(n)` denote `n`, and there is no leading zero. |
| Values.IntToString | research_crew.py:153 | `str(i)` starts with a minus sign exactly when `i` is negative. |
| Values.IntToStringValue | research_crew.py:153 | A non-negative `str(i)` denotes `i`. A negative one is "-" followed by `str(-i)`, which denotes `-i`. |
| Text.Strip | gemini_research.py:236 | `strip()` with no argument removes the `str.isspace()` characters. The `StripChars` lemmas state what it keeps. |
| Text.Join | gemini_research.py:167 | `sep.join(parts)`. `JoinSplit`, `SplitJoin` and `SplitLinesJoin` state it. |
| CrewSearch.FromEntries | research_crew.py:83-122 | Each parameter is the value of its key's first entry. A missing query or site reads as None, and a missing count reads as 3. |
| CrewSearch.FromToolInput | research_crew.py:78-96 | A JSON string is read as an object, and any other string is the query itself. A dict is read directly, and anything else supplies nothing. |
| CrewSearch.JsonKwarg | research_crew.py:101-115 | A single keyword argument is decoded exactly when it is a string whose stripped form starts with `{` and ends with `}`, and the result is then the decoder's. Any other number of arguments gives nothing. |
| CrewSearch.LooksLikeObject | research_crew.py:107 | A string looks like a JSON object when, stripped, it starts with "{" and ends with "}". `JsonKwarg` uses it for the search tool, and `CrewScrape.ResolveUrl` for the scraper at research_crew.py:225. |
| CrewSearch.ResolvedParams | research_crew.py:73-122 | The settled parameters. `ToolInputFirst`, `PlainStringIsQuery` and `KwargsPrecedence` state the precedence. |
| CrewSearch.ResolveSearchParams | research_crew.py:73-122 | The imperative cascade settles on exactly `ResolvedParams`. |
| CrewSearch.ToolInputFirst | research_crew.py:99 | A truthy query from `tool_input` wins, whatever the keyword arguments. |
| CrewSearch.PlainStringIsQuery | research_crew.py:86-89 | A non-empty non-JSON string is the query, with 3 results and no site. |
| CrewSearch.KwargsPrecedence | research_crew.py:99-122 | Next comes a single JSON keyword argument with a query, which supplies all three parameters. Otherwise the keyword arguments are read directly. |
| CrewSearch.CappedNum | research_crew.py:138 | An int is capped at 10, and a bool is kept. Any other value raises the comparison `TypeError`, naming its type by `TypeName`, and only those raise. |
| CrewSearch.Appended | research_crew.py:142-143 | A string query is extended. A list query gets the suffix's characters appended one by one. Any other query raises the `+=` `TypeError`, naming its type by `TypeName`, and only those raise. |
| CrewSearch.RequestFor | research_crew.py:131-143 | The request, or the `TypeError` raised while building it. `RequestShape`, `TextCountIsError` and `ListQueryAliasing` state it. |
| CrewSearch.RequestShape | research_crew.py:131-143 | A string query with an int count gives the engine id, `min(n, 10)`, and the query with ` site:<site>` exactly when the site is truthy. |
| CrewSearch.SiteAddedEvenWhenNamed | research_crew.py:142-143 | A query that already names a site still gets the suffix. |
| CrewSearch.TextCountIsError | research_crew.py:131-143 | A string count raises `'<' not supported between instances of 'int' and 'str'` before the provider is asked. |
| CrewSearch.ListQueryAliasing | research_crew.py:135-153 | For a list query and a site, the request succeeds and the shown query is the very list the request extended: the original items followed by one entry per character of ` site:<site>`. |
| CrewSearch.ToResult | research_crew.py:157-161 | Every field is copied, with "" for a missing one. |
| CrewSearch.AnswerOf | research_crew.py:148-173 | An HTTP error and any other error give their error dictionaries. No items or an empty list give the no-results error. Otherwise there is one result per item, in order. |
| CrewSearch.EmptyItemsIsError | research_crew.py:149-153 | An empty answer is an error here, where the script's search gives `[]`. |
| CrewSearch.ShownQuery | research_crew.py:149-153 | A list query is shown as the list the request extended, any other query as it was given. `ListQueryAliasing` states the list case. |
| CrewSearch.NoResultsMessage | research_crew.py:149-153 | The no-results error shows `str()` of the shown query. |
| CrewSearch.SearchToolAnswer | research_crew.py:46-173 | The tool's answer. `ChecksComeFirst` states the order of the checks. |
| CrewSearch.ParamsAnswer | research_crew.py:126-173 | The answer once the parameters are settled. `RunSearch` is proved against it. |
| CrewSearch.RunSearchTool | research_crew.py:46-173 | The imperative tool equals `SearchToolAnswer`. |
| CrewSearch.RunSearch | research_crew.py:126-173 | After the parameters are settled, the imperative query check, request and result loop equal `ParamsAnswer`. |
| CrewSearch.ChecksComeFirst | research_crew.py:53-129 | The API key is checked first and the engine id second. A missing query is then answered without asking the provider. |
| CrewSearch.Configured | research_crew.py:58-64 | A key counts as set exactly when the variable exists and is not empty. `ChecksComeFirst` states the two checks and their order. |
| CrewScrape.UrlFromToolInput | research_crew.py:199-213 | A JSON string gives its "url". Any other string is the URL only when it starts with "http". A dict gives its "url", and anything else gives nothing. |
| CrewScrape.ResolvedUrl | research_crew.py:196-236 | The settled URL. `UrlChecks` states where the "http" check applies. |
| CrewScrape.ResolveUrl | research_crew.py:196-236 | The imperative cascade settles on exactly `ResolvedUrl`. |
| CrewScrape.UrlChecks | research_crew.py:199-243 | Only a plain string is checked for "http". A URL from a dict or from a keyword argument is taken as it is. |
| CrewScrape.KeptLines | research_crew.py:266 | Every kept line is a non-blank line of the input, and every non-blank input line is kept. There are no more kept lines than input lines. |
| CrewScrape.KeptLinesAppend | research_crew.py:266 | The filter works line by line: a concatenation keeps the lines of each part, in order. |
| CrewScrape.KeptLinesSingle | research_crew.py:266 | One line is kept exactly when it is not blank. |
| CrewScrape.ExtractedText | research_crew.py:257-264 | newspaper3k's text is used when non-empty. Otherwise the body fallback's text is used. |
| CrewScrape.Cleaned | research_crew.py:266-273 | The cleaned text gives exactly one of a content and an error. |
| CrewScrape.ScrapeUrl | research_crew.py:245-283 | Every fetch, parse or cleaning outcome gives exactly one of content and error. |
| CrewScrape.ScrapeToolAnswer | research_crew.py:184-283 | The answer has exactly one of content and error. A falsy URL gives "URL is required for scraping.". |
| CrewScrape.RunScrapeTool | research_crew.py:184-283 | The imperative tool equals `ScrapeToolAnswer`. |
| CrewScrape.FallbackOnlyWhenEmpty | research_crew.py:257-264 | When newspaper3k finds some text, however short, the body fallback plays no part. |
| CrewScrape.DropBlankLines | research_crew.py:266 | The non-blank lines, untrimmed, joined with newlines. `DropBlankLinesKeepsLines` and `IndentationKept` state its result. |
| CrewScrape.DropBlankLinesKeepsLines | research_crew.py:266 | The lines of the cleaned text are exactly the non-blank lines of the original, untrimmed and in order. Each of them is a non-blank original line, and every non-blank original line is among them. |
| CrewScrape.IndentationKept | research_crew.py:266 | A single non-blank line is kept as it is, indentation included. |
| GeminiScrape.SingleLineTrimmed | gemini_research.py:166-170 | The script's cleaning trims the same line, which shows the two scrapers differ. |

## Left out

- Printing, logging, verbosity and `time.sleep(1)` between scrapes are left out. They do not change any returned value.
- Environment loading and the command-line parser are left out. The credentials and the optional `--queries`/`--results` values are parameters. `main`'s other steps are not part of this model, and neither is the rest of the repository.
- The language-model calls are parameters: the reply to the planning prompt, or None when the call raises. Prompt wording and report generation (`synthesize_report` after line 395) are not modelled.
- Every collaborator is deterministic: the same input gives the same answer.
- `CrewSearch.FromToolInput`: `json.loads` is restricted to JSON objects. A JSON value that is not an object makes the source raise an uncaught `AttributeError` on `.get`, and that crash is not modelled.
- `CrewScrape.UrlFromToolInput`: the same non-object crash is not modelled.
- Exceptions raised by `build()` (outside the tool's `try`) and by BeautifulSoup or markdownify inside the fallbacks are not modelled. An unexpected exception from newspaper3k itself is modelled (`ArticleCrashed`), and so are the final `except Exception` handlers of gemini_research.py:198-202 and research_crew.py:281-283 it reaches.
- The answers of `requests`, newspaper3k and the HTML fallbacks are abstract, including the contents of the HTML error classification the script prints. The Content-Type and body are taken as the collaborator gives them.
- `Text.SplitLines` treats `'\n'` as the only line terminator. Python's `splitlines` also splits on `\r`, `\x0b`, `\x0c`, `\x1c`-`\x1e`, `\x85`, `\u2028` and `\u2029`.
- `Text.Strip` removes the characters for which `str.isspace()` holds, listed explicitly in `Text.Whitespace`.
- Text.StripChars: its own contract states only that the ends are kept characters and that the length does not grow. The full characterisation (bounds, with everything dropped in the stripped set) is `Text.StripCharsBounds`.
- QueryPlanner.QuotedQuery: its own contract states only that the query is trimmed. Where it sits in the line is `QueryPlanner.QuotedQueryInfix`.
- QueryPlanner.BulletQuery: its own contract states only that the query is trimmed. Where it sits in the line is `QueryPlanner.BulletQueryInfix`.
- QueryPlanner.LineQuery: its own contract states only the necessary conditions for a contribution. The converse is `QueryPlanner.LineQueryConverse`.
- `Text.Lower` lower-cases ASCII letters only.
- Decoded JSON objects and keyword arguments are taken to have unique keys, as a Python dict does. `json.loads` keeps the last of duplicate keys in a JSON text, and that case is not modelled: `Values.Lookup` reads the first entry.
- `Values.Display` renders `str()` for the modelled values only. Strings inside lists are quoted without Python's escaping, and floats are not a `Value`.
- `Research.ExecuteResearch` takes the scraper as a parameter. `Research.ScriptScraper` is the script's own `scrape_web_content`, and `Research.ScriptScraperWellBehaved` shows it meets the `WellBehaved` assumption of `Research.RecordShape`.
- `Research.BuildContext` works on typed records. The `.get` defaults of lines 378-385 never apply to the records `execute_research` builds, so they are not modelled.

## Findings

| source | as written | input that shows it | evidently intended | confidence | as-written member | corrected member |
|---|---|---|---|---|---|---|
| gemini_research.py:88-102 | The `except HttpError` handler calls `json.loads(e.content.decode())` and indexes the decoded details. An exception raised there is not caught by the `except Exception` beside it, so it escapes `google_search`. | The provider fails with an HTTP error whose body is not JSON, such as a proxy's HTML "502 Bad Gateway" page. | `google_search` reports the error and returns `[]`, as for every other failure. | not executed | GeminiSearch.SearchAsWritten (shown by GeminiSearch.HtmlErrorBodyEscapes) | GeminiSearch.Search (used by GeminiSearch.GoogleSearch and Research.ExecuteResearch) |
