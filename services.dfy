/** What the external collaborators hand back to the research code: the
    Google Custom Search client, the HTTP fetch, the article parser. Their
    behaviour is not modelled; the code that consumes their answers is. */
module Services {
  import opened Values

  /** One element of the search response's `items` list (its string fields). */
  type Item = map<string, string>

  /** `item.get(key, default)` */
  function Field(item: Item, key: string, default: string): string {
    if key in item then item[key] else default
  }

  /** The arguments of `service.cse().list(...)`: the developer key the
      service was built with, the engine id `cx`, the query `q` and `num`. */
  datatype Request = Request(developerKey: string, cx: string, q: Value, num: Value)

  /** How `service.cse().list(...).execute()` ends. */
  datatype SearchOutcome =
    | HttpFailure(text: string, body: string)  // an HttpError: str(e) and e.content
    | OtherFailure(text: string)                // any other exception: str(e)
    | Answered(items: Option<seq<Item>>)        // a response; None when it has no "items" key

  /** A result as both search functions hand it on: title, link, snippet. */
  datatype SearchResult = SearchResult(title: string, link: string, snippet: string)

  /** The exceptions `requests.get(...)` and `raise_for_status()` raise, with
      the text `str(e)` of each. */
  datatype FetchError =
    | Timeout(text: string)
    | TooManyRedirects(text: string)
    | RequestFailed(text: string)               // any other RequestException
    | Unexpected(typeName: string, text: string)  // an exception outside requests' hierarchy

  /** A fetched page: its Content-Type header ("" when absent) and its text. */
  datatype FetchOutcome = FetchFailed(error: FetchError) | Fetched(contentType: string, html: string)

  /** newspaper3k's `Article.download(input_html=...)` and `parse()`: an
      `ArticleException`, any other exception (its type name and text), or
      the extracted text. */
  datatype ArticleOutcome =
    | ArticleFailed(text: string)
    | ArticleCrashed(typeName: string, text: string)
    | ArticleText(text: string)

  /** A scraper's answer: the dictionary `{"content": ...}` or `{"error": ...}`. */
  datatype ScrapeResult = Content(text: string) | Error(message: string)

  /** `scraped_result.get("content", "")` */
  function ContentOf(r: ScrapeResult): string {
    if r.Content? then r.text else ""
  }

  /** `scraped_result.get("error", "")` */
  function ErrorOf(r: ScrapeResult): string {
    if r.Error? then r.message else ""
  }
}
