/** `scrape_web_content` of the research script: URL and Content-Type guards,
    article text with an HTML fallback below 100 characters, line cleaning and
    truncation at 15000 characters. */
module GeminiScrape {
  import opened Values
  import opened Text
  import opened Services

  /** Article text shorter than this sends the scraper to its fallback. */
  const MinContentLength := 100
  /** Cleaned text longer than this is truncated. */
  const MaxContentChars := 15000
  const TruncationMarker := "\n... [Content Truncated]"

  /** The three libraries the scraper delegates to: the HTTP GET with a
      browser-like header set and a 25 second timeout; newspaper3k on the
      fetched page; and the fallback that finds the `article`, `main`, `role=main`
      or `body` element, drops boilerplate tags and converts it with
      markdownify ("" when no such element exists). */
  datatype Extractors = Extractors(
    fetch: string -> FetchOutcome,
    article: (string, string) -> ArticleOutcome,
    fallback: string -> string)

  /** Only a string starting with "http" is fetched. */
  predicate UrlAcceptable(url: Value) {
    url.VStr? && StartsWith(url.s, "http")
  }

  /** The non-empty lines among `lines`, in order: every line it keeps is a
      non-empty line of `lines`, and every non-empty line is kept. */
  function NonEmpty(lines: seq<string>): (r: seq<string>)
    ensures forall k | 0 <= k < |r| :: r[k] != "" && r[k] in lines
    ensures forall k | 0 <= k < |lines| && lines[k] != "" :: lines[k] in r
    ensures |r| <= |lines|
  {
    if lines == [] then []
    else
      assert forall k | 1 <= k < |lines| :: lines[k] == lines[1..][k - 1];
      if lines[0] == "" then NonEmpty(lines[1..])
      else [lines[0]] + NonEmpty(lines[1..])
  }

  /** The filter works line by line: on a concatenation it keeps the kept
      lines of each part, in order. */
  lemma {:induction false} NonEmptyAppend(a: seq<string>, b: seq<string>)
    ensures NonEmpty(a + b) == NonEmpty(a) + NonEmpty(b)
  {
    if a != [] {
      TailOfAppend(a, b);
      NonEmptyAppend(a[1..], b);
    } else {
      assert a + b == b;
    }
  }

  /** A single line is kept exactly when it is non-empty. */
  lemma NonEmptySingle(l: string)
    ensures NonEmpty([l]) == if l == "" then [] else [l]
  {
    assert [l][1..] == [];
  }

  /** Every line of `text`, stripped. */
  function StrippedLines(text: string): (r: seq<string>)
    ensures |r| == |SplitLines(text)|
    ensures forall k | 0 <= k < |r| :: r[k] == Strip(SplitLines(text)[k])
  {
    var lines := SplitLines(text);
    seq(|lines|, k requires 0 <= k < |lines| => Strip(lines[k]))
  }

  /** `'\n'.join(line for line in [l.strip() for l in text.splitlines()] if line)` */
  function CleanLines(text: string): string {
    Join("\n", NonEmpty(StrippedLines(text)))
  }

  /** The text handed back: at most 15000 characters of cleaned text, and the
      truncation marker when anything was cut. */
  function Truncate(text: string): (r: string)
    ensures |text| <= MaxContentChars ==> r == text
    ensures |text| > MaxContentChars ==>
              |r| == MaxContentChars + |TruncationMarker| &&
              r[..MaxContentChars] == text[..MaxContentChars] &&
              r[MaxContentChars..] == TruncationMarker
  {
    if |text| > MaxContentChars then text[..MaxContentChars] + TruncationMarker else text
  }

  /** The text that is cleaned: the article text when it has at least 100
      characters, otherwise the fallback's when that has; None when neither has. */
  function ChosenText(articleText: string, fallbackText: string): (r: Option<string>)
    ensures r.Some? ==> |r.value| >= MinContentLength
    ensures |articleText| >= MinContentLength ==> r == Some(articleText)
    ensures |articleText| < MinContentLength && |fallbackText| >= MinContentLength ==> r == Some(fallbackText)
    ensures r.None? <==> |articleText| < MinContentLength && |fallbackText| < MinContentLength
  {
    if |articleText| >= MinContentLength then Some(articleText)
    else if |fallbackText| >= MinContentLength then Some(fallbackText)
    else None
  }

  // The fixed parts of the scraper's messages.
  const InvalidUrlText := "Input Error: A valid URL starting with 'http' is required. Received: '"
  const TimeoutText := "Scraping Error: Request timed out (>25s) for "
  const RedirectsText := "Scraping Error: Too many redirects for URL: "
  const NetworkText := "Scraping Error: Network issue fetching URL "
  const UnexpectedText := "Unexpected Error while scraping "
  const NotHtmlText := "Skipping URL: Content-Type is '"
  const ArticleErrorText := "Scraping Error: newspaper3k failed processing "
  const NotArticleText := ". Likely not a standard article format."
  const TooLittleText := "Content Extraction Failed: newspaper3k and fallback method could not extract meaningful text content from "
  const NothingLeftText := "Content Extraction Failed: No text content found after cleaning for "

  function InvalidUrlMessage(url: Value): (m: string)
    ensures m != ""
  {
    InvalidUrlText + Display(url) + "'"
  }

  function FetchErrorMessage(url: string, e: FetchError): (m: string)
    ensures m != ""
  {
    match e
    case Timeout(_) => TimeoutText + url + "."
    case TooManyRedirects(_) => RedirectsText + url + "."
    case RequestFailed(t) => NetworkText + url + ". Reason: " + t
    case Unexpected(name, t) => UnexpectedMessage(url, name, t)
  }

  /** The answer of the final `except Exception`, whichever step raised. */
  function UnexpectedMessage(url: string, typeName: string, t: string): (m: string)
    ensures m != ""
  {
    UnexpectedText + url + ": " + typeName + " - " + t
  }

  function NotHtmlMessage(contentType: string): (m: string)
    ensures m != ""
  {
    NotHtmlText + contentType + "', not HTML."
  }

  function ArticleErrorMessage(url: string, t: string): (m: string)
    ensures m != ""
  {
    ArticleErrorText + url + ". Reason: " + t + NotArticleText
  }

  function TooLittleTextMessage(url: string): (m: string)
    ensures m != ""
  {
    TooLittleText + url
  }

  function NothingAfterCleaningMessage(url: string): (m: string)
    ensures m != ""
  {
    NothingLeftText + url + "."
  }

  /** The cleaning and truncation applied to text that passed the length check. */
  function Finish(url: string, text: string): (r: ScrapeResult)
    ensures (ContentOf(r) != "") != (ErrorOf(r) != "")
  {
    var cleaned := CleanLines(text);
    if Strip(cleaned) == "" then Error(NothingAfterCleaningMessage(url))
    else Content(Truncate(cleaned))
  }

  /** The article text once the page is known to be HTML: the length check,
      the fallback, then cleaning. The fallback runs only below 100 characters. */
  function FromArticleText(url: string, articleText: string, html: string, fallback: string -> string): (r: ScrapeResult)
    ensures (ContentOf(r) != "") != (ErrorOf(r) != "")
  {
    var fallbackText := if |articleText| < MinContentLength then fallback(html) else "";
    match ChosenText(articleText, fallbackText)
    case None => Error(TooLittleTextMessage(url))
    case Some(text) => Finish(url, text)
  }

  /** A fetched page: the Content-Type guard, then the article parser. */
  function ScrapePage(url: string, contentType: string, html: string, x: Extractors): (r: ScrapeResult)
    ensures (ContentOf(r) != "") != (ErrorOf(r) != "")
  {
    var ct := Lower(contentType);
    if !Contains(ct, "html") then Error(NotHtmlMessage(ct))
    else
      match x.article(url, html)
      case ArticleFailed(t) => Error(ArticleErrorMessage(url, t))
      case ArticleCrashed(name, t) => Error(UnexpectedMessage(url, name, t))
      case ArticleText(t) => FromArticleText(url, t, html, x.fallback)
  }

  /** `scrape_web_content(url)`: every answer is a non-empty content or a
      non-empty error, never both. */
  function ScrapeWebContent(url: Value, x: Extractors): (r: ScrapeResult)
    ensures (ContentOf(r) != "") != (ErrorOf(r) != "")
    ensures !UrlAcceptable(url) ==> r == Error(InvalidUrlMessage(url))
  {
    if !UrlAcceptable(url) then Error(InvalidUrlMessage(url))
    else
      match x.fetch(url.s)
      case FetchFailed(e) => Error(FetchErrorMessage(url.s, e))
      case Fetched(contentType, html) => ScrapePage(url.s, contentType, html, x)
  }

  /** A rejected URL is answered before the fetch: the collaborators do not matter. */
  lemma BadUrlNeverFetched(url: Value, x: Extractors, y: Extractors)
    requires !UrlAcceptable(url)
    ensures ScrapeWebContent(url, x) == ScrapeWebContent(url, y)
  {
  }

  /** A Content-Type without "html" is answered before the page is parsed. */
  lemma NonHtmlNeverParsed(url: string, contentType: string, html: string, x: Extractors, y: Extractors)
    requires !Contains(Lower(contentType), "html")
    ensures ScrapePage(url, contentType, html, x) == ScrapePage(url, contentType, html, y)
    ensures ScrapePage(url, contentType, html, x) == Error(NotHtmlMessage(Lower(contentType)))
  {
  }

  /** Article text of 100 characters or more is used as is; the fallback is
      consulted only below that, and too little text from both is an error. */
  lemma FallbackThreshold(url: string, articleText: string, html: string, fallback: string -> string,
                          other: string -> string)
    ensures |articleText| >= MinContentLength ==>
              FromArticleText(url, articleText, html, fallback) == Finish(url, articleText) &&
              FromArticleText(url, articleText, html, other) == Finish(url, articleText)
    ensures |articleText| < MinContentLength && |fallback(html)| >= MinContentLength ==>
              FromArticleText(url, articleText, html, fallback) == Finish(url, fallback(html))
    ensures |articleText| < MinContentLength && |fallback(html)| < MinContentLength ==>
              FromArticleText(url, articleText, html, fallback) == Error(TooLittleTextMessage(url))
  {
  }

  lemma {:induction false} NonEmptyOfStripped(lines: seq<string>)
    requires forall k | 0 <= k < |lines| :: '\n' !in lines[k] && Strip(lines[k]) == lines[k]
    ensures forall k | 0 <= k < |NonEmpty(lines)| ::
              var l := NonEmpty(lines)[k]; '\n' !in l && Strip(l) == l
  {
    forall k | 0 <= k < |NonEmpty(lines)|
      ensures '\n' !in NonEmpty(lines)[k] && Strip(NonEmpty(lines)[k]) == NonEmpty(lines)[k]
    {
      var l := NonEmpty(lines)[k];
      assert l in lines;
    }
  }

  /** Text of one non-blank line is cleaned to the line trimmed. */
  lemma SingleLineTrimmed(l: string)
    requires '\n' !in l && Strip(l) != ""
    ensures CleanLines(l) == Strip(l)
  {
    assert l != "";
    SplitWithoutSep(l, '\n');
    assert StrippedLines(l) == [Strip(l)];
    NonEmptySingle(Strip(l));
  }

  /** Cleaned text has no empty line and every line is already trimmed. */
  lemma CleanedLinesAreTrimmed(text: string)
    requires CleanLines(text) != ""
    ensures var lines := Split(CleanLines(text), '\n');
            forall k | 0 <= k < |lines| :: lines[k] != "" && Strip(lines[k]) == lines[k]
  {
    var stripped := StrippedLines(text);
    forall k | 0 <= k < |stripped| ensures '\n' !in stripped[k] && Strip(stripped[k]) == stripped[k] {
      StripCharsIdempotent(SplitLines(text)[k], Whitespace);
      StripCharsFrom(SplitLines(text)[k], Whitespace);
    }
    var kept := NonEmpty(stripped);
    NonEmptyOfStripped(stripped);
    assert kept != [];
    SplitJoin(kept, '\n');
  }

  /** Cleaning leaves nothing exactly when every line of the text is blank. */
  lemma {:induction false} NothingLeftIffBlank(text: string)
    ensures CleanLines(text) == "" <==>
              forall k | 0 <= k < |SplitLines(text)| :: Strip(SplitLines(text)[k]) == ""
  {
    var stripped := StrippedLines(text);
    assert forall k | 0 <= k < |stripped| :: stripped[k] == Strip(SplitLines(text)[k]);
    NonEmptyIsEmpty(stripped);
    var kept := NonEmpty(stripped);
    if kept != [] {
      assert kept[0] != "";
      assert kept[0] <= Join("\n", kept);
    }
  }

  lemma {:induction false} NonEmptyIsEmpty(lines: seq<string>)
    ensures NonEmpty(lines) == [] <==> forall k | 0 <= k < |lines| :: lines[k] == ""
  {
    if lines != [] {
      NonEmptyIsEmpty(lines[1..]);
      assert forall k | 1 <= k < |lines| :: lines[k] == lines[1..][k - 1];
    }
  }
}
