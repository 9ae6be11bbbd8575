/** `WebContentScraperTool._run` of the crew: where the URL comes from, then
    the fetch, the article text or the body fallback, and the removal of
    blank lines. */
module CrewScrape {
  import opened Values
  import opened Text
  import opened Services
  import CrewSearch

  /** The URL `tool_input` alone supplies: a string that decodes as a JSON
      object is read as one (its "url" taken as it is); any other string is
      the URL only when it starts with "http"; a dict is read directly. */
  function UrlFromToolInput(toolInput: Value, decode: string -> Option<seq<(string, Value)>>): (url: Value)
    ensures toolInput.VStr? && decode(toolInput.s).Some? ==> url == Lookup(decode(toolInput.s).value, "url", VNone)
    ensures toolInput.VStr? && decode(toolInput.s).None? ==>
              url == if StartsWith(toolInput.s, "http") then toolInput else VNone
    ensures toolInput.VDict? ==> url == Lookup(toolInput.entries, "url", VNone)
    ensures !toolInput.VStr? && !toolInput.VDict? ==> url == VNone
  {
    match toolInput
    case VStr(s) =>
      (match decode(s)
       case Some(d) => Lookup(d, "url", VNone)
       case None => if StartsWith(s, "http") then toolInput else VNone)
    case VDict(d) => Lookup(d, "url", VNone)
    case _ => VNone
  }

  /** The URL the tool settles on: that of `tool_input` when truthy; otherwise
      that of a single JSON keyword argument when truthy; otherwise the "url"
      keyword argument. */
  function ResolvedUrl(toolInput: Value, kwargs: seq<(string, Value)>,
                       decode: string -> Option<seq<(string, Value)>>): Value
  {
    var first := UrlFromToolInput(toolInput, decode);
    if Truthy(first) then first
    else
      var second := match CrewSearch.JsonKwarg(kwargs, decode)
                    case Some(d) => Lookup(d, "url", VNone)
                    case None => first;
      if Truthy(second) then second else Lookup(kwargs, "url", VNone)
  }

  /** The if-cascade of `_run` that reassigns `url`. */
  method ResolveUrl(toolInput: Value, kwargs: seq<(string, Value)>,
                    decode: string -> Option<seq<(string, Value)>>)
    returns (url: Value)
    ensures url == ResolvedUrl(toolInput, kwargs, decode)
  {
    url := VNone;
    if toolInput.VStr? {
      var parsed := decode(toolInput.s);
      if parsed.Some? {
        url := Lookup(parsed.value, "url", VNone);
      } else {
        url := if StartsWith(toolInput.s, "http") then toolInput else VNone;
      }
    } else if toolInput.VDict? {
      url := Lookup(toolInput.entries, "url", VNone);
    }
    if !Truthy(url) {
      if |kwargs| == 1 {
        var value := kwargs[0].1;
        if value.VStr? {
          if CrewSearch.LooksLikeObject(value.s) {
            var parsed := decode(value.s);
            if parsed.Some? {
              url := Lookup(parsed.value, "url", VNone);
            }
          }
        }
      }
      if !Truthy(url) {
        url := Lookup(kwargs, "url", VNone);
      }
    }
  }

  /** A plain string is accepted as a URL only when it starts with "http";
      a URL from a JSON string, a dict or the keyword arguments is not checked. */
  lemma UrlChecks(s: string, d: seq<(string, Value)>, u: Value, decode: string -> Option<seq<(string, Value)>>)
    ensures decode(s).None? && !StartsWith(s, "http") ==>
              ResolvedUrl(VStr(s), [], decode) == VNone
    ensures decode(s).None? && StartsWith(s, "http") ==>
              ResolvedUrl(VStr(s), [], decode) == VStr(s)
    ensures Truthy(Lookup(d, "url", VNone)) ==> ResolvedUrl(VDict(d), [], decode) == Lookup(d, "url", VNone)
    ensures Truthy(u) && CrewSearch.JsonKwarg([("url", u)], decode).None? ==>
              ResolvedUrl(VNone, [("url", u)], decode) == u
  {
  }

  /** The libraries the tool delegates to: the HTTP GET (15 second timeout)
      and `raise_for_status()`, newspaper3k on the fetched page, and the
      fallback that converts the `body` element (or the whole page when
      there is none) to Markdown. */
  datatype Extractors = Extractors(
    fetch: Value -> FetchOutcome,
    article: (Value, string) -> ArticleOutcome,
    bodyMarkdown: string -> string)

  const UrlRequired := "URL is required for scraping."
  // The fixed parts of the tool's messages.
  const NothingFoundText := "No substantial content found at "
  const UnexpectedText := "An unexpected error occurred scraping "
  const RequestFailedText := "HTTP request failed for "
  const ArticleFailedText := "Newspaper article processing failed for "
  const NotArticleText := ". It might be a non-article page or inaccessible."

  /** The lines of `lines` that are not blank, unchanged and in order: every
      line it keeps is a non-blank line of `lines`, and every non-blank line
      is kept. */
  function KeptLines(lines: seq<string>): (r: seq<string>)
    ensures forall k | 0 <= k < |r| :: Strip(r[k]) != "" && r[k] in lines
    ensures forall k | 0 <= k < |lines| && Strip(lines[k]) != "" :: lines[k] in r
    ensures |r| <= |lines|
  {
    if lines == [] then []
    else
      assert forall k | 1 <= k < |lines| :: lines[k] == lines[1..][k - 1];
      if Strip(lines[0]) == "" then KeptLines(lines[1..])
      else [lines[0]] + KeptLines(lines[1..])
  }

  /** The filter works line by line: on a concatenation it keeps the kept
      lines of each part, in order. */
  lemma {:induction false} KeptLinesAppend(a: seq<string>, b: seq<string>)
    ensures KeptLines(a + b) == KeptLines(a) + KeptLines(b)
    decreases |a|
  {
    if a != [] {
      TailOfAppend(a, b);
      KeptLinesAppend(a[1..], b);
      var first := if Strip(a[0]) == "" then [] else [a[0]];
      assert KeptLines(a + b) == first + KeptLines(a[1..] + b);
      assert KeptLines(a) == first + KeptLines(a[1..]);
      calc {
        KeptLines(a + b);
        first + KeptLines(a[1..] + b);
        first + (KeptLines(a[1..]) + KeptLines(b));
        (first + KeptLines(a[1..])) + KeptLines(b);
        KeptLines(a) + KeptLines(b);
      }
    } else {
      assert a + b == b;
    }
  }

  /** A single line is kept exactly when it is not blank, and then untrimmed. */
  lemma KeptLinesSingle(l: string)
    ensures KeptLines([l]) == if Strip(l) == "" then [] else [l]
  {
    assert [l][1..] == [];
  }

  /** `'\n'.join([line for line in text.splitlines() if line.strip()])` */
  function DropBlankLines(text: string): string {
    Join("\n", KeptLines(SplitLines(text)))
  }

  /** The text that is cleaned: newspaper3k's, or the body fallback's when
      newspaper3k found none. */
  function ExtractedText(articleText: string, html: string, bodyMarkdown: string -> string): (t: string)
    ensures articleText != "" ==> t == articleText
    ensures articleText == "" ==> t == bodyMarkdown(html)
  {
    if articleText == "" then bodyMarkdown(html) else articleText
  }

  /** The answer once the text is extracted. */
  function Cleaned(url: Value, text: string): (r: ScrapeResult)
    ensures (ContentOf(r) != "") != (ErrorOf(r) != "")
  {
    var cleaned := DropBlankLines(text);
    if Strip(cleaned) == "" then Error(NothingFoundText + Display(url) + " after cleaning.")
    else Content(cleaned)
  }

  /** What `_run` returns for a resolved, truthy URL: an exception outside
      `requests` and `ArticleException`, from the fetch or from newspaper3k,
      reaches the final `except Exception`. */
  function ScrapeUrl(url: Value, x: Extractors): (r: ScrapeResult)
    ensures (ContentOf(r) != "") != (ErrorOf(r) != "")
  {
    match x.fetch(url)
    case FetchFailed(e) =>
      if e.Unexpected? then Error(UnexpectedText + Display(url) + ": " + e.text)
      else Error(RequestFailedText + Display(url) + ": " + e.text)
    case Fetched(_, html) =>
      match x.article(url, html)
      case ArticleFailed(t) =>
        Error(ArticleFailedText + Display(url) + ": " + t + NotArticleText)
      case ArticleCrashed(_, t) => Error(UnexpectedText + Display(url) + ": " + t)
      case ArticleText(t) => Cleaned(url, ExtractedText(t, html, x.bodyMarkdown))
  }

  /** What `_run(tool_input, **kwargs)` returns: exactly one of content and error. */
  function ScrapeToolAnswer(toolInput: Value, kwargs: seq<(string, Value)>,
                            decode: string -> Option<seq<(string, Value)>>, x: Extractors): (r: ScrapeResult)
    ensures (ContentOf(r) != "") != (ErrorOf(r) != "")
    ensures !Truthy(ResolvedUrl(toolInput, kwargs, decode)) ==> r == Error(UrlRequired)
  {
    var url := ResolvedUrl(toolInput, kwargs, decode);
    if !Truthy(url) then Error(UrlRequired) else ScrapeUrl(url, x)
  }

  /** `_run`, step by step. */
  method RunScrapeTool(toolInput: Value, kwargs: seq<(string, Value)>,
                       decode: string -> Option<seq<(string, Value)>>, x: Extractors)
    returns (r: ScrapeResult)
    ensures r == ScrapeToolAnswer(toolInput, kwargs, decode, x)
  {
    var url := ResolveUrl(toolInput, kwargs, decode);
    if !Truthy(url) {
      return Error(UrlRequired);
    }
    r := ScrapeUrl(url, x);
  }

  /** The body fallback runs only when newspaper3k extracted no text at all,
      not merely little text. */
  lemma FallbackOnlyWhenEmpty(url: Value, x: Extractors, y: Extractors)
    requires x.fetch == y.fetch && x.article == y.article
    requires forall html :: x.article(url, html).ArticleText? ==> x.article(url, html).text != ""
    ensures ScrapeUrl(url, x) == ScrapeUrl(url, y)
  {
    match x.fetch(url)
    case FetchFailed(_) =>
    case Fetched(_, html) =>
      match x.article(url, html)
      case ArticleFailed(_) =>
      case ArticleCrashed(_, _) =>
      case ArticleText(t) =>
        assert ExtractedText(t, html, x.bodyMarkdown) == ExtractedText(t, html, y.bodyMarkdown);
  }

  /** Cleaning only drops lines: the lines of the cleaned text are exactly the
      non-blank lines of the original, untrimmed and in order. */
  lemma DropBlankLinesKeepsLines(text: string)
    requires DropBlankLines(text) != ""
    ensures Split(DropBlankLines(text), '\n') == KeptLines(SplitLines(text))
    ensures forall k | 0 <= k < |KeptLines(SplitLines(text))| ::
              Strip(KeptLines(SplitLines(text))[k]) != "" && KeptLines(SplitLines(text))[k] in SplitLines(text)
    ensures forall k | 0 <= k < |SplitLines(text)| && Strip(SplitLines(text)[k]) != "" ::
              SplitLines(text)[k] in Split(DropBlankLines(text), '\n')
  {
    var kept := KeptLines(SplitLines(text));
    assert kept != [];
    assert forall k | 0 <= k < |kept| :: '\n' !in kept[k] by {
      forall k | 0 <= k < |kept| ensures '\n' !in kept[k] {
        assert kept[k] in SplitLines(text);
      }
    }
    SplitJoin(kept, '\n');
  }

  /** Indentation survives: text of one non-blank line is returned as it
      is, where the research script's scraper would trim it. */
  lemma IndentationKept(l: string)
    requires '\n' !in l && Strip(l) != ""
    ensures DropBlankLines(l) == l
  {
    assert l != "";
    SplitWithoutSep(l, '\n');
    KeptLinesSingle(l);
  }
}
