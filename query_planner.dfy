/** `generate_search_queries` of the research script: the language model's
    reply is read as a list literal, then as quoted or bulleted lines, then as
    a comma-separated list, and otherwise replaced by five fixed templates;
    every path keeps at most the requested number of queries. */
module QueryPlanner {
  import opened Values
  import opened Text

  /** Python's `s[:n]`, negative `n` counting from the end. */
  function Slice<T>(s: seq<T>, n: int): (r: seq<T>)
    ensures r <= s
    ensures n >= 0 ==> |r| == if n < |s| then n else |s|
    ensures n < 0 ==> |r| == if -n < |s| then |s| + n else 0
  {
    if n >= 0 then (if n < |s| then s[..n] else s)
    else if -n < |s| then s[..|s| + n] else []
  }

  // The modifiers of the five fallback queries.
  const Definition := " definition and core concepts"
  const Developments := " recent developments 2022..2023"
  const Applications := " applications case studies"
  const Challenges := " challenges and limitations"
  const Trends := " future trends expert analysis"

  /** The queries used when the reply cannot be parsed or the model fails. */
  function FallbackQueries(topic: string): seq<string> {
    [topic + Definition, topic + Developments, topic + Applications, topic + Challenges, topic + Trends]
  }

  /** Each template is the topic followed by a distinct non-empty modifier. */
  lemma FallbackShape(topic: string)
    ensures |FallbackQueries(topic)| == 5
    ensures forall k | 0 <= k < 5 :: topic < FallbackQueries(topic)[k]
    ensures forall j, k | 0 <= j < k < 5 :: FallbackQueries(topic)[j] != FallbackQueries(topic)[k]
  {
    var f := FallbackQueries(topic);
    var m := [Definition, Developments, Applications, Challenges, Trends];
    assert forall k | 0 <= k < 5 :: f[k] == topic + m[k];
    forall j, k | 0 <= j < k < 5 ensures f[j] != f[k] {
      // The modifiers differ in their first letter.
      assert f[j][|topic|..] == m[j] && f[k][|topic|..] == m[k];
      assert m[j][1] != m[k][1];
    }
  }

  /** The reply looks like a list literal. */
  predicate LooksLikeList(text: string) {
    StartsWithChar(text, '[') && EndsWithChar(text, ']')
  }

  /** The strings of a list all of whose elements are strings. */
  function StringList(v: Value): (r: Option<seq<string>>)
    ensures r.Some? <==> v.VList? && forall k | 0 <= k < |v.items| :: v.items[k].VStr?
    ensures r.Some? ==> |r.value| == |v.items| && forall k | 0 <= k < |r.value| :: v.items[k] == VStr(r.value[k])
  {
    if v.VList? && forall k | 0 <= k < |v.items| :: v.items[k].VStr? then
      Some(seq(|v.items|, k requires 0 <= k < |v.items| => v.items[k].s))
    else None
  }

  const Quotes: set<char> := {'"', '\''}
  const QuotesAndComma: set<char> := {'"', ',', '\''}

  /** What a quoted line loses at its ends: quotes, commas and whitespace. */
  const QuoteTrim: set<char> := Quotes + QuotesAndComma + Whitespace

  /** A quoted line: quotes, then quotes and commas, then whitespace stripped. */
  function QuotedQuery(l: string): (q: string)
    ensures Strip(q) == q
  {
    StripCharsIdempotent(StripChars(StripChars(l, Quotes), QuotesAndComma), Whitespace);
    Strip(StripChars(StripChars(l, Quotes), QuotesAndComma))
  }

  /** A quoted line's query is a part of the line, and what it loses at
      either end is quotes, commas and whitespace only. */
  lemma QuotedQueryInfix(l: string)
    ensures exists i, j | 0 <= i <= j <= |l| ::
              && QuotedQuery(l) == l[i..j]
              && (forall k | 0 <= k < i :: l[k] in QuoteTrim)
              && (forall k | j <= k < |l| :: l[k] in QuoteTrim)
  {
    StripChars3Infix(l, Quotes, QuotesAndComma, Whitespace);
  }

  /** A bulleted line: the bullet character dropped, then whitespace stripped. */
  function BulletQuery(l: string): (q: string)
    requires l != []
    ensures Strip(q) == q
  {
    StripCharsIdempotent(l[1..], Whitespace);
    Strip(l[1..])
  }

  /** A bulleted line's query is a part of the line after the bullet, with
      only whitespace around it. */
  lemma BulletQueryInfix(l: string)
    requires l != []
    ensures exists i, j | 1 <= i <= j <= |l| ::
              && BulletQuery(l) == l[i..j]
              && (forall k | 1 <= k < i :: l[k] in Whitespace)
              && (forall k | j <= k < |l| :: l[k] in Whitespace)
  {
    var c, d := StripCharsOfInfix(l, 1, |l|, Whitespace);
    assert l[1..] == l[1..|l|];
    assert Strip(l[1..]) == l[c..d];
  }

  /** The query one line of the reply contributes, if any: only a stripped
      line that starts with a quote or with `-` or `*` contributes, and only
      when something is left of it. */
  function LineQuery(line: string): (r: Option<string>)
    ensures r.Some? ==> r.value != "" && Strip(r.value) == r.value
    ensures r.Some? ==> var l := Strip(line);
                        l != "" && l[0] in {'"', '\'', '-', '*'}
  {
    var l := Strip(line);
    var q := if StartsWithChar(l, '"') || StartsWithChar(l, '\'') then QuotedQuery(l)
             else if StartsWithChar(l, '-') || StartsWithChar(l, '*') then BulletQuery(l)
             else "";
    if q != "" then Some(q) else None
  }

  /** Conversely, a stripped line starting with a quote contributes its
      quoted query, and one starting with `-` or `*` (and no quote) its
      bullet query, whenever that query is not empty. */
  lemma LineQueryConverse(line: string)
    ensures var l := Strip(line);
            (StartsWithChar(l, '"') || StartsWithChar(l, '\'')) && QuotedQuery(l) != "" ==>
              LineQuery(line) == Some(QuotedQuery(l))
    ensures var l := Strip(line);
            !StartsWithChar(l, '"') && !StartsWithChar(l, '\'') && (StartsWithChar(l, '-') || StartsWithChar(l, '*')) &&
            BulletQuery(l) != "" ==>
              LineQuery(line) == Some(BulletQuery(l))
  {
  }

  /** The result of `f` on `x` as a sequence of zero or one element. */
  function Hit<A, B>(x: A, f: A -> Option<B>): seq<B> {
    match f(x)
    case Some(y) => [y]
    case None => []
  }

  /** The present results of `f` on `xs`, in order. */
  function FilterMap<A, B>(xs: seq<A>, f: A -> Option<B>): seq<B> {
    if xs == [] then [] else FilterMap(xs[..|xs| - 1], f) + Hit(xs[|xs| - 1], f)
  }

  /** The fold works element by element: on a concatenation it gives the
      results of each part, in order. */
  lemma {:induction false} FilterMapAppend<A, B>(a: seq<A>, b: seq<A>, f: A -> Option<B>)
    ensures FilterMap(a + b, f) == FilterMap(a, f) + FilterMap(b, f)
    decreases |b|
  {
    if b == [] {
      assert a + b == a;
    } else {
      FilterMapAppend(a, b[..|b| - 1], f);
      DropLastOfAppend(a, b);
    }
  }

  /** Dropping the last element of `a + b`, for a non-empty `b`, drops the
      last element of `b`. */
  lemma DropLastOfAppend<A>(a: seq<A>, b: seq<A>)
    requires b != []
    ensures (a + b)[..|a + b| - 1] == a + b[..|b| - 1]
    ensures (a + b)[|a + b| - 1] == b[|b| - 1]
  {
    var init := b[..|b| - 1];
    assert forall k | 0 <= k < |a + init| :: (a + b)[..|a + b| - 1][k] == (a + init)[k];
  }

  /** One element gives its result, if any. */
  lemma FilterMapSingle<A, B>(x: A, f: A -> Option<B>)
    ensures FilterMap([x], f) == Hit(x, f)
  {
    assert [x][..0] == [];
    assert [x][0] == x;
  }

  /** One more element adds its result, if any, at the end. */
  lemma FilterMapSnoc<A, B>(xs: seq<A>, i: nat, f: A -> Option<B>)
    requires i < |xs|
    ensures FilterMap(xs[..i + 1], f) == FilterMap(xs[..i], f) + Hit(xs[i], f)
  {
    assert xs[..i + 1][..i] == xs[..i];
  }

  /** The results of the elements around element `j` frame its result. */
  lemma FilterMapAt<A, B>(xs: seq<A>, j: int, f: A -> Option<B>)
    requires 0 <= j < |xs|
    ensures FilterMap(xs, f) ==
              FilterMap(xs[..j], f) + Hit(xs[j], f) + FilterMap(xs[j + 1..], f)
  {
    var pre, post := xs[..j], xs[j + 1..];
    var tail := [xs[j]] + post;
    SplitAround(xs, j);
    FilterMapAppend(pre, tail, f);
    FilterMapAppend([xs[j]], post, f);
    FilterMapSingle(xs[j], f);
  }

  /** A sequence is what comes before element `j`, that element, and what
      comes after it. */
  lemma SplitAround<A>(xs: seq<A>, j: int)
    requires 0 <= j < |xs|
    ensures xs == xs[..j] + ([xs[j]] + xs[j + 1..])
  {
    var tail := [xs[j]] + xs[j + 1..];
    assert forall k | 0 <= k < |tail| :: tail[k] == xs[j..][k];
    assert tail == xs[j..];
  }

  /** Every result is that of one of the elements. */
  lemma {:induction false} FilterMapFrom<A, B>(xs: seq<A>, f: A -> Option<B>)
    ensures forall y | y in FilterMap(xs, f) :: exists j | 0 <= j < |xs| :: f(xs[j]) == Some(y)
  {
    if xs != [] {
      var init := xs[..|xs| - 1];
      FilterMapFrom(init, f);
      assert forall j | 0 <= j < |init| :: xs[j] == init[j];
    }
  }

  /** The queries the line parser collects from `lines`, in line order. */
  function LineQueries(lines: seq<string>): seq<string> {
    FilterMap(lines, LineQuery)
  }

  /** Each collected query is the contribution of one of the lines (and so,
      by LineQuery's contract, non-empty and trimmed). */
  lemma LineQueriesFromLines(lines: seq<string>)
    ensures forall q | q in LineQueries(lines) :: exists j | 0 <= j < |lines| :: LineQuery(lines[j]) == Some(q)
  {
    FilterMapFrom(lines, LineQuery);
  }

  /** Every line that contributes has its query collected. */
  lemma LineQueriesCollects(lines: seq<string>)
    ensures forall j | 0 <= j < |lines| && LineQuery(lines[j]).Some? :: LineQuery(lines[j]).value in LineQueries(lines)
  {
    forall j | 0 <= j < |lines| && LineQuery(lines[j]).Some?
      ensures LineQuery(lines[j]).value in LineQueries(lines)
    {
      FilterMapAt(lines, j, LineQuery);
    }
  }

  /** The manual parser of the script: one pass over the reply's lines. */
  method ParseLines(text: string) returns (queries: seq<string>)
    ensures queries == LineQueries(Split(text, '\n'))
  {
    var lines := Split(text, '\n');
    queries := [];
    var i := 0;
    while i < |lines|
      invariant 0 <= i <= |lines|
      invariant queries == LineQueries(lines[..i])
    {
      FilterMapSnoc(lines, i, LineQuery);
      var q := LineQuery(lines[i]);
      if q.Some? {
        queries := queries + [q.value];
      }
      i := i + 1;
    }
    assert lines[..i] == lines;
  }

  /** The comma split: every piece trimmed, empty pieces kept. */
  function CommaQueries(text: string): (r: seq<string>)
    ensures |r| == |Split(text, ',')|
    ensures forall k | 0 <= k < |r| :: r[k] == Strip(Split(text, ',')[k])
  {
    var pieces := Split(text, ',');
    seq(|pieces|, k requires 0 <= k < |pieces| => Strip(pieces[k]))
  }

  /** What the parsing cascade makes of the stripped reply; None sends the
      planner to the templates (an `eval` that raises, or nothing at all). */
  function ParsedQueries(text: string, eval: string -> Option<Value>): Option<seq<string>> {
    if LooksLikeList(text) && eval(text).None? then None
    else if LooksLikeList(text) && StringList(eval(text).value).Some? then StringList(eval(text).value)
    else if LineQueries(Split(text, '\n')) != [] then Some(LineQueries(Split(text, '\n')))
    else if ',' in text then Some(CommaQueries(text))
    else None
  }

  /** The list `generate_search_queries(topic, n)` returns, given the model's
      reply (None when the model call raises) and the behaviour of `eval`. */
  function PlannedQueries(topic: string, n: int, reply: Option<string>, eval: string -> Option<Value>): seq<string> {
    match reply
    case None => Slice(FallbackQueries(topic), n)
    case Some(raw) => Slice(ParsedQueries(Strip(raw), eval).GetOr(FallbackQueries(topic)), n)
  }

  method GenerateSearchQueries(topic: string, n: int, reply: Option<string>, eval: string -> Option<Value>)
    returns (queries: seq<string>)
    ensures queries == PlannedQueries(topic, n, reply, eval)
  {
    if reply.None? {
      return Slice(FallbackQueries(topic), n);
    }
    var text := Strip(reply.value);
    var parsed: Option<seq<string>> := None;
    var raised := false;
    if LooksLikeList(text) {
      var v := eval(text);
      if v.None? {
        raised := true;
      } else {
        parsed := StringList(v.value);
      }
    }
    if !raised && parsed.None? {
      var fromLines := ParseLines(text);
      if fromLines != [] {
        parsed := Some(fromLines);
      } else if ',' in text {
        parsed := Some(CommaQueries(text));
      }
    }
    if parsed.Some? {
      queries := Slice(parsed.value, n);
    } else {
      queries := Slice(FallbackQueries(topic), n);
    }
  }

  /** No path returns more than the requested number of queries. */
  lemma PlannedBound(topic: string, n: int, reply: Option<string>, eval: string -> Option<Value>)
    requires n >= 0
    ensures |PlannedQueries(topic, n, reply, eval)| <= n
  {
  }

  /** Both fallbacks (a failed model call, an unusable reply) give the first
      `min(n, 5)` templates, each beginning with the topic. */
  lemma FallbackPaths(topic: string, n: int, raw: string, eval: string -> Option<Value>)
    requires n >= 0
    requires ParsedQueries(Strip(raw), eval).None?
    ensures PlannedQueries(topic, n, Some(raw), eval) == PlannedQueries(topic, n, None, eval)
    ensures var r := PlannedQueries(topic, n, None, eval);
            |r| == (if n < 5 then n else 5) &&
            forall k | 0 <= k < |r| :: r[k] == FallbackQueries(topic)[k] && topic <= r[k]
  {
    var f := FallbackQueries(topic);
    assert ParsedQueries(Strip(raw), eval).GetOr(f) == f;
    FallbackShape(topic);
  }

  /** The list literal is used only for a reply in brackets that `eval` turns
      into a list of strings; a reply in brackets that `eval` rejects goes
      straight to the templates, skipping the line and comma parsers. */
  lemma ListLiteralPath(text: string, eval: string -> Option<Value>)
    ensures LooksLikeList(text) && eval(text).Some? && StringList(eval(text).value).Some? ==>
              ParsedQueries(text, eval) == StringList(eval(text).value)
    ensures LooksLikeList(text) && eval(text).None? ==> ParsedQueries(text, eval).None?
    ensures !LooksLikeList(text) || (eval(text).Some? && StringList(eval(text).value).None?) ==>
              ParsedQueries(text, eval) ==
                if LineQueries(Split(text, '\n')) != [] then Some(LineQueries(Split(text, '\n')))
                else if ',' in text then Some(CommaQueries(text)) else None
  {
  }

  /** The comma path yields one trimmed piece per comma plus one, empty pieces included. */
  lemma CommaPathCount(text: string)
    ensures |CommaQueries(text)| == Count(text, ',') + 1
  {
    SplitCount(text, ',');
  }

  /** `"[]".strip()` is `"[]"`. */
  lemma StripEmptyList()
    ensures Strip("[]") == "[]"
  {
  }

  /** A reply of `[]` yields no queries at all: the list-literal path accepts
      an empty list. */
  lemma EmptyListReply(topic: string, n: int, eval: string -> Option<Value>)
    requires eval("[]") == Some(VList([]))
    ensures PlannedQueries(topic, n, Some("[]"), eval) == []
  {
    StripEmptyList();
    assert LooksLikeList("[]");
    assert StringList(VList([])) == Some([]);
  }
}
