/** The Python string operations the research pipeline relies on:
    `strip`, `startswith`, `in`, `split`, `join`, `splitlines` and `lower`. */
module Text {

  /** The characters `str.strip()` removes when given no argument: those
      for which `str.isspace()` holds. */
  const Whitespace: set<char> :=
    {'\t', '\n', '\U{0B}', '\U{0C}', '\r', '\U{1C}', '\U{1D}', '\U{1E}', '\U{1F}', ' ',
     '\U{85}', '\U{A0}', '\U{1680}', '\U{2000}', '\U{2001}', '\U{2002}', '\U{2003}',
     '\U{2004}', '\U{2005}', '\U{2006}', '\U{2007}', '\U{2008}', '\U{2009}', '\U{200A}',
     '\U{2028}', '\U{2029}', '\U{202F}', '\U{205F}', '\U{3000}'}

  /** `s.strip(cs)`: leading characters of `cs` are dropped, then trailing
      ones, so neither end of a non-empty result is in `cs`. */
  function StripChars(s: string, cs: set<char>): (r: string)
    ensures r != [] ==> r[0] !in cs && r[|r| - 1] !in cs
    ensures |r| <= |s|
    decreases |s|
  {
    if s != [] && s[0] in cs then StripChars(s[1..], cs)
    else if s != [] && s[|s| - 1] in cs then StripChars(s[..|s| - 1], cs)
    else s
  }

  /** Stripping leaves nothing exactly when every character is in `cs`. */
  lemma {:induction false} StripCharsEmpty(s: string, cs: set<char>)
    ensures StripChars(s, cs) == [] <==> forall k | 0 <= k < |s| :: s[k] in cs
    decreases |s|
  {
    if s != [] && s[0] in cs {
      StripCharsEmpty(s[1..], cs);
      assert forall k | 1 <= k < |s| :: s[k] == s[1..][k - 1];
    } else if s != [] && s[|s| - 1] in cs {
      StripCharsEmpty(s[..|s| - 1], cs);
      assert s[0] !in cs && s[0] == s[..|s| - 1][0];
    } else if s != [] {
      assert s[0] !in cs;
    }
  }

  /** The bounds of the part of `s` that stripping keeps: everything before
      and after it is in `cs`. */
  lemma {:induction false} StripCharsBounds(s: string, cs: set<char>) returns (i: nat, j: nat)
    ensures i <= j <= |s| && StripChars(s, cs) == s[i..j]
    ensures forall k | 0 <= k < i :: s[k] in cs
    ensures forall k | j <= k < |s| :: s[k] in cs
    decreases |s|
  {
    if s != [] && s[0] in cs {
      var a, b := StripCharsBounds(s[1..], cs);
      i, j := a + 1, b + 1;
      SurroundingsAfterFirst(s, s[1..], a, b, cs);
    } else if s != [] && s[|s| - 1] in cs {
      var a, b := StripCharsBounds(s[..|s| - 1], cs);
      i, j := a, b;
      SurroundingsBeforeLast(s, s[..|s| - 1], a, b, cs);
    } else {
      assert s == s[0..|s|];
      i, j := 0, |s|;
    }
  }

  /** Bounds in `s[1..]` shift by one in `s`, whose first character is in `cs`. */
  lemma SurroundingsAfterFirst(s: string, t: string, a: nat, b: nat, cs: set<char>)
    requires s != [] && s[0] in cs && t == s[1..] && a <= b <= |t|
    requires forall k | 0 <= k < a :: t[k] in cs
    requires forall k | b <= k < |t| :: t[k] in cs
    ensures t[a..b] == s[a + 1..b + 1]
    ensures forall k | 0 <= k < a + 1 :: s[k] in cs
    ensures forall k | b + 1 <= k < |s| :: s[k] in cs
  {
    assert s[1..] == s[1..|s|];
    SliceOfSlice(s, 1, |s|, a, b);
  }

  /** Bounds in `s[..|s| - 1]` stay in `s`, whose last character is in `cs`. */
  lemma SurroundingsBeforeLast(s: string, t: string, a: nat, b: nat, cs: set<char>)
    requires s != [] && s[|s| - 1] in cs && t == s[..|s| - 1] && a <= b <= |t|
    requires forall k | 0 <= k < a :: t[k] in cs
    requires forall k | b <= k < |t| :: t[k] in cs
    ensures t[a..b] == s[a..b]
    ensures forall k | 0 <= k < a :: s[k] in cs
    ensures forall k | b <= k < |s| :: s[k] in cs
  {
    assert s[..|s| - 1] == s[0..|s| - 1];
    SliceOfSlice(s, 0, |s| - 1, a, b);
  }

  /** A part of a part of `s` is a part of `s`, and so are its characters. */
  lemma SliceOfSlice(s: string, i: nat, j: nat, a: nat, b: nat)
    requires i <= j <= |s| && a <= b <= j - i
    ensures s[i..j][a..b] == s[i + a..i + b]
    ensures forall k | 0 <= k < j - i :: s[i..j][k] == s[i + k]
  {
    assert forall k | 0 <= k < b - a :: s[i..j][a..b][k] == s[i + a..i + b][k];
  }

  /** Stripping the part `s[i..j]` keeps a part `s[i'..j']` of it, and what is
      dropped on either side is in `ds`. */
  lemma StripCharsOfInfix(s: string, i: nat, j: nat, ds: set<char>) returns (i': nat, j': nat)
    requires i <= j <= |s|
    ensures i <= i' <= j' <= j && StripChars(s[i..j], ds) == s[i'..j']
    ensures forall k | i <= k < i' :: s[k] in ds
    ensures forall k | j' <= k < j :: s[k] in ds
  {
    var a, b := StripCharsBounds(s[i..j], ds);
    i', j' := i + a, i + b;
    SurroundingsInPart(s, s[i..j], i, j, a, b, ds);
  }

  /** Bounds in the part `t == s[i..j]` shift by `i` in `s`. */
  lemma SurroundingsInPart(s: string, t: string, i: nat, j: nat, a: nat, b: nat, ds: set<char>)
    requires i <= j <= |s| && t == s[i..j] && a <= b <= |t|
    requires forall k | 0 <= k < a :: t[k] in ds
    requires forall k | b <= k < |t| :: t[k] in ds
    ensures t[a..b] == s[i + a..i + b]
    ensures forall k | i <= k < i + a :: s[k] in ds
    ensures forall k | i + b <= k < j :: s[k] in ds
  {
    SliceOfSlice(s, i, j, a, b);
    assert forall k | i <= k < j :: s[k] == t[k - i];
  }

  /** Three strips in turn keep a part of `s` whose surroundings are in one
      of the three sets. */
  lemma StripChars3Infix(s: string, c1: set<char>, c2: set<char>, c3: set<char>)
    ensures exists i, j | 0 <= i <= j <= |s| ::
              && StripChars(StripChars(StripChars(s, c1), c2), c3) == s[i..j]
              && (forall k | 0 <= k < i :: s[k] in c1 + c2 + c3)
              && (forall k | j <= k < |s| :: s[k] in c1 + c2 + c3)
  {
    var a, b := StripCharsBounds(s, c1);
    var c, d := StripCharsOfInfix(s, a, b, c2);
    var e, f := StripCharsOfInfix(s, c, d, c3);
    assert forall k | 0 <= k < e :: s[k] in c1 + c2 + c3 by {
      forall k | 0 <= k < e ensures s[k] in c1 + c2 + c3 {
        if k < a { assert s[k] in c1; } else if k < c { assert s[k] in c2; } else { assert s[k] in c3; }
      }
    }
    assert forall k | f <= k < |s| :: s[k] in c1 + c2 + c3 by {
      forall k | f <= k < |s| ensures s[k] in c1 + c2 + c3 {
        if k >= b { assert s[k] in c1; } else if k >= d { assert s[k] in c2; } else { assert s[k] in c3; }
      }
    }
  }

  /** Splitting a string without the separator gives the string alone. */
  lemma {:induction false} SplitWithoutSep(s: string, sep: char)
    requires sep !in s
    ensures Split(s, sep) == [s]
    decreases |s|
  {
    if s != [] {
      assert forall c | c in s[1..] :: c in s;
      SplitWithoutSep(s[1..], sep);
      assert [s[0]] + s[1..] == s;
    }
  }

  /** Stripping keeps a contiguous part of the original string. */
  lemma StripCharsInfix(s: string, cs: set<char>)
    ensures exists i, j | 0 <= i <= j <= |s| ::
              && StripChars(s, cs) == s[i..j]
              && (forall k | 0 <= k < i :: s[k] in cs)
              && (forall k | j <= k < |s| :: s[k] in cs)
  {
    var i, j := StripCharsBounds(s, cs);
  }

  /** Stripping keeps only characters of the original string. */
  lemma StripCharsFrom(s: string, cs: set<char>)
    ensures forall c | c in StripChars(s, cs) :: c in s
  {
    var i, j := StripCharsBounds(s, cs);
    assert forall k | 0 <= k < j - i :: s[i..j][k] == s[i + k];
  }

  /** Stripping twice removes nothing more. */
  lemma StripCharsIdempotent(s: string, cs: set<char>)
    ensures StripChars(StripChars(s, cs), cs) == StripChars(s, cs)
  {
  }

  /** `s.strip()` */
  function Strip(s: string): string {
    StripChars(s, Whitespace)
  }

  predicate StartsWith(s: string, prefix: string) {
    prefix <= s
  }

  /** `s.startswith(c)` for a one-character prefix. */
  predicate StartsWithChar(s: string, c: char) {
    |s| > 0 && s[0] == c
  }

  /** `s.endswith(c)` for a one-character suffix. */
  predicate EndsWithChar(s: string, c: char) {
    |s| > 0 && s[|s| - 1] == c
  }

  /** `sub` occurs in `s` starting at index `i`. */
  predicate OccursAt(s: string, sub: string, i: nat) {
    i + |sub| <= |s| && s[i..i + |sub|] == sub
  }

  /** `sub in s` for strings. */
  predicate Contains(s: string, sub: string)
    ensures Contains(s, sub) <==> exists i: nat :: OccursAt(s, sub, i)
    decreases |s|
  {
    if sub <= s then
      assert OccursAt(s, sub, 0);
      true
    else if |s| <= |sub| then
      false
    else
      var t := s[1..];
      assert forall j: nat :: OccursAt(t, sub, j) == OccursAt(s, sub, j + 1) by {
        forall j: nat ensures OccursAt(t, sub, j) == OccursAt(s, sub, j + 1) {
          if j + 1 + |sub| <= |s| { assert s[j + 1..j + 1 + |sub|] == t[j..j + |sub|]; }
        }
      }
      assert forall i: nat | OccursAt(s, sub, i) :: i >= 1 && OccursAt(t, sub, i - 1);
      Contains(t, sub)
  }

  /** Dropping the first element of `a + b`, for a non-empty `a`, drops the
      first element of `a`. */
  lemma TailOfAppend<A>(a: seq<A>, b: seq<A>)
    requires a != []
    ensures (a + b)[0] == a[0] && (a + b)[1..] == a[1..] + b
  {
    assert forall k | 0 <= k < |a[1..] + b| :: (a + b)[1..][k] == (a[1..] + b)[k];
  }

  /** `sep.join(parts)` */
  function Join(sep: string, parts: seq<string>): string {
    if parts == [] then ""
    else if |parts| == 1 then parts[0]
    else parts[0] + sep + Join(sep, parts[1..])
  }

  /** `s.split(sep)` for a one-character separator: at least one piece, and
      no piece contains the separator. */
  function Split(s: string, sep: char): (r: seq<string>)
    ensures |r| >= 1
    ensures forall k | 0 <= k < |r| :: sep !in r[k]
    decreases |s|
  {
    if s == [] then [""]
    else
      var rest := Split(s[1..], sep);
      if s[0] == sep then [""] + rest
      else [[s[0]] + rest[0]] + rest[1..]
  }

  /** The number of times `c` occurs in `s`. */
  function Count(s: string, c: char): nat {
    multiset(s)[c]
  }

  lemma JoinPrepend(sep: string, a: string, parts: seq<string>)
    requires parts != []
    ensures Join(sep, [a + parts[0]] + parts[1..]) == a + Join(sep, parts)
  {
    var p := [a + parts[0]] + parts[1..];
    if |parts| > 1 {
      assert p[1..] == parts[1..];
    }
  }

  /** Joining the pieces of a split gives back the original string. */
  lemma {:induction false} JoinSplit(s: string, sep: char)
    ensures Join([sep], Split(s, sep)) == s
    decreases |s|
  {
    if s != [] {
      var rest := Split(s[1..], sep);
      JoinSplit(s[1..], sep);
      if s[0] == sep {
        assert ([""] + rest)[1..] == rest;
        assert Join([sep], [""] + rest) == "" + [sep] + Join([sep], rest);
        assert s == [s[0]] + s[1..];
      } else {
        JoinPrepend([sep], [s[0]], rest);
        assert s == [s[0]] + s[1..];
      }
    }
  }

  /** Splitting a join of separator-free pieces gives back the pieces. */
  lemma {:induction false} SplitJoin(parts: seq<string>, sep: char)
    requires |parts| >= 1
    requires forall k | 0 <= k < |parts| :: sep !in parts[k]
    ensures Split(Join([sep], parts), sep) == parts
    decreases |parts|, |parts[0]|
  {
    var p0 := parts[0];
    if p0 == [] {
      if |parts| > 1 {
        var tail := parts[1..];
        SplitJoin(tail, sep);
        var s := Join([sep], parts);
        assert s == [sep] + Join([sep], tail);
        assert s[1..] == Join([sep], tail);
        assert parts == [""] + tail;
      }
    } else {
      var shorter := [p0[1..]] + parts[1..];
      assert shorter[1..] == parts[1..];
      assert forall k | 0 <= k < |shorter| :: sep !in shorter[k] by {
        forall k | 0 <= k < |shorter| ensures sep !in shorter[k] {
          if k == 0 { assert forall c | c in p0[1..] :: c in p0; }
        }
      }
      SplitJoin(shorter, sep);
      JoinPrepend([sep], [p0[0]], shorter);
      assert [p0[0]] + shorter[0] == p0;
      assert [p0 ] + shorter[1..] == parts;
      var s := Join([sep], parts);
      assert s == [p0[0]] + Join([sep], shorter);
      assert s[1..] == Join([sep], shorter);
      assert s[0] == p0[0] && s[0] != sep;
    }
  }

  /** `s.split(sep)` has one piece more than `s` has separators. */
  lemma {:induction false} SplitCount(s: string, sep: char)
    ensures |Split(s, sep)| == Count(s, sep) + 1
    decreases |s|
  {
    if s != [] {
      SplitCount(s[1..], sep);
      assert s == [s[0]] + s[1..];
      assert multiset(s) == multiset([s[0]]) + multiset(s[1..]);
    }
  }

  /** `s.splitlines()` for text whose only line terminator is `'\n'`: like
      `split('\n')`, except that the empty string has no lines and a final
      terminator does not start a further, empty line. */
  function SplitLines(s: string): (r: seq<string>)
    ensures forall k | 0 <= k < |r| :: '\n' !in r[k]
    ensures s != "" ==> r != []
  {
    if s == "" then []
    else
      var pieces := Split(s, '\n');
      if |pieces| > 1 && pieces[|pieces| - 1] == "" then pieces[..|pieces| - 1] else pieces
  }

  /** Joining the lines with `'\n'` gives the text back, up to the final
      terminator that `splitlines` drops. */
  lemma SplitLinesJoin(s: string)
    ensures Join("\n", SplitLines(s)) + (if s != "" && s[|s| - 1] == '\n' then "\n" else "") == s
  {
    if s != "" {
      var pieces := Split(s, '\n');
      JoinSplit(s, '\n');
      assert ['\n'] == "\n";
      if |pieces| > 1 {
        var init := pieces[..|pieces| - 1];
        JoinSnoc("\n", init, pieces[|pieces| - 1]);
        assert init + [pieces[|pieces| - 1]] == pieces;
        var last := pieces[|pieces| - 1];
        assert s == Join("\n", init) + "\n" + last;
        if last != "" {
          assert s[|s| - 1] == last[|last| - 1];
          assert '\n' !in last;
        }
      } else {
        assert s == pieces[0] && '\n' !in pieces[0];
      }
    }
  }

  /** Joining one more part appends the separator and that part. */
  lemma {:induction false} JoinSnoc(sep: string, parts: seq<string>, x: string)
    requires parts != []
    ensures Join(sep, parts + [x]) == Join(sep, parts) + sep + x
    decreases |parts|
  {
    var all := parts + [x];
    assert all[0] == parts[0];
    if |parts| > 1 {
      assert all[1..] == parts[1..] + [x];
      JoinSnoc(sep, parts[1..], x);
    } else {
      assert all[1..] == [x];
    }
  }

  function LowerChar(c: char): char {
    if 'A' <= c <= 'Z' then (c as int - 'A' as int + 'a' as int) as char else c
  }

  /** `s.lower()` for ASCII letters. */
  function Lower(s: string): (r: string)
    ensures |r| == |s|
    ensures forall k | 0 <= k < |s| :: r[k] == LowerChar(s[k])
  {
    seq(|s|, k requires 0 <= k < |s| => LowerChar(s[k]))
  }
}
