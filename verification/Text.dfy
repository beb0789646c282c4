/** Strings as Python sees them: white space, line splitting and joining,
    trimming, and single-character replacement. */
module Text {
  datatype Option<+T> = None | Some(value: T)

  /** White space: what `str.isspace`, `str.strip` and `\s` agree on. */
  predicate IsSpace(c: char) {
    || '\t' <= c <= '\r'
    || '\U{1C}' <= c <= ' '
    || c == '\U{85}' || c == '\U{A0}' || c == '\U{1680}'
    || '\U{2000}' <= c <= '\U{200A}'
    || c == '\U{2028}' || c == '\U{2029}' || c == '\U{202F}'
    || c == '\U{205F}' || c == '\U{3000}'
  }

  /** Characters at which `str.splitlines` ends a line. */
  predicate IsBreak(c: char) {
    || '\n' <= c <= '\r'
    || '\U{1C}' <= c <= '\U{1E}'
    || c == '\U{85}' || c == '\U{2028}' || c == '\U{2029}'
  }

  predicate IsLower(c: char) { 'a' <= c <= 'z' }

  predicate IsUpper(c: char) { 'A' <= c <= 'Z' }

  predicate IsDigit(c: char) { '0' <= c <= '9' }

  predicate IsWord(c: char) { IsLower(c) || IsUpper(c) || IsDigit(c) || c == '_' }

  /** The character classes the matchers of this project run over. */
  datatype CharClass =
    | Space       // \s
    | Blank       // TOML white space: space or tab
    | WordDash    // [\w-], and also the characters of a TOML bare key
    | Digit       // \d
    | Unbracket   // [^\]]
    | Hash        // '#'
    | InLine      // anything but a line break
    | Unfeed      // anything but a line feed
    | TokenChar   // the characters of a TOML number or boolean
    | NameChar    // [A-Za-z0-9_.], the characters of a setting name
    | Unequal     // anything but '='
    | Bareword    // what postgresql.conf takes unquoted
    | Uncontrol   // what TOML allows unescaped: no control character but tab

  predicate In(c: char, k: CharClass) {
    match k
    case Space => IsSpace(c)
    case Blank => c == ' ' || c == '\t'
    case WordDash => IsWord(c) || c == '-'
    case Digit => IsDigit(c)
    case Unbracket => c != ']'
    case Hash => c == '#'
    case InLine => !IsBreak(c)
    case Unfeed => c != '\n'
    case TokenChar => IsWord(c) || c == '-' || c == '+' || c == '.' || c == ':'
    case NameChar => IsWord(c) || c == '.'
    case Unequal => c != '='
    case Bareword => IsWord(c) || c == '-' || c == '+' || c == '.' || c == ':' || c == '/'
    case Uncontrol => (' ' <= c || c == '\t') && c != '\U{7F}'
  }

  predicate All(s: string, k: CharClass) {
    forall i | 0 <= i < |s| :: In(s[i], k)
  }

  predicate OneLine(s: string) { All(s, InLine) }

  /** One more character in front of the text a scanner has read so far. */
  function Prepend(c: char, r: Option<(string, string)>): Option<(string, string)> {
    match r case None => None case Some(p) => Some(([c] + p.0, p.1))
  }

  /** The longest prefix of `s` inside class `k`: what a greedy `[...]*` consumes. */
  function Take(s: string, k: CharClass): string {
    if s != [] && In(s[0], k) then [s[0]] + Take(s[1..], k) else []
  }

  /** What the longest prefix leaves. */
  function Skip(s: string, k: CharClass): (t: string)
    ensures |t| <= |s|
    ensures t == [] || !In(t[0], k)
  {
    if s != [] && In(s[0], k) then Skip(s[1..], k) else s
  }

  lemma {:induction false} TakeSkip(s: string, k: CharClass)
    ensures s == Take(s, k) + Skip(s, k)
    ensures All(Take(s, k), k)
  {
    if s != [] && In(s[0], k) {
      TakeSkip(s[1..], k);
    }
  }

  /** The split stops exactly where the class does. */
  lemma {:induction false} SplitAt(a: string, b: string, k: CharClass)
    requires All(a, k)
    requires b == [] || !In(b[0], k)
    ensures Take(a + b, k) == a && Skip(a + b, k) == b
  {
    if a == [] {
      assert a + b == b;
    } else {
      assert (a + b)[0] == a[0];
      assert (a + b)[1..] == a[1..] + b;
      SplitAt(a[1..], b, k);
    }
  }

  lemma {:induction false} TakeStops(a: string, b: string, k: CharClass)
    requires Take(a + b, k) == a
    ensures b == [] || !In(b[0], k)
  {
    if a == [] {
      assert a + b == b;
    } else {
      assert (a + b)[1..] == a[1..] + b;
      assert Take(a + b, k)[1..] == a[1..];
      TakeStops(a[1..], b, k);
    }
  }

  /** TOML white space is white space. */
  lemma {:induction false} SkipBlankFirst(s: string)
    ensures Skip(Skip(s, Blank), Space) == Skip(s, Space)
  {
    if s != [] && In(s[0], Blank) {
      SkipBlankFirst(s[1..]);
    }
  }

  /** An optional run of white space and then `=`. */
  predicate BeforeEquals(s: string) {
    var t := Skip(s, Space);
    t != [] && t[0] == '='
  }

  lemma {:induction false} NoSpace(s: string)
    requires s == [] || !IsSpace(s[0])
    ensures Skip(s, Space) == s
  {
    SplitAt([], s, Space);
    assert [] + s == s;
  }

  lemma {:induction false} EqualsAfter(x: string, rest: string)
    requires All(x, Space)
    ensures BeforeEquals(x + (['='] + rest))
  {
    SplitAt(x, ['='] + rest, Space);
  }

  ghost predicate EqualsPattern(e: string, x: string, rest: string) {
    All(x, Space) && e == x + (['='] + rest)
  }

  lemma {:induction false} EqualsIsPattern(e: string)
    ensures BeforeEquals(e) <==> exists x, rest :: EqualsPattern(e, x, rest)
  {
    if BeforeEquals(e) {
      var t := Skip(e, Space);
      TakeSkip(e, Space);
      assert t == ['='] + t[1..];
      assert EqualsPattern(e, Take(e, Space), t[1..]);
    }
    forall x, rest | EqualsPattern(e, x, rest)
      ensures BeforeEquals(e)
    {
      EqualsAfter(x, rest);
    }
  }

  // -- trimming ----------------------------------------------------------------

  function RStrip(s: string): (t: string)
    ensures t <= s
    ensures t == [] || !IsSpace(t[|t| - 1])
    ensures All(s[|t|..], Space)
  {
    if s == [] || !IsSpace(s[|s| - 1]) then s
    else
      var t := RStrip(s[..|s| - 1]);
      assert s[|t|..] == s[..|s| - 1][|t|..] + [s[|s| - 1]];
      t
  }

  function Strip(s: string): string {
    RStrip(Skip(s, Space))
  }

  /** Text that begins and ends with ink; the empty text counts. */
  predicate Trimmed(s: string) {
    s == [] || (!IsSpace(s[0]) && !IsSpace(s[|s| - 1]))
  }

  lemma {:induction false} RStripOf(t: string, w: string)
    requires t == [] || !IsSpace(t[|t| - 1])
    requires All(w, Space)
    ensures RStrip(t + w) == t
  {
    if w == [] {
      assert t + w == t;
    } else {
      var s := t + w;
      assert s[|s| - 1] == w[|w| - 1];
      assert s[..|s| - 1] == t + w[..|w| - 1];
      RStripOf(t, w[..|w| - 1]);
    }
  }

  lemma {:induction false} StripOf(v: string, t: string, w: string)
    requires All(v, Space) && All(w, Space) && Trimmed(t)
    ensures Strip(v + t + w) == t
  {
    if t == [] {
      assert v + t + w == (v + w) + [];
      SplitAt(v + w, [], Space);
    } else {
      assert v + t + w == v + (t + w);
      SplitAt(v, t + w, Space);
      RStripOf(t, w);
    }
  }

  lemma {:induction false} StripTrims(s: string)
    ensures Trimmed(Strip(s))
    ensures Strip(Strip(s)) == Strip(s)
    ensures forall c | c in Strip(s) :: c in s
  {
    var t := Strip(s);
    var u := Skip(s, Space);
    TakeSkip(s, Space);
    if t != [] {
      assert t[0] == u[0];
    }
    StripOf([], t, []);
    assert [] + t + [] == t;
  }

  // -- lines -------------------------------------------------------------------

  /** `str.splitlines`. A carriage return followed by a line feed is one break. */
  function SplitLines(s: string): (ls: seq<string>)
    decreases |s|
  {
    if s == [] then []
    else
      var r := Skip(s, InLine);
      if r == [] then [Take(s, InLine)]
      else
        var w := if r[0] == '\r' && |r| > 1 && r[1] == '\n' then 2 else 1;
        [Take(s, InLine)] + SplitLines(r[w..])
  }

  lemma {:induction false} SplitLinesOneLine(s: string)
    ensures AllOneLine(SplitLines(s))
    decreases |s|
  {
    if s != [] {
      var r := Skip(s, InLine);
      TakeSkip(s, InLine);
      if r != [] {
        SplitLinesOneLine(r[if r[0] == '\r' && |r| > 1 && r[1] == '\n' then 2 else 1..]);
      }
    }
  }

  /** `"\n".join(lines)`. */
  function Join(ls: seq<string>): string {
    if |ls| == 0 then "" else if |ls| == 1 then ls[0] else ls[0] + "\n" + Join(ls[1..])
  }

  /** `"\n".join(lines) + "\n"`. */
  function Unlines(ls: seq<string>): string { Join(ls) + "\n" }

  predicate AllOneLine(ls: seq<string>) {
    forall i | 0 <= i < |ls| :: OneLine(ls[i])
  }

  lemma {:induction false} ConcatOneLine(a: string, b: string)
    ensures OneLine(a + b) <==> OneLine(a) && OneLine(b)
  {
    if OneLine(a + b) {
      assert forall i | 0 <= i < |a| :: a[i] == (a + b)[i];
      assert forall i | 0 <= i < |b| :: b[i] == (a + b)[|a| + i];
    }
  }

  lemma {:induction false} SplitFirst(l: string, t: string)
    requires OneLine(l)
    ensures SplitLines(l + "\n" + t) == [l] + SplitLines(t)
  {
    assert l + "\n" + t == l + ("\n" + t);
    SplitAt(l, "\n" + t, InLine);
    assert ("\n" + t)[1..] == t;
  }

  /** Joining lines and splitting them again is the identity. */
  lemma {:induction false} SplitUnlines(ls: seq<string>)
    requires ls != [] && AllOneLine(ls)
    ensures SplitLines(Unlines(ls)) == ls
  {
    if |ls| == 1 {
      assert Unlines(ls) == ls[0] + "\n" + "";
      SplitFirst(ls[0], "");
    } else {
      SplitUnlines(ls[1..]);
      assert Unlines(ls) == ls[0] + "\n" + Unlines(ls[1..]);
      SplitFirst(ls[0], Unlines(ls[1..]));
    }
  }

  /** Every line ends in a line feed, with or without a carriage return. */
  predicate LfBreaks(s: string) {
    forall i | 0 <= i < |s| && IsBreak(s[i]) ::
      s[i] == '\n' || (s[i] == '\r' && i + 1 < |s| && s[i + 1] == '\n')
  }

  lemma {:induction false} UnlinesLf(ls: seq<string>)
    requires AllOneLine(ls)
    ensures LfBreaks(Unlines(ls))
  {
    if |ls| <= 1 {
    } else {
      UnlinesLf(ls[1..]);
      var rest := Unlines(ls[1..]);
      var s := ls[0] + "\n" + rest;
      assert Unlines(ls) == s;
      forall i | |ls[0]| < i < |s| && IsBreak(s[i])
        ensures s[i] == '\n' || (s[i] == '\r' && i + 1 < |s| && s[i + 1] == '\n')
      {
        assert s[i] == rest[i - |ls[0]| - 1];
      }
    }
  }

  // -- lines as TOML and PostgreSQL see them -----------------------------------

  /** Lines that end at line feeds only. */
  function FeedLines(s: string): (ls: seq<string>)
    decreases |s|
  {
    if s == [] then []
    else
      var r := Skip(s, Unfeed);
      [Take(s, Unfeed)] + (if r == [] then [] else FeedLines(r[1..]))
  }

  /** `s.replace("\r\n", "\n")`. */
  function Unreturn(s: string): string {
    if s == [] then []
    else if |s| > 1 && s[0] == '\r' && s[1] == '\n' then Unreturn(s[1..])
    else [s[0]] + Unreturn(s[1..])
  }

  /** The lines of a file, which end at line feeds; a carriage return before one goes. */
  function FileLines(text: string): seq<string> { FeedLines(Unreturn(text)) }

  lemma {:induction false} FeedFirst(l: string, t: string)
    requires All(l, Unfeed)
    ensures FeedLines(l + ("\n" + t)) == [l] + FeedLines(t)
  {
    SplitAt(l, "\n" + t, Unfeed);
    assert ("\n" + t)[1..] == t;
  }

  lemma {:induction false} FeedUnlines(ls: seq<string>)
    requires ls != [] && forall i | 0 <= i < |ls| :: All(ls[i], Unfeed)
    ensures FeedLines(Unlines(ls)) == ls
  {
    if |ls| == 1 {
      assert Unlines(ls) == ls[0] + ("\n" + "");
      FeedFirst(ls[0], "");
    } else {
      FeedUnlines(ls[1..]);
      assert Unlines(ls) == ls[0] + ("\n" + Unlines(ls[1..]));
      FeedFirst(ls[0], Unlines(ls[1..]));
    }
  }

  lemma {:induction false} OneLineUnfeed(l: string)
    requires OneLine(l)
    ensures All(l, Unfeed)
  {
    assert forall i | 0 <= i < |l| :: In(l[i], InLine);
  }

  lemma {:induction false} NoReturn(t: string)
    requires '\r' !in t
    ensures Unreturn(t) == t
  {
    if t != [] {
      assert t == [t[0]] + t[1..];
      NoReturn(t[1..]);
    }
  }

  lemma {:induction false} UnreturnOver(l: string, r: string)
    requires OneLine(l)
    ensures Unreturn(l + r) == l + Unreturn(r)
  {
    if l == [] {
      assert l + r == r;
    } else {
      assert In(l[0], InLine);
      assert (l + r)[1..] == l[1..] + r;
      UnreturnOver(l[1..], r);
    }
  }

  lemma {:induction false} LfRest(s: string, k: nat)
    requires LfBreaks(s) && k <= |s|
    ensures LfBreaks(s[k..])
  {
    forall i | 0 <= i < |s[k..]| && IsBreak(s[k..][i])
      ensures s[k..][i] == '\n' || (s[k..][i] == '\r' && i + 1 < |s[k..]| && s[k..][i + 1] == '\n')
    {
      assert s[k..][i] == s[k + i];
    }
  }

  /** Without other breaks, the two ways to see lines agree. */
  lemma {:induction false} TidyLines(s: string)
    requires LfBreaks(s)
    ensures FileLines(s) == SplitLines(s)
    decreases |s|
  {
    if s != [] {
      var l, r := Take(s, InLine), Skip(s, InLine);
      TakeSkip(s, InLine);
      UnreturnOver(l, r);
      OneLineUnfeed(l);
      if r == [] {
        SplitAt(l, [], Unfeed);
        assert l + [] == l == s;
      } else {
        LfRest(s, |l|);
        assert s[|l|..] == r;
        var w := if r[0] == '\r' then 2 else 1;
        LfRest(r, w);
        TidyLines(r[w..]);
        UnreturnBreak(r);
        FeedFirst(l, Unreturn(r[w..]));
      }
    }
  }

  lemma {:induction false} UnreturnBreak(r: string)
    requires LfBreaks(r) && r != [] && IsBreak(r[0])
    ensures r[0] == '\r' ==> |r| > 1 && r[1] == '\n' && Unreturn(r) == "\n" + Unreturn(r[2..])
    ensures r[0] != '\r' ==> r[0] == '\n' && Unreturn(r) == "\n" + Unreturn(r[1..])
  {
    if r[0] == '\r' {
      assert r[1..][0] == '\n' && r[1..][1..] == r[2..];
    }
  }

  // -- replacement -------------------------------------------------------------

  /** `s.replace(c, r)` for a single character `c`. */
  function Replace(s: string, c: char, r: string): string {
    if s == [] then [] else (if s[0] == c then r else [s[0]]) + Replace(s[1..], c, r)
  }

  lemma {:induction false} ReplaceConcat(a: string, b: string, c: char, r: string)
    ensures Replace(a + b, c, r) == Replace(a, c, r) + Replace(b, c, r)
  {
    if a == [] {
      assert a + b == b;
    } else {
      assert (a + b)[1..] == a[1..] + b;
      ReplaceConcat(a[1..], b, c, r);
    }
  }

  /** Prefix every character of `meta` with a backslash, in one pass. */
  function Escape(s: string, meta: string): string {
    if s == [] then [] else (if s[0] in meta then ['\\', s[0]] else [s[0]]) + Escape(s[1..], meta)
  }

  /** Escaping the backslash is one more pass of the same kind. */
  lemma {:induction false} EscapeBackslash(s: string)
    ensures Replace(s, '\\', "\\\\") == Escape(s, "\\")
  {
    if s != [] {
      EscapeBackslash(s[1..]);
    }
  }

  /** Chaining a replacement onto an escape widens its set of characters, as long
      as the backslash came first: the backslashes it added are not `c`. */
  lemma {:induction false} EscapeMore(s: string, meta: string, c: char)
    requires c !in meta && c != '\\' && '\\' in meta
    ensures Replace(Escape(s, meta), c, ['\\', c]) == Escape(s, meta + [c])
  {
    if s != [] {
      var head := if s[0] in meta then ['\\', s[0]] else [s[0]];
      ReplaceConcat(head, Escape(s[1..], meta), c, ['\\', c]);
      EscapeMore(s[1..], meta, c);
      assert s[0] in meta + [c] <==> s[0] in meta || s[0] == c;
      if s[0] in meta {
        assert head[1..] == [s[0]];
        assert Replace(head, c, ['\\', c]) == head;
      } else {
        assert Replace(head, c, ['\\', c]) == if s[0] == c then ['\\', c] else [s[0]];
      }
    }
  }
}
