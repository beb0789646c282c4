/** The three line patterns config.py and configmigrate.py scan with, and how what
    they see compares with what TOML reads on the same line. */
module ConfigLines {
  import opened Text
  import opened Toml

  /** `^\s*\[([^\]]+)\]\s*$`, its group trimmed. */
  function SectionName(line: string): Option<string> { SectionAt(Skip(line, Space)) }

  function SectionAt(t: string): Option<string> {
    if t == [] || t[0] != '[' then None
    else
      var g, r := Take(t[1..], Unbracket), Skip(t[1..], Unbracket);
      if g == [] || r == [] || !All(r[1..], Space) then None else Some(Strip(g))
  }

  predicate StartsIdentifier(s: string) {
    s != [] && (IsLower(s[0]) || IsUpper(s[0]) || s[0] == '_')
  }

  predicate Identifier(k: string) { StartsIdentifier(k) && All(k, WordDash) }

  /** `^\s*#\s*([A-Za-z_][\w-]*)\s*=`. */
  function CommentedKey(line: string): Option<string> {
    var t := Skip(line, Space);
    if t == [] || t[0] != '#' then None
    else
      var u := Skip(t[1..], Space);
      if StartsIdentifier(u) && BeforeEquals(Skip(u, WordDash)) then Some(Take(u, WordDash))
      else None
  }

  /** `^\s*` + key + `\s*=`. */
  predicate ActiveKey(line: string, key: string) { ActiveAt(Skip(line, Space), key) }

  predicate ActiveAt(t: string, key: string) {
    key <= t && BeforeEquals(t[|key|..])
  }

  // -- the patterns as languages -----------------------------------------------

  ghost predicate SectionPattern(line: string, v: string, g: string, w: string) {
    && All(v, Space) && All(w, Space)
    && g != [] && All(g, Unbracket)
    && line == v + "[" + g + "]" + w
  }

  /** The matcher accepts exactly the strings of its pattern, with that group. */
  lemma {:induction false} SectionNameIsPattern(line: string, name: string)
    ensures SectionName(line) == Some(name) <==>
            exists v, g, w :: SectionPattern(line, v, g, w) && name == Strip(g)
  {
    if SectionName(line) == Some(name) {
      var v, t := Take(line, Space), Skip(line, Space);
      var g, r := Take(t[1..], Unbracket), Skip(t[1..], Unbracket);
      TakeSkip(line, Space);
      TakeSkip(t[1..], Unbracket);
      assert line == v + "[" + g + "]" + r[1..];
      assert SectionPattern(line, v, g, r[1..]);
    }
    forall v, g, w | SectionPattern(line, v, g, w)
      ensures SectionName(line) == Some(Strip(g))
    {
      SectionNameOf(v, g, w);
    }
  }

  lemma {:induction false} SectionAtOf(g: string, w: string)
    requires g != [] && All(g, Unbracket)
    ensures SectionAt(['['] + (g + ([']'] + w))) == if All(w, Space) then Some(Strip(g)) else None
  {
    var t := ['['] + (g + ([']'] + w));
    assert t[1..] == g + ([']'] + w);
    SplitAt(g, [']'] + w, Unbracket);
    assert ([']'] + w)[1..] == w;
  }

  lemma {:induction false} SectionNameOf(v: string, g: string, w: string)
    requires All(v, Space) && All(w, Space) && g != [] && All(g, Unbracket)
    ensures SectionName(v + "[" + g + "]" + w) == Some(Strip(g))
  {
    var t := ['['] + (g + ([']'] + w));
    assert v + "[" + g + "]" + w == v + t;
    SplitAt(v, t, Space);
    SectionAtOf(g, w);
  }

  lemma {:induction false} KeyAfter(key: string, e: string)
    requires Identifier(key) && BeforeEquals(e)
    ensures StartsIdentifier(key + e)
    ensures Take(key + e, WordDash) == key && Skip(key + e, WordDash) == e
  {
    assert e[0] == '=' || In(e[0], Space);
    SplitAt(key, e, WordDash);
  }

  lemma {:induction false} CommentedKeyOf(v: string, w: string, key: string, e: string)
    requires All(v, Space) && All(w, Space) && Identifier(key) && BeforeEquals(e)
    ensures CommentedKey(v + (['#'] + (w + (key + e)))) == Some(key)
    ensures v == [] ==> CommentedKey(['#'] + (w + (key + e))) == Some(key)
  {
    assert [] + (['#'] + (w + (key + e))) == ['#'] + (w + (key + e));
    SplitAt(v, ['#'] + (w + (key + e)), Space);
    assert (['#'] + (w + (key + e)))[1..] == w + (key + e);
    SplitAt(w, key + e, Space);
    KeyAfter(key, e);
  }

  predicate Letter(c: char) { 'a' <= c <= 'z' || 'A' <= c <= 'Z' || c == '_' }

  /** `[A-Za-z_][\w-]*`. */
  predicate KeyText(key: string) {
    && key != [] && Letter(key[0])
    && forall i | 0 <= i < |key| :: Letter(key[i]) || '0' <= key[i] <= '9' || key[i] == '-'
  }

  lemma {:induction false} KeyTextIsIdentifier(key: string)
    ensures KeyText(key) <==> Identifier(key)
  {
    forall i | 0 <= i < |key|
      ensures In(key[i], WordDash) <==> Letter(key[i]) || '0' <= key[i] <= '9' || key[i] == '-'
    {
    }
  }

  ghost predicate CommentPattern(line: string, v: string, w: string, key: string, x: string, rest: string) {
    && All(v, Space) && All(w, Space) && All(x, Space)
    && KeyText(key)
    && line == v + "#" + w + key + x + "=" + rest
  }

  /** A comment names a key exactly when it is `# key =` with anything behind the sign. */
  lemma {:induction false} CommentedKeyIsPattern(line: string, key: string)
    ensures CommentedKey(line) == Some(key) <==>
            exists v, w, x, rest :: CommentPattern(line, v, w, key, x, rest)
  {
    hide CommentedKey, Identifier, KeyText, All;
    KeyTextIsIdentifier(key);
    if CommentedKey(line) == Some(key) {
      var v, w, x, rest := CommentShape(line);
      assert CommentPattern(line, v, w, key, x, rest);
    }
    forall v, w, x, rest | CommentPattern(line, v, w, key, x, rest)
      ensures CommentedKey(line) == Some(key)
    {
      EqualsAfter(x, rest);
      CommentedKeyOf(v, w, key, x + (['='] + rest));
      assert v + (['#'] + (w + (key + (x + (['='] + rest))))) == line;
    }
  }

  lemma {:induction false} CommentShape(line: string) returns (v: string, w: string, x: string, rest: string)
    requires CommentedKey(line).Some?
    ensures CommentPattern(line, v, w, CommentedKey(line).value, x, rest)
  {
    hide Take, Skip, All, BeforeEquals, KeyText;
    var t := Skip(line, Space);
    var u := Skip(t[1..], Space);
    KeyTextIsIdentifier(Take(u, WordDash));
    var key, e := Take(u, WordDash), Skip(u, WordDash);
    v, w := Take(line, Space), Take(t[1..], Space);
    TakeSkip(line, Space);
    TakeSkip(t[1..], Space);
    TakeSkip(u, WordDash);
    KeyFirst(u);
    EqualsIsPattern(e);
    x, rest :| EqualsPattern(e, x, rest);
    assert line == v + (['#'] + (w + (key + (x + (['='] + rest)))));
    assert line == v + "#" + w + key + x + "=" + rest;
  }

  lemma {:induction false} KeyFirst(u: string)
    requires StartsIdentifier(u)
    ensures StartsIdentifier(Take(u, WordDash))
  {
  }

  ghost predicate ActivePattern(line: string, v: string, key: string, x: string, rest: string) {
    All(v, Space) && All(x, Space) && line == v + key + x + "=" + rest
  }

  /** A line is active for a key exactly when it is `key =` behind optional white space. */
  lemma {:induction false} ActiveKeyIsPattern(line: string, key: string)
    requires Identifier(key)
    ensures ActiveKey(line, key) <==> exists v, x, rest :: ActivePattern(line, v, key, x, rest)
  {
    if ActiveKey(line, key) {
      var v, t := Take(line, Space), Skip(line, Space);
      TakeSkip(line, Space);
      EqualsIsPattern(t[|key|..]);
      var x, rest :| EqualsPattern(t[|key|..], x, rest);
      assert t == key + t[|key|..];
      assert line == v + key + x + "=" + rest;
      assert ActivePattern(line, v, key, x, rest);
    }
    forall v, x, rest | ActivePattern(line, v, key, x, rest)
      ensures ActiveKey(line, key)
    {
      var e := x + (['='] + rest);
      EqualsAfter(x, rest);
      assert line == v + (key + e);
      SplitAt(v, key + e, Space);
      assert (key + e)[|key|..] == e;
    }
  }

  // -- agreement with TOML -----------------------------------------------------

  lemma {:induction false} KeyPrefix(key: string, e: string)
    requires BareKey(key)
    ensures BeforeEquals(e) ==> Take(key + e, WordDash) == key
    ensures Take(key + e, WordDash) == key ==> e == [] || !In(e[0], WordDash)
    ensures e == [] || !In(e[0], WordDash) ==> Take(key + e, WordDash) == key
  {
    if e == [] || !In(e[0], WordDash) {
      SplitAt(key, e, WordDash);
    } else {
      NoSpace(e);
    }
    if Take(key + e, WordDash) == key {
      TakeStops(key, e, WordDash);
    }
  }

  lemma {:induction false} BareKeyTrimmed(k: string)
    requires BareKey(k)
    ensures Trimmed(k) && All(k, Unbracket) && !IsSpace(k[0])
  {
    assert In(k[0], WordDash) && In(k[|k| - 1], WordDash);
  }

  lemma {:induction false} RestIsSpace(s: string)
    requires ReadRest(s).Some?
    ensures All(s, Space) <==> ReadRest(s) == Some(Nothing)
  {
    var a, r := Take(s, Blank), Skip(s, Blank);
    TakeSkip(s, Blank);
    assert r != [] ==> s[|a|] == '#';
  }

  lemma {:induction false} HeaderShape(s: string) returns (a: string, b: string, rest: string)
    requires ReadHeader(s).Some?
    ensures ReadHeader(s).value.HeaderLine?
    ensures All(a, Blank) && All(b, Blank) && BareKey(ReadHeader(s).value.name)
    ensures s == a + (ReadHeader(s).value.name + (b + ([']'] + rest)))
    ensures ReadRest(rest).Some?
    ensures ReadHeader(s).value.plain <==> ReadRest(rest) == Some(Nothing)
  {
    hide ReadRest, Take, Skip, All;
    var u := Skip(s, Blank);
    var x := Skip(u, WordDash);
    var w := Skip(x, Blank);
    a, b, rest := Take(s, Blank), Take(x, Blank), w[1..];
    TakeSkip(s, Blank);
    TakeSkip(u, WordDash);
    TakeSkip(x, Blank);
    assert w == [']'] + rest;
  }

  lemma {:induction false} BracketAgrees(a: string, name: string, b: string, rest: string)
    requires All(a, Blank) && All(b, Blank) && BareKey(name)
    requires ReadRest(rest).Some?
    ensures SectionAt(['['] + (a + (name + (b + ([']'] + rest)))))
         == if ReadRest(rest) == Some(Nothing) then Some(name) else None
  {
    hide ReadRest, SectionAt, Strip, Trimmed;
    BareKeyTrimmed(name);
    RestIsSpace(rest);
    StripOf(a, name, b);
    SectionAtOf(a + name + b, rest);
    assert a + (name + (b + ([']'] + rest))) == a + name + b + ([']'] + rest);
  }

  lemma {:induction false} HeaderAt(t: string)
    requires t != [] && t[0] == '[' && ReadHeader(t[1..]).Some?
    ensures var l := ReadHeader(t[1..]).value;
            l.HeaderLine? && BareKey(l.name) && SectionAt(t) == if l.plain then Some(l.name) else None
  {
    var a, b, rest := HeaderShape(t[1..]);
    BracketAgrees(a, ReadHeader(t[1..]).value.name, b, rest);
    assert t == ['['] + t[1..];
  }

  lemma {:induction false} KeyShape(t: string)
    requires ReadKey(t).Some?
    ensures ReadKey(t).value.KeyLine? && BareKey(ReadKey(t).value.key)
    ensures ReadKey(t).value.key == Take(t, WordDash)
    ensures BeforeEquals(Skip(t, WordDash))
  {
    var x := Skip(t, WordDash);
    TakeSkip(t, WordDash);
    SkipBlankFirst(x);
    NoSpace(Skip(x, Blank));
  }

  lemma {:induction false} KeyAt(t: string, key: string)
    requires ReadKey(t).Some? && BareKey(key)
    ensures ReadKey(t).value.KeyLine?
    ensures ActiveAt(t, key) <==> key == ReadKey(t).value.key
  {
    KeyShape(t);
    TakeSkip(t, WordDash);
    if key <= t {
      assert t == key + t[|key|..];
      KeyPrefix(key, t[|key|..]);
    }
  }

  /** What TOML and the scanners see of the same line: a header alone on its line
      is a section under the same name, but a header with a trailing comment is
      nothing to the scanners; a `key = value` line is active for its key only. */
  lemma {:induction false} LineAgrees(line: string)
    requires ReadLine(line).Some?
    ensures All(line, Uncontrol)
    ensures var l := ReadLine(line).value;
            && SectionName(line) == (if l.HeaderLine? && l.plain then Some(l.name) else None)
            && (!l.CommentLine? ==> CommentedKey(line).None?)
            && (l.BlankLine? ==> Strip(line) == "")
            && (l.HeaderLine? ==> BareKey(l.name))
            && (l.KeyLine? ==> BareKey(l.key))
    ensures forall key | BareKey(key) ::
              ActiveKey(line, key) <==> (ReadLine(line).value.KeyLine? && ReadLine(line).value.key == key)
  {
    var t := Skip(line, Blank);
    SkipBlankFirst(line);
    if t != [] {
      if t[0] == '#' {
        NoSpace(t);
      } else if t[0] == '[' {
        NoSpace(t);
        HeaderAt(t);
      } else {
        KeyShape(t);
        BareKeyTrimmed(ReadKey(t).value.key);
        NoSpace(t);
        forall key | BareKey(key)
          ensures ActiveKey(line, key) <==> ReadLine(line).value.key == key
        {
          KeyAt(t, key);
        }
      }
    }
  }
}
