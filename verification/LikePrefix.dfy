/** tools/observability.py: the LIKE pattern that matches a value as a literal prefix. */
module LikePrefix {
  import opened Text

  /** Three chained replacements, the backslash first, and a closing `%`. */
  function LikePrefix(value: string): string {
    Replace(Replace(Replace(value, '\\', "\\\\"), '%', "\\%"), '_', "\\_") + "%"
  }

  const META := "\\" + ['%'] + ['_']

  /** `s LIKE pattern` with the default backslash escape: `%` matches any text, `_` any
      one character, and a backslash makes the next character literal. A pattern that
      ends in a lone backslash is an error and matches nothing here. */
  predicate Like(s: string, pattern: string)
    decreases |pattern|, |s|
  {
    if pattern == [] then s == []
    else if pattern[0] == '%' then
      Like(s, pattern[1..]) || (s != [] && Like(s[1..], pattern))
    else if pattern[0] == '\\' then
      |pattern| > 1 && s != [] && s[0] == pattern[1] && Like(s[1..], pattern[2..])
    else
      s != [] && (pattern[0] == '_' || s[0] == pattern[0]) && Like(s[1..], pattern[1..])
  }

  /** The chained replacements are one escaping pass over the three metacharacters. */
  lemma {:induction false} PrefixEscapes(value: string)
    ensures LikePrefix(value) == Escape(value, META) + "%"
  {
    EscapeBackslash(value);
    EscapeMore(value, "\\", '%');
    EscapeMore(value, "\\" + ['%'], '_');
  }

  lemma {:induction false} PercentMatchesAll(s: string)
    ensures Like(s, "%")
  {
    if s == [] {
      assert "%"[1..] == [];
    } else {
      PercentMatchesAll(s[1..]);
    }
  }

  lemma {:induction false} EscapedLike(s: string, v: string)
    ensures Like(s, Escape(v, META) + "%") <==> v <= s
  {
    if v == [] {
      assert Escape(v, META) + "%" == "%";
      PercentMatchesAll(s);
    } else {
      var rest := Escape(v[1..], META) + "%";
      var p := Escape(v, META) + "%";
      if v[0] in META {
        assert p == ['\\', v[0]] + rest;
        assert p[2..] == rest;
      } else {
        assert p == [v[0]] + rest;
        assert p[1..] == rest;
      }
      if s != [] {
        EscapedLike(s[1..], v[1..]);
        assert v <= s <==> s[0] == v[0] && v[1..] <= s[1..];
      }
    }
  }

  /** The pattern matches exactly the texts that start with the value, for every text
      and every value. */
  lemma {:induction false} LikePrefixIsPrefix(s: string, value: string)
    ensures Like(s, LikePrefix(value)) <==> value <= s
  {
    PrefixEscapes(value);
    EscapedLike(s, value);
  }

  /** The same replacements with the backslash last. */
  function BackslashLast(value: string): string {
    Replace(Replace(Replace(value, '%', "\\%"), '_', "\\_"), '\\', "\\\\") + "%"
  }

  /** The order matters: with the backslash last, the backslashes added for `%` and `_`
      are doubled again, and the pattern for a value that starts with one of them does
      not even match the value itself. */
  lemma {:induction false} BackslashFirst(value: string)
    requires value != [] && (value[0] == '%' || value[0] == '_')
    ensures !Like(value, BackslashLast(value))
  {
    var a := Replace(value, '%', "\\%");
    var b := Replace(a, '_', "\\_");
    var c := Replace(b, '\\', "\\\\");
    if value[0] == '%' {
      assert a == ['\\', '%'] + Replace(value[1..], '%', "\\%");
      assert b[0] == '\\';
    } else {
      assert a[0] == '_';
      assert b[0] == '\\';
    }
    assert c[0] == '\\' && c[1] == '\\';
    assert BackslashLast(value)[0] == '\\' && BackslashLast(value)[1] == '\\';
  }
}
