/** What a formatted value means to the reader of postgresql.conf: a quoted token with
    doubled quotes and backslash escapes, or a bare word. */
module ConfValueLaws {
  import opened Text
  import opened ConfEdit

  // -- the reader --------------------------------------------------------------

  /** What a backslash and the next character stand for. Octal escapes are left out:
      they read as an error here. */
  function Unescape(c: char): Option<char> {
    match c
    case 'b' => Some('\U{08}')
    case 'f' => Some('\U{0C}')
    case 'n' => Some('\n')
    case 'r' => Some('\r')
    case 't' => Some('\t')
    case _ => if '0' <= c <= '7' then None else Some(c)
  }

  /** A quoted token after its opening quote: its value and what follows it. */
  function ReadQuoted(s: string): Option<(string, string)> {
    if s == [] || s[0] == '\n' then None
    else if s[0] == '\'' then
      if |s| > 1 && s[1] == '\'' then Prepend('\'', ReadQuoted(s[2..])) else Some(([], s[1..]))
    else if s[0] == '\\' then
      if |s| == 1 || Unescape(s[1]).None? then None else Prepend(Unescape(s[1]).value, ReadQuoted(s[2..]))
    else Prepend(s[0], ReadQuoted(s[1..]))
  }

  /** The whole text as one value. */
  function ReadConf(f: string): Option<string> {
    if f == [] then None
    else if f[0] == '\'' then
      match ReadQuoted(f[1..])
      case None => None
      case Some(r) => if r.1 == [] then Some(r.0) else None
    else if All(f, Bareword) then Some(f) else None
  }

  // -- what quoting costs ------------------------------------------------------

  predicate Costly(c: char) { c == '\'' || c == '\\' || c == '\n' }

  /** Characters a token needs at least to stand for `r`. */
  function Weight(r: string): nat {
    if r == [] then 0 else (if Costly(r[0]) then 2 else 1) + Weight(r[1..])
  }

  lemma {:induction false} ReadQuotedCost(t: string)
    requires ReadQuoted(t).Some?
    ensures |t| >= 1 + |ReadQuoted(t).value.1| + Weight(ReadQuoted(t).value.0)
  {
    if t[0] == '\'' {
      if |t| > 1 && t[1] == '\'' {
        ReadQuotedCost(t[2..]);
        assert ReadQuoted(t).value.0[1..] == ReadQuoted(t[2..]).value.0;
      }
    } else if t[0] == '\\' {
      ReadQuotedCost(t[2..]);
      assert ReadQuoted(t).value.0[1..] == ReadQuoted(t[2..]).value.0;
    } else {
      ReadQuotedCost(t[1..]);
      assert ReadQuoted(t).value.0[1..] == ReadQuoted(t[1..]).value.0;
    }
  }

  lemma {:induction false} WeightAtLeast(r: string)
    ensures Weight(r) >= |r|
  {
    if r != [] {
      WeightAtLeast(r[1..]);
    }
  }

  /** No backslash and no line feed: text that quote doubling alone can carry. */
  predicate Literal(v: string) {
    forall i | 0 <= i < |v| :: v[i] != '\\' && v[i] != '\n'
  }

  lemma {:induction false} DoublingCost(v: string)
    ensures |Replace(v, '\'', "''")| <= Weight(v)
    ensures |Replace(v, '\'', "''")| == Weight(v) <==> Literal(v)
  {
    if v != [] {
      DoublingCost(v[1..]);
      assert v == [v[0]] + v[1..];
      assert Literal(v) <==> v[0] != '\\' && v[0] != '\n' && Literal(v[1..]);
    }
  }

  lemma {:induction false} ReadDoubled(v: string)
    requires Literal(v)
    ensures ReadQuoted(Replace(v, '\'', "''") + ['\'']) == Some((v, []))
  {
    var t := Replace(v, '\'', "''") + ['\''];
    if v == [] {
      assert t == ['\''] && t[1..] == [];
    } else {
      var rest := Replace(v[1..], '\'', "''") + ['\''];
      ReadDoubled(v[1..]);
      assert v == [v[0]] + v[1..];
      if v[0] == '\'' {
        assert t == ['\'', '\''] + rest;
        assert t[2..] == rest;
      } else {
        assert t == [v[0]] + rest;
        assert t[1..] == rest;
      }
    }
  }

  /** Doubling the quotes is right exactly for literal text. */
  lemma {:induction false} QuoteReadsBack(v: string)
    ensures ReadConf(Quote(v)) == Some(v) <==> Literal(v)
  {
    var t := Replace(v, '\'', "''") + ['\''];
    assert Quote(v)[1..] == t;
    DoublingCost(v);
    if Literal(v) {
      ReadDoubled(v);
    }
    if ReadQuoted(t).Some? {
      ReadQuotedCost(t);
    }
  }

  // -- formatted values --------------------------------------------------------

  lemma {:induction false} LowerLetters(v: string)
    requires forall i | 0 <= i < |v| :: IsLower(Lower(v)[i])
    ensures All(v, Bareword)
  {
    forall i | 0 <= i < |v|
      ensures In(v[i], Bareword)
    {
      assert IsLower(Lower(v)[i]);
    }
  }

  lemma {:induction false} UnsignedIsBare(v: string)
    requires Unsigned(v)
    ensures All(v, Bareword)
  {
    var d, r := Take(v, Digit), Skip(v, Digit);
    TakeSkip(v, Digit);
    assert r != [] ==> r == ['.'] + r[1..];
  }

  lemma {:induction false} BareIsLiteral(v: string)
    requires v != [] && (Numeric(v) || Boolish(v))
    ensures All(v, Bareword) && Literal(v) && !Quoted(v)
  {
    if Numeric(v) {
      var u := if v[0] == '-' then v[1..] else v;
      UnsignedIsBare(u);
      assert v[0] == '-' ==> v == ['-'] + u;
    } else {
      LowerLetters(v);
    }
    assert forall i | 0 <= i < |v| :: In(v[i], Bareword);
  }

  /** Formatting a value keeps its meaning: the reader gets back the stripped input,
      exactly when that holds no backslash and no line feed and is not already
      quoted. */
  lemma {:induction false} FormatReadsBack(value: string)
    ensures ReadConf(FormatValue(value)) == Some(Strip(value))
            <==> Literal(Strip(value)) && !Quoted(Strip(value))
  {
    hide Numeric, Boolish, Strip;
    var v := Strip(value);
    if v == [] {
      assert "''"[1..] == ['\''];
      assert ReadQuoted(['\'']) == Some(([], []));
    } else if Quoted(v) {
      if ReadQuoted(v[1..]).Some? {
        ReadQuotedCost(v[1..]);
        WeightAtLeast(ReadQuoted(v[1..]).value.0);
      }
    } else if Numeric(v) || Boolish(v) {
      BareIsLiteral(v);
    } else {
      QuoteReadsBack(v);
    }
  }

  lemma {:induction false} FormatTrimmed(value: string)
    ensures FormatValue(value) != [] && Trimmed(FormatValue(value))
  {
    hide Numeric, Boolish, Strip, Replace;
    StripTrims(value);
  }

  /** Formatting a formatted value changes nothing, for every input. */
  lemma {:induction false} FormatIdempotent(value: string)
    ensures FormatValue(FormatValue(value)) == FormatValue(value)
  {
    hide Numeric, Boolish, Strip, Replace;
    var f := FormatValue(value);
    FormatTrimmed(value);
    StripOf([], f, []);
    assert [] + f + [] == f;
  }

  /** The lone quote counts as quoted and passes through unterminated. */
  lemma {:induction false} LoneQuote()
    ensures FormatValue("'") == "'" && ReadConf("'") == None
  {
    StripOf([], "'", []);
    assert [] + "'" + [] == "'";
    assert "'"[1..] == [];
  }

  lemma {:induction false} DoublingOneLine(v: string)
    ensures OneLine(Replace(v, '\'', "''")) <==> OneLine(v)
  {
    if v != [] {
      DoublingOneLine(v[1..]);
      assert v == [v[0]] + v[1..];
      assert Replace(v, '\'', "''") == (if v[0] == '\'' then ['\'', '\''] else [v[0]]) + Replace(v[1..], '\'', "''");
      assert In('\'', InLine);
      assert OneLine(v) <==> In(v[0], InLine) && OneLine(v[1..]);
      ConcatOneLine(if v[0] == '\'' then ['\'', '\''] else [v[0]], Replace(v[1..], '\'', "''"));
    }
  }

  /** A formatted value stays on its line exactly when the stripped input does. */
  lemma {:induction false} FormatOneLine(value: string)
    ensures OneLine(FormatValue(value)) <==> OneLine(Strip(value))
  {
    hide Numeric, Boolish, Strip;
    var v := Strip(value);
    DoublingOneLine(v);
    ConcatOneLine(Replace(v, '\'', "''"), ['\'']);
    ConcatOneLine(['\''], Replace(v, '\'', "''") + ['\'']);
    assert OneLine(['\'']);
  }

  // -- which values stay bare --------------------------------------------------

  /** An optional sign, digits, and optionally a point with digits behind it. */
  predicate NumberPattern(v: string, sign: string, whole: string, tail: string) {
    && (sign == "" || sign == "-")
    && whole != [] && All(whole, Digit)
    && (tail == "" || (tail[0] == '.' && tail[1..] != [] && All(tail[1..], Digit)))
    && v == sign + (whole + tail)
  }

  ghost predicate IsNumber(v: string) { exists sign, whole, tail :: NumberPattern(v, sign, whole, tail) }

  lemma {:induction false} UnsignedIsPattern(v: string)
    ensures Unsigned(v) <==> exists whole, tail :: NumberPattern(v, "", whole, tail)
  {
    TakeSkip(v, Digit);
    if Unsigned(v) {
      assert v == "" + (Take(v, Digit) + Skip(v, Digit));
      assert NumberPattern(v, "", Take(v, Digit), Skip(v, Digit));
    }
    forall whole, tail | NumberPattern(v, "", whole, tail)
      ensures Unsigned(v)
    {
      SplitAt(whole, tail, Digit);
      assert "" + (whole + tail) == whole + tail;
    }
  }

  lemma {:induction false} SignedPattern(u: string, sign: string, whole: string, tail: string)
    ensures NumberPattern(sign + u, sign, whole, tail) <==> NumberPattern(u, "", whole, tail) && (sign == "" || sign == "-")
  {
    assert "" + (whole + tail) == whole + tail;
    if sign + u == sign + (whole + tail) {
      assert u == (sign + u)[|sign|..] == whole + tail;
    }
  }

  lemma {:induction false} NumericIsNumber(v: string)
    ensures Numeric(v) <==> IsNumber(v)
  {
    hide Unsigned, NumberPattern;
    var sign := if v != [] && v[0] == '-' then "-" else "";
    var u := v[|sign|..];
    assert v == sign + u;
    UnsignedIsPattern(u);
    forall whole, tail
      ensures NumberPattern(v, sign, whole, tail) <==> NumberPattern(u, "", whole, tail)
    {
      SignedPattern(u, sign, whole, tail);
    }
    forall other, whole, tail | NumberPattern(v, other, whole, tail)
      ensures other == sign
    {
      SignIs(v, other, whole, tail);
    }
  }

  lemma {:induction false} SignIs(v: string, sign: string, whole: string, tail: string)
    requires NumberPattern(v, sign, whole, tail)
    ensures sign == if v != [] && v[0] == '-' then "-" else ""
  {
    assert In(whole[0], Digit);
  }

  predicate BooleanWord(w: string) { w in ["on", "off", "true", "false", "yes", "no"] }

  /** A value is written as it is exactly when it comes in quotes, is a number, or is one
      of six words in any letter case; the rest is put in quotes. */
  lemma {:induction false} FormatMeaning(value: string)
    ensures var v := Strip(value);
            && (FormatValue(value) == v <==>
                  v != "" && ((v[0] == '\'' && v[|v| - 1] == '\'') || IsNumber(v) || BooleanWord(Lower(v))))
            && (FormatValue(value) != v ==> FormatValue(value) == ['\''] + (Replace(v, '\'', "''") + ['\'']))
  {
    hide Numeric, Strip, Lower, IsNumber;
    var v := Strip(value);
    NumericIsNumber(v);
    BooleanIs(v);
    DoublingCost(v);
    WeightAtLeast(v);
    QuoteLonger(v);
    NoNumber();
  }

  lemma {:induction false} BooleanIs(v: string)
    ensures Boolish(v) <==> BooleanWord(Lower(v))
    ensures !BooleanWord(Lower(""))
  {
  }

  lemma {:induction false} NoNumber()
    ensures !IsNumber("")
  {
  }

  lemma {:induction false} QuoteLonger(v: string)
    ensures |Quote(v)| > |v|
  {
    if v != [] {
      QuoteLonger(v[1..]);
    }
  }
}
