/** What editing a setting promises: the file is left with one active line for it,
    that line is in effect, and no other setting is touched. */
module ConfEditLaws {
  import opened Text
  import opened ConfEdit
  import opened ConfValueLaws

  /** The value in effect: the last active line wins. */
  function Effective(lines: seq<string>, name: string): Option<string> {
    match LastMarked(lines, name, Active)
    case None => None
    case Some(i) => Some(ValueText(lines[i]))
  }

  // -- what a line sets --------------------------------------------------------

  /** The setting a line mentions, active or commented, whatever name one looks for. */
  datatype Setting = NoSetting | Setting(commented: bool, key: string)

  function KeyOf(u: string): Option<string> {
    if Take(u, NameChar) != [] && BeforeEquals(Skip(u, NameChar)) then Some(Take(u, NameChar)) else None
  }

  function ReadSetting(line: string): Setting {
    var t := Skip(line, Space);
    var commented := t != [] && t[0] == '#';
    match KeyOf(if commented then Skip(Skip(t, Hash), Space) else t)
    case None => NoSetting
    case Some(k) => Setting(commented, k)
  }

  lemma {:induction false} LowerKeepsNames(a: string, b: string)
    requires SameName(a, b)
    ensures |a| == |b| && (All(a, NameChar) <==> All(b, NameChar))
  {
    forall i | 0 <= i < |a|
      ensures In(a[i], NameChar) <==> In(b[i], NameChar)
    {
      assert Lower(a)[i] == Lower(b)[i];
    }
  }

  lemma {:induction false} EqualsIsNoName(e: string)
    requires BeforeEquals(e)
    ensures e != [] && !In(e[0], NameChar)
  {
    assert e[0] == '=' || In(e[0], Space);
  }

  lemma {:induction false} PatternIsKey(u: string, name: string)
    requires SettingName(name)
    ensures NamePattern(u, name) <==> KeyOf(u).Some? && SameName(KeyOf(u).value, name)
  {
    var k, e := Take(u, NameChar), Skip(u, NameChar);
    TakeSkip(u, NameChar);
    if NamePattern(u, name) {
      var a, z := u[..|name|], u[|name|..];
      LowerKeepsNames(a, name);
      EqualsIsNoName(z);
      SplitAt(a, z, NameChar);
      assert u == a + z;
    }
    if KeyOf(u).Some? && SameName(k, name) {
      assert |k| == |name|;
      assert u[..|name|] == k && u[|name|..] == e;
    }
  }

  /** The pattern for a name sees exactly the lines whose own key is that name. */
  lemma {:induction false} ClassifyIsKey(line: string, name: string)
    requires SettingName(name)
    ensures Classify(line, name)
         == match ReadSetting(line)
            case NoSetting => Other
            case Setting(c, k) => if !SameName(k, name) then Other else if c then Commented else Active
  {
    hide NamePattern;
    var t := Skip(line, Space);
    PatternIsKey(t, name);
    PatternIsKey(Skip(Skip(t, Hash), Space), name);
  }

  /** The same characters, but for the case of ASCII letters. */
  predicate SameLetters(a: string, b: string) {
    |a| == |b| && forall i | 0 <= i < |a| :: a[i] == b[i] || OtherCase(a[i], b[i]) || OtherCase(b[i], a[i])
  }

  predicate OtherCase(upper: char, lower: char) { 'A' <= upper <= 'Z' && lower as int == upper as int + 32 }

  lemma {:induction false} SameNameLetters(a: string, b: string)
    ensures SameName(a, b) <==> SameLetters(a, b)
  {
    hide LowerChar, OtherCase;
    forall i | 0 <= i < |a| && |a| == |b|
      ensures Lower(a)[i] == Lower(b)[i] <==> a[i] == b[i] || OtherCase(a[i], b[i]) || OtherCase(b[i], a[i])
    {
      SameLetter(a[i], b[i]);
    }
  }

  lemma {:induction false} SameLetter(c: char, d: char)
    ensures LowerChar(c) == LowerChar(d) <==> c == d || OtherCase(c, d) || OtherCase(d, c)
  {
  }

  ghost predicate NameForm(u: string, name: string, n: string, x: string, rest: string) {
    SameLetters(n, name) && All(x, Space) && u == n + (x + (['='] + rest))
  }

  lemma {:induction false} NamePatternIs(u: string, name: string)
    ensures NamePattern(u, name) <==> exists n, x, rest :: NameForm(u, name, n, x, rest)
  {
    hide SameName, SameLetters, BeforeEquals;
    if NamePattern(u, name) {
      var n, e := u[..|name|], u[|name|..];
      SameNameLetters(n, name);
      EqualsIsPattern(e);
      var x, rest :| EqualsPattern(e, x, rest);
      assert u == n + e;
      assert NameForm(u, name, n, x, rest);
    }
    forall n, x, rest | NameForm(u, name, n, x, rest)
      ensures NamePattern(u, name)
    {
      SameNameLetters(n, name);
      SameLength(n, name);
      EqualsAfter(x, rest);
      assert u[..|name|] == n && u[|name|..] == x + (['='] + rest);
    }
  }

  lemma {:induction false} SameLength(a: string, b: string)
    requires SameLetters(a, b)
    ensures |a| == |b|
  {
  }

  /** White space, the name, white space, `=`. */
  ghost predicate ActiveForm(line: string, name: string, v: string, n: string, x: string, rest: string) {
    All(v, Space) && All(x, Space) && SameLetters(n, name) && line == v + (n + (x + (['='] + rest)))
  }

  /** The same behind one or more comment marks. */
  ghost predicate CommentedForm(line: string, name: string, v: string, h: string, w: string, n: string, x: string, rest: string) {
    && All(v, Space) && h != [] && All(h, Hash) && All(w, Space) && All(x, Space) && SameLetters(n, name)
    && line == v + (h + (w + (n + (x + (['='] + rest)))))
  }

  lemma {:induction false} NameFirst(u: string, name: string, n: string, x: string, rest: string)
    requires SettingName(name) && NameForm(u, name, n, x, rest)
    ensures u != [] && In(u[0], NameChar) && !IsSpace(u[0]) && u[0] != '#'
  {
    SameNameLetters(n, name);
    LowerKeepsNames(n, name);
    assert u[0] == n[0];
  }

  /** The line patterns as languages: a line is active for a name exactly when it is that
      name in any letter case before `=`, and commented exactly when `#`s stand before it. */
  lemma {:induction false} ClassifyIsPattern(line: string, name: string)
    requires SettingName(name)
    ensures Classify(line, name) == Active <==> exists v, n, x, rest :: ActiveForm(line, name, v, n, x, rest)
    ensures Classify(line, name) == Commented <==> exists v, h, w, n, x, rest :: CommentedForm(line, name, v, h, w, n, x, rest)
  {
    hide NamePattern, SettingName, SameLetters;
    if Classify(line, name) != Other {
      FormOf(line, name);
    }
    forall v, n, x, rest | ActiveForm(line, name, v, n, x, rest)
      ensures Classify(line, name) == Active
    {
      var u := n + (x + (['='] + rest));
      assert NameForm(u, name, n, x, rest);
      NamePatternIs(u, name);
      NameFirst(u, name, n, x, rest);
      SplitAt(v, u, Space);
    }
    forall v, h, w, n, x, rest | CommentedForm(line, name, v, h, w, n, x, rest)
      ensures Classify(line, name) == Commented
    {
      var u := n + (x + (['='] + rest));
      assert NameForm(u, name, n, x, rest);
      NamePatternIs(u, name);
      NameFirst(u, name, n, x, rest);
      CommentedSplit(v, h, w, u);
    }
  }

  lemma {:induction false} CommentedSplit(v: string, h: string, w: string, u: string)
    requires All(v, Space) && h != [] && All(h, Hash) && All(w, Space)
    requires u != [] && !IsSpace(u[0]) && u[0] != '#'
    ensures var t := h + (w + u); t[0] == '#' && Skip(v + t, Space) == t && Skip(Skip(t, Hash), Space) == u
  {
    var t := h + (w + u);
    assert In(h[0], Hash) && t[0] == h[0];
    SplitAt(v, t, Space);
    assert (w + u)[0] == if w == [] then u[0] else w[0];
    assert w != [] ==> In(w[0], Space);
    SplitAt(h, w + u, Hash);
    SplitAt(w, u, Space);
  }

  lemma {:induction false} FormOf(line: string, name: string)
    requires Classify(line, name) != Other
    ensures Classify(line, name) == Active ==> exists v, n, x, rest :: ActiveForm(line, name, v, n, x, rest)
    ensures Classify(line, name) == Commented ==> exists v, h, w, n, x, rest :: CommentedForm(line, name, v, h, w, n, x, rest)
  {
    hide NamePattern, SameLetters;
    var v, t := Take(line, Space), Skip(line, Space);
    TakeSkip(line, Space);
    if Classify(line, name) == Active {
      NamePatternIs(t, name);
      var n, x, rest :| NameForm(t, name, n, x, rest);
      assert ActiveForm(line, name, v, n, x, rest);
    } else {
      var h, w := Take(t, Hash), Take(Skip(t, Hash), Space);
      var u := Skip(Skip(t, Hash), Space);
      TakeSkip(t, Hash);
      TakeSkip(Skip(t, Hash), Space);
      NamePatternIs(u, name);
      var n, x, rest :| NameForm(u, name, n, x, rest);
      assert CommentedForm(line, name, v, h, w, n, x, rest);
    }
  }

  lemma {:induction false} NewLineReads(name: string, f: string)
    requires SettingName(name)
    ensures ReadSetting(NewLine(name, f)) == Setting(false, name)
    ensures ValueText(NewLine(name, f)) == Strip(" " + f)
    ensures Trimmed(f) ==> ValueText(NewLine(name, f)) == f
  {
    var r := " " + f;
    var e := " " + (['='] + r);
    EqualsAfter(" ", r);
    SplitAt(name, e, NameChar);
    assert In(name[0], NameChar);
    var l := NewLine(name, f);
    assert l[0] == name[0];
    NoSpace(l);
    assert l == (name + " ") + (['='] + r);
    SplitAt(name + " ", ['='] + r, Unequal);
    assert (['='] + r)[1..] == r;
    if Trimmed(f) {
      StripOf(" ", f, "");
      assert " " + f + "" == r;
    }
  }

  lemma {:induction false} KeyOfMore(t: string, more: string)
    requires KeyOf(t).Some?
    ensures KeyOf(t + more) == KeyOf(t)
  {
    var k, e := Take(t, NameChar), Skip(t, NameChar);
    TakeSkip(t, NameChar);
    EqualsIsNoName(e);
    SplitAt(k, e + more, NameChar);
    assert t + more == k + (e + more);
    var w, x := Take(e, Space), Skip(e, Space);
    TakeSkip(e, Space);
    SplitAt(w, x + more, Space);
    assert e + more == w + (x + more);
  }

  /** Commenting out keeps the key and makes it commented. */
  lemma {:induction false} CommentOutReads(line: string)
    requires ReadSetting(line).Setting? && !ReadSetting(line).commented
    ensures ReadSetting(CommentOut(line)) == Setting(true, ReadSetting(line).key)
  {
    var w, t := Take(line, Space), Skip(line, Space);
    var body := t + Marker();
    TakeSkip(line, Space);
    TakeSkip(t, NameChar);
    KeyOfMore(t, Marker());
    assert In(t[0], NameChar) && body[0] == t[0];
    var h := ['#'] + (" " + body);
    SplitAt(w, h, Space);
    SplitAt(['#'], " " + body, Hash);
    SplitAt(" ", body, Space);
  }

  // -- the edit, line by line --------------------------------------------------

  /** The index of the line the edit writes; one past the end when it appends. */
  function Target(lines: seq<string>, name: string): nat {
    match LastMarked(lines, name, Active)
    case Some(w) => w
    case None =>
      match LastMarked(lines, name, Commented)
      case Some(c) => c
      case None => |lines|
  }

  predicate Appends(lines: seq<string>, name: string) { Target(lines, name) == |lines| }

  lemma {:induction false} EditShape(lines: seq<string>, name: string, newLine: string)
    ensures var out := EditLines(lines, name, newLine);
            && |out| == (if Appends(lines, name) then |lines| + 1 else |lines|)
            && out[Target(lines, name)] == newLine
            && forall i | 0 <= i < |lines| && i != Target(lines, name) ::
                 out[i] == if Classify(lines[i], name) == Active then CommentOut(lines[i]) else lines[i]
  {
    hide Classify, CommentOut, Marked;
    LastMarkedLaw(lines, name, Active);
    LastMarkedLaw(lines, name, Commented);
  }

  /** A duplicate keeps its indent and its text behind a comment mark, and says why. */
  ghost predicate Disabled(was: string, now: string) {
    exists w, t :: DisabledAs(was, now, w, t)
  }

  predicate DisabledAs(was: string, now: string, w: string, t: string) {
    && All(w, Space) && (t == "" || !IsSpace(t[0])) && was == w + t
    && now == w + "# " + t + ("    # " + ("disabled by mcp-postgres: " + "shadowed duplicate"))
  }

  lemma {:induction false} CommentOutDisables(line: string)
    ensures Disabled(line, CommentOut(line))
  {
    var w, t, m := Take(line, Space), Skip(line, Space), Marker();
    TakeSkip(line, Space);
    CommentJoin(w, t, m);
    assert DisabledAs(line, CommentOut(line), w, t);
  }

  lemma {:induction false} CommentJoin(w: string, t: string, m: string)
    ensures w + (['#'] + (" " + (t + m))) == w + "# " + t + m
  {
  }

  /** Beside the line written, an edit keeps every line but the other active ones, and
      those it keeps as comments. */
  lemma {:induction false} EditKeepsText(lines: seq<string>, name: string, newLine: string, i: nat)
    requires i < |lines| && i != Target(lines, name)
    ensures var out := EditLines(lines, name, newLine);
            && i < |out|
            && (if Classify(lines[i], name) == Active then Disabled(lines[i], out[i]) else out[i] == lines[i])
  {
    hide Classify, CommentOut, EditLines, Disabled;
    EditShape(lines, name, newLine);
    CommentOutDisables(lines[i]);
  }

  lemma {:induction false} MarkedIs(lines: seq<string>, n: nat, name: string, mark: Mark, w: nat)
    requires n <= |lines| && forall i | 0 <= i < n :: Classify(lines[i], name) == mark <==> i == w
    ensures Marked(lines, n, name, mark) == if w < n then [w] else []
  {
    hide Classify;
    if n > 0 {
      assert Classify(lines[n - 1], name) == mark <==> n - 1 == w;
      MarkedIs(lines, n - 1, name, mark, w);
    }
  }

  /** The output has exactly one active line for the name, the one written. */
  lemma {:induction false} EditActive(lines: seq<string>, name: string, f: string)
    requires SettingName(name)
    ensures var out := EditLines(lines, name, NewLine(name, f));
            && (forall i | 0 <= i < |out| :: Classify(out[i], name) == Active <==> i == Target(lines, name))
            && LastMarked(out, name, Active) == Some(Target(lines, name))
            && Marked(out, |out|, name, Active) == [Target(lines, name)]
  {
    hide Classify, CommentOut, NewLine, ReadSetting, Marked;
    var out := EditLines(lines, name, NewLine(name, f));
    EditShape(lines, name, NewLine(name, f));
    NewLineReads(name, f);
    forall i | 0 <= i < |out|
      ensures Classify(out[i], name) == Active <==> i == Target(lines, name)
    {
      ClassifyIsKey(out[i], name);
      if i != Target(lines, name) {
        ClassifyIsKey(lines[i], name);
        if Classify(lines[i], name) == Active {
          CommentOutReads(lines[i]);
        }
      }
    }
    MarkedIs(out, |out|, name, Active, Target(lines, name));
  }

  lemma {:induction false} OtherLine(line: string, name: string, other: string)
    requires SettingName(name) && SettingName(other) && !SameName(other, name)
    requires Classify(line, name) != Other
    ensures Classify(line, other) == Other
    ensures Classify(line, name) == Active ==> Classify(CommentOut(line), other) == Other
  {
    hide Classify, CommentOut, ReadSetting;
    ClassifyIsKey(line, name);
    ClassifyIsKey(line, other);
    if Classify(line, name) == Active {
      CommentOutReads(line);
      ClassifyIsKey(CommentOut(line), other);
    }
  }

  /** For any other name every line is marked as before, and the lines it marks are
      the same lines. */
  lemma {:induction false} EditOthers(lines: seq<string>, name: string, f: string, other: string)
    requires SettingName(name) && SettingName(other) && !SameName(other, name)
    ensures var out := EditLines(lines, name, NewLine(name, f));
            && |lines| <= |out|
            && (forall i | 0 <= i < |lines| :: Classify(out[i], other) == Classify(lines[i], other))
            && (forall i | 0 <= i < |lines| && Classify(lines[i], other) != Other :: out[i] == lines[i])
            && (forall i | |lines| <= i < |out| :: Classify(out[i], other) == Other)
  {
    hide Classify, CommentOut, NewLine, ReadSetting, Marked;
    var n := NewLine(name, f);
    var out := EditLines(lines, name, n);
    EditShape(lines, name, n);
    NewLineReads(name, f);
    ClassifyIsKey(n, other);
    LastMarkedLaw(lines, name, Active);
    LastMarkedLaw(lines, name, Commented);
    forall i | 0 <= i < |lines|
      ensures Classify(out[i], other) == Classify(lines[i], other)
      ensures Classify(lines[i], other) != Other ==> out[i] == lines[i]
    {
      if Classify(lines[i], name) != Other {
        OtherLine(lines[i], name, other);
      }
    }
  }

  lemma {:induction false} MarkedSame(a: seq<string>, b: seq<string>, n: nat, name: string, mark: Mark)
    requires n <= |a| && n <= |b|
    requires forall i | 0 <= i < n :: Classify(a[i], name) == Classify(b[i], name)
    ensures Marked(a, n, name, mark) == Marked(b, n, name, mark)
  {
    hide Classify;
    if n > 0 {
      MarkedSame(a, b, n - 1, name, mark);
    }
  }

  lemma {:induction false} MarkedBeyond(a: seq<string>, n: nat, m: nat, name: string, mark: Mark)
    requires n <= m <= |a| && mark != Other
    requires forall i | n <= i < m :: Classify(a[i], name) == Other
    ensures Marked(a, m, name, mark) == Marked(a, n, name, mark)
    decreases m
  {
    hide Classify;
    if n < m {
      MarkedBeyond(a, n, m - 1, name, mark);
    }
  }

  /** Whatever one looks for under another name is found where it was. */
  lemma {:induction false} OthersMarked(lines: seq<string>, name: string, f: string, other: string, mark: Mark)
    requires SettingName(name) && SettingName(other) && !SameName(other, name) && mark != Other
    ensures var out := EditLines(lines, name, NewLine(name, f));
            && Marked(out, |out|, other, mark) == Marked(lines, |lines|, other, mark)
            && LastMarked(out, other, mark) == LastMarked(lines, other, mark)
  {
    hide Classify, CommentOut, NewLine, EditLines;
    var out := EditLines(lines, name, NewLine(name, f));
    EditOthers(lines, name, f, other);
    MarkedSame(lines, out, |lines|, other, mark);
    MarkedBeyond(out, |lines|, |out|, other, mark);
  }

  /** No other setting changes its value in effect. */
  lemma {:induction false} OthersUnchanged(lines: seq<string>, name: string, f: string, other: string)
    requires SettingName(name) && SettingName(other) && !SameName(other, name)
    ensures Effective(EditLines(lines, name, NewLine(name, f)), other) == Effective(lines, other)
  {
    hide Classify, CommentOut, NewLine, EditLines, Marked, ValueText;
    OthersMarked(lines, name, f, other, Active);
    EditOthers(lines, name, f, other);
    LastMarkedLaw(lines, other, Active);
  }

  /** The names the reader treats as one: same letters, ignoring case. */
  lemma {:induction false} SameNameSameReader(line: string, a: string, b: string)
    requires SettingName(a) && SettingName(b) && SameName(a, b)
    ensures Classify(line, a) == Classify(line, b)
  {
    ClassifyIsKey(line, a);
    ClassifyIsKey(line, b);
  }

  // -- whole texts -------------------------------------------------------------

  lemma {:induction false} NamePlain(name: string)
    requires SettingName(name)
    ensures OneLine(name)
  {
    assert forall i | 0 <= i < |name| :: In(name[i], NameChar);
  }

  lemma {:induction false} EditOneLine(lines: seq<string>, name: string, f: string)
    requires SettingName(name) && AllOneLine(lines)
    ensures AllOneLine(EditLines(lines, name, NewLine(name, f))) <==> OneLine(f)
    ensures EditLines(lines, name, NewLine(name, f)) != []
  {
    hide Classify, CommentOut, Marked;
    var n := NewLine(name, f);
    var out := EditLines(lines, name, n);
    EditShape(lines, name, n);
    NamePlain(name);
    assert OneLine(n) <==> OneLine(f) by {
      ConcatOneLine(" ", f);
      ConcatOneLine(['='], " " + f);
      ConcatOneLine(" ", ['='] + (" " + f));
      ConcatOneLine(name, " " + (['='] + (" " + f)));
    }
    if OneLine(f) {
      forall i | 0 <= i < |out|
        ensures OneLine(out[i])
      {
        if i != Target(lines, name) {
          CommentOutOneLine(lines[i]);
        }
      }
    }
  }

  lemma {:induction false} MarkerOneLine()
    ensures OneLine(Marker())
  {
    var a, b, c := "    # ", "disabled by mcp-postgres: ", "shadowed duplicate";
    assert OneLine(a) && OneLine(b) && OneLine(c);
    ConcatOneLine(b, c);
    ConcatOneLine(a, b + c);
  }

  lemma {:induction false} CommentOutOneLine(line: string)
    requires OneLine(line)
    ensures OneLine(CommentOut(line))
  {
    var w, t := Take(line, Space), Skip(line, Space);
    TakeSkip(line, Space);
    ConcatOneLine(w, t);
    MarkerOneLine();
    ConcatOneLine(t, Marker());
    ConcatOneLine(" ", t + Marker());
    ConcatOneLine(['#'], " " + (t + Marker()));
    ConcatOneLine(w, ['#'] + (" " + (t + Marker())));
  }

  /** The text handed back has exactly the edited lines. */
  lemma {:induction false} NewContent(content: string, name: string, value: string)
    requires SettingName(name) && OneLine(Strip(value))
    ensures SplitLines(SetConf(content, name, value).content)
         == EditLines(SplitLines(content), name, NewLine(name, FormatValue(value)))
  {
    hide Classify, EditLines, NewLine, FormatValue, Strip;
    FormatOneLine(value);
    SplitLinesOneLine(content);
    EditOneLine(SplitLines(content), name, FormatValue(value));
    SplitUnlines(EditLines(SplitLines(content), name, NewLine(name, FormatValue(value))));
  }

  lemma {:induction false} StripPrefix(u: string)
    requires OneLine(u)
    ensures OneLine(RStrip(u))
  {
    if u != [] && IsSpace(u[|u| - 1]) {
      StripPrefix(u[..|u| - 1]);
    }
  }

  lemma {:induction false} PartOneLine(line: string)
    requires OneLine(line)
    ensures OneLine(ValueText(line))
  {
    var r := Skip(line, Unequal);
    TakeSkip(line, Unequal);
    ConcatOneLine(Take(line, Unequal), r);
    if r != [] {
      var s := r[1..];
      var u := Skip(s, Space);
      assert r == [r[0]] + s;
      ConcatOneLine([r[0]], s);
      TakeSkip(s, Space);
      ConcatOneLine(Take(s, Space), u);
      StripPrefix(u);
    }
  }

  /** The edit takes hold: whatever the file held, the last active line for the name
      now reads as the formatted value, exactly when the value is on one line. */
  lemma {:induction false} SetTakesEffect(content: string, name: string, value: string)
    requires SettingName(name)
    ensures Effective(SplitLines(SetConf(content, name, value).content), name) == Some(FormatValue(value))
            <==> OneLine(Strip(value))
  {
    hide Classify, EditLines, NewLine, FormatValue, Strip, ValueText, Marked;
    FormatOneLine(value);
    FormatTrimmed(value);
    var out := SplitLines(SetConf(content, name, value).content);
    if OneLine(Strip(value)) {
      var lines := SplitLines(content);
      NewContent(content, name, value);
      EditActive(lines, name, FormatValue(value));
      EditShape(lines, name, NewLine(name, FormatValue(value)));
      NewLineReads(name, FormatValue(value));
    } else if LastMarked(out, name, Active).Some? {
      SplitLinesOneLine(SetConf(content, name, value).content);
      PartOneLine(out[LastMarked(out, name, Active).value]);
    }
  }

  /** The edited file has one active line for the name, and every other name keeps its
      active and commented lines and its value in effect. */
  lemma {:induction false} SetTouchesOnly(content: string, name: string, value: string, other: string)
    requires SettingName(name) && SettingName(other) && OneLine(Strip(value))
    ensures var before, after := SplitLines(content), SplitLines(SetConf(content, name, value).content);
            if SameName(other, name) then |Marked(after, |after|, other, Active)| == 1
            else
              && Marked(after, |after|, other, Active) == Marked(before, |before|, other, Active)
              && Marked(after, |after|, other, Commented) == Marked(before, |before|, other, Commented)
              && Effective(after, other) == Effective(before, other)
  {
    hide Classify, EditLines, NewLine, FormatValue, Strip, ValueText, Marked, LastMarked;
    var before, after := SplitLines(content), SplitLines(SetConf(content, name, value).content);
    NewContent(content, name, value);
    if SameName(other, name) {
      EditActive(before, name, FormatValue(value));
      forall i | 0 <= i < |after|
        ensures Classify(after[i], other) == Classify(after[i], name)
      {
        SameNameSameReader(after[i], other, name);
      }
      MarkedSameNames(after, |after|, other, name, Active);
    } else {
      OthersMarked(before, name, FormatValue(value), other, Active);
      OthersMarked(before, name, FormatValue(value), other, Commented);
      OthersUnchanged(before, name, FormatValue(value), other);
    }
  }

  lemma {:induction false} MarkedSameNames(lines: seq<string>, n: nat, a: string, b: string, mark: Mark)
    requires n <= |lines| && forall i | 0 <= i < n :: Classify(lines[i], a) == Classify(lines[i], b)
    ensures Marked(lines, n, a, mark) == Marked(lines, n, b, mark)
  {
    hide Classify;
    if n > 0 {
      MarkedSameNames(lines, n - 1, a, b, mark);
    }
  }

  /** What the result reports is what the file held: the value that was in effect, how
      many active lines there were, which of the four cases it was, and whether the text
      differs from the old one with its last line ended. */
  lemma {:induction false} ReportTells(content: string, name: string, value: string)
    ensures var r, lines := SetConf(content, name, value), SplitLines(content);
            var active, commented := Marked(lines, |lines|, name, Active), Marked(lines, |lines|, name, Commented);
            && r.oldValue == Effective(lines, name)
            && r.activeOccurrences == |active|
            && (r.action.Replaced? <==> |active| == 1)
            && (r.action.Deduplicated? <==> |active| >= 2)
            && (r.action.Uncommented? <==> active == [] && commented != [])
            && (r.action.Appended? <==> active == [] && commented == [])
            && (r.action.Uncommented? ==> Target(lines, name) == commented[|commented| - 1])
            && (r.action.Appended? <==> Appends(lines, name))
            && r.shadowedDisabled == (if active == [] then 0 else |active| - 1)
            && (r.changed <==> r.content != (if |content| > 0 && content[|content| - 1] == '\n' then content else content + "\n"))
  {
    hide Classify, EditLines, NewLine, FormatValue, ValueText, Marked;
  }

  // -- laws between edits ------------------------------------------------------

  /** Rewriting the only active line. */
  lemma {:induction false} EditAgain(lines: seq<string>, name: string, f: string, g: string)
    requires SettingName(name)
    ensures EditLines(EditLines(lines, name, NewLine(name, f)), name, NewLine(name, g))
         == EditLines(lines, name, NewLine(name, g))
  {
    hide Classify, CommentOut, NewLine, EditLines, Marked;
    var n, m := NewLine(name, f), NewLine(name, g);
    var once := EditLines(lines, name, n);
    var twice, direct := EditLines(once, name, m), EditLines(lines, name, m);
    EditShape(lines, name, n);
    EditShape(lines, name, m);
    EditActive(lines, name, f);
    EditShape(once, name, m);
    assert Target(once, name) == Target(lines, name);
    assert forall i | 0 <= i < |lines| && i != Target(lines, name) :: twice[i] == once[i] == direct[i];
  }

  /** Setting a name twice gives the text that the second setting alone gives. */
  lemma {:induction false} SetTwiceOneLine(content: string, name: string, v1: string, v2: string)
    requires SettingName(name) && OneLine(Strip(v1))
    ensures SetConf(SetConf(content, name, v1).content, name, v2).content == SetConf(content, name, v2).content
  {
    hide Classify, EditLines, NewLine, FormatValue, Strip;
    NewContent(content, name, v1);
    EditAgain(SplitLines(content), name, FormatValue(v1), FormatValue(v2));
  }

  /** Setting what is already set is a no-op: nothing changed, one active line, none
      shadowed, and the old value is the formatted value. */
  lemma {:induction false} SetIsSettledOneLine(content: string, name: string, value: string)
    requires SettingName(name) && OneLine(Strip(value))
    ensures var once := SetConf(content, name, value).content;
            SetConf(once, name, value) == SetConfResult(once, false, Some(FormatValue(value)), Replaced, 1, 0)
  {
    hide Classify, EditLines, NewLine, FormatValue, Strip, ValueText, Marked;
    var r := SetConf(content, name, value);
    SetTwiceOneLine(content, name, value, value);
    NewContent(content, name, value);
    EditActive(SplitLines(content), name, FormatValue(value));
    ReportTells(r.content, name, value);
    SetTakesEffect(content, name, value);
    assert r.content[|r.content| - 1] == '\n';
  }

  lemma {:induction false} TargetKept(lines: seq<string>, a: string, f: string, b: string)
    requires SettingName(a) && SettingName(b) && !SameName(a, b)
    ensures var out := EditLines(lines, a, NewLine(a, f));
            Target(out, b) == if Appends(lines, b) then |out| else Target(lines, b)
  {
    hide Classify, CommentOut, NewLine, EditLines, Marked, LastMarked;
    OthersMarked(lines, a, f, b, Active);
    OthersMarked(lines, a, f, b, Commented);
    LastMarkedBelow(lines, b, Active);
    LastMarkedBelow(lines, b, Commented);
  }

  lemma {:induction false} LastMarkedBelow(lines: seq<string>, name: string, mark: Mark)
    ensures LastMarked(lines, name, mark).Some? ==> LastMarked(lines, name, mark).value < |lines|
  {
  }

  /** What an edit for `b` leaves on a line that `a`'s edit does not append. */
  lemma {:induction false} BothEdits(lines: seq<string>, a: string, f: string, b: string, g: string, i: nat)
    requires SettingName(a) && SettingName(b) && !SameName(a, b) && i < |lines|
    ensures var ea, eb := EditLines(lines, a, NewLine(a, f)), EditLines(lines, b, NewLine(b, g));
            && |lines| <= |ea| && |lines| <= |eb|
            && |lines| <= |EditLines(ea, b, NewLine(b, g))|
            && EditLines(ea, b, NewLine(b, g))[i] == if Classify(lines[i], b) != Other then eb[i] else ea[i]
  {
    hide Classify, CommentOut, NewLine, EditLines, Marked, LastMarked;
    var ea := EditLines(lines, a, NewLine(a, f));
    EditShape(lines, a, NewLine(a, f));
    EditShape(lines, b, NewLine(b, g));
    EditOthers(lines, a, f, b);
    EditShape(ea, b, NewLine(b, g));
    TargetKept(lines, a, f, b);
    TargetMarked(lines, b);
  }

  lemma {:induction false} TargetMarked(lines: seq<string>, name: string)
    ensures !Appends(lines, name) ==> Classify(lines[Target(lines, name)], name) != Other
    ensures Target(lines, name) <= |lines|
  {
    hide Classify, Marked;
    LastMarkedLaw(lines, name, Active);
    LastMarkedLaw(lines, name, Commented);
  }

  lemma {:induction false} OneMarkOnly(line: string, a: string, b: string)
    requires SettingName(a) && SettingName(b) && !SameName(a, b)
    ensures Classify(line, a) == Other || Classify(line, b) == Other
  {
    hide Classify, ReadSetting;
    ClassifyIsKey(line, a);
    ClassifyIsKey(line, b);
  }

  lemma {:induction false} UntouchedByOther(lines: seq<string>, a: string, f: string, i: nat)
    requires SettingName(a) && i < |lines| && Classify(lines[i], a) == Other
    ensures |lines| <= |EditLines(lines, a, NewLine(a, f))|
    ensures EditLines(lines, a, NewLine(a, f))[i] == lines[i]
  {
    hide Classify, CommentOut, NewLine, EditLines, Marked, LastMarked;
    EditShape(lines, a, NewLine(a, f));
    TargetMarked(lines, a);
  }

  /** Edits of two different names give the same lines in either order, exactly when
      not both of them append. */
  lemma {:induction false} EditsCommute(lines: seq<string>, a: string, f: string, b: string, g: string)
    requires SettingName(a) && SettingName(b) && !SameName(a, b)
    ensures var ab := EditLines(EditLines(lines, a, NewLine(a, f)), b, NewLine(b, g));
            var ba := EditLines(EditLines(lines, b, NewLine(b, g)), a, NewLine(a, f));
            ab == ba <==> !(Appends(lines, a) && Appends(lines, b))
  {
    hide Classify, CommentOut, NewLine, EditLines, Marked, LastMarked;
    var ea, eb := EditLines(lines, a, NewLine(a, f)), EditLines(lines, b, NewLine(b, g));
    var ab, ba := EditLines(ea, b, NewLine(b, g)), EditLines(eb, a, NewLine(a, f));
    EditShape(lines, a, NewLine(a, f));
    EditShape(lines, b, NewLine(b, g));
    EditShape(ea, b, NewLine(b, g));
    EditShape(eb, a, NewLine(a, f));
    TargetKept(lines, a, f, b);
    TargetKept(lines, b, g, a);
    TargetMarked(lines, a);
    TargetMarked(lines, b);
    forall i | 0 <= i < |lines|
      ensures ab[i] == ba[i]
    {
      BothEdits(lines, a, f, b, g, i);
      BothEdits(lines, b, g, a, f, i);
      OneMarkOnly(lines[i], a, b);
      if Classify(lines[i], a) == Other {
        UntouchedByOther(lines, a, f, i);
      }
      if Classify(lines[i], b) == Other {
        UntouchedByOther(lines, b, g, i);
      }
    }
    NewLineReads(a, f);
    NewLineReads(b, g);
    if Appends(lines, a) {
      AppendedKept(lines, a, f, b, g);
    }
    if Appends(lines, b) {
      AppendedKept(lines, b, g, a, f);
    }
  }

  /** A line `a` appended stays where it is when `b` is edited. */
  lemma {:induction false} AppendedKept(lines: seq<string>, a: string, f: string, b: string, g: string)
    requires SettingName(a) && SettingName(b) && !SameName(a, b)
    requires Appends(lines, a)
    ensures var ea := EditLines(lines, a, NewLine(a, f));
            && |ea| == |lines| + 1 && |ea| <= |EditLines(ea, b, NewLine(b, g))|
            && EditLines(ea, b, NewLine(b, g))[|lines|] == NewLine(a, f)
  {
    hide Classify, CommentOut, NewLine, EditLines, Marked, LastMarked, ReadSetting;
    var ea := EditLines(lines, a, NewLine(a, f));
    EditShape(lines, a, NewLine(a, f));
    EditShape(ea, b, NewLine(b, g));
    NewLineReads(a, f);
    ClassifyIsKey(ea[|lines|], b);
    UntouchedByOther(ea, b, g, |lines|);
  }

  /** On whole texts: edits of two different names commute exactly when not both are
      appended, and the values in effect agree in either order for every name. */
  lemma {:induction false} SetsCommute(content: string, a: string, v: string, b: string, w: string, name: string)
    requires SettingName(a) && SettingName(b) && !SameName(a, b) && SettingName(name)
    requires OneLine(Strip(v)) && OneLine(Strip(w))
    ensures var ab := SetConf(SetConf(content, a, v).content, b, w).content;
            var ba := SetConf(SetConf(content, b, w).content, a, v).content;
            && (ab == ba <==> !(Appends(SplitLines(content), a) && Appends(SplitLines(content), b)))
            && Effective(SplitLines(ab), name) == Effective(SplitLines(ba), name)
  {
    hide Classify, CommentOut, NewLine, EditLines, Marked, LastMarked, FormatValue, Strip, ValueText;
    var lines := SplitLines(content);
    var sa, sb := SetConf(content, a, v).content, SetConf(content, b, w).content;
    var ab, ba := SetConf(sa, b, w).content, SetConf(sb, a, v).content;
    NewContent(content, a, v);
    NewContent(content, b, w);
    NewContent(sa, b, w);
    NewContent(sb, a, v);
    EditsCommute(lines, a, FormatValue(v), b, FormatValue(w));
    EffectiveAfterBoth(lines, a, FormatValue(v), b, FormatValue(w), name);
    EffectiveAfterBoth(lines, b, FormatValue(w), a, FormatValue(v), name);
    FormatTrimmed(v);
    FormatTrimmed(w);
  }

  lemma {:induction false} EffectiveSameName(lines: seq<string>, a: string, b: string)
    requires SettingName(a) && SettingName(b) && SameName(a, b)
    ensures Effective(lines, a) == Effective(lines, b)
  {
    hide Classify, ValueText, Marked;
    forall i | 0 <= i < |lines|
      ensures Classify(lines[i], a) == Classify(lines[i], b)
    {
      SameNameSameReader(lines[i], a, b);
    }
    MarkedSameNames(lines, |lines|, a, b, Active);
  }

  lemma {:induction false} EffectiveEdited(lines: seq<string>, a: string, f: string)
    requires SettingName(a) && Trimmed(f)
    ensures Effective(EditLines(lines, a, NewLine(a, f)), a) == Some(f)
  {
    hide Classify, CommentOut, NewLine, EditLines, Marked, LastMarked, ValueText;
    EditActive(lines, a, f);
    EditShape(lines, a, NewLine(a, f));
    NewLineReads(a, f);
  }

  lemma {:induction false} EffectiveAfterBoth(lines: seq<string>, a: string, f: string, b: string, g: string, name: string)
    requires SettingName(a) && SettingName(b) && !SameName(a, b) && SettingName(name)
    ensures Trimmed(f) && Trimmed(g) ==>
              Effective(EditLines(EditLines(lines, a, NewLine(a, f)), b, NewLine(b, g)), name)
              == if SameName(name, a) then Some(f) else if SameName(name, b) then Some(g) else Effective(lines, name)
  {
    hide Classify, CommentOut, NewLine, EditLines, Marked, LastMarked, ValueText, Effective;
    var ea := EditLines(lines, a, NewLine(a, f));
    var ab := EditLines(ea, b, NewLine(b, g));
    if Trimmed(f) && Trimmed(g) {
      EffectiveEdited(lines, a, f);
      EffectiveEdited(ea, b, g);
      if SameName(name, b) {
        EffectiveSameName(ab, name, b);
      } else {
        OthersUnchanged(ea, b, g, name);
        if SameName(name, a) {
          EffectiveSameName(ea, name, a);
        } else {
          OthersUnchanged(lines, a, f, name);
        }
      }
    }
  }
}
