/** What PostgreSQL reads in an edited file. It ends a line at a line feed, and the editor
    cuts at every break `splitlines` knows; both matter for the settings one leaves
    alone, and for values that hold a break themselves. */
module ConfFileLaws {
  import opened Text
  import opened ConfEdit
  import opened ConfValueLaws
  import opened ConfEditLaws
  import opened ConfSetLaws

  /** The value of a setting in a file: that of its last active line. */
  function InEffect(content: string, name: string): Option<string> {
    Effective(FileLines(content), name)
  }

  function Over(later: Option<string>, earlier: Option<string>): Option<string> {
    if later.Some? then later else earlier
  }

  // -- the last active line, piece by piece --------------------------------------

  lemma {:induction false} EffectiveSnoc(lines: seq<string>, l: string, name: string)
    ensures Effective(lines + [l], name)
         == if Classify(l, name) == Active then Some(ValueText(l)) else Effective(lines, name)
  {
    hide Classify, ValueText;
    var more := lines + [l];
    MarkedSame(more, lines, |lines|, name, Active);
    LastMarkedLaw(lines, name, Active);
    assert more[|lines|] == l;
  }

  lemma {:induction false} EffectiveConcat(a: seq<string>, b: seq<string>, name: string)
    ensures Effective(a + b, name) == Over(Effective(b, name), Effective(a, name))
    decreases |b|
  {
    hide Effective, Classify, ValueText;
    if b == [] {
      assert a + b == a;
      EffectiveNone(name);
    } else {
      var init, l := b[..|b| - 1], b[|b| - 1];
      assert b == init + [l] && a + b == a + init + [l];
      EffectiveSnoc(init, l, name);
      EffectiveSnoc(a + init, l, name);
      EffectiveConcat(a, init, name);
    }
  }

  lemma {:induction false} EffectiveNone(name: string)
    ensures Effective([], name) == None
  {
  }

  lemma {:induction false} EffectiveOne(l: string, name: string)
    ensures Effective([l], name) == if Classify(l, name) == Active then Some(ValueText(l)) else None
  {
    hide Effective, Classify, ValueText;
    EffectiveSnoc([], l, name);
    EffectiveNone(name);
    assert [] + [l] == [l];
  }

  /** Lines that a name's reader marks alike, and that are the same where it looks. */
  lemma {:induction false} EffectiveAlike(a: seq<string>, b: seq<string>, name: string)
    requires |a| == |b| && forall i | 0 <= i < |a| :: Classify(a[i], name) == Classify(b[i], name)
    requires forall i | 0 <= i < |a| && Classify(a[i], name) == Active :: a[i] == b[i]
    ensures Effective(a, name) == Effective(b, name)
  {
    hide Classify, ValueText;
    MarkedSame(a, b, |a|, name, Active);
    LastMarkedLaw(a, name, Active);
  }

  // -- the lines of an edited file ---------------------------------------------

  lemma {:induction false} UnreturnJoin(a: string, t: string)
    requires a == [] || a[|a| - 1] != '\r'
    ensures Unreturn(a + ("\n" + t)) == Unreturn(a) + ("\n" + Unreturn(t))
    decreases |a|
  {
    var s := a + ("\n" + t);
    if a == [] {
      assert s == "\n" + t && s[1..] == t;
    } else {
      assert s[1..] == a[1..] + ("\n" + t);
      UnreturnJoin(a[1..], t);
    }
  }

  lemma {:induction false} UnreturnEnds(a: string)
    requires Ends(a)
    ensures Ends(Unreturn(a)) && Unreturn(a)[|Unreturn(a)| - 1] == a[|a| - 1]
    ensures |Unreturn(a)| <= |a|
  {
    if |a| > 1 {
      assert a[1..][|a| - 2] == a[|a| - 1];
      UnreturnEnds(a[1..]);
    } else {
      assert a[1..] == [];
    }
  }

  /** A text without a line feed is one line, and any other text its lines. */
  function Cut(l: string): seq<string> { if All(l, Unfeed) then [l] else FeedLines(l) }

  lemma {:induction false} FeedMore(a: string, t: string)
    requires Ends(a)
    ensures FeedLines(a + ("\n" + t)) == Cut(a) + FeedLines(t)
    decreases |a|
  {
    hide FeedLines, Take, Skip, Cut, Ends;
    var l, r := Take(a, Unfeed), Skip(a, Unfeed);
    TakeSkip(a, Unfeed);
    EndsSome(a);
    FeedStep(a);
    CutFeed(a);
    if r == [] {
      assert l + [] == l;
      FeedFirst(a, t);
    } else {
      FeedTail(l, r);
      assert a + ("\n" + t) == l + ("\n" + (r[1..] + ("\n" + t)));
      FeedFirst(l, r[1..] + ("\n" + t));
      FeedMore(r[1..], t);
      CutFeed(r[1..]);
    }
  }

  lemma {:induction false} EndsSome(a: string)
    requires Ends(a)
    ensures a != []
  {
  }

  lemma {:induction false} FeedTail(l: string, r: string)
    requires Ends(l + r) && r != [] && !In(r[0], Unfeed)
    ensures r == "\n" + r[1..] && r[1..] != [] && Ends(r[1..])
  {
    assert (l + r)[|l + r| - 1] == r[|r| - 1];
  }

  lemma {:induction false} FeedStep(a: string)
    requires a != []
    ensures var r := Skip(a, Unfeed);
            FeedLines(a) == [Take(a, Unfeed)] + (if r == [] then [] else FeedLines(r[1..]))
  {
  }

  lemma {:induction false} CutFeed(a: string)
    requires a != []
    ensures Cut(a) == FeedLines(a)
  {
    TakeSkip(a, Unfeed);
    if All(a, Unfeed) {
      SplitAt(a, [], Unfeed);
      assert a + [] == a;
    }
  }

  lemma {:induction false} OneLineReturns(l: string)
    requires OneLine(l)
    ensures Unreturn(l) == l && (l == [] || l[|l| - 1] != '\r')
  {
    assert forall i | 0 <= i < |l| :: In(l[i], InLine);
    NoReturn(l);
  }

  lemma {:induction false} FileOneLines(ls: seq<string>)
    requires ls != [] && AllOneLine(ls)
    ensures FileLines(Unlines(ls)) == ls
  {
    hide FileLines;
    UnlinesLf(ls);
    TidyLines(Unlines(ls));
    SplitUnlines(ls);
  }

  lemma {:induction false} FileHead(l: string, rest: string)
    requires OneLine(l) || Ends(l)
    ensures FileLines(l + ("\n" + rest)) == Cut(Unreturn(l)) + FileLines(rest)
  {
    hide FeedLines, Unreturn;
    if OneLine(l) {
      OneLineReturns(l);
      OneLineUnfeed(l);
      UnreturnJoin(l, rest);
      FeedFirst(l, Unreturn(rest));
    } else {
      UnreturnEnds(l);
      UnreturnJoin(l, rest);
      FeedMore(Unreturn(l), Unreturn(rest));
    }
  }

  lemma {:induction false} NoFileLines()
    ensures FileLines("") == []
  {
  }

  /** A list of lines, one of which may hold breaks, as a file. */
  lemma {:induction false} FileSpread(ls: seq<string>, t: nat)
    requires t < |ls| && Ends(ls[t])
    requires forall i | 0 <= i < |ls| && i != t :: OneLine(ls[i])
    ensures FileLines(Unlines(ls)) == ls[..t] + Cut(Unreturn(ls[t])) + ls[t + 1..]
    decreases |ls|
  {
    hide FileLines, Cut, Unreturn, Ends, OneLine;
    var rest := if |ls| == 1 then "" else Unlines(ls[1..]);
    assert Unlines(ls) == ls[0] + ("\n" + rest);
    FileHead(ls[0], rest);
    if t > 0 {
      assert ls[1..][t - 1] == ls[t];
      assert forall i | 0 <= i < |ls[1..]| :: ls[1..][i] == ls[i + 1];
      FileSpread(ls[1..], t - 1);
      CutOne(ls[0]);
      assert ls[..t] == [ls[0]] + ls[1..][..t - 1] && ls[1..][t..] == ls[t + 1..];
    } else if |ls| > 1 {
      assert forall i | 0 <= i < |ls[1..]| :: ls[1..][i] == ls[i + 1];
      FileOneLines(ls[1..]);
      assert ls[..0] + Cut(Unreturn(ls[0])) == Cut(Unreturn(ls[0]));
    } else {
      NoFileLines();
      assert ls[..0] + Cut(Unreturn(ls[0])) + ls[1..] == Cut(Unreturn(ls[0]));
    }
  }

  lemma {:induction false} CutOne(l: string)
    requires OneLine(l)
    ensures Cut(Unreturn(l)) == [l]
  {
    OneLineReturns(l);
    OneLineUnfeed(l);
  }

  // -- what a value spills -----------------------------------------------------

  /** A formatted value up to its first line feed, and the lines behind that. */
  function FirstPart(value: string): string { Take(Unreturn(FormatValue(value)), Unfeed) }

  function Spilled(value: string): seq<string> {
    var r := Skip(Unreturn(FormatValue(value)), Unfeed);
    if r == [] then [] else FeedLines(r[1..])
  }

  lemma {:induction false} NewLineCut(name: string, value: string)
    requires SettingName(name)
    ensures Cut(Unreturn(NewLine(name, FormatValue(value)))) == [NewLine(name, FirstPart(value))] + Spilled(value)
  {
    hide FormatValue, FeedLines, Unreturn;
    var f := FormatValue(value);
    var g, head := Unreturn(f), name + " = ";
    NamePlain(name);
    ConcatOneLine(name, " = ");
    assert NewLine(name, f) == head + f && NewLine(name, FirstPart(value)) == head + FirstPart(value);
    UnreturnOver(head, f);
    var p, r := Take(g, Unfeed), Skip(g, Unfeed);
    TakeSkip(g, Unfeed);
    OneLineUnfeed(head);
    SplitAt(head + p, r, Unfeed);
    assert head + g == (head + p) + r;
    FeedStep(head + g);
    if r == [] {
      assert p + [] == p;
      assert All(head + g, Unfeed);
    } else {
      assert !In((head + g)[|head + p|], Unfeed);
    }
  }

  /** The lines of the edited file: the value's spill stands behind the line written. */
  lemma {:induction false} EditedLines(content: string, name: string, value: string)
    requires SettingName(name)
    ensures var lines := SplitLines(content);
            var out, t := EditLines(lines, name, NewLine(name, FormatValue(value))), Target(lines, name);
            && t < |out|
            && FileLines(SetConf(content, name, value).content)
               == out[..t] + ([NewLine(name, FirstPart(value))] + Spilled(value)) + out[t + 1..]
  {
    hide Classify, CommentOut, NewLine, EditLines, Marked, FormatValue, SplitLines, FileLines, Target, FirstPart, Spilled, Cut, Ends, OneLine, Unlines;
    var lines, f := SplitLines(content), FormatValue(value);
    var out, t := EditLines(lines, name, NewLine(name, f)), Target(lines, name);
    SplitLinesOneLine(content);
    FormatTrimmed(value);
    TargetBound(lines, name);
    EditShape(lines, name, NewLine(name, f));
    NewLineEnds(name, f);
    forall i | 0 <= i < |out| && i != t
      ensures OneLine(out[i])
    {
      CommentOutOneLine(lines[i]);
    }
    FileSpread(out, t);
    NewLineCut(name, value);
  }

  lemma {:induction false} TargetBound(lines: seq<string>, name: string)
    ensures Target(lines, name) <= |lines|
  {
  }

  // -- the other settings ------------------------------------------------------

  /** The lines behind the one an edit writes. */
  function Behind(lines: seq<string>, t: nat): seq<string> { if t < |lines| then lines[t + 1..] else [] }

  /** What an edit does to any other setting, for every file and every value: the lines
      the value spills count between the editor's lines before and behind the one it
      writes. */
  lemma {:induction false} FileSpills(content: string, name: string, value: string, other: string)
    requires SettingName(name) && SettingName(other) && !SameName(other, name)
    ensures var lines := SplitLines(content);
            var t := Target(lines, name);
            && t <= |lines|
            && InEffect(SetConf(content, name, value).content, other)
               == Over(Effective(Behind(lines, t), other), Over(Effective(Spilled(value), other), Effective(lines[..t], other)))
  {
    hide Classify, CommentOut, NewLine, EditLines, Marked, FormatValue, SplitLines, FileLines, Target, FirstPart, Spilled, Effective;
    var lines, f := SplitLines(content), FormatValue(value);
    var out, t := EditLines(lines, name, NewLine(name, f)), Target(lines, name);
    EditedLines(content, name, value);
    AroundOutput(lines, name, f, other);
    var first := NewLine(name, FirstPart(value));
    FirstNotOther(name, FirstPart(value), other);
    ThreeParts(out[..t], first, Spilled(value), out[t + 1..], other);
  }

  lemma {:induction false} FirstNotOther(name: string, f: string, other: string)
    requires SettingName(name) && SettingName(other) && !SameName(other, name)
    ensures Classify(NewLine(name, f), other) == Other
  {
    hide Classify, NewLine;
    NewLineReads(name, f);
    ClassifyIsKey(NewLine(name, f), other);
  }

  lemma {:induction false} ThreeParts(a: seq<string>, first: string, spill: seq<string>, z: seq<string>, name: string)
    ensures Effective(a + ([first] + spill) + z, name)
         == Over(Effective(z, name), Over(Effective(spill, name), Over(Effective([first], name), Effective(a, name))))
    ensures Effective([first], name) == if Classify(first, name) == Active then Some(ValueText(first)) else None
  {
    hide Classify, ValueText, Effective;
    EffectiveOne(first, name);
    EffectiveConcat([first], spill, name);
    EffectiveConcat(a, [first] + spill, name);
    EffectiveConcat(a + ([first] + spill), z, name);
  }

  lemma {:induction false} AroundOutput(lines: seq<string>, name: string, f: string, other: string)
    requires SettingName(name) && SettingName(other) && !SameName(other, name)
    ensures var out, t := EditLines(lines, name, NewLine(name, f)), Target(lines, name);
            && t <= |lines| && t < |out|
            && Effective(out[..t], other) == Effective(lines[..t], other)
            && Effective(out[t + 1..], other) == Effective(Behind(lines, t), other)
  {
    hide Classify, CommentOut, NewLine, EditLines, Marked, Target, Effective;
    var out, t := EditLines(lines, name, NewLine(name, f)), Target(lines, name);
    TargetBound(lines, name);
    EditOthers(lines, name, f, other);
    EditShape(lines, name, NewLine(name, f));
    EffectiveAlike(out[..t], lines[..t], other);
    EffectiveAlike(out[t + 1..], Behind(lines, t), other);
  }

  /** When another setting keeps the value it had in the file. If no spilled line sets
      it: exactly when the editor, which also cuts at the breaks PostgreSQL reads over,
      sees that value too. In a file without such breaks: exactly when no spilled line
      sets it, or one behind does, or the spilled value is the old one. */
  lemma {:induction false} FileTouchesOnly(content: string, name: string, value: string, other: string)
    requires SettingName(name) && SettingName(other) && !SameName(other, name)
    ensures Effective(Spilled(value), other).None? ==>
              (InEffect(SetConf(content, name, value).content, other) == InEffect(content, other)
               <==> Effective(SplitLines(content), other) == InEffect(content, other))
    ensures LfBreaks(content) ==>
              var lines, t := SplitLines(content), Target(SplitLines(content), name);
              && t <= |lines| && Effective(lines, other) == InEffect(content, other)
              && (InEffect(SetConf(content, name, value).content, other) == InEffect(content, other)
                  <==> Effective(Spilled(value), other).None? || Effective(Behind(lines, t), other).Some?
                       || Effective(Spilled(value), other) == Effective(lines[..t], other))
    ensures All(Strip(value), Unfeed) ==> Spilled(value) == []
  {
    hide Classify, ValueText, Marked, FormatValue, SplitLines, FileLines, Target, Spilled, Effective, SetConf;
    var lines, t := SplitLines(content), Target(SplitLines(content), name);
    FileSpills(content, name, value, other);
    AroundTarget(lines, name, other);
    if LfBreaks(content) {
      TidyLines(content);
    }
    if All(Strip(value), Unfeed) {
      NoSpill(value);
    }
  }

  /** The line an edit writes never counted for another setting. */
  lemma {:induction false} AroundTarget(lines: seq<string>, name: string, other: string)
    requires SettingName(name) && SettingName(other) && !SameName(other, name)
    ensures var t := Target(lines, name);
            && t <= |lines|
            && Effective(lines, other) == Over(Effective(Behind(lines, t), other), Effective(lines[..t], other))
  {
    hide Classify, ValueText, Marked, Target, Effective;
    var t := Target(lines, name);
    TargetBound(lines, name);
    TargetNotOther(lines, name, other);
    if t < |lines| {
      assert lines == lines[..t] + ([lines[t]] + lines[t + 1..]);
      EffectiveConcat([lines[t]], lines[t + 1..], other);
      EffectiveConcat(lines[..t], [lines[t]] + lines[t + 1..], other);
      EffectiveOne(lines[t], other);
    } else {
      EffectiveNone(other);
      assert lines[..t] == lines;
    }
  }

  lemma {:induction false} TargetNotOther(lines: seq<string>, name: string, other: string)
    requires SettingName(name) && SettingName(other) && !SameName(other, name)
    ensures Target(lines, name) < |lines| ==> Classify(lines[Target(lines, name)], other) == Other
  {
    hide Classify, Marked, CommentOut;
    LastMarkedLaw(lines, name, Active);
    LastMarkedLaw(lines, name, Commented);
    if Target(lines, name) < |lines| {
      OtherLine(lines[Target(lines, name)], name, other);
    }
  }

  lemma {:induction false} ConcatUnfeed(a: string, b: string)
    ensures All(a + b, Unfeed) <==> All(a, Unfeed) && All(b, Unfeed)
  {
    if All(a + b, Unfeed) {
      assert forall i | 0 <= i < |a| :: a[i] == (a + b)[i];
      assert forall i | 0 <= i < |b| :: b[i] == (a + b)[|a| + i];
    }
  }

  lemma {:induction false} DoublingUnfeed(v: string)
    ensures All(Replace(v, '\'', "''"), Unfeed) <==> All(v, Unfeed)
  {
    if v != [] {
      DoublingUnfeed(v[1..]);
      assert v == [v[0]] + v[1..];
      var head := if v[0] == '\'' then "''" else [v[0]];
      assert Replace(v, '\'', "''") == head + Replace(v[1..], '\'', "''");
      ConcatUnfeed(head, Replace(v[1..], '\'', "''"));
      ConcatUnfeed([v[0]], v[1..]);
      assert All(head, Unfeed) <==> All([v[0]], Unfeed);
    }
  }

  /** A formatted value holds a line feed exactly when the stripped input does. */
  lemma {:induction false} FormatUnfeed(value: string)
    ensures All(FormatValue(value), Unfeed) <==> All(Strip(value), Unfeed)
  {
    hide Numeric, Boolish, Strip;
    var v := Strip(value);
    DoublingUnfeed(v);
    ConcatUnfeed(Replace(v, '\'', "''"), ['\'']);
    ConcatUnfeed(['\''], Replace(v, '\'', "''") + ['\'']);
  }

  lemma {:induction false} UnreturnSame(t: string)
    requires All(t, Unfeed)
    ensures Unreturn(t) == t
  {
    if t != [] {
      assert t == [t[0]] + t[1..];
      assert |t| > 1 ==> In(t[1], Unfeed);
      assert forall i | 0 <= i < |t[1..]| :: t[1..][i] == t[i + 1];
      UnreturnSame(t[1..]);
    }
  }

  lemma {:induction false} NoSpill(value: string)
    requires All(Strip(value), Unfeed)
    ensures Spilled(value) == [] && FirstPart(value) == FormatValue(value)
  {
    hide FormatValue;
    var f := FormatValue(value);
    FormatUnfeed(value);
    UnreturnSame(f);
    SplitAt(f, [], Unfeed);
    assert f + [] == f;
  }

  // -- the setting itself ------------------------------------------------------

  /** What the file holds for the setting after the edit. */
  lemma {:induction false} OwnValue(content: string, name: string, value: string)
    requires SettingName(name)
    ensures InEffect(SetConf(content, name, value).content, name)
         == Over(Effective(Spilled(value), name), Some(Strip(" " + FirstPart(value))))
  {
    hide Classify, CommentOut, NewLine, EditLines, Marked, FormatValue, SplitLines, FileLines, Target, FirstPart, Spilled, Effective, ReadSetting;
    var lines, f := SplitLines(content), FormatValue(value);
    var out, t := EditLines(lines, name, NewLine(name, f)), Target(lines, name);
    EditedLines(content, name, value);
    EditActive(lines, name, f);
    EffectiveNothing(out[t + 1..], name);
    var first := NewLine(name, FirstPart(value));
    NewLineReads(name, FirstPart(value));
    ClassifyIsKey(first, name);
    ThreeParts(out[..t], first, Spilled(value), out[t + 1..], name);
  }

  lemma {:induction false} EffectiveNothing(lines: seq<string>, name: string)
    requires forall i | 0 <= i < |lines| :: Classify(lines[i], name) != Active
    ensures Effective(lines, name) == None
  {
    hide Classify, ValueText;
    LastMarkedLaw(lines, name, Active);
  }

  lemma {:induction false} FeedLineShort(a: string, l: string)
    requires l in FeedLines(a)
    ensures |l| <= |a| && All(l, Unfeed)
    decreases |a|
  {
    hide FeedLines;
    TakeSkip(a, Unfeed);
    if a == [] {
      NoFeedLines();
    } else {
      FeedStep(a);
      if l != Take(a, Unfeed) {
        FeedLineShort(Skip(a, Unfeed)[1..], l);
      }
    }
  }

  lemma {:induction false} NoFeedLines()
    ensures FeedLines([]) == []
  {
  }

  lemma {:induction false} ValueShort(line: string)
    ensures |ValueText(line)| <= |line|
    ensures All(line, Unfeed) ==> All(ValueText(line), Unfeed)
  {
    hide Strip;
    var r := Skip(line, Unequal);
    TakeSkip(line, Unequal);
    if r != [] {
      StripWithin(r[1..]);
      assert forall i | 0 <= i < |r| :: r[i] == line[|line| - |r| + i];
      assert forall i | 0 <= i < |r[1..]| :: r[1..][i] == r[i + 1];
    }
  }

  lemma {:induction false} StripWithin(s: string)
    ensures |Strip(s)| <= |s|
    ensures All(s, Unfeed) ==> All(Strip(s), Unfeed)
  {
    StripTrims(s);
    var u := Skip(s, Space);
    TakeSkip(s, Space);
    RStripShort(u);
    forall i | 0 <= i < |Strip(s)|
      ensures All(s, Unfeed) ==> In(Strip(s)[i], Unfeed)
    {
      assert Strip(s)[i] in s;
    }
  }

  lemma {:induction false} RStripShort(u: string)
    ensures |RStrip(u)| <= |u|
  {
    if u != [] && IsSpace(u[|u| - 1]) {
      RStripShort(u[..|u| - 1]);
    }
  }

  /** With a line feed in the value, what the file holds is shorter than what was
      written, and holds no line feed. */
  lemma {:induction false} OwnValueShort(content: string, name: string, value: string)
    requires SettingName(name) && !All(Strip(value), Unfeed)
    ensures var v := InEffect(SetConf(content, name, value).content, name);
            v.Some? && |v.value| < |FormatValue(value)| && All(v.value, Unfeed)
  {
    hide FormatValue, FeedLines, Unreturn, Strip, SetConf, InEffect, Effective, Classify;
    var f := FormatValue(value);
    var g := Unreturn(f);
    FormatTrimmed(value);
    FormatUnfeed(value);
    TrimmedEnds(f);
    UnreturnEnds(f);
    OwnValue(content, name, value);
    TakeSkip(g, Unfeed);
    var p, r := Take(g, Unfeed), Skip(g, Unfeed);
    KeepsFeed(f);
    assert r == [] ==> p + [] == p;
    StripBlank(p);
    var sv := Effective(Spilled(value), name);
    if sv.Some? {
      var l := EffectiveFrom(Spilled(value), name);
      FeedLineShort(r[1..], l);
      ValueShort(l);
    }
  }

  lemma {:induction false} TrimmedEnds(f: string)
    requires f != [] && Trimmed(f)
    ensures Ends(f)
  {
  }

  /** Dropping carriage returns keeps the line feeds. */
  lemma {:induction false} KeepsFeed(f: string)
    ensures All(Unreturn(f), Unfeed) <==> All(f, Unfeed)
  {
    if f != [] {
      KeepsFeed(f[1..]);
      assert f == [f[0]] + f[1..];
      ConcatUnfeed([f[0]], f[1..]);
      ConcatUnfeed([f[0]], Unreturn(f[1..]));
    }
  }

  lemma {:induction false} StripBlank(p: string)
    requires All(p, Unfeed)
    ensures |Strip(" " + p)| <= |p| && All(Strip(" " + p), Unfeed)
  {
    var s := " " + p;
    assert s[1..] == p;
    assert Skip(s, Space) == Skip(p, Space);
    StripWithin(p);
  }

  lemma {:induction false} EffectiveFrom(lines: seq<string>, name: string) returns (l: string)
    requires Effective(lines, name).Some?
    ensures l in lines && Effective(lines, name) == Some(ValueText(l))
  {
    hide Classify, ValueText;
    l := lines[LastMarked(lines, name, Active).value];
  }

  /** The edit takes hold in the file, whatever the file held, exactly when the value
      holds no line feed. */
  lemma {:induction false} FileTakesEffect(content: string, name: string, value: string)
    requires SettingName(name)
    ensures InEffect(SetConf(content, name, value).content, name) == Some(FormatValue(value))
            <==> All(Strip(value), Unfeed)
  {
    hide FormatValue, Strip, SetConf, InEffect, Effective;
    if All(Strip(value), Unfeed) {
      OwnValue(content, name, value);
      NoSpill(value);
      EffectiveNone(name);
      FormatTrimmed(value);
      var f := FormatValue(value);
      StripOf(" ", f, "");
      assert " " + f + "" == " " + f;
    } else {
      OwnValueShort(content, name, value);
    }
  }

  lemma {:induction false} JoinEnds(ls: seq<string>)
    requires ls != [] && forall i | 0 <= i < |ls| :: OneLine(ls[i]) || Ends(ls[i])
    ensures Join(ls) == "" || Join(ls)[|Join(ls)| - 1] == '\n' || Ends(Join(ls))
  {
    if |ls| == 1 {
      assert OneLine(ls[0]) && ls[0] != "" ==> In(ls[0][|ls[0]| - 1], InLine);
    } else {
      JoinEnds(ls[1..]);
      var rest := Join(ls[1..]);
      assert Join(ls) == ls[0] + "\n" + rest;
      assert rest != "" ==> Join(ls)[|Join(ls)| - 1] == rest[|rest| - 1];
    }
  }

  /** The last line counts whether or not it is ended. */
  lemma {:induction false} LastLineEnded(content: string, name: string)
    requires SettingName(name) && (content == "" || Ends(content))
    ensures InEffect(content + "\n", name) == InEffect(content, name)
  {
    hide Effective, FeedLines, Unreturn, Classify, Ends;
    assert content + "\n" == content + ("\n" + "");
    NoFileLines();
    if content == "" {
      FileOneLines([""]);
      EffectiveOne("", name);
      EffectiveNone(name);
      BlankInert(name);
    } else {
      FileHead(content, "");
      UnreturnEnds(content);
      CutFeed(Unreturn(content));
      assert FileLines(content + "\n") == FileLines(content);
    }
  }

  lemma {:induction false} BlankInert(name: string)
    requires SettingName(name)
    ensures Classify("", name) == Other && Unlines([""]) == "\n"
  {
  }

  lemma {:induction false} EditedEnds(content: string, name: string, value: string)
    requires SettingName(name)
    requires SetConf(content, name, value).content == content + "\n" && (content == "" || content[|content| - 1] != '\n')
    ensures content == "" || Ends(content)
  {
    hide Classify, CommentOut, NewLine, EditLines, FormatValue, Strip, Marked, SplitLines, Ends, OneLine, Join;
    var lines, f := SplitLines(content), FormatValue(value);
    var out := EditLines(lines, name, NewLine(name, f));
    FormatTrimmed(value);
    SplitLinesOneLine(content);
    EditShape(lines, name, NewLine(name, f));
    NewLineEnds(name, f);
    forall i | 0 <= i < |out|
      ensures OneLine(out[i]) || Ends(out[i])
    {
      if i != Target(lines, name) {
        CommentOutOneLine(lines[i]);
      }
    }
    JoinEnds(out);
    assert Join(out) == (Join(out) + "\n")[..|Join(out)|] == content;
  }

  /** The caller writes the file only when the result says it changed. What is on disk
      then has the value in effect exactly when the value holds no line feed. */
  lemma {:induction false} KeptTakesEffect(content: string, name: string, value: string)
    requires SettingName(name)
    ensures var r := SetConf(content, name, value);
            var kept := if r.changed then r.content else content;
            InEffect(kept, name) == Some(FormatValue(value)) <==> All(Strip(value), Unfeed)
  {
    hide FormatValue, Strip, SetConf, InEffect;
    FileTakesEffect(content, name, value);
    ReportTells(content, name, value);
    var r := SetConf(content, name, value);
    if !r.changed && r.content != content {
      EditedEnds(content, name, value);
      LastLineEnded(content, name);
    }
  }

  lemma {:induction false} FormatCost(value: string)
    ensures |FormatValue(value)| <= Weight(Strip(value)) + 2
  {
    hide Strip, Numeric, Boolish;
    var v := Strip(value);
    WeightAtLeast(v);
    DoublingCost(v);
  }

  /** From the caller's value to what the reader of the edited file gets, for every file
      and every value: the same text exactly when it is not already quoted and holds no
      backslash and no line feed. */
  lemma {:induction false} FileReadsBack(content: string, name: string, value: string)
    requires SettingName(name)
    ensures var v := InEffect(SetConf(content, name, value).content, name);
            && v.Some?
            && (ReadConf(v.value) == Some(Strip(value)) <==> Literal(Strip(value)) && !Quoted(Strip(value)))
  {
    hide FormatValue, Strip, SetConf, InEffect, Quoted;
    var w := Strip(value);
    if All(w, Unfeed) {
      FileTakesEffect(content, name, value);
      FormatReadsBack(value);
    } else {
      OwnValueShort(content, name, value);
      FormatCost(value);
      var v := InEffect(SetConf(content, name, value).content, name).value;
      if ReadConf(v).Some? {
        ReadConfCost(v);
      }
      assert exists i :: 0 <= i < |w| && !In(w[i], Unfeed);
      assert !Literal(w);
    }
  }

  /** A value is read off at least as many characters as it needs, or is the word read. */
  lemma {:induction false} ReadConfCost(v: string)
    requires ReadConf(v).Some?
    ensures ReadConf(v).value == v || |v| >= 2 + Weight(ReadConf(v).value)
  {
    if v[0] == '\'' {
      ReadQuotedCost(v[1..]);
    }
  }

  /** Two edits of different names leave the same values in effect in either order. */
  lemma {:induction false} FilesCommute(content: string, a: string, v: string, b: string, w: string, name: string)
    requires SettingName(a) && SettingName(b) && !SameName(a, b) && SettingName(name)
    requires OneLine(Strip(v)) && OneLine(Strip(w))
    ensures var ab := SetConf(SetConf(content, a, v).content, b, w).content;
            var ba := SetConf(SetConf(content, b, w).content, a, v).content;
            InEffect(ab, name) == InEffect(ba, name)
  {
    hide SetConf, Strip, Effective, SplitLines;
    var ab := SetConf(SetConf(content, a, v).content, b, w).content;
    var ba := SetConf(SetConf(content, b, w).content, a, v).content;
    SetsCommute(content, a, v, b, w, name);
    EditedTidy(SetConf(content, a, v).content, b, w);
    EditedTidy(SetConf(content, b, w).content, a, v);
    TidyLines(ab);
    TidyLines(ba);
  }

  lemma {:induction false} EditedTidy(content: string, name: string, value: string)
    requires SettingName(name) && OneLine(Strip(value))
    ensures LfBreaks(SetConf(content, name, value).content)
  {
    hide Classify, EditLines, NewLine, FormatValue, Strip;
    FormatOneLine(value);
    SplitLinesOneLine(content);
    EditOneLine(SplitLines(content), name, FormatValue(value));
    UnlinesLf(EditLines(SplitLines(content), name, NewLine(name, FormatValue(value))));
  }

  // -- the break that no file reader sees ---------------------------------------

  /** A comment that holds such a break and then an active line for some setting. */
  function NotedText(c: char, line: string): string { ['#', c] + (line + ("\n" + "")) }

  /** To PostgreSQL the line behind the break is part of the comment. Any edit of another
      setting writes the file cut at the break, and the line is live. */
  lemma {:induction false} StrayBreakLive(c: char, line: string, other: string, name: string, value: string)
    requires IsBreak(c) && c != '\n' && OneLine(line) && Classify(line, other) == Active
    requires SettingName(name) && SettingName(other) && !SameName(other, name) && All(Strip(value), Unfeed)
    ensures InEffect(NotedText(c, line), other) == None
    ensures InEffect(SetConf(NotedText(c, line), name, value).content, other) == Some(ValueText(line))
  {
    hide Classify, ValueText, FileLines, SplitLines, SetConf, Strip, Effective, FormatValue, Spilled;
    var text := NotedText(c, line);
    ActiveSome(line, other);
    NotedFile(c, line);
    NotedSplit(c, line);
    var note := ['#', c] + line;
    CommentMark(note, other);
    CommentMark("#", other);
    EffectiveOne(note, other);
    EffectiveOne("#", other);
    EffectiveOne(line, other);
    EffectiveConcat(["#"], [line], other);
    assert ["#", line] == ["#"] + [line];
    FileSpills(text, name, value, other);
    NoSpill(value);
    EffectiveNone(other);
    AroundTarget(SplitLines(text), name, other);
  }

  lemma {:induction false} ActiveSome(line: string, other: string)
    requires Classify(line, other) == Active
    ensures line != []
  {
  }

  /** A line that starts with a comment mark is active for no setting. */
  lemma {:induction false} CommentMark(l: string, other: string)
    requires l != [] && l[0] == '#'
    ensures Classify(l, other) != Active
  {
    NoSpace(l);
  }

  lemma {:induction false} NotedFile(c: char, line: string)
    requires IsBreak(c) && c != '\n' && OneLine(line) && line != []
    ensures FileLines(NotedText(c, line)) == [['#', c] + line]
  {
    hide FeedLines;
    var end := "\n" + "";
    var text, tail := NotedText(c, line), line + end;
    assert In(line[0], InLine);
    OneLineUnfeed(line);
    UnreturnOver(line, end);
    assert end[1..] == [] && Unreturn(end) == end;
    assert text[1..] == [c] + tail && ([c] + tail)[1..] == tail;
    assert Unreturn([c] + tail) == [c] + tail;
    var note := ['#', c] + line;
    assert text == note + end && Unreturn(text) == text;
    ConcatUnfeed(['#', c], line);
    FeedFirst(note, "");
    NoFeedLines();
  }

  lemma {:induction false} NotedSplit(c: char, line: string)
    requires IsBreak(c) && c != '\n' && OneLine(line) && line != []
    ensures SplitLines(NotedText(c, line)) == ["#", line]
  {
    var r := [c] + (line + "\n" + "");
    assert NotedText(c, line) == "#" + r;
    assert In(line[0], InLine);
    SplitFirst(line, "");
    SplitAt("#", r, InLine);
    assert r[1..] == line + "\n" + "";
  }
}
