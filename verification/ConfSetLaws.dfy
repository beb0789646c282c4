/** Setting twice and setting again, for every value: the laws hold exactly for values
    that stay on one line. */
module ConfSetLaws {
  import opened Text
  import opened ConfEdit
  import opened ConfValueLaws
  import opened ConfEditLaws

  /** Text whose last character ends no line. */
  predicate Ends(a: string) { a != [] && !IsBreak(a[|a| - 1]) }

  /** How many characters the break at the front takes. */
  function BreakWidth(r: string): (w: nat)
    requires r != []
    ensures 1 <= w <= |r|
  {
    if r[0] == '\r' && |r| > 1 && r[1] == '\n' then 2 else 1
  }

  lemma {:induction false} SplitAtBreak(l: string, r: string)
    requires OneLine(l) && r != [] && !In(r[0], InLine)
    ensures SplitLines(l + r) == [l] + SplitLines(r[BreakWidth(r)..])
  {
    SplitAt(l, r, InLine);
  }

  lemma {:induction false} BreakTail(l: string, r: string, more: string)
    requires Ends(l + r) && r != [] && !In(r[0], InLine)
    ensures BreakWidth(r) < |r| && Ends(r[BreakWidth(r)..]) && BreakWidth(r + more) == BreakWidth(r)
  {
    assert r[|r| - 1] == (l + r)[|l| + |r| - 1];
  }

  lemma {:induction false} SplitMore(a: string, t: string)
    requires Ends(a)
    ensures SplitLines(a + "\n" + t) == SplitLines(a) + SplitLines(t)
    decreases |a|
  {
    hide SplitLines, BreakWidth, In, Take, Skip;
    var l, r := Take(a, InLine), Skip(a, InLine);
    TakeSkip(a, InLine);
    if r == [] {
      assert l + [] == l;
      SplitFirst(a, t);
      OneLineSplit(a);
    } else {
      var more := "\n" + t;
      BreakTail(l, r, more);
      var w := BreakWidth(r);
      SplitAtBreak(l, r);
      SplitAtBreak(l, r + more);
      assert a + "\n" + t == l + (r + more);
      assert (r + more)[w..] == r[w..] + "\n" + t;
      SplitMore(r[w..], t);
    }
  }

  lemma {:induction false} OneLineSplit(a: string)
    requires a != [] && OneLine(a)
    ensures SplitLines(a) == [a]
  {
    SplitAt(a, [], InLine);
    assert a + [] == a;
  }

  lemma {:induction false} TwoLines(a: string)
    requires Ends(a) && !OneLine(a)
    ensures |SplitLines(a)| >= 2
  {
    hide SplitLines, Ends, BreakWidth, In, Take, Skip;
    var l, r := Take(a, InLine), Skip(a, InLine);
    TakeSkip(a, InLine);
    assert r == [] ==> l + [] == l;
    BreakTail(l, r, []);
    SplitAtBreak(l, r);
    SomeLine(r[BreakWidth(r)..]);
  }

  lemma {:induction false} SomeLine(a: string)
    requires a != []
    ensures SplitLines(a) != []
  {
  }

  /** How many lines a line of the list comes to once joined and split again. */
  function Pieces(l: string): nat { if OneLine(l) then 1 else |SplitLines(l)| }

  function AllPieces(ls: seq<string>): nat {
    if ls == [] then 0 else Pieces(ls[0]) + AllPieces(ls[1..])
  }

  lemma {:induction false} UnlinesPieces(ls: seq<string>)
    requires ls != [] && forall i | 0 <= i < |ls| :: OneLine(ls[i]) || Ends(ls[i])
    ensures |SplitLines(Unlines(ls))| == AllPieces(ls)
  {
    hide SplitLines, OneLine, Ends;
    var rest := if |ls| == 1 then "" else Unlines(ls[1..]);
    assert Unlines(ls) == ls[0] + "\n" + rest;
    if OneLine(ls[0]) {
      SplitFirst(ls[0], rest);
    } else {
      SplitMore(ls[0], rest);
    }
    if |ls| == 1 {
      NoLines();
    } else {
      UnlinesPieces(ls[1..]);
    }
  }

  lemma {:induction false} NoLines()
    ensures SplitLines("") == []
  {
  }

  lemma {:induction false} PiecesBut(ls: seq<string>, t: nat)
    requires t < |ls| && forall i | 0 <= i < |ls| && i != t :: OneLine(ls[i])
    ensures AllPieces(ls) == |ls| - 1 + Pieces(ls[t])
  {
    hide OneLine, SplitLines;
    if t > 0 {
      PiecesBut(ls[1..], t - 1);
    } else {
      PiecesAll(ls[1..]);
    }
  }

  lemma {:induction false} PiecesAll(ls: seq<string>)
    requires forall i | 0 <= i < |ls| :: OneLine(ls[i])
    ensures AllPieces(ls) == |ls|
  {
    hide OneLine, SplitLines;
    if ls != [] {
      PiecesAll(ls[1..]);
    }
  }

  lemma {:induction false} NewLineEnds(name: string, f: string)
    requires SettingName(name) && f != [] && Trimmed(f)
    ensures Ends(NewLine(name, f)) && (OneLine(NewLine(name, f)) <==> OneLine(f))
  {
    var n := NewLine(name, f);
    assert n[|n| - 1] == f[|f| - 1];
    NamePlain(name);
    ConcatOneLine(" ", f);
    ConcatOneLine(['='], " " + f);
    ConcatOneLine(" ", ['='] + (" " + f));
    ConcatOneLine(name, " " + (['='] + (" " + f)));
  }

  /** The number of lines of an edited text. */
  lemma {:induction false} EditedCount(lines: seq<string>, name: string, f: string)
    requires SettingName(name) && AllOneLine(lines) && f != [] && Trimmed(f)
    ensures var out := EditLines(lines, name, NewLine(name, f));
            && |out| == |lines| + (if Appends(lines, name) then 1 else 0)
            && |SplitLines(Unlines(out))| == |out| - 1 + Pieces(NewLine(name, f))
  {
    hide Classify, CommentOut, NewLine, EditLines, Marked, Ends, OneLine, SplitLines, Pieces;
    var out, t := EditLines(lines, name, NewLine(name, f)), Target(lines, name);
    EditShape(lines, name, NewLine(name, f));
    NewLineEnds(name, f);
    forall i | 0 <= i < |out| && i != t
      ensures OneLine(out[i])
    {
      CommentOutOneLine(lines[i]);
    }
    UnlinesPieces(out);
    PiecesBut(out, t);
  }

  /** Setting a name to one value and then to another gives the text that the second
      setting alone gives, exactly when the first value stays on one line. */
  lemma {:induction false} SetTwice(content: string, name: string, v1: string, v2: string)
    requires SettingName(name)
    ensures SetConf(SetConf(content, name, v1).content, name, v2).content == SetConf(content, name, v2).content
            <==> OneLine(Strip(v1))
  {
    hide Classify, EditLines, NewLine, FormatValue, Strip, Marked, SplitLines, Ends, OneLine;
    if OneLine(Strip(v1)) {
      SetTwiceOneLine(content, name, v1, v2);
    } else {
      var f, g := FormatValue(v1), FormatValue(v2);
      var lines, once := SplitLines(content), SetConf(content, name, v1).content;
      FormatOneLine(v1);
      FormatTrimmed(v1);
      FormatTrimmed(v2);
      SplitLinesOneLine(content);
      SplitLinesOneLine(once);
      NewLineEnds(name, f);
      TwoLines(NewLine(name, f));
      EditedCount(lines, name, f);
      EditedCount(lines, name, g);
      EditedCount(SplitLines(once), name, g);
    }
  }

  /** Setting what is already set is a no-op, exactly when the value stays on one line:
      nothing changed, one active line, none shadowed, and the old value is the
      formatted value. */
  lemma {:induction false} SetIsSettled(content: string, name: string, value: string)
    requires SettingName(name)
    ensures var once := SetConf(content, name, value).content;
            SetConf(once, name, value) == SetConfResult(once, false, Some(FormatValue(value)), Replaced, 1, 0)
            <==> OneLine(Strip(value))
  {
    hide Classify, EditLines, NewLine, FormatValue, Strip, Marked, SplitLines, OneLine, SetConf;
    SetTwice(content, name, value, value);
    if OneLine(Strip(value)) {
      SetIsSettledOneLine(content, name, value);
    }
  }
}
