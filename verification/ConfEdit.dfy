/** confedit.py: editing one setting of a postgresql.conf body. */
module ConfEdit {
  import opened Text

  // -- letter case -------------------------------------------------------------

  function LowerChar(c: char): char {
    if IsUpper(c) then c - 'A' + 'a' else c
  }

  function Lower(s: string): (t: string)
    ensures |t| == |s|
    ensures forall i | 0 <= i < |s| :: t[i] == LowerChar(s[i])
  {
    if s == [] then [] else [LowerChar(s[0])] + Lower(s[1..])
  }

  /** Setting names are compared ignoring case. */
  predicate SameName(a: string, b: string) { Lower(a) == Lower(b) }

  predicate SettingName(name: string) { name != [] && All(name, NameChar) }

  // -- values ------------------------------------------------------------------

  /** `\d+(\.\d+)?$`. */
  predicate Unsigned(v: string) {
    var r := Skip(v, Digit);
    Take(v, Digit) != [] && (r == [] || (r[0] == '.' && r[1..] != [] && All(r[1..], Digit)))
  }

  /** `^-?\d+(\.\d+)?$`. */
  predicate Numeric(v: string) {
    Unsigned(if v != [] && v[0] == '-' then v[1..] else v)
  }

  predicate Boolish(v: string) {
    var l := Lower(v);
    l == "on" || l == "off" || l == "true" || l == "false" || l == "yes" || l == "no"
  }

  /** `startswith("'") and endswith("'")`: the lone quote passes too. */
  predicate Quoted(v: string) { v != [] && v[0] == '\'' && v[|v| - 1] == '\'' }

  function Quote(v: string): string { ['\''] + (Replace(v, '\'', "''") + ['\'']) }

  function FormatValue(value: string): string {
    var v := Strip(value);
    if v == [] then "''"
    else if Quoted(v) || Numeric(v) || Boolish(v) then v
    else Quote(v)
  }

  // -- lines -------------------------------------------------------------------

  datatype Mark = Other | Active | Commented

  /** `name\s*=`, ignoring case. */
  predicate NamePattern(u: string, name: string) {
    |name| <= |u| && SameName(u[..|name|], name) && BeforeEquals(u[|name|..])
  }

  /** `^(\s*)(#+\s*)?` + name + `\s*=`, ignoring case; group 2 tells the two apart. */
  function Classify(line: string, name: string): Mark {
    var t := Skip(line, Space);
    if t != [] && t[0] == '#'
    then if NamePattern(Skip(Skip(t, Hash), Space), name) then Commented else Other
    else if NamePattern(t, name) then Active else Other
  }

  /** The trailing note on a duplicate that was commented out. */
  function Marker(): string { "    # " + ("disabled by mcp-postgres: " + "shadowed duplicate") }

  function CommentOut(line: string): string {
    Take(line, Space) + (['#'] + (" " + (Skip(line, Space) + Marker())))
  }

  function NewLine(name: string, formatted: string): string { name + (" " + (['='] + (" " + formatted))) }

  /** `line.split("=", 1)[1].strip()`. */
  function ValueText(line: string): string {
    var r := Skip(line, Unequal);
    if r == [] then [] else Strip(r[1..])
  }

  // -- the edit ----------------------------------------------------------------

  datatype Action = Replaced | Deduplicated | Uncommented | Appended

  datatype SetConfResult = SetConfResult(
    content: string,
    changed: bool,
    oldValue: Option<string>,
    action: Action,
    activeOccurrences: nat,
    shadowedDisabled: nat)

  /** Indices below `n` of the lines with a given mark, in order. */
  function Marked(lines: seq<string>, n: nat, name: string, mark: Mark): (r: seq<nat>)
    requires n <= |lines|
    ensures forall k | 0 <= k < |r| :: r[k] < n
  {
    if n == 0 then []
    else Marked(lines, n - 1, name, mark) + (if Classify(lines[n - 1], name) == mark then [n - 1] else [])
  }

  /** The last line with a given mark. */
  function LastMarked(lines: seq<string>, name: string, mark: Mark): (r: Option<nat>)
    ensures r.Some? ==> r.value < |lines|
  {
    var r := Marked(lines, |lines|, name, mark);
    if r == [] then None else Some(r[|r| - 1])
  }

  lemma {:induction false} MarkedLaw(lines: seq<string>, n: nat, name: string, mark: Mark)
    requires n <= |lines|
    ensures var r := Marked(lines, n, name, mark);
            && (forall k | 0 <= k < |r| :: Classify(lines[r[k]], name) == mark)
            && (forall j, k | 0 <= j < k < |r| :: r[j] < r[k])
            && (forall i | 0 <= i < n && Classify(lines[i], name) == mark :: i in r)
  {
    hide Classify;
    if n > 0 {
      MarkedLaw(lines, n - 1, name, mark);
    }
  }

  lemma {:induction false} LastMarkedLaw(lines: seq<string>, name: string, mark: Mark)
    ensures var r := LastMarked(lines, name, mark);
            && (r.Some? ==> Classify(lines[r.value], name) == mark)
            && (forall i | 0 <= i < |lines| && Classify(lines[i], name) == mark :: r.Some? && i <= r.value)
  {
    hide Classify;
    MarkedLaw(lines, |lines|, name, mark);
  }

  /** The edited lines: the line in effect rewritten and its duplicates commented out;
      else the last commented line opened; else a new line at the end. */
  function EditLines(lines: seq<string>, name: string, newLine: string): seq<string> {
    match LastMarked(lines, name, Active)
    case Some(w) =>
      seq(|lines|, i requires 0 <= i < |lines| =>
        if i == w then newLine
        else if Classify(lines[i], name) == Active then CommentOut(lines[i])
        else lines[i])
    case None =>
      match LastMarked(lines, name, Commented)
      case Some(c) => lines[c := newLine]
      case None => lines + [newLine]
  }

  /** `_norm`: content with a line feed at its end. */
  function Norm(content: string): string {
    if content != [] && content[|content| - 1] == '\n' then content else content + "\n"
  }

  function SetConf(content: string, name: string, value: string): SetConfResult {
    var lines := SplitLines(content);
    var out := Unlines(EditLines(lines, name, NewLine(name, FormatValue(value))));
    var active := Marked(lines, |lines|, name, Active);
    if active != [] then
      SetConfResult(out, out != Norm(content), Some(ValueText(lines[active[|active| - 1]])),
                    if |active| > 1 then Deduplicated else Replaced, |active|, |active| - 1)
    else
      SetConfResult(out, out != Norm(content), None,
                    if LastMarked(lines, name, Commented).Some? then Uncommented else Appended, 0, 0)
  }

  /** The scan for occurrences. */
  method FindOccurrences(lines: seq<string>, name: string) returns (active: seq<nat>, commented: seq<nat>)
    ensures active == Marked(lines, |lines|, name, Active)
    ensures commented == Marked(lines, |lines|, name, Commented)
  {
    hide Classify;
    active, commented := [], [];
    for i := 0 to |lines|
      invariant active == Marked(lines, i, name, Active)
      invariant commented == Marked(lines, i, name, Commented)
    {
      match Classify(lines[i], name)
      case Other =>
      case Active => active := active + [i];
      case Commented => commented := commented + [i];
    }
  }

  /** Pass 1: rewrite the line in effect, then comment out the ones before it. */
  method ReplaceEffective(lines: seq<string>, name: string, newLine: string, active: seq<nat>) returns (edited: seq<string>)
    requires active == Marked(lines, |lines|, name, Active) && active != []
    ensures edited == EditLines(lines, name, newLine)
  {
    hide Classify, CommentOut, Marked;
    var winner := active[|active| - 1];
    var shadowed := active[..|active| - 1];
    MarkedLaw(lines, |lines|, name, Active);
    edited := lines[winner := newLine];
    for k := 0 to |shadowed|
      invariant |edited| == |lines| && edited[winner] == newLine
      invariant forall x | 0 <= x < k :: edited[active[x]] == CommentOut(lines[active[x]])
      invariant forall i | 0 <= i < |lines| && forall x | 0 <= x < k :: active[x] != i ::
        i == winner || edited[i] == lines[i]
    {
      edited := edited[shadowed[k] := CommentOut(edited[shadowed[k]])];
    }
    forall i | 0 <= i < |lines| && i != winner
      ensures edited[i] == if Classify(lines[i], name) == Active then CommentOut(lines[i]) else lines[i]
    {
      if i in active {
        var x :| 0 <= x < |active| && active[x] == i;
        assert x < |shadowed|;
      }
    }
    assert edited == EditLines(lines, name, newLine);
  }

  method SetConfValue(content: string, name: string, value: string) returns (r: SetConfResult)
    ensures r == SetConf(content, name, value)
  {
    hide Classify, CommentOut, NewLine, FormatValue, ValueText;
    var newLine := NewLine(name, FormatValue(value));
    var lines := SplitLines(content);
    var original := Norm(content);
    var active, commented := FindOccurrences(lines, name);

    if active != [] {
      var oldValue := ValueText(lines[active[|active| - 1]]);
      var shadowed := active[..|active| - 1];
      lines := ReplaceEffective(lines, name, newLine, active);
      var newContent := Unlines(lines);
      return SetConfResult(newContent, newContent != original, Some(oldValue),
                           if shadowed != [] then Deduplicated else Replaced, |active|, |shadowed|);
    }
    if commented != [] {
      lines := lines[commented[|commented| - 1] := newLine];
      var newContent := Unlines(lines);
      return SetConfResult(newContent, newContent != original, None, Uncommented, 0, 0);
    }
    lines := lines + [newLine];
    var newContent := Unlines(lines);
    return SetConfResult(newContent, newContent != original, None, Appended, 0, 0);
  }
}
