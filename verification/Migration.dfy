/** configmigrate.py: the in-place rewrite of a deployed config.toml. Each loop of
    the source is a method, proved against the function that says what it computes;
    what migration promises is proved about those functions in MigrationLaws. */
module Migration {
  import opened Text
  import opened Toml
  import opened ConfigLines
  import opened ConfigSchema

  /** A default as a TOML scalar. */
  function TomlLiteral(v: Value): string {
    match v
    case VBool(b) => if b then "true" else "false"
    case VInt(n) => IntText(n)
    case VStr(s) => ['"'] + (Replace(Replace(s, '\\', "\\\\"), '"', "\\\"") + ['"'])
  }

  /** `if version`: an empty version counts as none. */
  predicate Versioned(version: Option<string>) { version.Some? && version.value != "" }

  function RetireNote(reason: string, version: Option<string>): string {
    if Versioned(version) then "deprecated in " + version.value + ": " + reason else "deprecated: " + reason
  }

  function NewNote(version: Option<string>): string {
    if Versioned(version) then "new in " + version.value else "new setting"
  }

  function CommentOut(line: string): string { ['#'] + (" " + line) }

  function RetiredLine(line: string, r: Retired, version: Option<string>): string {
    CommentOut(line + ("   # " + RetireNote(r.reason, version)))
  }

  /** What follows the literal on an added line. */
  function Trailer(version: Option<string>): string {
    "   # " + (NewNote(version) + "; uncomment to override")
  }

  /** An added line as it reads once its comment mark is taken away. */
  function OpenLine(m: Missing, version: Option<string>): string {
    m.key + (" " + (['='] + (" " + (TomlLiteral(m.default) + Trailer(version)))))
  }

  function AddedLine(m: Missing, version: Option<string>): string { CommentOut(OpenLine(m, version)) }

  function HeaderText(section: string): string { ['['] + (section + [']']) }

  function RetireChange(r: Retired): string {
    "[" + r.section + "] " + r.key + ": commented out (" + r.reason + ")"
  }

  function AddChange(m: Missing): string {
    "[" + m.section + "] " + m.key + ": added (commented, default " + TomlLiteral(m.default) + ")"
  }

  // -- finding a key -----------------------------------------------------------

  /** Index of the first line that sets `key` while the scan is in `section`. */
  function FindActive(cur: Option<string>, lines: seq<string>, section: string, key: string): (r: Option<nat>)
    ensures r.Some? ==> r.value < |lines|
    decreases |lines|
  {
    if lines == [] then None
    else
      var m := SectionName(lines[0]);
      if m.None? && cur == Some(section) && ActiveKey(lines[0], key) then Some(0)
      else
        match FindActive(if m.Some? then m else cur, lines[1..], section, key)
        case None => None
        case Some(i) => Some(i + 1)
  }

  method FindActiveKeyLine(lines: seq<string>, section: string, key: string) returns (r: Option<nat>)
    ensures r == FindActive(None, lines, section, key)
  {
    hide SectionName, ActiveKey;
    var cur: Option<string> := None;
    for i := 0 to |lines|
      invariant FindActive(None, lines, section, key)
             == match FindActive(cur, lines[i..], section, key)
                case None => None
                case Some(k) => Some(k + i)
    {
      var m := SectionName(lines[i]);
      assert lines[i..][1..] == lines[i + 1..];
      if m.Some? {
        cur := m;
      } else if cur == Some(section) && ActiveKey(lines[i], key) {
        return Some(i);
      }
    }
    return None;
  }

  // -- inserting under a section -----------------------------------------------

  /** Index of the first header named `section`. */
  function HeaderIndex(lines: seq<string>, section: string): (r: Option<nat>)
    ensures r.Some? ==> r.value < |lines| && SectionName(lines[r.value]) == Some(section)
  {
    if lines == [] then None
    else if SectionName(lines[0]) == Some(section) then Some(0)
    else
      match HeaderIndex(lines[1..], section)
      case None => None
      case Some(i) => Some(i + 1)
  }

  /** Where the next header stands, or the end of the file. */
  function NextHeader(lines: seq<string>, from: nat): (end: nat)
    requires from <= |lines|
    ensures from <= end <= |lines|
    ensures forall j | from <= j < end :: SectionName(lines[j]).None?
    ensures end < |lines| ==> SectionName(lines[end]).Some?
    decreases |lines| - from
  {
    if from == |lines| || SectionName(lines[from]).Some? then from else NextHeader(lines, from + 1)
  }

  /** Back over blank lines from `at`, not past `floor`. */
  function BackOverBlanks(lines: seq<string>, floor: nat, at: nat): (i: nat)
    requires floor <= at <= |lines|
    ensures floor <= i <= at
  {
    if floor < at && Strip(lines[at - 1]) == "" then BackOverBlanks(lines, floor, at - 1) else at
  }

  function InsertionPoint(lines: seq<string>, header: nat): (i: nat)
    requires header < |lines|
    ensures header < i <= |lines|
    ensures forall j | header < j < i :: SectionName(lines[j]).None?
  {
    BackOverBlanks(lines, header + 1, NextHeader(lines, header + 1))
  }

  /** What is appended when the section has no header. */
  function NewSection(lines: seq<string>, section: string): seq<string> {
    (if lines != [] && Strip(lines[|lines| - 1]) != "" then [""] else []) + [HeaderText(section)]
  }

  function Insert(lines: seq<string>, section: string, newLines: seq<string>): seq<string> {
    match HeaderIndex(lines, section)
    case None => lines + NewSection(lines, section) + newLines
    case Some(h) =>
      var i := InsertionPoint(lines, h);
      lines[..i] + newLines + lines[i..]
  }

  /** The first loop: look for the section's header. */
  method FindHeader(lines: seq<string>, section: string) returns (headerIdx: Option<nat>)
    ensures headerIdx == HeaderIndex(lines, section)
  {
    hide SectionName;
    for i := 0 to |lines|
      invariant HeaderIndex(lines, section)
             == match HeaderIndex(lines[i..], section) case None => None case Some(k) => Some(k + i)
    {
      assert lines[i..][1..] == lines[i + 1..];
      if SectionName(lines[i]) == Some(section) {
        return Some(i);
      }
    }
    return None;
  }

  /** The other two: the end of the section, then back over its trailing blanks. */
  method FindInsertionPoint(lines: seq<string>, header: nat) returns (insertAt: nat)
    requires header < |lines|
    ensures insertAt == InsertionPoint(lines, header)
  {
    hide SectionName, Strip;
    var end := |lines|;
    for j := header + 1 to |lines|
      invariant end == |lines|
      invariant NextHeader(lines, header + 1) == NextHeader(lines, j)
    {
      if SectionName(lines[j]).Some? {
        end := j;
        break;
      }
    }
    insertAt := end;
    while insertAt - 1 > header && Strip(lines[insertAt - 1]) == ""
      invariant header < insertAt <= end
      invariant BackOverBlanks(lines, header + 1, insertAt) == BackOverBlanks(lines, header + 1, end)
    {
      insertAt := insertAt - 1;
    }
  }

  method InsertIntoSection(lines: seq<string>, section: string, newLines: seq<string>) returns (out: seq<string>)
    ensures out == Insert(lines, section, newLines)
  {
    var headerIdx := FindHeader(lines, section);
    if headerIdx.None? {
      out := lines;
      if out != [] && Strip(out[|out| - 1]) != "" {
        out := out + [""];
      }
      out := out + [HeaderText(section)];
      out := out + newLines;
      return;
    }
    var insertAt := FindInsertionPoint(lines, headerIdx.value);
    return lines[..insertAt] + newLines + lines[insertAt..];
  }

  // -- the whole rewrite -------------------------------------------------------

  /** The lines as edited so far and the changes made to them. */
  datatype Edit = Edit(lines: seq<string>, changes: seq<string>)

  function RetireOne(e: Edit, r: Retired, version: Option<string>): Edit {
    match FindActive(None, e.lines, r.section, r.key)
    case None => e
    case Some(i) => Edit(e.lines[i := RetiredLine(e.lines[i], r, version)], e.changes + [RetireChange(r)])
  }

  function RetireAll(e: Edit, rs: seq<Retired>, version: Option<string>): Edit
    decreases |rs|
  {
    if rs == [] then e else RetireAll(RetireOne(e, rs[0], version), rs[1..], version)
  }

  datatype Group = Group(section: string, items: seq<Missing>)

  /** `groups.setdefault(m.section, []).append(m)`. */
  function AddToGroup(groups: seq<Group>, m: Missing): seq<Group> {
    if groups == [] then [Group(m.section, [m])]
    else if groups[0].section == m.section then [groups[0].(items := groups[0].items + [m])] + groups[1..]
    else [groups[0]] + AddToGroup(groups[1..], m)
  }

  function GroupBySection(groups: seq<Group>, ms: seq<Missing>): seq<Group>
    decreases |ms|
  {
    if ms == [] then groups else GroupBySection(AddToGroup(groups, ms[0]), ms[1..])
  }

  function AddedLines(ms: seq<Missing>, version: Option<string>): seq<string> {
    if ms == [] then [] else [AddedLine(ms[0], version)] + AddedLines(ms[1..], version)
  }

  function AddChanges(ms: seq<Missing>): seq<string> {
    if ms == [] then [] else [AddChange(ms[0])] + AddChanges(ms[1..])
  }

  function AddGroup(e: Edit, g: Group, version: Option<string>): Edit {
    Edit(Insert(e.lines, g.section, AddedLines(g.items, version)), e.changes + AddChanges(g.items))
  }

  function AddAll(e: Edit, groups: seq<Group>, version: Option<string>): Edit
    decreases |groups|
  {
    if groups == [] then e else AddAll(AddGroup(e, groups[0], version), groups[1..], version)
  }

  /** The two passes over a file that drifted. */
  function Rewrite(schema: Schema, text: string, version: Option<string>): Edit {
    var report := Diff(schema, text);
    var retired := RetireAll(Edit(SplitLines(text), []), report.deprecated, version);
    AddAll(retired, GroupBySection([], report.missing), version)
  }

  function Migrate(schema: Schema, text: string, version: Option<string>): (string, seq<string>) {
    var e := Rewrite(schema, text, version);
    if e.changes == [] then (text, []) else (Unlines(e.lines), e.changes)
  }

  /** The first loop: comment out deprecated, still-active keys. */
  method CommentOutRetired(lines0: seq<string>, rs: seq<Retired>, version: Option<string>)
    returns (lines: seq<string>, changes: seq<string>)
    ensures Edit(lines, changes) == RetireAll(Edit(lines0, []), rs, version)
  {
    hide ReadLine, SectionName, CommentedKey, ActiveKey, RetiredLine, RetireChange;
    lines, changes := lines0, [];
    for i := 0 to |rs|
      invariant RetireAll(Edit(lines, changes), rs[i..], version) == RetireAll(Edit(lines0, []), rs, version)
    {
      var r := rs[i];
      assert rs[i..][1..] == rs[i + 1..];
      var idx := FindActiveKeyLine(lines, r.section, r.key);
      if idx.Some? {
        lines := lines[idx.value := RetiredLine(lines[idx.value], r, version)];
        changes := changes + [RetireChange(r)];
      }
    }
  }

  method ApplyMigration(schema: Schema, text: string, version: Option<string>)
    returns (newText: string, changes: seq<string>)
    ensures (newText, changes) == Migrate(schema, text, version)
  {
    hide Diff, ReadLine, SectionName, CommentedKey, ActiveKey, Insert, AddedLines, AddChanges, AddToGroup, SplitLines, Unlines;
    var report := DiffConfig(schema, text);
    if report.missing == [] && report.deprecated == [] {
      return text, [];
    }
    var lines;
    lines, changes := CommentOutRetired(SplitLines(text), report.deprecated, version);

    var missingBySection: seq<Group> := [];
    for i := 0 to |report.missing|
      invariant GroupBySection(missingBySection, report.missing[i..]) == GroupBySection([], report.missing)
    {
      assert report.missing[i..][1..] == report.missing[i + 1..];
      missingBySection := AddToGroup(missingBySection, report.missing[i]);
    }

    ghost var middle := Edit(lines, changes);
    for i := 0 to |missingBySection|
      invariant AddAll(Edit(lines, changes), missingBySection[i..], version)
             == AddAll(middle, missingBySection, version)
    {
      var g := missingBySection[i];
      assert missingBySection[i..][1..] == missingBySection[i + 1..];
      var newLines, added := NewLines(g.items, version);
      lines := InsertIntoSection(lines, g.section, newLines);
      changes := changes + added;
    }
    if changes == [] {
      return text, [];
    }
    newText := Unlines(lines);
  }

  /** The inner loop over one section's missing keys. */
  method NewLines(items: seq<Missing>, version: Option<string>) returns (newLines: seq<string>, changes: seq<string>)
    ensures newLines == AddedLines(items, version) && changes == AddChanges(items)
  {
    hide AddedLine, AddChange;
    newLines, changes := [], [];
    for i := 0 to |items|
      invariant newLines + AddedLines(items[i..], version) == AddedLines(items, version)
      invariant changes + AddChanges(items[i..]) == AddChanges(items)
    {
      var m := items[i];
      assert items[i..] == [m] + items[i + 1..];
      newLines := newLines + [AddedLine(m, version)];
      changes := changes + [AddChange(m)];
    }
  }
}
