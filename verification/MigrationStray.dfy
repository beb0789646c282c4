/** The other direction for added comments: when the header after a section carries a
    comment, nothing that migration writes stands in that section, so no added comment
    for it can be opened there. */
module MigrationStray {
  import opened Text
  import opened Toml
  import opened ConfigLines
  import opened ConfigSchema
  import opened TomlLaws
  import opened Migration
  import opened MigrationEdits
  import opened MigrationAdding
  import opened MigrationLaws
  import opened MigrationTidy
  import opened MigrationFile
  import opened MigrationOpening

  // -- comments as TOML places them --------------------------------------------

  function Turned(cur: Option<string>, line: string): Option<string> {
    var l := ReadLine(line);
    if l.Some? && l.value.HeaderLine? then Some(l.value.name) else cur
  }

  /** The table TOML is in after `lines`, having been in `cur`. */
  function TomlSection(cur: Option<string>, lines: seq<string>): Option<string>
    decreases |lines|
  {
    if lines == [] then cur else TomlSection(Turned(cur, lines[0]), lines[1..])
  }

  function NotedAt(cur: Option<string>, line: string): set<(string, string)> {
    if cur.Some? && ReadLine(line) == Some(CommentLine) && CommentedKey(line).Some?
    then {(cur.value, CommentedKey(line).value)} else {}
  }

  /** The `(table, key)` pairs mentioned in a comment, by the table TOML is in. */
  function Noted(cur: Option<string>, lines: seq<string>): set<(string, string)>
    decreases |lines|
  {
    if lines == [] then {} else NotedAt(cur, lines[0]) + Noted(Turned(cur, lines[0]), lines[1..])
  }

  lemma {:induction false} NotedConcat(cur: Option<string>, a: seq<string>, b: seq<string>)
    ensures TomlSection(cur, a + b) == TomlSection(TomlSection(cur, a), b)
    ensures Noted(cur, a + b) == Noted(cur, a) + Noted(TomlSection(cur, a), b)
    decreases |a|
  {
    hide Turned, NotedAt;
    if a == [] {
      assert a + b == b;
    } else {
      assert (a + b)[1..] == a[1..] + b;
      NotedConcat(Turned(cur, a[0]), a[1..], b);
    }
  }

  lemma {:induction false} NotedOne(cur: Option<string>, line: string)
    ensures Noted(cur, [line]) == NotedAt(cur, line) && TomlSection(cur, [line]) == Turned(cur, line)
  {
    hide Turned, NotedAt;
    assert [line][1..] == [];
  }

  function LastName(d: Doc): Option<string> {
    if d == [] then None else Some(d[|d| - 1].name)
  }

  lemma {:induction false} TomlTracks(d: Doc, lines: seq<string>)
    requires LoadFrom(d, lines).Some?
    ensures TomlSection(LastName(d), lines) == LastName(LoadFrom(d, lines).value)
    decreases |lines|
  {
    hide ReadLine;
    if lines != [] {
      var e := LoadLine(d, lines[0]).value;
      assert LastName(e) == Turned(LastName(d), lines[0]);
      TomlTracks(e, lines[1..]);
    }
  }

  lemma {:induction false} LastIsPlain(d: Doc, r: Doc, s: string)
    requires Extends(d, r) && Distinct(r) && HasPlain(r, s) && LastName(d) == Some(s)
    ensures LastPlain(d) == Some(s)
  {
    var j :| 0 <= j < |r| && r[j].name == s && r[j].plain;
    assert j == |d| - 1;
  }

  /** Under a plain header, a comment TOML places in a section is one the comment
      scanner sees there too. */
  lemma {:induction false} NotedIsCommented(d: Doc, lines: seq<string>, s: string, k: string)
    requires Distinct(d) && LoadFrom(d, lines).Some? && HasPlain(LoadFrom(d, lines).value, s)
    requires (s, k) in Noted(LastName(d), lines)
    ensures (s, k) in Commented(LastPlain(d), lines)
    decreases |lines|
  {
    hide ReadLine, SectionName, CommentedKey, ActiveKey, LastPlain, HasPlain;
    var line := lines[0];
    var e := LoadLine(d, line).value;
    LoadExtends(d, lines);
    LoadLineExtends(d, line);
    StepTracks(d, line);
    TomlTracks(d, [line]);
    NotedOne(LastName(d), line);
    LoadConcat(d, [line], lines[1..]);
    assert [line] + lines[1..] == lines && [line][1..] == [];
    LineAgrees(line);
    if (s, k) in NotedAt(LastName(d), line) {
      LastIsPlain(d, LoadFrom(d, lines).value, s);
    } else {
      NotedIsCommented(e, lines[1..], s, k);
    }
  }

  // -- what each edit adds -----------------------------------------------------

  /** Lines that TOML skips, met in another table, mention nothing here. */
  lemma {:induction false} NotedElsewhere(cur: Option<string>, added: seq<string>, s: string, k: string)
    requires cur != Some(s) && forall i | 0 <= i < |added| :: Idle(added[i])
    ensures (s, k) !in Noted(cur, added) && TomlSection(cur, added) == cur
    decreases |added|
  {
    hide ReadLine, CommentedKey;
    if added != [] {
      assert Idle(added[0]);
      NotedElsewhere(cur, added[1..], s, k);
    }
  }

  lemma {:induction false} NotedInserted(a: seq<string>, added: seq<string>, z: seq<string>, s: string, k: string)
    requires Inert(added) && TomlSection(None, a) != Some(s) && (s, k) !in Noted(None, a + z)
    ensures (s, k) !in Noted(None, a + added + z)
  {
    hide ReadLine, SectionName, CommentedKey, Noted, TomlSection;
    NotedConcat(None, a, z);
    NotedConcat(None, a + added, z);
    NotedConcat(None, a, added);
    NotedElsewhere(TomlSection(None, a), added, s, k);
  }

  /** An insertion never lands in a section whose next header carries a comment. */
  lemma {:induction false} LandsElsewhere(lines: seq<string>, t: string, s: string, d: Doc)
    requires LoadLines(lines) == Some(d) && HeaderIndex(lines, t).Some?
    requires HasPlain(d, s) && !FollowedByPlain(d, s)
    ensures TomlSection(None, lines[..InsertionPoint(lines, HeaderIndex(lines, t).value)]) != Some(s)
  {
    hide ReadLine, SectionName, CommentedKey, ActiveKey, InsertionPoint, HeaderIndex, TomlSection;
    var h := HeaderIndex(lines, t).value;
    var i := InsertionPoint(lines, h);
    AfterInsertion(lines, h, i, d);
    LoadExtends([], lines);
    TomlTracks([], lines[..i]);
    var p := LoadLines(lines[..i]).value;
    LandsIff(p, d, t);
    if p[|p| - 1].name == s {
      LastIsPlain(p, d, s);
    }
  }

  lemma {:induction false} InsertStray(lines: seq<string>, t: string, added: seq<string>, s: string, k: string, d: Doc)
    requires BareKey(t) && Inert(added) && LoadLines(lines) == Some(d) && Sound(d)
    requires HasPlain(d, s) && !FollowedByPlain(d, s) && (s, k) !in Noted(None, lines)
    ensures (s, k) !in Noted(None, Insert(lines, t, added))
  {
    hide ReadLine, SectionName, CommentedKey, ActiveKey, InsertionPoint, Noted, TomlSection, NewSection;
    HeaderIndexMeaning([], lines, t);
    match HeaderIndex(lines, t)
    case Some(h) =>
      var i := InsertionPoint(lines, h);
      LandsElsewhere(lines, t, s, d);
      assert lines == lines[..i] + lines[i..];
      NotedInserted(lines[..i], added, lines[i..], s, k);
    case None =>
      var tail := NewSection(lines, t);
      NewSectionNotes(lines, t, TomlSection(None, lines));
      NotedConcat(None, lines, tail);
      assert lines + tail + [] == lines + tail && lines + tail + added + [] == lines + tail + added;
      NotedInserted(lines + tail, added, [], s, k);
  }

  lemma {:induction false} NewSectionNotes(lines: seq<string>, t: string, cur: Option<string>)
    requires BareKey(t)
    ensures Noted(cur, NewSection(lines, t)) == {} && TomlSection(cur, NewSection(lines, t)) == Some(t)
  {
    hide ReadLine, CommentedKey, Strip, HeaderText;
    BareReads();
    HeaderTextReads(t);
    NotedOne(cur, HeaderText(t));
    NotedOne(cur, "");
    NotedConcat(cur, [""], [HeaderText(t)]);
    assert [] + [HeaderText(t)] == [HeaderText(t)];
  }

  lemma {:induction false} OpenedStray(d: Doc, t: string, s: string)
    requires Sound(d) && !Hidden(d, t) && HasPlain(d, s) && !FollowedByPlain(d, s)
    ensures var e := Opened(Some(d), t).value; HasPlain(e, s) && !FollowedByPlain(e, s)
  {
    var e := Opened(Some(d), t).value;
    var i, j :| 0 <= i < |d| && 0 <= j < |d| && j == i + 1 && d[i].name == s && !d[j].plain;
    assert e[i] == d[i] && e[j] == d[j];
    var q :| 0 <= q < |d| && d[q].name == s && d[q].plain;
    assert e[q] == d[q];
  }

  lemma {:induction false} AddAllStray(e: Edit, groups: seq<Group>, version: Option<string>, d: Doc, s: string, k: string)
    requires PlainVersion(version) && GoodGroups(groups)
    requires LoadLines(e.lines) == Some(d) && Sound(d) && !AnyHidden(d, groups)
    requires HasPlain(d, s) && !FollowedByPlain(d, s) && (s, k) !in Noted(None, e.lines)
    ensures (s, k) !in Noted(None, AddAll(e, groups, version).lines)
    decreases |groups|
  {
    hide ReadLine, SectionName, CommentedKey, ActiveKey, Noted, Insert, AddChanges;
    if groups != [] {
      var g := groups[0];
      var added := AddedLines(g.items, version);
      GroupRest(groups);
      AddedLinesLaw(g.items, version);
      assert !Hidden(d, groups[0].section);
      InsertStray(e.lines, g.section, added, s, k, d);
      InsertLoads(e.lines, g.section, added);
      OpenedLaw(d, g.section);
      OpenedStray(d, g.section, s);
      assert forall i | 0 <= i < |groups[1..]| :: groups[1..][i] == groups[i + 1];
      AddAllStray(AddGroup(e, g, version), groups[1..], version, Opened(Some(d), g.section).value, s, k);
    }
  }

  lemma {:induction false} DropAllStray(d: Doc, rs: seq<Retired>, s: string)
    requires !FollowedByPlain(d, s)
    ensures !FollowedByPlain(DropAll(d, rs), s)
    decreases |rs|
  {
    if rs != [] {
      var r := rs[0];
      var e := Drop(d, r.section, r.key);
      assert forall i | 0 <= i < |d| :: e[i].name == d[i].name && e[i].plain == d[i].plain;
      DropAllStray(if HasPlain(d, r.section) then e else d, rs[1..], s);
    }
  }

  // -- where added comments stand ----------------------------------------------

  /** A comment that stands in its section is noted there. */
  lemma {:induction false} PlacedIsNoted(lines: seq<string>, m: Missing, version: Option<string>)
    requires PlainMissing(m) && PlainVersion(version) && Placed(lines, m.section, AddedLine(m, version))
    ensures (m.section, m.key) in Noted(None, lines)
  {
    hide ReadLine, SectionName, CommentedKey, ActiveKey, AddedLine, Noted, TomlSection;
    AddedLinePlain(m, version);
    var j: nat :| Stands(lines, m.section, AddedLine(m, version), j);
    TomlTracks([], lines[..j]);
    SplitThree(lines, j);
    NotedConcat(None, lines[..j], [lines[j]] + lines[j + 1..]);
    NotedConcat(Some(m.section), [lines[j]], lines[j + 1..]);
    NotedOne(Some(m.section), lines[j]);
  }

  lemma {:induction false} MissingStrays(schema: Schema, text: string, version: Option<string>, m: Missing)
    requires WellFormed(schema) && PlainVersion(version) && m in Diff(schema, text).missing
    requires !Blocked(schema, text, version) && !FollowedByPlain(Reread(schema, text, version).value, m.section)
    ensures !Placed(Rewrite(schema, text, version).lines, m.section, AddedLine(m, version))
  {
    hide ReadLine, SectionName, CommentedKey, ActiveKey, Noted, AddedLine, Commented;
    var mid := RetireAll(Edit(SplitLines(text), []), Diff(schema, text).deprecated, version);
    var d, groups, s, k := Reread(schema, text, version).value, Groups(schema, text), m.section, m.key;
    MissingReported(schema, text, m);
    MissingGood(schema, text, m);
    MissingPlain(schema, text, d, m);
    LoadSound([], mid.lines);
    FirstPassScan(schema, text, version, s, k);
    if (s, k) in Noted(None, mid.lines) {
      NotedIsCommented([], mid.lines, s, k);
    }
    ReportGroups(schema, text);
    MissingHiddenGroups(schema, text, d);
    AddAllStray(mid, groups, version, d, s, k);
    if Placed(Rewrite(schema, text, version).lines, s, AddedLine(m, version)) {
      PlacedIsNoted(Rewrite(schema, text, version).lines, m, version);
    }
  }

  /** A section that a noted header follows is in the file, and under a plain header
      unless the migration breaks. */
  lemma {:induction false} MissingPlain(schema: Schema, text: string, d: Doc, m: Missing)
    requires !MissingHidden(schema, text, d) && m in Diff(schema, text).missing && !FollowedByPlain(d, m.section)
    ensures HasPlain(d, m.section)
  {
    var ms := Diff(schema, text).missing;
    var n :| 0 <= n < |ms| && ms[n] == m;
    assert HasTable(d, m.section);
  }

  /** The comment added for a missing key stands in that section of the new file, and
      dropping its comment mark sets the key to the schema default and changes no other
      lookup, exactly when the new file parses, the header after the section carries no
      comment, and cutting the file into lines did not set the key by itself. */
  lemma {:induction false} OpeningGivesDefault(schema: Schema, text: string, version: Option<string>, m: Missing)
    requires WellFormed(schema) && PlainVersion(version) && m in Diff(schema, text).missing
    ensures (exists j :: OpensToDefault(SplitLines(Migrate(schema, text, version).0), j, m, version))
            <==> !Blocked(schema, text, version)
                 && FollowedByPlain(Reread(schema, text, version).value, m.section)
                 && Lookup(Reread(schema, text, version).value, m.section, m.key).None?
  {
    hide ReadLine, SectionName, CommentedKey, ActiveKey, AddedLine, FirstPass, Blocked, Migrate, FollowedByPlain, Diff;
    var lines := Rewrite(schema, text, version).lines;
    NotSettled(schema, text, m);
    NewText(schema, text, version);
    MigrationExact(schema, text, version);
    if !Blocked(schema, text, version) {
      BlockedReads(schema, text, version);
      var d := Reread(schema, text, version).value;
      if !FollowedByPlain(d, m.section) {
        MissingStrays(schema, text, version, m);
      } else if Lookup(d, m.section, m.key).None? {
        PlacedOpening(schema, text, version, m);
      }
    }
    forall j: nat | OpensToDefault(lines, j, m, version)
      ensures Lookup(LoadLines(lines).value, m.section, m.key).None?
      ensures Placed(lines, m.section, AddedLine(m, version))
    {
      MissingGood(schema, text, m);
      AddedLinePlain(m, version);
      OpenLineReads(m, version);
      OpenedText(m, version);
      assert lines[j] == AddedLine(m, version);
      OpeningNeedsAbsent(lines, m.section, AddedLine(m, version), j, OpenLine(m, version), m.key, m.default);
    }
  }

  lemma {:induction false} NotSettled(schema: Schema, text: string, m: Missing)
    requires m in Diff(schema, text).missing
    ensures Load(text).Some? && !Settled(schema, text)
  {
  }

  lemma {:induction false} OpenedText(m: Missing, version: Option<string>)
    ensures |AddedLine(m, version)| >= 2 && AddedLine(m, version)[2..] == OpenLine(m, version)
  {
  }

  /** In a tidy file that is: exactly when the migrated file parses and the header after
      the section carries no comment. */
  lemma {:induction false} TidyOpening(schema: Schema, text: string, version: Option<string>, m: Missing)
    requires WellFormed(schema) && PlainVersion(version) && LfBreaks(text) && m in Diff(schema, text).missing
    ensures (exists j :: OpensToDefault(SplitLines(Migrate(schema, text, version).0), j, m, version))
            <==> !Unreachable(schema, text) && FollowedByPlain(Load(text).value, m.section)
  {
    hide ReadLine, SectionName, CommentedKey, ActiveKey, FirstPass, Blocked, Migrate, FollowedByPlain, OpensToDefault, Unreachable, Commented;
    var d, rs := Load(text).value, Diff(schema, text).deprecated;
    OpeningGivesDefault(schema, text, version, m);
    TidyReread(schema, text, version);
    MissingReported(schema, text, m);
    if FollowedByPlain(d, m.section) {
      DropAllFollowed(d, rs, m.section);
    } else {
      DropAllStray(d, rs, m.section);
    }
  }
}
