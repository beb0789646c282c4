/** Migration of files whose only line breaks are line ends, where cutting into lines
    changes nothing; and the two shapes of file that it does not handle. */
module MigrationTidy {
  import opened Text
  import opened Toml
  import opened ConfigLines
  import opened ConfigSchema
  import opened TomlLaws
  import opened Migration
  import opened MigrationEdits
  import opened MigrationAdding
  import opened MigrationLaws

  /** Some missing key belongs to a section whose header carries a comment. A caller can
      see it in the report and the file before migrating. */
  predicate Unreachable(schema: Schema, text: string) {
    Load(text).Some? && MissingHidden(schema, text, Load(text).value)
  }

  /** Cutting a tidy file into lines changes nothing: re-reading drops the retired keys
      that stand under plain headers and no other. */
  lemma {:induction false} TidyReread(schema: Schema, text: string, version: Option<string>)
    requires WellFormed(schema) && PlainVersion(version) && Load(text).Some? && LfBreaks(text)
    ensures var d := Load(text).value;
            && Reread(schema, text, version) == Some(DropAll(d, Diff(schema, text).deprecated))
            && Sound(d) && Sound(Reread(schema, text, version).value)
            && (Blocked(schema, text, version) <==> Unreachable(schema, text))
            && (forall s :: HasPlain(Reread(schema, text, version).value, s) <==> HasPlain(d, s))
            && (forall s :: Hidden(Reread(schema, text, version).value, s) <==> Hidden(d, s))
            && (forall s, k :: Lookup(Reread(schema, text, version).value, s, k)
                            == if Retires(schema, d, s, k) then None else Lookup(d, s, k))
  {
    hide ReadLine, SectionName, CommentedKey, ActiveKey;
    var d, rs := Load(text).value, Diff(schema, text).deprecated;
    TidyLines(text);
    ReportRetirable(schema, text);
    SplitLinesOneLine(text);
    RetireAllLaw(Edit(SplitLines(text), []), rs, version, d);
    DropAllLaw(d, rs);
    forall s, k
      ensures Listed(rs, s, k) && HasPlain(d, s) && Lookup(d, s, k).Some? <==> Retires(schema, d, s, k) && Lookup(d, s, k).Some?
    {
      LookupMeaning(d, s, k);
    }
  }

  /** A tidy file is settled when no key is missing and every retired one is hidden. */
  lemma {:induction false} TidySettled(schema: Schema, text: string)
    requires WellFormed(schema) && Load(text).Some? && LfBreaks(text)
    ensures Settled(schema, text) <==>
            Diff(schema, text).missing == [] && AllHidden(Load(text).value, Diff(schema, text).deprecated)
  {
    hide Diff, NoneFound, WellFormed;
    TidyLines(text);
    ReportRetirable(schema, text);
    NoneFoundHidden(SplitLines(text), Diff(schema, text).deprecated, Load(text).value);
  }

  /** Every lookup gives what it gave before, but for the retired keys acted on, which
      are gone; and the migrated file parses exactly when no missing key belongs under a
      header with a trailing comment. */
  lemma {:induction false} TidyExact(schema: Schema, text: string, version: Option<string>)
    requires WellFormed(schema) && PlainVersion(version) && Load(text).Some? && LfBreaks(text)
    ensures var d, after := Load(text).value, Migrate(schema, text, version).0;
            && (Load(after).Some? <==> !Unreachable(schema, text))
            && (Load(after).Some? ==> forall s, k ::
                  Lookup(Load(after).value, s, k) == if Retires(schema, d, s, k) then None else Lookup(d, s, k))
  {
    hide ReadLine, SectionName, CommentedKey, ActiveKey, Blocked, FirstPass, WellFormed;
    var d := Load(text).value;
    TidyReread(schema, text, version);
    ChangesTell(schema, text, version);
    if Settled(schema, text) {
      TidySettled(schema, text);
      NoneRetires(schema, text);
    } else {
      MigrationExact(schema, text, version);
    }
  }

  lemma {:induction false} NoneRetires(schema: Schema, text: string)
    requires WellFormed(schema) && Load(text).Some?
    requires AllHidden(Load(text).value, Diff(schema, text).deprecated)
    ensures forall s, k :: Retires(schema, Load(text).value, s, k) ==> Lookup(Load(text).value, s, k).None?
  {
    hide Diff, WellFormed;
    var d, rs := Load(text).value, Diff(schema, text).deprecated;
    ReportRetirable(schema, text);
    forall s, k | Retires(schema, d, s, k)
      ensures Lookup(d, s, k).None?
    {
      LookupMeaning(d, s, k);
      assert !Listed(rs, s, k);
    }
  }

  /** Behaviour-neutral: a tidy file keeps its effective configuration exactly when no
      missing key belongs under such a header. */
  lemma {:induction false} TidyNeutral(schema: Schema, text: string, version: Option<string>)
    requires WellFormed(schema) && PlainVersion(version) && LfBreaks(text)
    ensures Effective(schema, Migrate(schema, text, version).0) == Effective(schema, text)
            <==> !Unreachable(schema, text)
  {
    hide ReadLine, SectionName, CommentedKey, ActiveKey, Migrate;
    ChangesTell(schema, text, version);
    if Load(text).Some? {
      var d := Load(text).value;
      var after := Migrate(schema, text, version).0;
      TidyExact(schema, text, version);
      if Load(after).Some? {
        forall i, j | 0 <= i < |schema.models| && 0 <= j < |schema.models[i].fields|
          ensures SameAt(d, Load(after).value, schema.models[i].section, schema.models[i].fields[j].name)
        {
          FieldGood(schema, i, schema.models[i].fields[j]);
        }
        EffectiveSame(schema.models, d, Load(after).value);
      }
    }
  }

  /** One pass is enough for a tidy file, whatever it holds. */
  lemma {:induction false} TidyIdempotent(schema: Schema, text: string, version: Option<string>, later: Option<string>)
    requires WellFormed(schema) && PlainVersion(version) && PlainVersion(later) && LfBreaks(text)
    ensures Migrate(schema, Migrate(schema, text, version).0, later) == (Migrate(schema, text, version).0, [])
    ensures Settled(schema, Migrate(schema, text, version).0)
  {
    hide ReadLine, SectionName, CommentedKey, ActiveKey, Blocked, FirstPass, Migrate, Commented;
    MigrationSettles(schema, text, version);
    MigrationIdempotent(schema, text, version, later);
    if Load(text).Some? && !Blocked(schema, text, version) {
      TidyReread(schema, text, version);
      forall i, f | 0 <= i < |schema.models| && f in schema.models[i].fields
        ensures KeepsField(schema, text, version, schema.models[i].section, f)
      {
        FieldGood(schema, i, f);
      }
    }
  }

  /** After one pass over a tidy file nothing is missing, and the only retired keys still
      active are those whose section header carries a trailing comment. */
  lemma {:induction false} TidySettles(schema: Schema, text: string, version: Option<string>)
    requires WellFormed(schema) && PlainVersion(version) && LfBreaks(text)
    ensures var report := Diff(schema, Migrate(schema, text, version).0);
            && report.missing == []
            && (!Unreachable(schema, text) && Load(text).Some? ==>
                  forall s, k :: Listed(report.deprecated, s, k) <==>
                    Listed(Diff(schema, text).deprecated, s, k) && Hidden(Load(text).value, s))
  {
    hide ReadLine, SectionName, CommentedKey, ActiveKey, Migrate, NoneFound;
    var after := Migrate(schema, text, version).0;
    TidyIdempotent(schema, text, version, version);
    if Load(text).Some? {
      TidyExact(schema, text, version);
      if !Unreachable(schema, text) {
        OnlyHiddenLeft(schema, text, version);
      }
    } else {
      ChangesTell(schema, text, version);
    }
  }

  lemma {:induction false} OnlyHiddenLeft(schema: Schema, text: string, version: Option<string>)
    requires WellFormed(schema) && PlainVersion(version) && LfBreaks(text) && Load(text).Some?
    requires !Unreachable(schema, text)
    ensures forall s, k :: Listed(Diff(schema, Migrate(schema, text, version).0).deprecated, s, k) <==>
              Listed(Diff(schema, text).deprecated, s, k) && Hidden(Load(text).value, s)
  {
    hide ReadLine, SectionName, CommentedKey, ActiveKey, Migrate, Diff, WellFormed, Unreachable;
    var after := Migrate(schema, text, version).0;
    TidyExact(schema, text, version);
    var d, e := Load(text).value, Load(after).value;
    ReportRetirable(schema, text);
    ReportRetirable(schema, after);
    forall s, k
      ensures Listed(Diff(schema, after).deprecated, s, k) <==> Listed(Diff(schema, text).deprecated, s, k) && Hidden(d, s)
    {
      LookupMeaning(d, s, k);
      LookupMeaning(e, s, k);
    }
  }

  // -- what the service runs with ----------------------------------------------

  lemma {:induction false} EffectiveInAt(section: string, fields: seq<Field>, d: Doc, j: nat)
    requires j < |fields| && forall x, y | 0 <= x < y < |fields| :: fields[x].name != fields[y].name
    ensures (section, fields[j].name) in EffectiveIn(section, fields, d)
    ensures EffectiveIn(section, fields, d)[(section, fields[j].name)] == ValueOr(Lookup(d, section, fields[j].name), fields[j].default)
  {
    if j > 0 {
      assert forall x | 0 <= x < |fields[1..]| :: fields[1..][x] == fields[x + 1];
      EffectiveInAt(section, fields[1..], d, j - 1);
      assert fields[0].name != fields[j].name;
    }
  }

  lemma {:induction false} EffectiveInOwn(section: string, fields: seq<Field>, d: Doc)
    ensures forall x | x in EffectiveIn(section, fields, d) :: x.0 == section
  {
    if fields != [] {
      EffectiveInOwn(section, fields[1..], d);
    }
  }

  /** Every field of the schema runs with the file's value, or its default. */
  lemma {:induction false} EffectiveAt(models: seq<Model>, d: Doc, i: nat, j: nat)
    requires i < |models| && j < |models[i].fields|
    requires forall x | 0 <= x < |models| :: WellFormedModel(models[x])
    requires forall x, y | 0 <= x < y < |models| :: models[x].section != models[y].section
    ensures var f, s := models[i].fields[j], models[i].section;
            && (s, f.name) in EffectiveFrom(models, d)
            && EffectiveFrom(models, d)[(s, f.name)] == ValueOr(Lookup(d, s, f.name), f.default)
  {
    var f, s := models[i].fields[j], models[i].section;
    if i == 0 {
      assert WellFormedModel(models[0]);
      EffectiveInAt(s, models[0].fields, d, j);
    } else {
      assert forall x | 0 <= x < |models[1..]| :: models[1..][x] == models[x + 1];
      EffectiveAt(models[1..], d, i - 1, j);
      EffectiveInOwn(models[0].section, models[0].fields, d);
      assert models[0].section != s;
    }
  }

  // -- the shape of file that breaks -------------------------------------------

  /** `[s]#`: a header with an empty comment, which TOML allows. */
  function NotedHeader(s: string): string { ['['] + (s + [']', '#']) }

  lemma {:induction false} NotedBodyReads(s: string)
    requires BareKey(s)
    ensures ReadHeader(s + [']', '#']) == Some(HeaderLine(s, false))
  {
    BareKeyTrimmed(s);
    assert (s + [']', '#'])[0] == s[0];
    SplitAt(s, [']', '#'], WordDash);
    assert [']', '#'][1..] == ['#'];
    assert ReadRest(['#']) == Some(Comment);
  }

  lemma {:induction false} NotedHeaderPlain(s: string)
    requires BareKey(s)
    ensures PlainText(NotedHeader(s))
  {
    assert forall i | 0 <= i < |s| :: In(s[i], WordDash);
    assert PlainText(s);
    PlainConcat(s, [']', '#']);
    PlainConcat(['['], s + [']', '#']);
  }

  lemma {:induction false} NotedHeaderReads(s: string)
    requires BareKey(s)
    ensures ReadLine(NotedHeader(s)) == Some(HeaderLine(s, false))
    ensures PlainText(NotedHeader(s))
  {
    hide ReadHeader, ReadKey;
    var t := NotedHeader(s);
    NotedHeaderPlain(s);
    NotedBodyReads(s);
    assert t[0] == '[' && t[1..] == s + [']', '#'];
  }

  lemma {:induction false} NotedHeaderLoads(s: string)
    requires BareKey(s)
    ensures LfBreaks(NotedHeader(s) + "\n") && Load(NotedHeader(s) + "\n") == Some([Table(s, false, [])])
    ensures Commented(None, SplitLines(NotedHeader(s) + "\n")) == {}
  {
    hide ReadLine, SectionName, CommentedKey, NotedHeader;
    NotedHeaderReads(s);
    var line := NotedHeader(s);
    SplitUnlines([line]);
    UnlinesLf([line]);
    TidyLines(Unlines([line]));
    assert Unlines([line]) == line + "\n";
    assert [line][1..] == [];
    LineAgrees(line);
    assert [] + [Table(s, false, [])] == [Table(s, false, [])];
    assert LoadLine([], line) == Some([Table(s, false, [])]);
    assert LoadFrom([Table(s, false, [])], [line][1..]) == Some([Table(s, false, [])]);
  }

  /** TOML allows a comment after a header, and the scanners then miss the header. For
      any section of any schema that has a field for the file, the file that holds
      just that header parses, and its migration does not: a second header for the
      section was appended. */
  lemma {:induction false} NotedHeaderBreaks(schema: Schema, i: nat, f: Field, version: Option<string>)
    requires WellFormed(schema) && PlainVersion(version)
    requires i < |schema.models| && f in schema.models[i].fields
    requires (schema.models[i].section, f.name) !in schema.secrets
    ensures var text := NotedHeader(schema.models[i].section) + "\n";
            && Effective(schema, text).Some?
            && Effective(schema, Migrate(schema, text, version).0).None?
  {
    hide ReadLine, SectionName, CommentedKey, ActiveKey, NotedHeader, WellFormed;
    var s := schema.models[i].section;
    var text := NotedHeader(s) + "\n";
    FieldGood(schema, i, f);
    NotedHeaderLoads(s);
    var d := [Table(s, false, [])];
    var m := Missing(s, f.name, f.default);
    MissingReported(schema, text, m);
    assert Field(m.key, m.default) == f;
    var ms := Diff(schema, text).missing;
    var j :| 0 <= j < |ms| && ms[j] == m;
    assert d[0].name == s;
    assert Unreachable(schema, text);
    TidyExact(schema, text, version);
  }

  // -- breaks that are no line ends --------------------------------------------

  /** Breaks for `splitlines` that TOML takes for ordinary characters of a comment or
      string: next line, line separator, paragraph separator. */
  predicate StrayBreak(c: char) { c == '\U{85}' || c == '\U{2028}' || c == '\U{2029}' }

  /** A section, and in it a comment that holds such a break and then `setter`. */
  function StrayText(s: string, c: char, setter: string): string {
    HeaderText(s) + ("\n" + ((['#', c] + setter) + ("\n" + "")))
  }

  lemma {:induction false} StrayRead(s: string, c: char, setter: string, k: string, v: Value)
    requires BareKey(s) && StrayBreak(c) && OneLine(setter) && ReadLine(setter) == Some(KeyLine(k, v))
    ensures Load(StrayText(s, c, setter)) == Some([Table(s, true, [])])
  {
    hide ReadLine, SectionName, CommentedKey, ActiveKey, HeaderText;
    var text, note := StrayText(s, c, setter), ['#', c] + setter;
    HeaderTextReads(s);
    LineAgrees(setter);
    OneLineUnfeed(HeaderText(s));
    OneLineUnfeed(setter);
    StrayUnreturn(s, c, setter);
    FeedFirst(HeaderText(s), note + ("\n" + ""));
    FeedFirst(note, "");
    StrayComment(c, setter);
    assert FileLines(text) == [HeaderText(s)] + [note];
    LoadConcat([], [HeaderText(s)], [note]);
    HeaderLoads(s);
    LoadIdle([Table(s, true, [])], [note]);
  }

  lemma {:induction false} HeaderLoads(s: string)
    requires BareKey(s)
    ensures LoadLines([HeaderText(s)]) == Some([Table(s, true, [])])
  {
    hide ReadLine, SectionName, HeaderText;
    HeaderTextReads(s);
    var d: Doc := [Table(s, true, [])];
    assert [HeaderText(s)][1..] == [];
    assert [] + d == d;
    assert LoadLine([], HeaderText(s)) == Some(d);
    assert LoadFrom(d, [HeaderText(s)][1..]) == Some(d);
  }

  lemma {:induction false} SetterLoads(s: string, setter: string, k: string, v: Value)
    requires ReadLine(setter) == Some(KeyLine(k, v))
    ensures LoadFrom([Table(s, true, [])], [setter]) == Some([Table(s, true, [Item(k, v)])])
  {
    hide ReadLine;
    var t := Table(s, true, []);
    assert [setter][1..] == [];
    assert [] + [Item(k, v)] == [Item(k, v)];
    assert [t][..0] + [t.(items := [Item(k, v)])] == [Table(s, true, [Item(k, v)])];
  }

  lemma {:induction false} StrayComment(c: char, setter: string)
    requires StrayBreak(c) && All(setter, Uncontrol)
    ensures ReadLine(['#', c] + setter) == Some(CommentLine)
  {
    var l := ['#', c] + setter;
    assert l[0] == '#';
    assert In(c, Uncontrol) && In('#', Uncontrol);
    assert Skip(l, Blank) == l;
  }

  lemma {:induction false} StrayUnreturn(s: string, c: char, setter: string)
    requires OneLine(HeaderText(s)) && StrayBreak(c) && OneLine(setter)
    ensures Unreturn(StrayText(s, c, setter)) == StrayText(s, c, setter)
  {
    hide HeaderText;
    var note, end := ['#', c] + setter, "\n" + "";
    NoReturns(HeaderText(s));
    NoReturns(setter);
    NoReturn(HeaderText(s) + ("\n" + (note + end)));
  }

  lemma {:induction false} NoReturns(l: string)
    requires OneLine(l)
    ensures '\r' !in l
  {
    assert forall i | 0 <= i < |l| :: In(l[i], InLine);
  }

  lemma {:induction false} StrayLines(s: string, c: char, setter: string)
    requires OneLine(HeaderText(s)) && StrayBreak(c) && OneLine(setter) && setter != []
    ensures SplitLines(StrayText(s, c, setter)) == [HeaderText(s), "#", setter]
  {
    hide HeaderText;
    var r := [c] + (setter + "\n" + "");
    assert StrayText(s, c, setter) == HeaderText(s) + "\n" + ("#" + r);
    SplitFirst(HeaderText(s), "#" + r);
    SplitFirst(setter, "");
    SplitAt("#", r, InLine);
    assert r[1..] == setter + "\n" + "";
  }

  lemma {:induction false} StrayReread(s: string, setter: string, k: string, v: Value)
    requires BareKey(s) && ReadLine(setter) == Some(KeyLine(k, v))
    ensures LoadLines([HeaderText(s), "#", setter]) == Some([Table(s, true, [Item(k, v)])])
    ensures Commented(None, [HeaderText(s), "#", setter]) == {}
  {
    hide ReadLine, SectionName, CommentedKey, ActiveKey, HeaderText;
    var d := [Table(s, true, [])];
    assert [HeaderText(s), "#", setter] == [HeaderText(s)] + (["#"] + [setter]);
    HeaderTextReads(s);
    BareReads();
    LineAgrees(setter);
    LineAgrees("#");
    NoKeyInBare();
    LoadConcat([], [HeaderText(s)], ["#"] + [setter]);
    HeaderLoads(s);
    LoadConcat(d, ["#"], [setter]);
    LoadIdle(d, ["#"]);
    SetterLoads(s, setter, k, v);
    ScanConcat(None, [HeaderText(s)], ["#"] + [setter]);
    HeaderScan(None, HeaderText(s), s);
    NothingScanned(SectionAfter(None, [HeaderText(s)]), ["#"] + [setter]);
  }

  lemma {:induction false} NothingScanned(cur: Option<string>, lines: seq<string>)
    requires forall i | 0 <= i < |lines| :: SectionName(lines[i]).None? && CommentedKey(lines[i]).None?
    ensures Commented(cur, lines) == {}
    decreases |lines|
  {
    hide SectionName, CommentedKey;
    if lines != [] {
      assert SectionName(lines[0]).None?;
      NothingScanned(cur, lines[1..]);
    }
  }

  lemma {:induction false} NoKeyInBare()
    ensures CommentedKey("#") == None
  {
    assert "#"[1..] == [];
  }

  /** A line that stands behind such a break in a comment is dead to TOML and live once
      the file has been cut: for any section and any of its fields for the file, the
      migration switches the setting on, and with another value than the default it
      changes the configuration. */
  lemma {:induction false} StrayBreakSets(schema: Schema, i: nat, j: nat, c: char, setter: string, v: Value, version: Option<string>)
    requires WellFormed(schema) && PlainVersion(version) && i < |schema.models| && j < |schema.models[i].fields|
    requires (schema.models[i].section, schema.models[i].fields[j].name) !in schema.secrets
    requires StrayBreak(c) && OneLine(setter) && ReadLine(setter) == Some(KeyLine(schema.models[i].fields[j].name, v))
    ensures var s, f := schema.models[i].section, schema.models[i].fields[j];
            var text := StrayText(s, c, setter);
            var after := Migrate(schema, text, version).0;
            && Load(text).Some? && Lookup(Load(text).value, s, f.name) == None
            && Load(after).Some? && Lookup(Load(after).value, s, f.name) == Some(v)
            && (v != f.default ==> Effective(schema, after) != Effective(schema, text))
  {
    hide ReadLine, SectionName, CommentedKey, ActiveKey, HeaderText, WellFormed, StrayText, EffectiveFrom, Migrate;
    var s, f := schema.models[i].section, schema.models[i].fields[j];
    var text := StrayText(s, c, setter);
    var after := Migrate(schema, text, version).0;
    FieldGood(schema, i, f);
    HeaderTextReads(s);
    LineSomething(setter);
    StrayRead(s, c, setter, f.name, v);
    StrayLines(s, c, setter);
    StrayReread(s, setter, f.name, v);
    var d, d2 := [Table(s, true, [])], [Table(s, true, [Item(f.name, v)])];
    assert d[1..] == [] && d2[1..] == [];
    NoneDeprecated(schema, text, s);
    MissingReported(schema, text, Missing(s, f.name, f.default));
    assert f == Field(Missing(s, f.name, f.default).key, Missing(s, f.name, f.default).default);
    assert Reread(schema, text, version) == Some(d2);
    assert HasPlain(d2, s) by { assert d2[0].plain; }
    MigrationExact(schema, text, version);
    if v != f.default {
      EffectiveHere(schema, Load(text).value, i, j);
      EffectiveHere(schema, Load(after).value, i, j);
    }
  }

  lemma {:induction false} EffectiveHere(schema: Schema, d: Doc, i: nat, j: nat)
    requires WellFormed(schema) && i < |schema.models| && j < |schema.models[i].fields|
    ensures var f, s := schema.models[i].fields[j], schema.models[i].section;
            && (s, f.name) in EffectiveFrom(schema.models, d)
            && EffectiveFrom(schema.models, d)[(s, f.name)] == ValueOr(Lookup(d, s, f.name), f.default)
  {
    EffectiveAt(schema.models, d, i, j);
  }

  lemma {:induction false} LineSomething(line: string)
    requires ReadLine(line).Some? && ReadLine(line).value.KeyLine?
    ensures line != []
  {
  }

  lemma {:induction false} NoneDeprecated(schema: Schema, text: string, s: string)
    requires Load(text) == Some([Table(s, true, [])])
    ensures Diff(schema, text).deprecated == []
  {
    var d, known := [Table(s, true, [])], FileModels(schema, schema.models);
    assert d[1..] == [];
    assert RetiredFrom(schema, known, []) == [] && RetiredIn(schema, s, []) == [];
    assert RetiredFrom(schema, known, d) == [];
  }
}
