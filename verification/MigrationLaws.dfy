/** What migrating a config file promises: the service runs with the same effective
    configuration, one pass is enough, and the operator's lines survive. Each is
    stated for every text, with the exact condition where the code needs one. */
module MigrationLaws {
  import opened Text
  import opened Toml
  import opened ConfigLines
  import opened ConfigSchema
  import opened TomlLaws
  import opened Migration
  import opened MigrationEdits
  import opened MigrationAdding

  function Known(schema: Schema): seq<Model> { FileModels(schema, schema.models) }

  // -- the retired keys of the report ------------------------------------------

  lemma {:induction false} RetiredInMeaning(schema: Schema, s: string, items: seq<Item>, k: string)
    ensures Listed(RetiredIn(schema, s, items), s, k) <==> HasKey(items, k) && (s, k) in schema.deprecated
    ensures forall i | 0 <= i < |RetiredIn(schema, s, items)| ::
              var r := RetiredIn(schema, s, items)[i];
              && r.section == s && HasKey(items, r.key) && (s, r.key) in schema.deprecated
              && r.reason == schema.deprecated[(s, r.key)]
  {
    if items != [] {
      RetiredInMeaning(schema, s, items[1..], k);
      var rs, rest := RetiredIn(schema, s, items), RetiredIn(schema, s, items[1..]);
      assert items == [items[0]] + items[1..];
      HasKeyStep(items, k);
      if (s, items[0].key) in schema.deprecated {
        assert rs[1..] == rest;
        ListedStep(rs, s, k);
      } else {
        assert rs == rest;
      }
      forall i | 0 <= i < |rs|
        ensures rs[i].section == s && HasKey(items, rs[i].key) && (s, rs[i].key) in schema.deprecated
        ensures rs[i].reason == schema.deprecated[(s, rs[i].key)]
      {
        HasKeyStep(items, rs[i].key);
        if (s, items[0].key) in schema.deprecated && i > 0 {
          assert rs[i] == rest[i - 1];
        }
      }
    }
  }

  lemma {:induction false} HasKeyStep(items: seq<Item>, k: string)
    requires items != []
    ensures HasKey(items, k) <==> items[0].key == k || HasKey(items[1..], k)
  {
    assert forall i | 0 <= i < |items[1..]| :: items[1..][i] == items[i + 1];
    assert forall i | 0 < i < |items| :: items[i] == items[1..][i - 1];
  }

  lemma {:induction false} RetiredInDistinct(schema: Schema, s: string, items: seq<Item>)
    requires SoundItems(items)
    ensures var rs := RetiredIn(schema, s, items);
            forall i, j | 0 <= i < j < |rs| :: rs[i].key != rs[j].key
  {
    if items != [] {
      RetiredInDistinct(schema, s, items[1..]);
      RetiredInMeaning(schema, s, items[1..], items[0].key);
      assert !HasKey(items[1..], items[0].key);
    }
  }

  lemma {:induction false} HasItemStep(d: Doc, s: string, k: string)
    requires d != []
    ensures HasItem(d, s, k) <==> (d[0].name == s && HasKey(d[0].items, k)) || HasItem(d[1..], s, k)
  {
    assert forall i | 0 <= i < |d[1..]| :: d[1..][i] == d[i + 1];
    assert forall i | 0 < i < |d| :: d[i] == d[1..][i - 1];
  }

  /** What a list of retired keys means against the document it was made from. */
  ghost predicate RetiredList(schema: Schema, known: seq<Model>, d: Doc, rs: seq<Retired>) {
    && (forall s, k :: Listed(rs, s, k) <==> IsKnown(known, s) && HasItem(d, s, k) && (s, k) in schema.deprecated)
    && (forall i | 0 <= i < |rs| ::
          (rs[i].section, rs[i].key) in schema.deprecated && rs[i].reason == schema.deprecated[(rs[i].section, rs[i].key)])
  }

  lemma {:induction false} ListedConcat(a: seq<Retired>, b: seq<Retired>, s: string, k: string)
    ensures Listed(a + b, s, k) <==> Listed(a, s, k) || Listed(b, s, k)
  {
    if Listed(a, s, k) {
      var i :| 0 <= i < |a| && a[i].section == s && a[i].key == k;
      assert (a + b)[i] == a[i];
    }
    if Listed(b, s, k) {
      var i :| 0 <= i < |b| && b[i].section == s && b[i].key == k;
      assert (a + b)[|a| + i] == b[i];
    }
  }

  lemma {:induction false} RetiredFromMeaning(schema: Schema, known: seq<Model>, d: Doc)
    ensures RetiredList(schema, known, d, RetiredFrom(schema, known, d))
  {
    if d != [] {
      var t := d[0];
      RetiredFromMeaning(schema, known, d[1..]);
      var here := if IsKnown(known, t.name) then RetiredIn(schema, t.name, t.items) else [];
      var rest := RetiredFrom(schema, known, d[1..]);
      forall s, k
        ensures Listed(here + rest, s, k) <==> IsKnown(known, s) && HasItem(d, s, k) && (s, k) in schema.deprecated
      {
        RetiredInMeaning(schema, t.name, t.items, k);
        HasItemStep(d, s, k);
        ListedConcat(here, rest, s, k);
      }
      RetiredInMeaning(schema, t.name, t.items, "");
    }
  }

  lemma {:induction false} SoundRest(d: Doc)
    requires Sound(d) && d != []
    ensures Sound(d[1..]) && SoundTable(d[0]) && !HasTable(d[1..], d[0].name)
  {
    assert forall i | 0 <= i < |d[1..]| :: d[1..][i] == d[i + 1];
  }

  predicate DistinctKeys(rs: seq<Retired>) {
    forall i, j | 0 <= i < j < |rs| :: (rs[i].section, rs[i].key) != (rs[j].section, rs[j].key)
  }

  lemma {:induction false} RetiredFromDistinct(schema: Schema, known: seq<Model>, d: Doc)
    requires Sound(d)
    ensures DistinctKeys(RetiredFrom(schema, known, d))
  {
    if d != [] {
      var t := d[0];
      SoundRest(d);
      RetiredFromDistinct(schema, known, d[1..]);
      RetiredInDistinct(schema, t.name, t.items);
      RetiredInMeaning(schema, t.name, t.items, "");
      RetiredFromMeaning(schema, known, d[1..]);
      var here := if IsKnown(known, t.name) then RetiredIn(schema, t.name, t.items) else [];
      var rest := RetiredFrom(schema, known, d[1..]);
      forall i, j | 0 <= i < |here| && 0 <= j < |rest|
        ensures here[i].section != rest[j].section
      {
        assert Listed(rest, rest[j].section, rest[j].key);
        assert HasTable(d[1..], rest[j].section);
      }
    }
  }

  /** The report's retired keys are fit for the first pass. */
  lemma {:induction false} ReportRetirable(schema: Schema, text: string)
    requires WellFormed(schema) && Load(text).Some?
    ensures Retirable(Load(text).value, Diff(schema, text).deprecated)
    ensures RetiredList(schema, Known(schema), Load(text).value, Diff(schema, text).deprecated)
  {
    var d := Load(text).value;
    var rs := Diff(schema, text).deprecated;
    LoadSound([], FileLines(text));
    RetiredFromMeaning(schema, Known(schema), d);
    RetiredFromDistinct(schema, Known(schema), d);
    forall i | 0 <= i < |rs|
      ensures HasItem(d, rs[i].section, rs[i].key)
    {
      assert Listed(rs, rs[i].section, rs[i].key);
    }
  }

  // -- the missing keys of the report ------------------------------------------

  lemma {:induction false} FieldGood(schema: Schema, i: nat, f: Field)
    requires WellFormed(schema) && i < |schema.models| && f in schema.models[i].fields
    ensures BareKey(schema.models[i].section) && Identifier(f.name) && PlainValue(f.default)
    ensures IsField(schema, schema.models[i].section, f.name)
  {
    var m := schema.models[i];
    assert WellFormedModel(m);
    var j :| 0 <= j < |m.fields| && m.fields[j] == f;
    assert schema.models[i].fields[j].name == f.name;
  }

  lemma {:induction false} MissingGood(schema: Schema, text: string, m: Missing)
    requires WellFormed(schema) && Load(text).Some? && m in Diff(schema, text).missing
    ensures GoodMissing(m) && IsField(schema, m.section, m.key)
  {
    MissingReported(schema, text, m);
    var i :| 0 <= i < |schema.models| && schema.models[i].section == m.section
             && Field(m.key, m.default) in schema.models[i].fields;
    FieldGood(schema, i, Field(m.key, m.default));
    IdentifierPlain(m.key);
  }

  function Groups(schema: Schema, text: string): seq<Group> {
    GroupBySection([], Diff(schema, text).missing)
  }

  lemma {:induction false} ReportGroups(schema: Schema, text: string)
    requires WellFormed(schema) && Load(text).Some?
    ensures GoodGroups(Groups(schema, text))
    ensures forall m :: InGroups(Groups(schema, text), m) <==> m in Diff(schema, text).missing
    ensures Groups(schema, text) == [] <==> Diff(schema, text).missing == []
  {
    var ms := Diff(schema, text).missing;
    forall i | 0 <= i < |ms|
      ensures GoodMissing(ms[i])
    {
      MissingGood(schema, text, ms[i]);
    }
    GroupLaw([], ms);
    var groups := Groups(schema, text);
    if groups != [] {
      assert GoodGroup(groups[0]);
      assert InGroups(groups, groups[0].items[0]);
    }
    if ms != [] {
      assert ms[0] in ms;
      assert InGroups(groups, ms[0]);
    }
  }

  // -- the first pass, and what it leaves to read --------------------------------

  /** The lines after the retired keys were commented out. They are cut where
      `splitlines` cuts, and TOML ends a line at a line feed only. */
  function FirstPass(schema: Schema, text: string, version: Option<string>): seq<string> {
    RetireAll(Edit(SplitLines(text), []), Diff(schema, text).deprecated, version).lines
  }

  /** What TOML reads once the file has been cut so. */
  function Reread(schema: Schema, text: string, version: Option<string>): Option<Doc> {
    LoadLines(FirstPass(schema, text, version))
  }

  /** Some missing key belongs to a section whose header carries a comment. */
  predicate MissingHidden(schema: Schema, text: string, d: Doc) {
    exists i :: 0 <= i < |Diff(schema, text).missing| && Hidden(d, Diff(schema, text).missing[i].section)
  }

  /** The rewritten file will not parse: it does not once it is cut into lines, or a
      second header is due for a section. */
  predicate Blocked(schema: Schema, text: string, version: Option<string>) {
    || Reread(schema, text, version).None?
    || MissingHidden(schema, text, Reread(schema, text, version).value)
  }

  lemma {:induction false} MissingHiddenGroups(schema: Schema, text: string, d: Doc)
    requires WellFormed(schema) && Load(text).Some?
    ensures MissingHidden(schema, text, d) <==> AnyHidden(d, Groups(schema, text))
  {
    var ms, groups := Diff(schema, text).missing, Groups(schema, text);
    ReportGroups(schema, text);
    if MissingHidden(schema, text, d) {
      var i :| 0 <= i < |ms| && Hidden(d, ms[i].section);
      assert InGroups(groups, ms[i]);
      var j :| 0 <= j < |groups| && ms[i] in groups[j].items;
      assert GoodGroup(groups[j]);
    }
    if AnyHidden(d, groups) {
      var j :| 0 <= j < |groups| && Hidden(d, groups[j].section);
      assert GoodGroup(groups[j]);
      var m := groups[j].items[0];
      assert InGroups(groups, m);
      var i :| 0 <= i < |ms| && ms[i] == m;
    }
  }

  /** What the report says of the retired keys, whatever the lines look like. */
  lemma {:induction false} ReportKeys(schema: Schema, text: string)
    requires WellFormed(schema) && Load(text).Some?
    ensures BareKeys(Diff(schema, text).deprecated) && PlainReasons(Diff(schema, text).deprecated)
    ensures forall x | x in Pairs(Diff(schema, text).deprecated) :: x in schema.deprecated && !IsField(schema, x.0, x.1)
  {
    var d, rs := Load(text).value, Diff(schema, text).deprecated;
    ReportRetirable(schema, text);
    forall i | 0 <= i < |rs|
      ensures BareKey(rs[i].key)
    {
      ItemKeyBare(d, rs[i].section, rs[i].key);
    }
  }

  lemma {:induction false} FirstPassOneLine(schema: Schema, text: string, version: Option<string>)
    requires WellFormed(schema) && PlainVersion(version) && Load(text).Some?
    ensures AllOneLine(FirstPass(schema, text, version))
  {
    ReportKeys(schema, text);
    SplitLinesOneLine(text);
    RetireAllOneLine(Edit(SplitLines(text), []), Diff(schema, text).deprecated, version);
  }

  /** The comments the first pass leaves: those of the file, and retired keys. */
  lemma {:induction false} FirstPassScan(schema: Schema, text: string, version: Option<string>, s: string, k: string)
    requires WellFormed(schema) && Load(text).Some? && IsField(schema, s, k)
    ensures (s, k) in Commented(None, FirstPass(schema, text, version)) <==> (s, k) in Commented(None, SplitLines(text))
  {
    hide IsField, WellFormed, Commented;
    ReportKeys(schema, text);
    RetireAllScan(Edit(SplitLines(text), []), Diff(schema, text).deprecated, version);
  }

  // -- the rewrite as a whole --------------------------------------------------

  /** The rewritten lines read as the re-read ones, or not at all. */
  lemma {:induction false} RewriteLaw(schema: Schema, text: string, version: Option<string>)
    requires WellFormed(schema) && PlainVersion(version) && Load(text).Some?
    ensures var lines := Rewrite(schema, text, version).lines;
            && AllOneLine(lines)
            && (LoadLines(lines).None? <==> Blocked(schema, text, version))
            && (LoadLines(lines).Some? ==>
                  var d, e := Reread(schema, text, version).value, LoadLines(lines).value;
                  && Sound(d) && Sound(e)
                  && (forall s :: Hidden(e, s) <==> Hidden(d, s))
                  && (forall s, k :: Lookup(e, s, k) == Lookup(d, s, k)))
  {
    hide ReadLine, SectionName, CommentedKey, ActiveKey;
    var mid := RetireAll(Edit(SplitLines(text), []), Diff(schema, text).deprecated, version);
    var groups := Groups(schema, text);
    ReportGroups(schema, text);
    FirstPassOneLine(schema, text, version);
    AddAllLoads(mid, groups, version);
    AddAllOneLine(mid, groups, version);
    if Reread(schema, text, version).Some? {
      var d := Reread(schema, text, version).value;
      LoadSound([], mid.lines);
      AddedDocLaw(d, groups);
      MissingHiddenGroups(schema, text, d);
    } else {
      AddedDocNone(groups);
    }
  }

  /** Of the schema's fields, the rewritten lines mention in comments just those the
      file did and the missing ones. */
  lemma {:induction false} RewriteScan(schema: Schema, text: string, version: Option<string>, s: string, k: string)
    requires WellFormed(schema) && PlainVersion(version) && Load(text).Some? && IsField(schema, s, k)
    ensures (s, k) in Commented(None, Rewrite(schema, text, version).lines)
            <==> (s, k) in Commented(None, SplitLines(text))
                 || exists m :: m in Diff(schema, text).missing && m.section == s && m.key == k
  {
    hide ReadLine, SectionName, CommentedKey, ActiveKey, Commented, IsField, WellFormed;
    var mid := RetireAll(Edit(SplitLines(text), []), Diff(schema, text).deprecated, version);
    var groups := Groups(schema, text);
    FirstPassScan(schema, text, version, s, k);
    ReportGroups(schema, text);
    AddAllScan(mid, groups, version);
    if (s, k) in Commented(None, AddAll(mid, groups, version).lines) && (s, k) !in Commented(None, mid.lines) {
      AddAllScanOnly(mid, groups, version, (s, k));
      var m :| InGroups(groups, m) && (s, k) == (m.section, m.key);
      assert m in Diff(schema, text).missing;
    }
  }

  /** Nothing to do: no key is missing, and no retired key has a line to comment out. */
  predicate Settled(schema: Schema, text: string) {
    Load(text).Some? ==>
      && Diff(schema, text).missing == []
      && NoneFound(SplitLines(text), Diff(schema, text).deprecated)
  }

  lemma {:induction false} RewriteChanges(schema: Schema, text: string, version: Option<string>)
    requires WellFormed(schema) && PlainVersion(version)
    ensures Rewrite(schema, text, version).changes == [] <==> Settled(schema, text)
    ensures Settled(schema, text) ==> Rewrite(schema, text, version).lines == SplitLines(text)
  {
    hide ReadLine, SectionName, CommentedKey, ActiveKey, NoneFound;
    if Load(text).Some? {
      var start := Edit(SplitLines(text), []);
      var rs := Diff(schema, text).deprecated;
      RetireAllChanges(start, rs, version);
      ReportGroups(schema, text);
      AddAllChanges(RetireAll(start, rs, version), Groups(schema, text), version);
    } else {
      NothingFound(SplitLines(text));
    }
  }

  lemma {:induction false} NothingFound(lines: seq<string>)
    ensures NoneFound(lines, [])
  {
  }

  // -- the new text ------------------------------------------------------------

  /** Characters of a file with these lines, line ends included. */
  function Size(lines: seq<string>): nat {
    if lines == [] then 0 else |lines[0]| + 1 + Size(lines[1..])
  }

  lemma {:induction false} SizeConcat(a: seq<string>, b: seq<string>)
    ensures Size(a + b) == Size(a) + Size(b)
  {
    if a == [] {
      assert a + b == b;
    } else {
      assert (a + b)[1..] == a[1..] + b;
      SizeConcat(a[1..], b);
    }
  }

  lemma {:induction false} SizeInserted(a: seq<string>, added: seq<string>, z: seq<string>)
    ensures Size(a + added + z) == Size(a + z) + Size(added)
  {
    SizeConcat(a + added, z);
    SizeConcat(a, added);
    SizeConcat(a, z);
  }

  lemma {:induction false} InsertSize(lines: seq<string>, s: string, added: seq<string>)
    ensures Size(Insert(lines, s, added)) >= Size(lines) + Size(added)
  {
    hide ReadLine, SectionName, CommentedKey, ActiveKey, NewSection;
    match HeaderIndex(lines, s)
    case None =>
      SizeConcat(lines + NewSection(lines, s), added);
      SizeConcat(lines, NewSection(lines, s));
    case Some(h) =>
      var i := InsertionPoint(lines, h);
      SizeInserted(lines[..i], added, lines[i..]);
      assert lines == lines[..i] + lines[i..];
  }

  lemma {:induction false} RetireOneSize(e: Edit, r: Retired, version: Option<string>)
    ensures var f := RetireOne(e, r, version);
            f == e || (Size(f.lines) > Size(e.lines) && |f.changes| > |e.changes|)
  {
    hide ReadLine, SectionName, CommentedKey, ActiveKey, RetireChange;
    var i := FindActive(None, e.lines, r.section, r.key);
    if i.Some? {
      var c := RetiredLine(e.lines[i.value], r, version);
      SplitThree(e.lines, i.value);
      var a, z := e.lines[..i.value], e.lines[i.value + 1..];
      SizeConcat(a, [e.lines[i.value]] + z);
      SizeConcat(a, [c] + z);
    }
  }

  lemma {:induction false} RetireAllSize(e: Edit, rs: seq<Retired>, version: Option<string>)
    ensures var f := RetireAll(e, rs, version);
            f == e || (Size(f.lines) > Size(e.lines) && |f.changes| > |e.changes|)
    decreases |rs|
  {
    if rs != [] {
      RetireOneSize(e, rs[0], version);
      RetireAllSize(RetireOne(e, rs[0], version), rs[1..], version);
    }
  }

  lemma {:induction false} AddAllSize(e: Edit, groups: seq<Group>, version: Option<string>)
    requires PlainVersion(version) && GoodGroups(groups)
    ensures var f := AddAll(e, groups, version);
            f == e || (Size(f.lines) > Size(e.lines) && |f.changes| > |e.changes|)
    decreases |groups|
  {
    if groups != [] {
      GroupRest(groups);
      AddedLinesLaw(groups[0].items, version);
      InsertSize(e.lines, groups[0].section, AddedLines(groups[0].items, version));
      AddAllSize(AddGroup(e, groups[0], version), groups[1..], version);
    }
  }

  /** Every recorded change makes the file longer. */
  lemma {:induction false} RewriteGrows(schema: Schema, text: string, version: Option<string>)
    requires WellFormed(schema) && PlainVersion(version)
    ensures Rewrite(schema, text, version).changes != [] ==>
              Size(Rewrite(schema, text, version).lines) > Size(SplitLines(text))
  {
    hide ReadLine, SectionName, CommentedKey, ActiveKey;
    if Load(text).Some? {
      var start := Edit(SplitLines(text), []);
      var mid := RetireAll(start, Diff(schema, text).deprecated, version);
      RetireAllSize(start, Diff(schema, text).deprecated, version);
      ReportGroups(schema, text);
      AddAllSize(mid, Groups(schema, text), version);
    }
  }

  /** A text handed back changed has exactly the rewritten lines, to the scanners and to
      TOML: its only line ends are line feeds. */
  lemma {:induction false} NewText(schema: Schema, text: string, version: Option<string>)
    requires WellFormed(schema) && PlainVersion(version) && !Settled(schema, text)
    ensures var after := Migrate(schema, text, version).0;
            && LfBreaks(after)
            && SplitLines(after) == Rewrite(schema, text, version).lines
            && Load(after) == LoadLines(Rewrite(schema, text, version).lines)
  {
    hide ReadLine, SectionName, CommentedKey, ActiveKey;
    var e := Rewrite(schema, text, version);
    RewriteChanges(schema, text, version);
    RewriteGrows(schema, text, version);
    RewriteLaw(schema, text, version);
    SplitUnlines(e.lines);
    UnlinesLf(e.lines);
    TidyLines(Unlines(e.lines));
  }

  // -- the promises, for every text --------------------------------------------

  /** The list of changes is empty exactly when the text is handed back unchanged,
      and exactly when the report has nothing the migration can act on. */
  lemma {:induction false} ChangesTell(schema: Schema, text: string, version: Option<string>)
    requires WellFormed(schema) && PlainVersion(version)
    ensures Migrate(schema, text, version).1 == [] <==> Migrate(schema, text, version).0 == text
    ensures Migrate(schema, text, version).1 == [] <==> Settled(schema, text)
  {
    hide ReadLine, SectionName, CommentedKey, ActiveKey;
    RewriteChanges(schema, text, version);
    RewriteGrows(schema, text, version);
    if !Settled(schema, text) {
      NewText(schema, text, version);
    }
  }

  /** A file that is changed parses afterwards exactly when it is not blocked, and then
      every lookup, of known and unknown keys alike, gives what re-reading gives. */
  lemma {:induction false} MigrationExact(schema: Schema, text: string, version: Option<string>)
    requires WellFormed(schema) && PlainVersion(version) && !Settled(schema, text)
    ensures var after := Migrate(schema, text, version).0;
            && (Load(after).Some? <==> !Blocked(schema, text, version))
            && (Load(after).Some? ==> forall s, k ::
                  Lookup(Load(after).value, s, k) == Lookup(Reread(schema, text, version).value, s, k))
  {
    hide ReadLine, SectionName, CommentedKey, ActiveKey, Blocked;
    NewText(schema, text, version);
    RewriteLaw(schema, text, version);
  }

  /** Re-reading gives every field of the schema the value it had. */
  predicate RereadsAlike(schema: Schema, text: string, version: Option<string>)
    requires Load(text).Some? && Reread(schema, text, version).Some?
  {
    EffectiveFrom(schema.models, Reread(schema, text, version).value) == EffectiveFrom(schema.models, Load(text).value)
  }

  lemma {:induction false} FieldsAlike(schema: Schema, d: Doc, e: Doc)
    requires WellFormed(schema) && forall s, k :: Lookup(d, s, k) == Lookup(e, s, k)
    ensures EffectiveFrom(schema.models, d) == EffectiveFrom(schema.models, e)
  {
    forall i, j | 0 <= i < |schema.models| && 0 <= j < |schema.models[i].fields|
      ensures SameAt(d, e, schema.models[i].section, schema.models[i].fields[j].name)
    {
      FieldGood(schema, i, schema.models[i].fields[j]);
    }
    EffectiveSame(schema.models, d, e);
  }

  /** Behaviour-neutral: the service runs with the same effective configuration, for
      every text, exactly when there is nothing to do, or the file is not blocked and
      cutting it into lines changes no field. */
  lemma {:induction false} MigrationNeutral(schema: Schema, text: string, version: Option<string>)
    requires WellFormed(schema) && PlainVersion(version)
    ensures Effective(schema, Migrate(schema, text, version).0) == Effective(schema, text)
            <==> Settled(schema, text) || (!Blocked(schema, text, version) && RereadsAlike(schema, text, version))
  {
    hide ReadLine, SectionName, CommentedKey, ActiveKey, Blocked, EffectiveFrom, FirstPass;
    ChangesTell(schema, text, version);
    if !Settled(schema, text) {
      var after := Migrate(schema, text, version).0;
      MigrationExact(schema, text, version);
      RewriteLaw(schema, text, version);
      if Load(after).Some? {
        BlockedReads(schema, text, version);
        FieldsAlike(schema, Load(after).value, Reread(schema, text, version).value);
      }
    }
  }

  lemma {:induction false} BlockedReads(schema: Schema, text: string, version: Option<string>)
    requires !Blocked(schema, text, version)
    ensures Reread(schema, text, version).Some?
  {
  }

  /** Re-reading loses no field that was set, but for fields mentioned in a comment. */
  predicate KeepsFields(schema: Schema, text: string, version: Option<string>)
    requires Load(text).Some? && Reread(schema, text, version).Some?
  {
    forall i, f | 0 <= i < |schema.models| && f in schema.models[i].fields ::
      KeepsField(schema, text, version, schema.models[i].section, f)
  }

  predicate KeepsField(schema: Schema, text: string, version: Option<string>, s: string, f: Field)
    requires Load(text).Some? && Reread(schema, text, version).Some?
  {
    (s, f.name) !in schema.secrets && Lookup(Load(text).value, s, f.name).Some? ==>
      Lookup(Reread(schema, text, version).value, s, f.name).Some? || (s, f.name) in Commented(None, SplitLines(text))
  }

  /** Re-reading shows no retired key the migration would act on. */
  ghost predicate UncoversNone(schema: Schema, text: string, version: Option<string>)
    requires Reread(schema, text, version).Some?
  {
    forall s, k :: Retires(schema, Reread(schema, text, version).value, s, k) ==>
                   Lookup(Reread(schema, text, version).value, s, k).None?
  }

  /** A retired key the migration acts on: active, under a plain header of a section
      the schema still has. */
  predicate Retires(schema: Schema, d: Doc, s: string, k: string) {
    IsKnown(Known(schema), s) && (s, k) in schema.deprecated && HasPlain(d, s)
  }

  /** After one pass nothing is left to do, for every text, exactly when there was
      nothing to do, or the result does not parse, or cutting the file into lines lost
      no field and uncovered no retired key. */
  lemma {:induction false} MigrationSettles(schema: Schema, text: string, version: Option<string>)
    requires WellFormed(schema) && PlainVersion(version)
    ensures Settled(schema, Migrate(schema, text, version).0)
            <==> Settled(schema, text) || Blocked(schema, text, version)
                 || (KeepsFields(schema, text, version) && UncoversNone(schema, text, version))
  {
    hide ReadLine, SectionName, CommentedKey, ActiveKey, Blocked, KeepsFields, UncoversNone, FirstPass, Diff;
    ChangesTell(schema, text, version);
    if !Settled(schema, text) {
      MigrationExact(schema, text, version);
      if !Blocked(schema, text, version) {
        BlockedReads(schema, text, version);
        NothingMissing(schema, text, version);
        NothingUncovered(schema, text, version);
      }
    }
  }

  /** No key is missing from the result exactly when no field was lost. */
  lemma {:induction false} NothingMissing(schema: Schema, text: string, version: Option<string>)
    requires WellFormed(schema) && PlainVersion(version) && !Settled(schema, text)
    requires !Blocked(schema, text, version) && Reread(schema, text, version).Some?
    ensures Diff(schema, Migrate(schema, text, version).0).missing == [] <==> KeepsFields(schema, text, version)
  {
    hide ReadLine, SectionName, CommentedKey, ActiveKey, Commented, FirstPass, Diff, IsField, WellFormed, Blocked;
    var after := Migrate(schema, text, version).0;
    MigrationExact(schema, text, version);
    var ms := Diff(schema, after).missing;
    if ms != [] {
      var m := ms[0];
      LostField(schema, text, version, m);
    }
    if !KeepsFields(schema, text, version) {
      var i, f :| 0 <= i < |schema.models| && f in schema.models[i].fields
                  && !KeepsField(schema, text, version, schema.models[i].section, f);
      var m := Missing(schema.models[i].section, f.name, f.default);
      assert f == Field(m.key, m.default);
      FieldGood(schema, i, f);
      LostField(schema, text, version, m);
      assert m in ms;
    }
  }

  /** A field is missing from the result exactly when it was set and re-reading lost it. */
  lemma {:induction false} LostField(schema: Schema, text: string, version: Option<string>, m: Missing)
    requires WellFormed(schema) && PlainVersion(version) && !Settled(schema, text)
    requires !Blocked(schema, text, version) && Reread(schema, text, version).Some?
    ensures m in Diff(schema, Migrate(schema, text, version).0).missing <==>
            exists i :: 0 <= i < |schema.models| && schema.models[i].section == m.section
                        && Field(m.key, m.default) in schema.models[i].fields
                        && !KeepsField(schema, text, version, m.section, Field(m.key, m.default))
  {
    hide ReadLine, SectionName, CommentedKey, ActiveKey, Commented, FirstPass, Diff, WellFormed, Blocked;
    var after := Migrate(schema, text, version).0;
    NewText(schema, text, version);
    MigrationExact(schema, text, version);
    MissingReported(schema, after, m);
    MissingReported(schema, text, m);
    if i :| 0 <= i < |schema.models| && schema.models[i].section == m.section
            && Field(m.key, m.default) in schema.models[i].fields {
      FieldGood(schema, i, Field(m.key, m.default));
      RewriteScan(schema, text, version, m.section, m.key);
      SameDefault(schema, text, m);
    }
  }

  /** A key is reported missing with the default of its field, if at all. */
  lemma {:induction false} SameDefault(schema: Schema, text: string, m: Missing)
    requires WellFormed(schema) && Load(text).Some?
    requires exists i :: 0 <= i < |schema.models| && schema.models[i].section == m.section
                         && Field(m.key, m.default) in schema.models[i].fields
    ensures (exists x :: x in Diff(schema, text).missing && x.section == m.section && x.key == m.key)
            <==> m in Diff(schema, text).missing
  {
    hide Diff, Commented;
    MissingReported(schema, text, m);
    if x :| x in Diff(schema, text).missing && x.section == m.section && x.key == m.key {
      MissingReported(schema, text, x);
    }
  }

  /** The scan finds no retired key in the result exactly when re-reading showed none. */
  lemma {:induction false} NothingUncovered(schema: Schema, text: string, version: Option<string>)
    requires WellFormed(schema) && PlainVersion(version) && !Settled(schema, text)
    requires !Blocked(schema, text, version) && Reread(schema, text, version).Some?
    ensures var after := Migrate(schema, text, version).0;
            NoneFound(SplitLines(after), Diff(schema, after).deprecated) <==> UncoversNone(schema, text, version)
  {
    hide ReadLine, SectionName, CommentedKey, ActiveKey, FirstPass, Diff, NoneFound, WellFormed, Blocked;
    var after := Migrate(schema, text, version).0;
    MigrationExact(schema, text, version);
    var d, e, rs := Reread(schema, text, version).value, Load(after).value, Diff(schema, after).deprecated;
    NewText(schema, text, version);
    RewriteLaw(schema, text, version);
    ReportRetirable(schema, after);
    NoneFoundHidden(SplitLines(after), rs, e);
    forall s, k
      ensures Listed(rs, s, k) && HasPlain(e, s) <==> Retires(schema, d, s, k) && Lookup(d, s, k).Some?
    {
      LookupMeaning(d, s, k);
      LookupMeaning(e, s, k);
      assert Hidden(e, s) <==> Hidden(d, s);
    }
    if !AllHidden(e, rs) {
      var i :| 0 <= i < |rs| && HasPlain(e, rs[i].section);
      assert Listed(rs, rs[i].section, rs[i].key);
    }
  }

  /** Migrating the result again, under whatever version, gives it back unchanged with no
      changes to report, for every text, exactly when one pass was enough. */
  lemma {:induction false} MigrationIdempotent(schema: Schema, text: string, version: Option<string>, later: Option<string>)
    requires WellFormed(schema) && PlainVersion(version) && PlainVersion(later)
    ensures Migrate(schema, Migrate(schema, text, version).0, later) == (Migrate(schema, text, version).0, [])
            <==> Settled(schema, text) || Blocked(schema, text, version)
                 || (KeepsFields(schema, text, version) && UncoversNone(schema, text, version))
  {
    hide ReadLine, SectionName, CommentedKey, ActiveKey, Blocked, KeepsFields, UncoversNone, Settled, Migrate;
    MigrationSettles(schema, text, version);
    ChangesTell(schema, Migrate(schema, text, version).0, later);
  }
}
