/** The config schema, the effective configuration a file yields, and the drift
    report that compares a file with the schema. */
module ConfigSchema {
  import opened Text
  import opened Toml
  import opened ConfigLines

  datatype Field = Field(name: string, default: Value)

  /** One `[section]` and the fields of its dataclass. */
  datatype Model = Model(section: string, fields: seq<Field>)

  datatype Schema = Schema(
    models: seq<Model>,
    secrets: set<(string, string)>,
    deprecated: map<(string, string), string>)

  /** Text that stays on its line and may stand in a TOML comment or string. */
  predicate PlainText(s: string) { All(s, Uncontrol) && OneLine(s) }

  predicate PlainValue(v: Value) { v.VStr? ==> PlainText(v.text) }

  predicate IsField(schema: Schema, section: string, key: string) {
    exists i, j :: 0 <= i < |schema.models| && 0 <= j < |schema.models[i].fields|
                   && schema.models[i].section == section && schema.models[i].fields[j].name == key
  }

  predicate WellFormedModel(m: Model) {
    && BareKey(m.section)
    && (forall j | 0 <= j < |m.fields| :: Identifier(m.fields[j].name) && PlainValue(m.fields[j].default))
    && (forall i, j | 0 <= i < j < |m.fields| :: m.fields[i].name != m.fields[j].name)
  }

  /** What the schema's authors promise: Python identifiers for keys, one model a
      section, and a key enters the registry only when its field has left. */
  ghost predicate WellFormed(schema: Schema) {
    && (forall i | 0 <= i < |schema.models| :: WellFormedModel(schema.models[i]))
    && (forall i, j | 0 <= i < j < |schema.models| :: schema.models[i].section != schema.models[j].section)
    && (forall sk | sk in schema.deprecated :: PlainText(schema.deprecated[sk]) && !IsField(schema, sk.0, sk.1))
  }

  // -- the keys a file may hold ------------------------------------------------

  function FileFields(schema: Schema, section: string, fields: seq<Field>): seq<Field> {
    if fields == [] then []
    else
      (if (section, fields[0].name) in schema.secrets then [] else [fields[0]])
      + FileFields(schema, section, fields[1..])
  }

  function FileModels(schema: Schema, models: seq<Model>): seq<Model> {
    if models == [] then []
    else
      [Model(models[0].section, FileFields(schema, models[0].section, models[0].fields))]
      + FileModels(schema, models[1..])
  }

  method KeepFileFields(schema: Schema, section: string, fields: seq<Field>) returns (kept: seq<Field>)
    ensures kept == FileFields(schema, section, fields)
  {
    kept := [];
    for j := 0 to |fields|
      invariant kept + FileFields(schema, section, fields[j..]) == FileFields(schema, section, fields)
    {
      assert fields[j..][1..] == fields[j + 1..];
      if (section, fields[j].name) !in schema.secrets {
        kept := kept + [fields[j]];
      }
    }
  }

  method FileKnownKeys(schema: Schema) returns (known: seq<Model>)
    ensures known == FileModels(schema, schema.models)
  {
    known := [];
    for i := 0 to |schema.models|
      invariant known + FileModels(schema, schema.models[i..]) == FileModels(schema, schema.models)
    {
      var m := schema.models[i];
      var kept := KeepFileFields(schema, m.section, m.fields);
      assert schema.models[i..][1..] == schema.models[i + 1..];
      known := known + [Model(m.section, kept)];
    }
  }

  predicate IsKnown(known: seq<Model>, section: string) {
    exists i :: 0 <= i < |known| && known[i].section == section
  }

  predicate HasField(fields: seq<Field>, key: string) {
    exists j :: 0 <= j < |fields| && fields[j].name == key
  }

  predicate IsKnownKey(known: seq<Model>, section: string, key: string) {
    exists i :: 0 <= i < |known| && known[i].section == section && HasField(known[i].fields, key)
  }

  lemma {:induction false} FileFieldsMeaning(schema: Schema, section: string, fields: seq<Field>, f: Field)
    ensures f in FileFields(schema, section, fields) <==>
            f in fields && (section, f.name) !in schema.secrets
  {
    if fields != [] {
      FileFieldsMeaning(schema, section, fields[1..], f);
      assert fields == [fields[0]] + fields[1..];
    }
  }

  lemma {:induction false} FileModelsAt(schema: Schema, models: seq<Model>)
    ensures |FileModels(schema, models)| == |models|
    ensures forall i | 0 <= i < |models| ::
              && FileModels(schema, models)[i].section == models[i].section
              && FileModels(schema, models)[i].fields == FileFields(schema, models[i].section, models[i].fields)
  {
    if models != [] {
      FileModelsAt(schema, models[1..]);
      assert forall i | 0 < i < |models| :: models[i] == models[1..][i - 1];
    }
  }

  // -- commented keys ----------------------------------------------------------

  /** The section the scan is in after `lines`, having been in `cur`. */
  function SectionAfter(cur: Option<string>, lines: seq<string>): Option<string>
    decreases |lines|
  {
    if lines == [] then cur
    else SectionAfter(if SectionName(lines[0]).Some? then SectionName(lines[0]) else cur, lines[1..])
  }

  function CommentedAt(cur: Option<string>, line: string): set<(string, string)> {
    if SectionName(line).None? && cur.Some? && CommentedKey(line).Some?
    then {(cur.value, CommentedKey(line).value)} else {}
  }

  /** The `(section, key)` pairs mentioned in a comment of `lines`. */
  function Commented(cur: Option<string>, lines: seq<string>): set<(string, string)>
    decreases |lines|
  {
    if lines == [] then {}
    else
      var next := if SectionName(lines[0]).Some? then SectionName(lines[0]) else cur;
      CommentedAt(cur, lines[0]) + Commented(next, lines[1..])
  }

  /** Line `i` names the key in a comment, and line `h` is the last header above it;
      line -1 stands for the section the scan starts in. */
  predicate ScannedAt(cur: Option<string>, lines: seq<string>, s: string, k: string, h: int, i: int) {
    && -1 <= h < i < |lines|
    && (if h == -1 then cur else SectionName(lines[h])) == Some(s)
    && CommentedKey(lines[i]) == Some(k)
    && forall j | h < j <= i :: SectionName(lines[j]).None?
  }

  lemma {:induction false} CommentedFound(cur: Option<string>, lines: seq<string>, s: string, k: string)
    returns (h: int, i: int)
    requires (s, k) in Commented(cur, lines)
    ensures ScannedAt(cur, lines, s, k, h, i)
    decreases |lines|
  {
    hide SectionName, CommentedKey;
    var rest := lines[1..];
    var next := if SectionName(lines[0]).Some? then SectionName(lines[0]) else cur;
    if (s, k) in CommentedAt(cur, lines[0]) {
      h, i := -1, 0;
    } else {
      var g, j := CommentedFound(next, rest, s, k);
      h, i := if g == -1 && SectionName(lines[0]).None? then -1 else g + 1, j + 1;
      assert forall x | 0 < x < |lines| :: lines[x] == rest[x - 1];
    }
  }

  lemma {:induction false} CommentedHolds(cur: Option<string>, lines: seq<string>, s: string, k: string, h: int, i: int)
    requires ScannedAt(cur, lines, s, k, h, i)
    ensures (s, k) in Commented(cur, lines)
    decreases |lines|
  {
    hide SectionName, CommentedKey;
    if i > 0 {
      var rest := lines[1..];
      var next := if SectionName(lines[0]).Some? then SectionName(lines[0]) else cur;
      assert forall x | 0 < x < |lines| :: lines[x] == rest[x - 1];
      CommentedHolds(next, rest, s, k, if h < 1 then -1 else h - 1, i - 1);
    }
  }

  ghost predicate Header(line: string, s: string) {
    exists v, g, w :: SectionPattern(line, v, g, w) && s == Strip(g)
  }

  ghost predicate Mentions(line: string, k: string) {
    exists v, w, x, rest :: CommentPattern(line, v, w, k, x, rest)
  }

  /** A comment `# key =` with the section's header above it and no header between. */
  ghost predicate Mentioned(lines: seq<string>, s: string, k: string) {
    exists h, i :: MentionedAt(lines, s, k, h, i)
  }

  ghost predicate MentionedAt(lines: seq<string>, s: string, k: string, h: int, i: int) {
    && 0 <= h < i < |lines|
    && Header(lines[h], s) && Mentions(lines[i], k)
    && forall j, t | h < j <= i :: !Header(lines[j], t)
  }

  lemma {:induction false} HeaderIs(line: string)
    ensures forall t :: Header(line, t) <==> SectionName(line) == Some(t)
  {
    forall t
      ensures Header(line, t) <==> SectionName(line) == Some(t)
    {
      SectionNameIsPattern(line, t);
    }
  }

  lemma {:induction false} ScannedIsMentioned(lines: seq<string>, s: string, k: string, h: int, i: int)
    ensures ScannedAt(None, lines, s, k, h, i) <==> MentionedAt(lines, s, k, h, i)
  {
    hide SectionName, CommentedKey, Header;
    if 0 <= h < i < |lines| {
      HeaderIs(lines[h]);
      CommentedKeyIsPattern(lines[i], k);
      forall j | h < j <= i
        ensures SectionName(lines[j]).None? <==> forall t :: !Header(lines[j], t)
      {
        HeaderIs(lines[j]);
        assert SectionName(lines[j]).Some? ==> Header(lines[j], SectionName(lines[j]).value);
      }
    }
  }

  /** The scan finds exactly the mentions that the two patterns describe. */
  lemma {:induction false} CommentedMeaning(lines: seq<string>, s: string, k: string)
    ensures (s, k) in Commented(None, lines) <==> Mentioned(lines, s, k)
  {
    hide ScannedAt, MentionedAt;
    if (s, k) in Commented(None, lines) {
      var h, i := CommentedFound(None, lines, s, k);
      ScannedIsMentioned(lines, s, k, h, i);
    }
    if Mentioned(lines, s, k) {
      var h, i :| MentionedAt(lines, s, k, h, i);
      ScannedIsMentioned(lines, s, k, h, i);
      CommentedHolds(None, lines, s, k, h, i);
    }
  }

  method CommentedKeys(text: string) returns (result: map<string, set<string>>)
    ensures forall s, k :: (s in result && k in result[s]) <==> (s, k) in Commented(None, SplitLines(text))
    ensures forall s, k :: (s in result && k in result[s]) <==> Mentioned(SplitLines(text), s, k)
  {
    hide SectionName, CommentedKey, Mentioned;
    result := map[];
    var section: Option<string> := None;
    var lines := SplitLines(text);
    for i := 0 to |lines|
      invariant forall s, k ::
        ((s in result && k in result[s]) || (s, k) in Commented(section, lines[i..]))
        <==> (s, k) in Commented(None, lines)
    {
      var line := lines[i];
      assert lines[i..][1..] == lines[i + 1..];
      assert lines[i..][0] == line;
      var m := SectionName(line);
      if m.Some? {
        section := m;
      } else if section.Some? {
        var cm := CommentedKey(line);
        if cm.Some? {
          var seen := if section.value in result then result[section.value] else {};
          result := result[section.value := seen + {cm.value}];
        }
      }
    }
    forall s, k
      ensures (s, k) in Commented(None, lines) <==> Mentioned(lines, s, k)
    {
      CommentedMeaning(lines, s, k);
    }
  }

  // -- drift -------------------------------------------------------------------

  datatype Missing = Missing(section: string, key: string, default: Value)

  datatype Retired = Retired(section: string, key: string, reason: string)

  datatype Report = Report(
    missing: seq<Missing>,
    deprecated: seq<Retired>,
    unknownKeys: seq<(string, string)>,
    unknownSections: seq<string>)

  const NO_DRIFT := Report([], [], [], [])

  function MissingIn(section: string, fields: seq<Field>, d: Doc, seen: set<(string, string)>): seq<Missing> {
    if fields == [] then []
    else
      (if Lookup(d, section, fields[0].name).None? && (section, fields[0].name) !in seen
       then [Missing(section, fields[0].name, fields[0].default)] else [])
      + MissingIn(section, fields[1..], d, seen)
  }

  function MissingFrom(known: seq<Model>, d: Doc, seen: set<(string, string)>): seq<Missing> {
    if known == [] then []
    else MissingIn(known[0].section, known[0].fields, d, seen) + MissingFrom(known[1..], d, seen)
  }

  function RetiredIn(schema: Schema, section: string, items: seq<Item>): seq<Retired> {
    if items == [] then []
    else
      (if (section, items[0].key) in schema.deprecated
       then [Retired(section, items[0].key, schema.deprecated[(section, items[0].key)])] else [])
      + RetiredIn(schema, section, items[1..])
  }

  function RetiredFrom(schema: Schema, known: seq<Model>, d: Doc): seq<Retired> {
    if d == [] then []
    else
      (if IsKnown(known, d[0].name) then RetiredIn(schema, d[0].name, d[0].items) else [])
      + RetiredFrom(schema, known, d[1..])
  }

  function UnknownIn(schema: Schema, known: seq<Model>, section: string, items: seq<Item>): seq<(string, string)> {
    if items == [] then []
    else
      (if (section, items[0].key) !in schema.deprecated && !IsKnownKey(known, section, items[0].key)
          && (section, items[0].key) !in schema.secrets
       then [(section, items[0].key)] else [])
      + UnknownIn(schema, known, section, items[1..])
  }

  function UnknownFrom(schema: Schema, known: seq<Model>, d: Doc): seq<(string, string)> {
    if d == [] then []
    else
      (if IsKnown(known, d[0].name) then UnknownIn(schema, known, d[0].name, d[0].items) else [])
      + UnknownFrom(schema, known, d[1..])
  }

  function UnknownSections(known: seq<Model>, d: Doc): seq<string> {
    if d == [] then []
    else (if IsKnown(known, d[0].name) then [] else [d[0].name]) + UnknownSections(known, d[1..])
  }

  function Diff(schema: Schema, text: string): Report {
    match Load(text)
    case None => NO_DRIFT
    case Some(d) =>
      var known := FileModels(schema, schema.models);
      var seen := Commented(None, SplitLines(text));
      Report(MissingFrom(known, d, seen), RetiredFrom(schema, known, d),
             UnknownFrom(schema, known, d), UnknownSections(known, d))
  }

  /** The inner loop over one section's known keys. */
  method MissingKeys(section: string, fields: seq<Field>, d: Doc, seenComment: set<string>,
                     ghost seen: set<(string, string)>)
    returns (missing: seq<Missing>)
    requires forall k :: k in seenComment <==> (section, k) in seen
    ensures missing == MissingIn(section, fields, d, seen)
  {
    missing := [];
    for j := 0 to |fields|
      invariant missing + MissingIn(section, fields[j..], d, seen) == MissingIn(section, fields, d, seen)
    {
      var f := fields[j];
      assert fields[j..][1..] == fields[j + 1..];
      if Lookup(d, section, f.name).None? && f.name !in seenComment {
        missing := missing + [Missing(section, f.name, f.default)];
      }
    }
  }

  /** The inner loop over one known section's active keys. */
  method ClassifyKeys(schema: Schema, known: seq<Model>, section: string, items: seq<Item>)
    returns (deprecated: seq<Retired>, unknown: seq<(string, string)>)
    ensures deprecated == RetiredIn(schema, section, items)
    ensures unknown == UnknownIn(schema, known, section, items)
  {
    deprecated, unknown := [], [];
    for j := 0 to |items|
      invariant deprecated + RetiredIn(schema, section, items[j..]) == RetiredIn(schema, section, items)
      invariant unknown + UnknownIn(schema, known, section, items[j..]) == UnknownIn(schema, known, section, items)
    {
      var key := items[j].key;
      assert items[j..][1..] == items[j + 1..];
      if (section, key) in schema.deprecated {
        deprecated := deprecated + [Retired(section, key, schema.deprecated[(section, key)])];
      } else if !IsKnownKey(known, section, key) && (section, key) !in schema.secrets {
        unknown := unknown + [(section, key)];
      }
    }
  }

  /** The loop over the known sections. */
  method FindMissing(known: seq<Model>, d: Doc, commented: map<string, set<string>>, ghost seen: set<(string, string)>)
    returns (missing: seq<Missing>)
    requires forall s, k :: (s in commented && k in commented[s]) <==> (s, k) in seen
    ensures missing == MissingFrom(known, d, seen)
  {
    hide MissingIn;
    missing := [];
    for i := 0 to |known|
      invariant missing + MissingFrom(known[i..], d, seen) == MissingFrom(known, d, seen)
    {
      var section := known[i].section;
      var seenComment := if section in commented then commented[section] else {};
      var more := MissingKeys(section, known[i].fields, d, seenComment, seen);
      assert known[i..][1..] == known[i + 1..];
      missing := missing + more;
    }
  }

  /** The loop over the file's tables. */
  method FindStale(schema: Schema, known: seq<Model>, d: Doc)
    returns (deprecated: seq<Retired>, unknownKeys: seq<(string, string)>, unknownSections: seq<string>)
    ensures deprecated == RetiredFrom(schema, known, d)
    ensures unknownKeys == UnknownFrom(schema, known, d)
    ensures unknownSections == UnknownSections(known, d)
  {
    deprecated, unknownKeys, unknownSections := [], [], [];
    for i := 0 to |d|
      invariant deprecated + RetiredFrom(schema, known, d[i..]) == RetiredFrom(schema, known, d)
      invariant unknownKeys + UnknownFrom(schema, known, d[i..]) == UnknownFrom(schema, known, d)
      invariant unknownSections + UnknownSections(known, d[i..]) == UnknownSections(known, d)
    {
      var section := d[i].name;
      assert d[i..][1..] == d[i + 1..];
      if !IsKnown(known, section) {
        unknownSections := unknownSections + [section];
      } else {
        var retired, unknown := ClassifyKeys(schema, known, section, d[i].items);
        deprecated := deprecated + retired;
        unknownKeys := unknownKeys + unknown;
      }
    }
  }

  method DiffConfig(schema: Schema, text: string) returns (report: Report)
    ensures report == Diff(schema, text)
  {
    var data := Load(text);
    if data.None? {
      return NO_DRIFT;
    }
    var known := FileKnownKeys(schema);
    var commented := CommentedKeys(text);
    var missing := FindMissing(known, data.value, commented, Commented(None, SplitLines(text)));
    var deprecated, unknownKeys, unknownSections := FindStale(schema, known, data.value);
    report := Report(missing, deprecated, unknownKeys, unknownSections);
  }

  // -- what the report says ----------------------------------------------------

  lemma {:induction false} MissingInMeaning(section: string, fields: seq<Field>, d: Doc, seen: set<(string, string)>, m: Missing)
    ensures m in MissingIn(section, fields, d, seen) <==>
            && m.section == section && Field(m.key, m.default) in fields
            && Lookup(d, section, m.key).None? && (section, m.key) !in seen
  {
    if fields != [] {
      MissingInMeaning(section, fields[1..], d, seen, m);
      assert fields == [fields[0]] + fields[1..];
    }
  }

  lemma {:induction false} MissingFromMeaning(known: seq<Model>, d: Doc, seen: set<(string, string)>, m: Missing)
    ensures m in MissingFrom(known, d, seen) <==>
            && (exists i :: 0 <= i < |known| && known[i].section == m.section && Field(m.key, m.default) in known[i].fields)
            && Lookup(d, m.section, m.key).None? && (m.section, m.key) !in seen
  {
    if known != [] {
      MissingInMeaning(known[0].section, known[0].fields, d, seen, m);
      MissingFromMeaning(known[1..], d, seen, m);
      assert forall i | 0 < i < |known| :: known[i] == known[1..][i - 1];
    }
  }

  lemma {:induction false} MissingReported(schema: Schema, text: string, m: Missing)
    requires Load(text).Some?
    ensures m in Diff(schema, text).missing <==>
            && (exists i :: 0 <= i < |schema.models| && schema.models[i].section == m.section
                            && Field(m.key, m.default) in schema.models[i].fields)
            && (m.section, m.key) !in schema.secrets
            && Lookup(Load(text).value, m.section, m.key).None?
            && (m.section, m.key) !in Commented(None, SplitLines(text))
  {
    var known := FileModels(schema, schema.models);
    MissingFromMeaning(known, Load(text).value, Commented(None, SplitLines(text)), m);
    FileModelsAt(schema, schema.models);
    forall i | 0 <= i < |schema.models|
      ensures Field(m.key, m.default) in known[i].fields <==>
              Field(m.key, m.default) in schema.models[i].fields
              && (schema.models[i].section, m.key) !in schema.secrets
    {
      FileFieldsMeaning(schema, schema.models[i].section, schema.models[i].fields, Field(m.key, m.default));
    }
  }

  /** A key is reported missing exactly when it is a non-secret field that the file
      neither sets nor mentions in a comment `# key =` under its section's header. The
      scanner reads over a header with a trailing comment, so a comment below one counts
      for the section before it. */
  lemma {:induction false} MissingMeaning(schema: Schema, text: string, m: Missing)
    requires Load(text).Some?
    ensures m in Diff(schema, text).missing <==>
            && (exists i :: 0 <= i < |schema.models| && schema.models[i].section == m.section
                            && Field(m.key, m.default) in schema.models[i].fields)
            && (m.section, m.key) !in schema.secrets
            && Lookup(Load(text).value, m.section, m.key).None?
            && !Mentioned(SplitLines(text), m.section, m.key)
  {
    hide Diff, Mentioned;
    MissingReported(schema, text, m);
    CommentedMeaning(SplitLines(text), m.section, m.key);
  }

  predicate IsSection(schema: Schema, section: string) {
    exists i :: 0 <= i < |schema.models| && schema.models[i].section == section
  }

  /** Neither a field, a secret, nor a registered key. */
  predicate Foreign(schema: Schema, s: string, k: string) {
    !IsField(schema, s, k) && (s, k) !in schema.secrets && (s, k) !in schema.deprecated
  }

  predicate Sets(t: Table, k: string) { exists j :: 0 <= j < |t.items| && t.items[j].key == k }

  lemma {:induction false} KnownMeaning(schema: Schema, s: string, k: string)
    ensures var known := FileModels(schema, schema.models);
            && (IsKnown(known, s) <==> IsSection(schema, s))
            && (IsKnownKey(known, s, k) <==> IsField(schema, s, k) && (s, k) !in schema.secrets)
  {
    var known := FileModels(schema, schema.models);
    FileModelsAt(schema, schema.models);
    assert forall i | 0 <= i < |known| :: known[i].section == s <==> schema.models[i].section == s;
    forall i | 0 <= i < |known| && known[i].section == s
      ensures HasField(known[i].fields, k) <==>
              (exists j :: 0 <= j < |schema.models[i].fields| && schema.models[i].fields[j].name == k) && (s, k) !in schema.secrets
    {
      var fields := schema.models[i].fields;
      forall f
        ensures f in known[i].fields <==> f in fields && (s, f.name) !in schema.secrets
      {
        FileFieldsMeaning(schema, s, fields, f);
      }
      if j :| 0 <= j < |fields| && fields[j].name == k && (s, k) !in schema.secrets {
        assert fields[j] in known[i].fields;
      }
    }
  }

  lemma {:induction false} UnknownInMeaning(schema: Schema, known: seq<Model>, t: Table, s: string, k: string)
    ensures (s, k) in UnknownIn(schema, known, t.name, t.items) <==>
            t.name == s && Sets(t, k)
            && (s, k) !in schema.deprecated && !IsKnownKey(known, s, k) && (s, k) !in schema.secrets
    decreases |t.items|
  {
    hide IsKnownKey;
    if t.items != [] {
      var rest := t.(items := t.items[1..]);
      UnknownInMeaning(schema, known, rest, s, k);
      assert forall j | 0 < j < |t.items| :: t.items[j] == rest.items[j - 1];
      assert Sets(t, k) <==> t.items[0].key == k || Sets(rest, k) by {
        if j :| 0 <= j < |rest.items| && rest.items[j].key == k {
          assert t.items[j + 1].key == k;
        }
      }
    }
  }

  lemma {:induction false} UnknownFromMeaning(schema: Schema, known: seq<Model>, d: Doc, s: string, k: string)
    ensures (s, k) in UnknownFrom(schema, known, d) <==>
            IsKnown(known, s) && (exists t :: t in d && t.name == s && Sets(t, k))
            && (s, k) !in schema.deprecated && !IsKnownKey(known, s, k) && (s, k) !in schema.secrets
    ensures s in UnknownSections(known, d) <==> !IsKnown(known, s) && exists t :: t in d && t.name == s
    decreases |d|
  {
    hide IsKnownKey, IsKnown, Sets, UnknownIn;
    if d != [] {
      UnknownInMeaning(schema, known, d[0], s, k);
      UnknownFromMeaning(schema, known, d[1..], s, k);
      assert d == [d[0]] + d[1..];
    }
  }

  /** The two lists of what the schema does not know: a section without a model, and a key
      that a known section sets though it is no field, no secret and not registered. An
      unreadable file has nothing to report. */
  lemma {:induction false} UnknownMeaning(schema: Schema, text: string, s: string, k: string)
    ensures Load(text).None? ==> Diff(schema, text) == Report([], [], [], [])
    ensures Load(text).Some? ==>
              && ((s, k) in Diff(schema, text).unknownKeys <==>
                    IsSection(schema, s) && Foreign(schema, s, k) && exists t :: t in Load(text).value && t.name == s && Sets(t, k))
              && (s in Diff(schema, text).unknownSections <==>
                    !IsSection(schema, s) && exists t :: t in Load(text).value && t.name == s)
  {
    hide IsField, IsSection, IsKnown, IsKnownKey, Sets, FileModels, Load;
    KnownMeaning(schema, s, k);
    if Load(text).Some? {
      UnknownFromMeaning(schema, FileModels(schema, schema.models), Load(text).value, s, k);
    }
  }

  // -- the effective configuration ---------------------------------------------

  /** The value the loader ends up with for one field: the file's, or the default. */
  function ValueOr(v: Option<Value>, default: Value): Value {
    if v.Some? then v.value else default
  }

  function EffectiveIn(section: string, fields: seq<Field>, d: Doc): map<(string, string), Value> {
    if fields == [] then map[]
    else
      EffectiveIn(section, fields[1..], d)
      [(section, fields[0].name) := ValueOr(Lookup(d, section, fields[0].name), fields[0].default)]
  }

  function EffectiveFrom(models: seq<Model>, d: Doc): map<(string, string), Value> {
    if models == [] then map[]
    else EffectiveFrom(models[1..], d) + EffectiveIn(models[0].section, models[0].fields, d)
  }

  /** What the service runs with: every field of every model, or nothing when the
      file does not parse. Keys the schema does not know are dropped. */
  function Effective(schema: Schema, text: string): Option<map<(string, string), Value>> {
    match Load(text)
    case None => None
    case Some(d) => Some(EffectiveFrom(schema.models, d))
  }

  predicate SameAt(d: Doc, e: Doc, section: string, key: string) {
    Lookup(d, section, key) == Lookup(e, section, key)
  }

  lemma {:induction false} EffectiveInSame(section: string, fields: seq<Field>, d: Doc, e: Doc)
    requires forall j | 0 <= j < |fields| :: SameAt(d, e, section, fields[j].name)
    ensures EffectiveIn(section, fields, d) == EffectiveIn(section, fields, e)
  {
    if fields != [] {
      forall j | 0 <= j < |fields[1..]|
        ensures SameAt(d, e, section, fields[1..][j].name)
      {
        assert fields[1..][j] == fields[j + 1];
      }
      EffectiveInSame(section, fields[1..], d, e);
    }
  }

  /** Files that agree on every field of the schema run the same service. */
  lemma {:induction false} EffectiveSame(models: seq<Model>, d: Doc, e: Doc)
    requires forall i, j | 0 <= i < |models| && 0 <= j < |models[i].fields| ::
               SameAt(d, e, models[i].section, models[i].fields[j].name)
    ensures EffectiveFrom(models, d) == EffectiveFrom(models, e)
  {
    if models != [] {
      EffectiveInSame(models[0].section, models[0].fields, d, e);
      forall i, j | 0 <= i < |models[1..]| && 0 <= j < |models[1..][i].fields|
        ensures SameAt(d, e, models[1..][i].section, models[1..][i].fields[j].name)
      {
        assert models[1..][i] == models[i + 1];
      }
      EffectiveSame(models[1..], d, e);
    }
  }
}
