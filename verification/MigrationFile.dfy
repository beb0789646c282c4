/** What an operator finds in the migrated file: their own lines in order, each added
    comment inside its own section, and, when one is opened, the schema default. */
module MigrationFile {
  import opened Text
  import opened Toml
  import opened ConfigLines
  import opened ConfigSchema
  import opened TomlLaws
  import opened Migration
  import opened MigrationEdits
  import opened MigrationAdding
  import opened MigrationLaws

  // -- literals ----------------------------------------------------------------

  /** The two chained replacements are one escaping pass over both characters. */
  lemma {:induction false} LiteralEscapes(s: string)
    ensures TomlLiteral(VStr(s)) == ['"'] + (Escape(s, "\\\"") + ['"'])
  {
    EscapeBackslash(s);
    EscapeMore(s, "\\", '"');
    assert "\\" + ['"'] == "\\\"";
  }

  lemma {:induction false} ReadEscapedChar(c: char, tail: string)
    ensures c in "\\\"" ==> In(c, Uncontrol) && ReadBasic(['\\', c] + tail) == Prepend(c, ReadBasic(tail))
    ensures c !in "\\\"" && In(c, Uncontrol) ==> ReadBasic([c] + tail) == Prepend(c, ReadBasic(tail))
    ensures !In(c, Uncontrol) ==> ReadBasic([c] + tail) == None
  {
    assert (['\\', c] + tail)[2..] == tail;
    assert ([c] + tail)[1..] == tail;
  }

  lemma {:induction false} ReadEscapedEnd(rest: string)
    ensures ReadBasic(['"'] + rest) == Some(("", rest))
  {
    assert (['"'] + rest)[1..] == rest;
  }

  lemma {:induction false} ReadEscaped(s: string, rest: string)
    ensures ReadBasic(Escape(s, "\\\"") + (['"'] + rest)) == if All(s, Uncontrol) then Some((s, rest)) else None
  {
    hide ReadBasic, In;
    var e := ['"'] + rest;
    if s == [] {
      assert Escape(s, "\\\"") + e == e;
      ReadEscapedEnd(rest);
    } else {
      ReadEscaped(s[1..], rest);
      var head := if s[0] in "\\\"" then ['\\', s[0]] else [s[0]];
      assert Escape(s, "\\\"") + e == head + (Escape(s[1..], "\\\"") + e);
      ReadEscapedChar(s[0], Escape(s[1..], "\\\"") + e);
      assert s == [s[0]] + s[1..];
      assert All(s, Uncontrol) <==> In(s[0], Uncontrol) && All(s[1..], Uncontrol);
    }
  }

  /** A string default reads back as itself exactly when it holds no control
      character: the literal does not escape those. */
  lemma {:induction false} StringLiteralReads(s: string, rest: string)
    ensures ReadScalar(TomlLiteral(VStr(s)) + rest) == Some((VStr(s), rest)) <==> All(s, Uncontrol)
  {
    LiteralEscapes(s);
    ReadEscaped(s, rest);
    var t := TomlLiteral(VStr(s)) + rest;
    assert t[1..] == Escape(s, "\\\"") + (['"'] + rest);
  }

  lemma {:induction false} NatTextToken(n: nat)
    ensures All(NatText(n), TokenChar)
  {
    if n >= 10 {
      NatTextToken(n / 10);
    }
  }

  lemma {:induction false} TokenReads(t: string, v: Value, rest: string)
    requires t != [] && All(t, TokenChar) && TokenValue(t) == Some(v)
    requires rest != [] && rest[0] == ' '
    ensures ReadScalar(t + rest) == Some((v, rest))
  {
    hide TokenValue;
    SplitAt(t, rest, TokenChar);
    assert (t + rest)[0] == t[0] && In(t[0], TokenChar);
  }

  lemma {:induction false} IntTextToken(n: int)
    ensures IntText(n) != [] && All(IntText(n), TokenChar)
    ensures TokenValue(IntText(n)) == Some(VInt(n))
  {
    hide ReadInt;
    var u := NatText(if n < 0 then -n else n);
    NatTextToken(if n < 0 then -n else n);
    ReadIntText(n);
    assert In(u[0], Digit);
    assert IntText(n)[0] == if n < 0 then '-' else u[0];
  }

  /** Any default reads back as itself in front of a space. */
  lemma {:induction false} LiteralReads(v: Value, rest: string)
    requires PlainValue(v) && rest != [] && rest[0] == ' '
    ensures ReadScalar(TomlLiteral(v) + rest) == Some((v, rest))
  {
    match v
    case VStr(s) =>
      StringLiteralReads(s, rest);
    case VBool(b) =>
      TokenReads(TomlLiteral(v), v, rest);
    case VInt(n) =>
      IntTextToken(n);
      TokenReads(IntText(n), v, rest);
  }

  lemma {:induction false} AfterEquals(v: Value, rest: string)
    requires PlainValue(v)
    ensures Skip(" " + (TomlLiteral(v) + rest), Blank) == TomlLiteral(v) + rest
  {
    var t := TomlLiteral(v) + rest;
    if v.VInt? {
      var u := NatText(if v.number < 0 then -v.number else v.number);
      assert In(u[0], Digit);
      assert t[0] == if v.number < 0 then '-' else u[0];
    }
    SplitAt(" ", t, Blank);
  }

  lemma {:induction false} ReadKeyOf(key: string, v: Value, rest: string)
    requires BareKey(key) && PlainValue(v) && rest != [] && rest[0] == ' ' && ReadRest(rest).Some?
    ensures ReadKey(key + (" " + (['='] + (" " + (TomlLiteral(v) + rest))))) == Some(KeyLine(key, v))
  {
    var value := TomlLiteral(v) + rest;
    var eq := ['='] + (" " + value);
    SplitAt(key, " " + eq, WordDash);
    SplitAt(" ", eq, Blank);
    assert eq[1..] == " " + value;
    AfterEquals(v, rest);
    LiteralReads(v, rest);
  }

  /** An added line, opened, sets its key to the schema default. */
  lemma {:induction false} OpenLineReads(m: Missing, version: Option<string>)
    requires PlainMissing(m) && PlainVersion(version)
    ensures ReadLine(OpenLine(m, version)) == Some(KeyLine(m.key, m.default))
  {
    var rest := Trailer(version);
    OpenLinePlain(m, version);
    IdentifierPlain(m.key);
    BareKeyTrimmed(m.key);
    TrailerIsComment(version);
    ReadKeyOf(m.key, m.default, rest);
    var t := OpenLine(m, version);
    assert t[0] == m.key[0];
    NotBlankFirst(t);
  }

  lemma {:induction false} NotBlankFirst(t: string)
    requires t == [] || !In(t[0], Blank)
    ensures Skip(t, Blank) == t
  {
  }

  lemma {:induction false} TrailerIsComment(version: Option<string>)
    ensures ReadRest(Trailer(version)) == Some(Comment)
  {
    var t := "# " + (NewNote(version) + "; uncomment to override");
    assert Trailer(version) == "   " + t;
    SplitAt("   ", t, Blank);
  }

  // -- the operator's lines ----------------------------------------------------

  /** `# key = default   # new in <version>; uncomment to override`. */
  predicate AddedForm(m: Missing, version: Option<string>, line: string) {
    line == "# " + m.key + " = " + TomlLiteral(m.default) + "   # "
            + (if version.Some? && version.value != "" then "new in " + version.value else "new setting")
            + "; uncomment to override"
  }

  lemma {:induction false} AddedLineForm(m: Missing, version: Option<string>)
    ensures AddedForm(m, version, AddedLine(m, version))
  {
    hide TomlLiteral;
    JoinAdded(m.key, TomlLiteral(m.default), NewNote(version), "; uncomment to override");
  }

  lemma {:induction false} JoinAdded(k: string, v: string, note: string, z: string)
    ensures ['#'] + (" " + (k + (" " + (['='] + (" " + (v + ("   # " + (note + z)))))))) == "# " + k + " = " + v + "   # " + note + z
  {
  }

  /** A line migration may add: the blank before a new section, its header, or the
      comment for a missing key. */
  predicate IsAdded(ms: seq<Missing>, version: Option<string>, line: string) {
    || line == ""
    || exists i :: 0 <= i < |ms| && (line == "[" + ms[i].section + "]" || AddedForm(ms[i], version, line))
  }

  /** `after` is `before` with added lines woven in: nothing lost, nothing moved. */
  predicate Woven(before: seq<string>, after: seq<string>, ms: seq<Missing>, version: Option<string>) {
    if after == [] then before == []
    else
      || (before != [] && before[0] == after[0] && Woven(before[1..], after[1..], ms, version))
      || (IsAdded(ms, version, after[0]) && Woven(before, after[1..], ms, version))
  }

  lemma {:induction false} WovenSelf(a: seq<string>, ms: seq<Missing>, version: Option<string>)
    ensures Woven(a, a, ms, version)
  {
    if a != [] {
      WovenSelf(a[1..], ms, version);
    }
  }

  lemma {:induction false} WovenFirst(added: seq<string>, z: seq<string>, ms: seq<Missing>, version: Option<string>)
    requires forall i | 0 <= i < |added| :: IsAdded(ms, version, added[i])
    ensures Woven(z, added + z, ms, version)
  {
    if added == [] {
      WovenSelf(z, ms, version);
      assert added + z == z;
    } else {
      WovenFirst(added[1..], z, ms, version);
      assert IsAdded(ms, version, added[0]);
      assert (added + z)[1..] == added[1..] + z;
    }
  }

  lemma {:induction false} WovenInside(a: seq<string>, added: seq<string>, z: seq<string>, ms: seq<Missing>, version: Option<string>)
    requires forall i | 0 <= i < |added| :: IsAdded(ms, version, added[i])
    ensures Woven(a + z, a + added + z, ms, version)
  {
    if a == [] {
      WovenFirst(added, z, ms, version);
      assert a + z == z && a + added + z == added + z;
    } else {
      WovenInside(a[1..], added, z, ms, version);
      assert (a + z)[1..] == a[1..] + z;
      assert (a + added + z)[1..] == a[1..] + added + z;
    }
  }

  lemma {:induction false} WovenTwice(a: seq<string>, b: seq<string>, c: seq<string>, ms: seq<Missing>, version: Option<string>)
    requires Woven(a, b, ms, version) && Woven(b, c, ms, version)
    ensures Woven(a, c, ms, version)
    decreases |c|
  {
    if c != [] {
      if IsAdded(ms, version, c[0]) && Woven(b, c[1..], ms, version) {
        WovenTwice(a, b, c[1..], ms, version);
      } else if a != [] && a[0] == b[0] && Woven(a[1..], b[1..], ms, version) {
        WovenTwice(a[1..], b[1..], c[1..], ms, version);
      } else {
        WovenTwice(a, b[1..], c[1..], ms, version);
      }
    }
  }

  predicate GroupOf(g: Group, ms: seq<Missing>) {
    GoodGroup(g) && forall i | 0 <= i < |g.items| :: g.items[i] in ms
  }

  lemma {:induction false} GroupIsAdded(g: Group, ms: seq<Missing>, version: Option<string>)
    requires PlainVersion(version) && GroupOf(g, ms)
    ensures IsAdded(ms, version, HeaderText(g.section))
    ensures forall i | 0 <= i < |AddedLines(g.items, version)| :: IsAdded(ms, version, AddedLines(g.items, version)[i])
  {
    hide AddedLine, AddedForm;
    AddedLinesLaw(g.items, version);
    assert g.items[0] in ms && g.items[0].section == g.section;
    assert HeaderText(g.section) == "[" + g.section + "]";
    forall i | 0 <= i < |g.items|
      ensures IsAdded(ms, version, AddedLine(g.items[i], version))
    {
      assert g.items[i] in ms;
      AddedLineForm(g.items[i], version);
    }
  }

  lemma {:induction false} InsertWoven(lines: seq<string>, s: string, added: seq<string>, ms: seq<Missing>, version: Option<string>)
    requires IsAdded(ms, version, HeaderText(s))
    requires forall i | 0 <= i < |added| :: IsAdded(ms, version, added[i])
    ensures Woven(lines, Insert(lines, s, added), ms, version)
  {
    hide ReadLine, SectionName, CommentedKey, ActiveKey, Strip, HeaderText, AddedLine;
    match HeaderIndex(lines, s)
    case Some(h) =>
      var i := InsertionPoint(lines, h);
      WovenInside(lines[..i], added, lines[i..], ms, version);
      assert lines == lines[..i] + lines[i..];
    case None =>
      var tail := NewSection(lines, s);
      WovenInside(lines, tail + added, [], ms, version);
      assert lines + (tail + added) + [] == lines + tail + added;
      assert lines + [] == lines;
  }

  lemma {:induction false} AddGroupWoven(e: Edit, g: Group, ms: seq<Missing>, version: Option<string>)
    requires PlainVersion(version) && GroupOf(g, ms)
    ensures Woven(e.lines, AddGroup(e, g, version).lines, ms, version)
  {
    GroupIsAdded(g, ms, version);
    InsertWoven(e.lines, g.section, AddedLines(g.items, version), ms, version);
  }

  lemma {:induction false} AddAllWoven(e: Edit, groups: seq<Group>, ms: seq<Missing>, version: Option<string>)
    requires PlainVersion(version) && forall i | 0 <= i < |groups| :: GroupOf(groups[i], ms)
    ensures Woven(e.lines, AddAll(e, groups, version).lines, ms, version)
    decreases |groups|
  {
    if groups == [] {
      WovenSelf(e.lines, ms, version);
    } else {
      var f := AddGroup(e, groups[0], version);
      AddGroupWoven(e, groups[0], ms, version);
      assert forall i | 0 <= i < |groups[1..]| :: groups[1..][i] == groups[i + 1];
      AddAllWoven(f, groups[1..], ms, version);
      WovenTwice(e.lines, f.lines, AddAll(e, groups, version).lines, ms, version);
    }
  }

  /** The line is active for the key; TOML, if it reads the line, has it set the key. */
  predicate SetsKey(line: string, key: string) {
    && ActiveKey(line, key)
    && (ReadLine(line).Some? ==> ReadLine(line).value.KeyLine? && ReadLine(line).value.key == key)
  }

  /** `# <the line as it was>   # deprecated in <version>: <reason>`. */
  predicate RetiredForm(r: Retired, version: Option<string>, was: string, now: string) {
    now == "# " + was + "   # "
           + (if version.Some? && version.value != "" then "deprecated in " + version.value + ": " + r.reason
              else "deprecated: " + r.reason)
  }

  lemma {:induction false} RetiredLineForm(r: Retired, version: Option<string>, was: string)
    ensures RetiredForm(r, version, was, RetiredLine(was, r, version))
  {
    JoinRetired(was, RetireNote(r.reason, version));
  }

  lemma {:induction false} JoinRetired(was: string, note: string)
    ensures ['#'] + (" " + (was + ("   # " + note))) == "# " + was + "   # " + note
  {
  }

  lemma {:induction false} RetiredInactive(r: Retired, version: Option<string>, was: string, now: string, key: string)
    requires RetiredForm(r, version, was, now) && BareKey(key)
    ensures !ActiveKey(now, key)
  {
    hide ActiveKey;
    var note := if version.Some? && version.value != "" then "deprecated in " + version.value + ": " + r.reason
                else "deprecated: " + r.reason;
    JoinRetired(was, note);
    CommentInactive(was + ("   # " + note), key);
  }

  /** A line as it was, or commented out because it sets a retired key. */
  predicate KeptLine(rs: seq<Retired>, version: Option<string>, was: string, now: string) {
    || now == was
    || exists i :: 0 <= i < |rs| && RetiredForm(rs[i], version, was, now) && SetsKey(was, rs[i].key)
  }

  predicate Kept(rs: seq<Retired>, version: Option<string>, before: seq<string>, after: seq<string>) {
    |before| == |after| && forall i | 0 <= i < |before| :: KeptLine(rs, version, before[i], after[i])
  }

  lemma {:induction false} RetireOneKeeps(e: Edit, r: Retired, version: Option<string>)
    requires BareKey(r.key)
    ensures var f := RetireOne(e, r, version);
            f == e || exists i :: 0 <= i < |e.lines| && SetsKey(e.lines[i], r.key)
                                  && f.lines == e.lines[i := RetiredLine(e.lines[i], r, version)]
  {
    hide ReadLine, SectionName, ActiveKey, RetiredLine;
    var i := FindActive(None, e.lines, r.section, r.key);
    if i.Some? {
      FindActiveAt(None, e.lines, r.section, r.key);
      if ReadLine(e.lines[i.value]).Some? {
        LineAgrees(e.lines[i.value]);
      }
      assert SetsKey(e.lines[i.value], r.key);
    }
  }

  lemma {:induction false} KeptStep(all: seq<Retired>, version: Option<string>, before: seq<string>, e: Edit, j: nat)
    requires j < |all| && BareKeys(all)
    requires Kept(all, version, before, e.lines)
    ensures Kept(all, version, before, RetireOne(e, all[j], version).lines)
  {
    hide ReadLine, ActiveKey, RetireOne, RetiredLine, RetiredForm;
    var r := all[j];
    var f := RetireOne(e, r, version);
    RetireOneKeeps(e, r, version);
    if f != e {
      var i :| 0 <= i < |e.lines| && SetsKey(e.lines[i], r.key)
               && f.lines == e.lines[i := RetiredLine(e.lines[i], r, version)];
      assert e.lines[i] == before[i] by {
        assert KeptLine(all, version, before[i], e.lines[i]);
        if q :| 0 <= q < |all| && RetiredForm(all[q], version, before[i], e.lines[i]) && SetsKey(before[i], all[q].key) {
          RetiredInactive(all[q], version, before[i], e.lines[i], r.key);
        }
      }
      RetiredLineForm(r, version, before[i]);
      assert KeptLine(all, version, before[i], f.lines[i]);
    }
  }

  lemma {:induction false} RetireAllKeeps(all: seq<Retired>, n: nat, version: Option<string>, before: seq<string>, e: Edit)
    requires n <= |all| && BareKeys(all) && Kept(all, version, before, e.lines)
    ensures Kept(all, version, before, RetireAll(e, all[n..], version).lines)
    decreases |all| - n
  {
    hide RetireOne, Kept;
    if n < |all| {
      assert all[n..][0] == all[n] && all[n..][1..] == all[n + 1..];
      KeptStep(all, version, before, e, n);
      RetireAllKeeps(all, n + 1, version, before, RetireOne(e, all[n], version));
    }
  }

  /** The operator's file survives, whatever it holds: the new lines are the old ones in
      order, each as it was or commented out because it is active for a reported
      retired key, with nothing woven in but headers and comments for missing keys. */
  lemma {:induction false} OperatorLinesKept(schema: Schema, text: string, version: Option<string>)
    requires WellFormed(schema) && PlainVersion(version) && Load(text).Some?
    ensures var report := Diff(schema, text);
            exists mid ::
              && Kept(report.deprecated, version, SplitLines(text), mid)
              && Woven(mid, SplitLines(Migrate(schema, text, version).0), report.missing, version)
  {
    var report := Diff(schema, text);
    var start := Edit(SplitLines(text), []);
    var mid := RetireAll(start, report.deprecated, version);
    ReportKeys(schema, text);
    assert report.deprecated[0..] == report.deprecated;
    RetireAllKeeps(report.deprecated, 0, version, SplitLines(text), start);
    ReportGroups(schema, text);
    var groups := Groups(schema, text);
    forall i | 0 <= i < |groups|
      ensures GroupOf(groups[i], report.missing)
    {
      forall j | 0 <= j < |groups[i].items|
        ensures groups[i].items[j] in report.missing
      {
        assert InGroups(groups, groups[i].items[j]);
      }
    }
    AddAllWoven(mid, groups, report.missing, version);
    RewriteChanges(schema, text, version);
    if !Settled(schema, text) {
      NewText(schema, text, version);
    }
    assert Kept(report.deprecated, version, SplitLines(text), mid.lines);
  }
}
