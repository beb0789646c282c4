/** What each edit of a migration does to the document TOML reads and to the
    comments the scanner sees. */
module MigrationEdits {
  import opened Text
  import opened Toml
  import opened ConfigLines
  import opened ConfigSchema
  import opened TomlLaws
  import opened Migration

  /** The section is in the file, under a header with a trailing comment: TOML reads
      it and the line scanners do not. */
  predicate Hidden(d: Doc, section: string) { HasTable(d, section) && !HasPlain(d, section) }

  // -- the lines that edits write ----------------------------------------------

  lemma {:induction false} BareReads()
    ensures ReadLine("#") == Some(CommentLine) && ReadLine("") == Some(BlankLine)
  {
  }

  predicate PlainVersion(version: Option<string>) { version.Some? ==> PlainText(version.value) }

  lemma {:induction false} PlainConcat(a: string, b: string)
    requires PlainText(a) && PlainText(b)
    ensures PlainText(a + b)
  {
  }

  lemma {:induction false} PlainComment(s: string)
    requires PlainText(s)
    ensures ReadLine(CommentOut(s)) == Some(CommentLine)
    ensures PlainText(CommentOut(s)) && SectionName(CommentOut(s)).None?
  {
    var l := CommentOut(s);
    assert l[0] == '#';
    LineAgrees(l);
  }

  lemma {:induction false} RetireNotePlain(reason: string, version: Option<string>)
    requires PlainText(reason) && PlainVersion(version)
    ensures PlainText(RetireNote(reason, version))
  {
    assert PlainText("deprecated in ") && PlainText(": ") && PlainText("deprecated: ");
    if Versioned(version) {
      PlainConcat("deprecated in ", version.value);
      PlainConcat("deprecated in " + version.value, ": ");
      PlainConcat("deprecated in " + version.value + ": ", reason);
    } else {
      PlainConcat("deprecated: ", reason);
    }
  }

  lemma {:induction false} RetiredLinePlain(line: string, r: Retired, version: Option<string>)
    requires PlainText(line) && PlainText(r.reason) && PlainVersion(version)
    ensures PlainText(RetiredLine(line, r, version))
    ensures ReadLine(RetiredLine(line, r, version)) == Some(CommentLine)
    ensures SectionName(RetiredLine(line, r, version)).None?
  {
    hide PlainText, ReadLine, SectionName;
    NotesPlain();
    RetireNotePlain(r.reason, version);
    PlainConcat("   # ", RetireNote(r.reason, version));
    PlainConcat(line, "   # " + RetireNote(r.reason, version));
    PlainComment(line + ("   # " + RetireNote(r.reason, version)));
  }

  lemma {:induction false} ReplacePlain(s: string, c: char, r: string)
    requires PlainText(s) && PlainText(r)
    ensures PlainText(Replace(s, c, r))
  {
    if s != [] {
      ReplacePlain(s[1..], c, r);
      PlainConcat(if s[0] == c then r else [s[0]], Replace(s[1..], c, r));
    }
  }

  lemma {:induction false} NatTextPlain(n: nat)
    ensures PlainText(NatText(n))
  {
    if n >= 10 {
      NatTextPlain(n / 10);
      PlainConcat(NatText(n / 10), [DigitChar(n % 10)]);
    }
  }

  lemma {:induction false} LiteralPlain(v: Value)
    requires PlainValue(v)
    ensures PlainText(TomlLiteral(v))
  {
    match v
    case VBool(b) =>
    case VInt(n) =>
      NatTextPlain(if n < 0 then -n else n);
      if n < 0 {
        PlainConcat("-", NatText(-n));
      }
    case VStr(s) =>
      ReplacePlain(s, '\\', "\\\\");
      ReplacePlain(Replace(s, '\\', "\\\\"), '"', "\\\"");
      PlainConcat(Replace(Replace(s, '\\', "\\\\"), '"', "\\\""), ['"']);
      PlainConcat(['"'], Replace(Replace(s, '\\', "\\\\"), '"', "\\\"") + ['"']);
  }

  predicate PlainMissing(m: Missing) { Identifier(m.key) && OneLine(m.key) && PlainValue(m.default) }

  lemma {:induction false} NotesPlain()
    ensures PlainText("; uncomment to override")
    ensures PlainText("new in ") && PlainText("new setting") && PlainText("   # ")
  {
    PlainConcat("; uncomment ", "to override");
    assert "; uncomment " + "to override" == "; uncomment to override";
  }

  lemma {:induction false} TrailerPlain(version: Option<string>)
    requires PlainVersion(version)
    ensures PlainText(Trailer(version))
  {
    hide PlainText;
    NotesPlain();
    if Versioned(version) {
      PlainConcat("new in ", version.value);
    }
    PlainConcat(NewNote(version), "; uncomment to override");
    PlainConcat("   # ", NewNote(version) + "; uncomment to override");
  }

  lemma {:induction false} IdentifierPlain(k: string)
    requires Identifier(k)
    ensures PlainText(k) && BareKey(k)
  {
    assert forall i | 0 <= i < |k| :: In(k[i], WordDash);
  }

  lemma {:induction false} OpenLinePlain(m: Missing, version: Option<string>)
    requires PlainMissing(m) && PlainVersion(version)
    ensures PlainText(OpenLine(m, version))
  {
    IdentifierPlain(m.key);
    LiteralPlain(m.default);
    TrailerPlain(version);
    PlainConcat(TomlLiteral(m.default), Trailer(version));
    var value := TomlLiteral(m.default) + Trailer(version);
    PlainConcat(" ", value);
    PlainConcat(['='], " " + value);
    PlainConcat(" ", ['='] + (" " + value));
    PlainConcat(m.key, " " + (['='] + (" " + value)));
  }

  /** An added line is a comment to TOML, and the comment scanner reads its key. */
  lemma {:induction false} AddedLinePlain(m: Missing, version: Option<string>)
    requires PlainMissing(m) && PlainVersion(version)
    ensures ReadLine(AddedLine(m, version)) == Some(CommentLine)
    ensures PlainText(AddedLine(m, version))
    ensures SectionName(AddedLine(m, version)).None?
    ensures CommentedKey(AddedLine(m, version)) == Some(m.key)
  {
    OpenLinePlain(m, version);
    PlainComment(OpenLine(m, version));
    var rest := " " + (TomlLiteral(m.default) + Trailer(version));
    var e := " " + (['='] + rest);
    EqualsAfter(" ", rest);
    CommentedKeyOf([], " ", m.key, e);
  }

  lemma {:induction false} HeaderBodyReads(s: string)
    requires BareKey(s)
    ensures ReadHeader(s + [']']) == Some(HeaderLine(s, true))
  {
    BareKeyTrimmed(s);
    assert (s + [']'])[0] == s[0];
    SplitAt(s, [']'], WordDash);
    assert [']'][1..] == [];
    assert ReadRest([]) == Some(Nothing);
  }

  lemma {:induction false} HeaderTextPlain(s: string)
    requires BareKey(s)
    ensures PlainText(HeaderText(s))
  {
    assert forall i | 0 <= i < |s| :: In(s[i], WordDash);
    assert PlainText(s);
    PlainConcat(s, [']']);
    PlainConcat(['['], s + [']']);
  }

  lemma {:induction false} HeaderTextReads(s: string)
    requires BareKey(s)
    ensures ReadLine(HeaderText(s)) == Some(HeaderLine(s, true))
    ensures SectionName(HeaderText(s)) == Some(s)
    ensures PlainText(HeaderText(s))
  {
    hide ReadHeader, ReadKey, SectionName, CommentedKey, ActiveKey;
    var t := HeaderText(s);
    HeaderTextPlain(s);
    HeaderBodyReads(s);
    assert t[0] == '[' && t[1..] == s + [']'];
    LineAgrees(t);
  }

  // -- the comment scan --------------------------------------------------------

  lemma {:induction false} ScanConcat(cur: Option<string>, a: seq<string>, b: seq<string>)
    ensures SectionAfter(cur, a + b) == SectionAfter(SectionAfter(cur, a), b)
    ensures Commented(cur, a + b) == Commented(cur, a) + Commented(SectionAfter(cur, a), b)
    decreases |a|
  {
    hide ReadLine, SectionName, CommentedKey, ActiveKey;
    if a == [] {
      assert a + b == b;
    } else {
      assert (a + b)[1..] == a[1..] + b;
      ScanConcat(if SectionName(a[0]).Some? then SectionName(a[0]) else cur, a[1..], b);
    }
  }

  /** Lines that open no section leave the scan where it is. */
  lemma {:induction false} ScanStays(cur: Option<string>, lines: seq<string>)
    requires forall i | 0 <= i < |lines| :: SectionName(lines[i]).None?
    ensures SectionAfter(cur, lines) == cur
    decreases |lines|
  {
    hide ReadLine, SectionName, CommentedKey, ActiveKey;
    if lines != [] {
      assert SectionName(lines[0]).None?;
      ScanStays(cur, lines[1..]);
    }
  }

  lemma {:induction false} ScanSees(cur: string, lines: seq<string>, k: string)
    requires forall i | 0 <= i < |lines| :: SectionName(lines[i]).None?
    requires exists i :: 0 <= i < |lines| && CommentedKey(lines[i]) == Some(k)
    ensures (cur, k) in Commented(Some(cur), lines)
    decreases |lines|
  {
    hide ReadLine, SectionName, CommentedKey, ActiveKey;
    assert SectionName(lines[0]).None?;
    if CommentedKey(lines[0]) != Some(k) {
      var i :| 0 <= i < |lines| && CommentedKey(lines[i]) == Some(k);
      assert lines[1..][i - 1] == lines[i];
      ScanSees(cur, lines[1..], k);
    }
  }

  lemma {:induction false} SplitThree(lines: seq<string>, i: nat)
    requires i < |lines|
    ensures lines == lines[..i] + ([lines[i]] + lines[i + 1..])
    ensures forall c :: lines[i := c] == lines[..i] + ([c] + lines[i + 1..])
  {
  }

  /** Writing a line that is no header over a line that is neither a header nor a
      commented key loses nothing the scan had seen, and adds what that line mentions. */
  lemma {:induction false} ScanReplace(lines: seq<string>, i: nat, c: string)
    requires i < |lines|
    requires SectionName(lines[i]).None? && CommentedKey(lines[i]).None? && SectionName(c).None?
    ensures Commented(None, lines[i := c])
         == Commented(None, lines) + CommentedAt(SectionAfter(None, lines[..i]), c)
  {
    hide ReadLine, SectionName, CommentedKey, ActiveKey;
    SplitThree(lines, i);
    var a, z := lines[..i], lines[i + 1..];
    var cur := SectionAfter(None, a);
    ScanConcat(None, a, [lines[i]] + z);
    ScanConcat(None, a, [c] + z);
    ScanConcat(cur, [lines[i]], z);
    ScanConcat(cur, [c], z);
    ScanStays(cur, [lines[i]]);
    ScanStays(cur, [c]);
    assert Commented(cur, [lines[i]]) == {} && Commented(cur, [c]) == CommentedAt(cur, c);
  }

  // -- what the scan finds and what commenting it out leaves -------------------

  /** The line found is active for the key, and the scan is in the section there. */
  lemma {:induction false} FindActiveAt(cur: Option<string>, lines: seq<string>, s: string, k: string)
    requires FindActive(cur, lines, s, k).Some?
    ensures var i := FindActive(cur, lines, s, k).value;
            && SectionName(lines[i]).None? && ActiveKey(lines[i], k)
            && SectionAfter(cur, lines[..i]) == Some(s)
    decreases |lines|
  {
    hide ReadLine, SectionName, CommentedKey, ActiveKey;
    var m := SectionName(lines[0]);
    if !(m.None? && cur == Some(s) && ActiveKey(lines[0], k)) {
      var next := if m.Some? then m else cur;
      FindActiveAt(next, lines[1..], s, k);
      var i := FindActive(next, lines[1..], s, k).value;
      assert lines[..i + 1][0] == lines[0] && lines[..i + 1][1..] == lines[1..][..i];
    }
  }

  lemma {:induction false} EqualsStays(e: string, tail: string)
    requires BeforeEquals(e)
    ensures BeforeEquals(e + tail)
  {
    var a, r := Take(e, Space), Skip(e, Space);
    TakeSkip(e, Space);
    assert e + tail == a + (['='] + (r[1..] + tail));
    EqualsAfter(a, r[1..] + tail);
  }

  /** An active line is no comment. */
  lemma {:induction false} ActiveNoComment(line: string, key: string)
    requires BareKey(key) && ActiveKey(line, key)
    ensures CommentedKey(line).None?
  {
    var t := Skip(line, Space);
    assert t[0] == key[0] && In(key[0], WordDash);
  }

  lemma {:induction false} CommentedAs(a: string, key: string, e: string)
    requires All(a, Space) && BareKey(key) && Take(key + e, WordDash) == key
    ensures var c := CommentedKey(CommentOut(a + (key + e)));
            c.None? || c.value == key
  {
    hide Take, BeforeEquals;
    BareKeyTrimmed(key);
    var u := key + e;
    var c := CommentOut(a + u);
    NoSpace(c);
    assert c[1..] == (" " + a) + u;
    SplitAt(" " + a, u, Space);
  }

  /** Commented out, an active line can mention its own key only. */
  lemma {:induction false} CommentedOutKey(line: string, key: string, tail: string)
    requires BareKey(key) && ActiveKey(line, key)
    ensures var c := CommentOut(line + tail);
            && SectionName(c).None? && (CommentedKey(c).None? || CommentedKey(c).value == key)
  {
    hide Take, BeforeEquals, CommentedKey;
    var a, t := Take(line, Space), Skip(line, Space);
    TakeSkip(line, Space);
    var e := t[|key|..];
    EqualsStays(e, tail);
    KeyPrefix(key, e + tail);
    assert line + tail == a + (key + (e + tail));
    CommentedAs(a, key, e + tail);
    CommentInactive(line + tail, key);
  }

  /** A line that starts with a comment mark is no header, and active for no key. */
  lemma {:induction false} CommentInactive(line: string, key: string)
    requires BareKey(key)
    ensures SectionName(CommentOut(line)).None? && !ActiveKey(CommentOut(line), key)
  {
    var c := CommentOut(line);
    NoSpace(c);
    assert In(key[0], WordDash) && c[0] == '#';
  }

  /** What the comment scanner sees of one line commented out: what it saw before, and
      at most the key that was retired. */
  lemma {:induction false} RetireOneScan(e: Edit, r: Retired, version: Option<string>)
    requires BareKey(r.key)
    ensures Commented(None, e.lines) <= Commented(None, RetireOne(e, r, version).lines)
    ensures Commented(None, RetireOne(e, r, version).lines) <= Commented(None, e.lines) + {(r.section, r.key)}
  {
    hide ReadLine, SectionName, CommentedKey, ActiveKey, CommentOut, RetireNote, RetireChange;
    var i := FindActive(None, e.lines, r.section, r.key);
    if i.Some? {
      var line := e.lines[i.value];
      FindActiveAt(None, e.lines, r.section, r.key);
      ActiveNoComment(line, r.key);
      CommentedOutKey(line, r.key, "   # " + RetireNote(r.reason, version));
      ScanReplace(e.lines, i.value, RetiredLine(line, r, version));
    }
  }

  predicate BareKeys(rs: seq<Retired>) { forall i | 0 <= i < |rs| :: BareKey(rs[i].key) }

  function Pairs(rs: seq<Retired>): set<(string, string)> {
    set i | 0 <= i < |rs| :: (rs[i].section, rs[i].key)
  }

  lemma {:induction false} RetireAllScan(e: Edit, rs: seq<Retired>, version: Option<string>)
    requires BareKeys(rs)
    ensures Commented(None, e.lines) <= Commented(None, RetireAll(e, rs, version).lines)
    ensures Commented(None, RetireAll(e, rs, version).lines) <= Commented(None, e.lines) + Pairs(rs)
    decreases |rs|
  {
    hide RetireOne, Commented;
    if rs != [] {
      assert BareKeys(rs[1..]) by { assert forall i | 0 <= i < |rs[1..]| :: rs[1..][i] == rs[i + 1]; }
      RetireOneScan(e, rs[0], version);
      RetireAllScan(RetireOne(e, rs[0], version), rs[1..], version);
      PairsStep(rs);
    }
  }

  lemma {:induction false} PairsStep(rs: seq<Retired>)
    requires rs != []
    ensures Pairs(rs) == {(rs[0].section, rs[0].key)} + Pairs(rs[1..])
  {
    assert forall i | 0 <= i < |rs[1..]| :: rs[1..][i] == rs[i + 1];
    forall x | x in Pairs(rs)
      ensures x in {(rs[0].section, rs[0].key)} + Pairs(rs[1..])
    {
      var i :| 0 <= i < |rs| && x == (rs[i].section, rs[i].key);
      assert i > 0 ==> rs[1..][i - 1] == rs[i];
    }
    forall x | x in Pairs(rs[1..])
      ensures x in Pairs(rs)
    {
      var i :| 0 <= i < |rs[1..]| && x == (rs[1..][i].section, rs[1..][i].key);
      assert rs[i + 1] == rs[1..][i];
    }
  }

  predicate PlainReasons(rs: seq<Retired>) { forall i | 0 <= i < |rs| :: PlainText(rs[i].reason) }

  lemma {:induction false} RetireOneOneLine(e: Edit, r: Retired, version: Option<string>)
    requires AllOneLine(e.lines) && PlainVersion(version) && PlainText(r.reason)
    ensures AllOneLine(RetireOne(e, r, version).lines)
  {
    hide ReadLine, SectionName, CommentedKey, ActiveKey, RetireNote, RetireChange;
    var i := FindActive(None, e.lines, r.section, r.key);
    if i.Some? {
      var line := e.lines[i.value];
      NotesPlain();
      RetireNotePlain(r.reason, version);
      var note := RetireNote(r.reason, version);
      assert OneLine(line);
      ConcatOneLine("   # ", note);
      ConcatOneLine(line, "   # " + note);
      ConcatOneLine(" ", line + ("   # " + note));
      ConcatOneLine(['#'], " " + (line + ("   # " + note)));
    }
  }

  lemma {:induction false} RetireAllOneLine(e: Edit, rs: seq<Retired>, version: Option<string>)
    requires AllOneLine(e.lines) && PlainVersion(version) && PlainReasons(rs)
    ensures AllOneLine(RetireAll(e, rs, version).lines)
    decreases |rs|
  {
    hide RetireOne;
    if rs != [] {
      assert PlainReasons(rs[1..]) by { assert forall i | 0 <= i < |rs[1..]| :: rs[1..][i] == rs[i + 1]; }
      assert PlainText(rs[0].reason);
      RetireOneOneLine(e, rs[0], version);
      RetireAllOneLine(RetireOne(e, rs[0], version), rs[1..], version);
    }
  }

  /** No listed key has a line to comment out. */
  predicate NoneFound(lines: seq<string>, rs: seq<Retired>) {
    forall i | 0 <= i < |rs| :: FindActive(None, lines, rs[i].section, rs[i].key).None?
  }

  lemma {:induction false} RetireAllChanges(e: Edit, rs: seq<Retired>, version: Option<string>)
    ensures var f := RetireAll(e, rs, version);
            && |e.changes| <= |f.changes|
            && (|f.changes| == |e.changes| <==> NoneFound(e.lines, rs))
            && (NoneFound(e.lines, rs) ==> f == e)
    decreases |rs|
  {
    hide ReadLine, SectionName, CommentedKey, ActiveKey, RetiredLine, RetireChange, FindActive;
    if rs != [] {
      assert forall i | 0 <= i < |rs[1..]| :: rs[1..][i] == rs[i + 1];
      assert forall i | 0 < i < |rs| :: rs[i] == rs[1..][i - 1];
      RetireAllChanges(RetireOne(e, rs[0], version), rs[1..], version);
    }
  }

  // -- commenting out a retired key --------------------------------------------

  /** Under a hidden header, and for a section with no header, there is nothing to
      find. */
  lemma {:induction false} FindsNothing(d: Doc, lines: seq<string>, s: string, k: string)
    requires Distinct(d) && LoadFrom(d, lines).Some? && !HasPlain(LoadFrom(d, lines).value, s)
    ensures FindActive(LastPlain(d), lines, s, k).None?
    decreases |lines|
  {
    hide ReadLine, SectionName, CommentedKey, ActiveKey;
    if lines != [] {
      var e := LoadLine(d, lines[0]).value;
      LoadLineExtends(d, lines[0]);
      LoadExtends(e, lines[1..]);
      StepTracks(d, lines[0]);
      FindsNothing(e, lines[1..], s, k);
      if LastPlain(d) == Some(s) {
        ExtendsKeepsPlain(d, e, s);
        ExtendsKeepsPlain(e, LoadFrom(d, lines).value, s);
        assert false;
      }
    }
  }

  /** A table that is no longer the last one has all the items it will get. */
  lemma {:induction false} ClosedTables(d: Doc, r: Doc, k: string)
    requires Extends(d, r) && Distinct(r)
    ensures forall i | 0 <= i < |d| - 1 :: HasItem(r, d[i].name, k) ==> HasItem(d, d[i].name, k)
  {
    forall i | 0 <= i < |d| - 1 && HasItem(r, d[i].name, k)
      ensures HasItem(d, d[i].name, k)
    {
      var j :| 0 <= j < |r| && r[j].name == d[i].name && HasKey(r[j].items, k);
      assert r[i] == d[i];
      assert j == i;
    }
  }

  lemma {:induction false} DropFresh(d: Doc, s: string, k: string, v: Value)
    requires d != [] && Distinct(d) && d[|d| - 1].name == s && !HasKey(d[|d| - 1].items, k)
    ensures var t := d[|d| - 1];
            Drop(d[..|d| - 1] + [t.(items := t.items + [Item(k, v)])], s, k) == d
  {
    var t := d[|d| - 1];
    DropKeyMore(t.items, Item(k, v), k);
    DropKeyAbsent(t.items, k);
    var e := d[..|d| - 1] + [t.(items := t.items + [Item(k, v)])];
    forall i | 0 <= i < |d|
      ensures Drop(e, s, k)[i] == d[i]
    {
      if i < |d| - 1 {
        assert e[i] == d[i];
      }
    }
  }

  /** A section still to get an item, and the last plain one, is the last table. */
  lemma {:induction false} OpenTable(d: Doc, e: Doc, r: Doc, s: string, k: string)
    requires Extends(d, e) && Extends(e, r) && Distinct(e) && Distinct(r)
    requires HasItem(r, s, k) && !HasItem(d, s, k) && LastPlain(d) == Some(s)
    ensures d != [] && d[|d| - 1].name == s
  {
    var j :| 0 <= j < |d| && d[j].name == s && d[j].plain;
    ClosedTables(e, r, k);
    ClosedTables(d, e, k);
    assert j < |d| - 1 ==> e[j] == d[j];
  }

  /** The first line is the one: the table it belongs to is the last one read. */
  lemma {:induction false} RetireHere(d: Doc, lines: seq<string>, s: string, k: string, c: string)
    requires Distinct(d) && lines != [] && LoadFrom(d, lines).Some?
    requires d != [] && d[|d| - 1].name == s && !HasItem(d, s, k)
    requires ReadLine(lines[0]).value.KeyLine? && ReadLine(lines[0]).value.key == k
    requires ReadLine(c) == Some(CommentLine)
    ensures LoadFrom(d, lines[0 := c]) == Some(Drop(LoadFrom(d, lines).value, s, k))
  {
    hide ReadLine, SectionName, CommentedKey, ActiveKey;
    var e := LoadLine(d, lines[0]).value;
    var last := |d| - 1;
    LoadLineExtends(d, lines[0]);
    assert !HasKey(d[last].items, k);
    DropFresh(d, s, k, ReadLine(lines[0]).value.value);
    assert e[last].items[|e[last].items| - 1].key == k;
    LoadDrop(e, lines[1..], s, k);
    assert lines[0 := c] == [c] + lines[1..];
    LoadConcat(d, [c], lines[1..]);
    LoadIdle(d, [c]);
  }

  lemma {:induction false} RetireLater(d: Doc, lines: seq<string>, s: string, k: string, c: string)
    requires lines != [] && LoadFrom(d, lines).Some?
    requires !(SectionName(lines[0]).None? && LastPlain(d) == Some(s) && ActiveKey(lines[0], k))
    requires var e := LoadLine(d, lines[0]).value; FindActive(LastPlain(e), lines[1..], s, k).Some?
    ensures var e := LoadLine(d, lines[0]).value;
            var i := FindActive(LastPlain(e), lines[1..], s, k).value;
            && FindActive(LastPlain(d), lines, s, k) == Some(i + 1)
            && LoadFrom(d, lines[i + 1 := c]) == LoadFrom(e, lines[1..][i := c])
  {
    hide ReadLine, SectionName, CommentedKey, ActiveKey;
    StepTracks(d, lines[0]);
    var e := LoadLine(d, lines[0]).value;
    var i := FindActive(LastPlain(e), lines[1..], s, k).value;
    var edited := lines[i + 1 := c];
    assert edited[0] == lines[0] && edited[1..] == lines[1..][i := c];
  }

  /** For a key TOML reads under a plain header, the scan finds the line that sets
      it, and writing a comment there removes that item from the document and no
      other. */
  lemma {:induction false} RetireFinds(d: Doc, lines: seq<string>, s: string, k: string, c: string)
    requires Distinct(d) && LoadFrom(d, lines).Some? && BareKey(k)
    requires HasItem(LoadFrom(d, lines).value, s, k) && !HasItem(d, s, k)
    requires HasPlain(LoadFrom(d, lines).value, s)
    requires ReadLine(c) == Some(CommentLine)
    ensures var i := FindActive(LastPlain(d), lines, s, k);
            && i.Some?
            && ReadLine(lines[i.value]).Some? && ReadLine(lines[i.value]).value.KeyLine?
            && ReadLine(lines[i.value]).value.key == k
            && LoadFrom(d, lines[i.value := c]) == Some(Drop(LoadFrom(d, lines).value, s, k))
    decreases |lines|
  {
    hide ReadLine, SectionName, CommentedKey, ActiveKey;
    var line := lines[0];
    var e, r := LoadLine(d, line).value, LoadFrom(d, lines).value;
    LoadLineExtends(d, line);
    LoadExtends(e, lines[1..]);
    LineAgrees(line);
    StepTracks(d, line);
    if ReadLine(line).value.KeyLine? && ReadLine(line).value.key == k && LastPlain(d) == Some(s) {
      OpenTable(d, e, r, s, k);
      RetireHere(d, lines, s, k, c);
    } else {
      if HasItem(e, s, k) {
        SetUnderScan(d, e, line, s, k, r);
      }
      RetireFinds(e, lines[1..], s, k, c);
      RetireLater(d, lines, s, k, c);
    }
  }

  /** A line that sets `(s, k)` does so with the scan in `s`. */
  lemma {:induction false} SetUnderScan(d: Doc, e: Doc, line: string, s: string, k: string, r: Doc)
    requires Distinct(d) && LoadLine(d, line) == Some(e) && Extends(e, r) && Distinct(r)
    requires !HasItem(d, s, k) && HasItem(e, s, k) && HasPlain(r, s)
    ensures ReadLine(line).value.KeyLine? && ReadLine(line).value.key == k && LastPlain(d) == Some(s)
  {
    var i :| 0 <= i < |e| && e[i].name == s && HasKey(e[i].items, k);
    var j :| 0 <= j < |r| && r[j].name == s && r[j].plain;
    assert r[i].name == s;
    assert i == j && e[i].plain;
    assert forall q | 0 <= q < |d| - 1 :: e[q] == d[q];
  }

  /** All retired keys that stand under a plain header, gone. */
  function DropAll(d: Doc, rs: seq<Retired>): Doc
    decreases |rs|
  {
    if rs == [] then d
    else DropAll(if HasPlain(d, rs[0].section) then Drop(d, rs[0].section, rs[0].key) else d, rs[1..])
  }

  predicate Listed(rs: seq<Retired>, s: string, k: string) {
    exists i :: 0 <= i < |rs| && rs[i].section == s && rs[i].key == k
  }

  /** A list of retired keys as the drift report gives it for document `d`. */
  predicate Retirable(d: Doc, rs: seq<Retired>) {
    && Sound(d)
    && (forall i | 0 <= i < |rs| :: HasItem(d, rs[i].section, rs[i].key) && PlainText(rs[i].reason))
    && (forall i, j | 0 <= i < j < |rs| :: (rs[i].section, rs[i].key) != (rs[j].section, rs[j].key))
  }

  lemma {:induction false} DropShape(d: Doc, s: string, k: string)
    requires Sound(d)
    ensures Sound(Drop(d, s, k))
    ensures forall n :: HasPlain(Drop(d, s, k), n) <==> HasPlain(d, n)
    ensures forall n :: HasTable(Drop(d, s, k), n) <==> HasTable(d, n)
  {
    var c := Drop(d, s, k);
    assert forall i | 0 <= i < |d| :: c[i].name == d[i].name && c[i].plain == d[i].plain;
    forall i | 0 <= i < |d|
      ensures SoundTable(c[i])
    {
      assert SoundTable(d[i]);
      DropInSound(d[i], s, k);
    }
  }

  lemma {:induction false} DropInSound(t: Table, s: string, k: string)
    requires SoundTable(t)
    ensures SoundTable(DropIn(t, s, k))
  {
    DropKeySound(t.items, k);
  }

  lemma {:induction false} DropKeySound(items: seq<Item>, k: string)
    requires SoundItems(items)
    ensures SoundItems(DropKey(items, k))
  {
    if items != [] {
      assert forall i | 0 <= i < |items[1..]| :: items[1..][i] == items[i + 1];
      DropKeySound(items[1..], k);
      DropKeyHas(items[1..], k, items[0].key);
      assert !HasKey(items[1..], items[0].key);
      var r := DropKey(items, k);
      assert items[0].key != k ==> r == [items[0]] + DropKey(items[1..], k);
    }
  }

  lemma {:induction false} DropItems(d: Doc, s: string, k: string, section: string, key: string)
    requires Sound(d)
    ensures HasItem(Drop(d, s, k), section, key) <==> HasItem(d, section, key) && !(section == s && key == k)
  {
    DropShape(d, s, k);
    DropLookup(d, s, k, section, key);
    LookupMeaning(d, section, key);
    LookupMeaning(Drop(d, s, k), section, key);
  }

  lemma {:induction false} RetirableRest(d: Doc, rs: seq<Retired>, dropped: bool)
    requires Retirable(d, rs) && rs != []
    ensures Retirable(if dropped then Drop(d, rs[0].section, rs[0].key) else d, rs[1..])
  {
    DropShape(d, rs[0].section, rs[0].key);
    forall i | 0 <= i < |rs[1..]|
      ensures HasItem(Drop(d, rs[0].section, rs[0].key), rs[1..][i].section, rs[1..][i].key)
      ensures rs[1..][i] == rs[i + 1]
    {
      DropItems(d, rs[0].section, rs[0].key, rs[i + 1].section, rs[i + 1].key);
    }
  }

  lemma {:induction false} ItemKeyBare(d: Doc, s: string, k: string)
    requires Sound(d) && HasItem(d, s, k)
    ensures BareKey(k)
  {
    var i :| 0 <= i < |d| && d[i].name == s && HasKey(d[i].items, k);
    assert SoundTable(d[i]);
  }

  /** Retiring one reported key: a hidden section is left as it is; otherwise the
      key leaves the document, and no comment is lost. */
  lemma {:induction false} RetireOneLaw(e: Edit, r: Retired, version: Option<string>, d: Doc)
    requires LoadLines(e.lines) == Some(d) && AllOneLine(e.lines) && PlainVersion(version)
    requires Sound(d) && HasItem(d, r.section, r.key) && PlainText(r.reason)
    ensures var f := RetireOne(e, r, version);
            && AllOneLine(f.lines)
            && LoadLines(f.lines) == Some(if HasPlain(d, r.section) then Drop(d, r.section, r.key) else d)
            && (if HasPlain(d, r.section) then f.changes == e.changes + [RetireChange(r)] else f == e)
  {
    hide ReadLine, SectionName, CommentedKey, ActiveKey, RetiredLine, RetireChange;
    if HasPlain(d, r.section) {
      var i := FindActive(None, e.lines, r.section, r.key);
      BareReads();
      ItemKeyBare(d, r.section, r.key);
      RetireFinds([], e.lines, r.section, r.key, "#");
      LoadReads([], e.lines);
      var line := e.lines[i.value];
      var c := RetiredLine(line, r, version);
      LineAgrees(line);
      RetiredLinePlain(line, r, version);
      RetireFinds([], e.lines, r.section, r.key, c);
    } else {
      FindsNothing([], e.lines, r.section, r.key);
    }
  }

  /** Every listed key stands under a hidden header. */
  predicate AllHidden(d: Doc, rs: seq<Retired>) {
    forall i | 0 <= i < |rs| :: !HasPlain(d, rs[i].section)
  }

  lemma {:induction false} RetireAllLaw(e: Edit, rs: seq<Retired>, version: Option<string>, d: Doc)
    requires LoadLines(e.lines) == Some(d) && AllOneLine(e.lines) && PlainVersion(version)
    requires Retirable(d, rs)
    ensures var f := RetireAll(e, rs, version);
            && AllOneLine(f.lines)
            && LoadLines(f.lines) == Some(DropAll(d, rs))
    decreases |rs|
  {
    hide ReadLine, SectionName, CommentedKey, ActiveKey;
    if rs != [] {
      var r := rs[0];
      RetireOneLaw(e, r, version, d);
      RetirableRest(d, rs, HasPlain(d, r.section));
      var d1 := if HasPlain(d, r.section) then Drop(d, r.section, r.key) else d;
      RetireAllLaw(RetireOne(e, r, version), rs[1..], version, d1);
    }
  }

  /** In a file that reads, the scan finds no listed key exactly when each stands under
      a hidden header. */
  lemma {:induction false} NoneFoundHidden(lines: seq<string>, rs: seq<Retired>, d: Doc)
    requires LoadLines(lines) == Some(d) && Retirable(d, rs)
    ensures NoneFound(lines, rs) <==> AllHidden(d, rs)
  {
    hide ReadLine, SectionName, CommentedKey, ActiveKey, FindActive;
    forall i | 0 <= i < |rs|
      ensures FindActive(None, lines, rs[i].section, rs[i].key).None? <==> !HasPlain(d, rs[i].section)
    {
      var r := rs[i];
      if HasPlain(d, r.section) {
        BareReads();
        ItemKeyBare(d, r.section, r.key);
        RetireFinds([], lines, r.section, r.key, "#");
      } else {
        FindsNothing([], lines, r.section, r.key);
      }
    }
  }

  /** Exactly the listed keys under plain headers have left the document. */
  lemma {:induction false} DropAllLaw(d: Doc, rs: seq<Retired>)
    requires Sound(d)
    ensures Sound(DropAll(d, rs))
    ensures forall n :: HasPlain(DropAll(d, rs), n) <==> HasPlain(d, n)
    ensures forall n :: HasTable(DropAll(d, rs), n) <==> HasTable(d, n)
    ensures forall s, k :: Lookup(DropAll(d, rs), s, k)
                        == if Listed(rs, s, k) && HasPlain(d, s) then None else Lookup(d, s, k)
    decreases |rs|
  {
    if rs != [] {
      var r := rs[0];
      DropShape(d, r.section, r.key);
      var d1 := if HasPlain(d, r.section) then Drop(d, r.section, r.key) else d;
      DropAllLaw(d1, rs[1..]);
      forall s, k
        ensures Lookup(DropAll(d, rs), s, k)
             == if Listed(rs, s, k) && HasPlain(d, s) then None else Lookup(d, s, k)
      {
        DropLookup(d, r.section, r.key, s, k);
        ListedStep(rs, s, k);
      }
    }
  }

  lemma {:induction false} ListedStep(rs: seq<Retired>, s: string, k: string)
    requires rs != []
    ensures Listed(rs, s, k) <==> (rs[0].section == s && rs[0].key == k) || Listed(rs[1..], s, k)
  {
    if Listed(rs[1..], s, k) {
      var i :| 0 <= i < |rs[1..]| && rs[1..][i].section == s && rs[1..][i].key == k;
      assert rs[i + 1] == rs[1..][i];
    }
    assert forall i | 0 < i < |rs| :: rs[i] == rs[1..][i - 1];
  }

  // -- inserting under a section -----------------------------------------------

  lemma {:induction false} BackedOver(lines: seq<string>, floor: nat, at: nat)
    requires floor <= at <= |lines|
    ensures var i := BackOverBlanks(lines, floor, at);
            && (forall j | i <= j < at :: Strip(lines[j]) == "")
            && (i == floor || Strip(lines[i - 1]) != "")
  {
    hide Strip;
    if floor < at && Strip(lines[at - 1]) == "" {
      BackedOver(lines, floor, at - 1);
    }
  }

  lemma {:induction false} HeaderIndexFirst(lines: seq<string>, section: string)
    ensures var h := HeaderIndex(lines, section);
            forall j | 0 <= j < (if h.Some? then h.value else |lines|) :: SectionName(lines[j]) != Some(section)
  {
    hide SectionName;
    if lines != [] {
      HeaderIndexFirst(lines[1..], section);
      assert forall j | 0 < j < |lines| :: lines[j] == lines[1..][j - 1];
    }
  }

  /** Where new lines go: to the end of the section's first occurrence, in front of the
      blank lines that close it; or to the end of the file, behind a header of their own
      that one blank line sets off from the text above. */
  lemma {:induction false} InsertionPlace(lines: seq<string>, section: string, added: seq<string>)
    ensures match HeaderIndex(lines, section)
            case Some(h) =>
              var i, end := InsertionPoint(lines, h), NextHeader(lines, h + 1);
              && (forall j | 0 <= j < h :: SectionName(lines[j]) != Some(section))
              && SectionName(lines[h]) == Some(section)
              && h < i <= end && Insert(lines, section, added) == lines[..i] + added + lines[i..]
              && (forall j | h < j < end :: SectionName(lines[j]).None?)
              && (end < |lines| ==> SectionName(lines[end]).Some?)
              && (forall j | i <= j < end :: Strip(lines[j]) == "")
              && (i == h + 1 || Strip(lines[i - 1]) != "")
            case None =>
              (forall j | 0 <= j < |lines| :: SectionName(lines[j]) != Some(section)) &&
              var ended := lines == [] || Strip(lines[|lines| - 1]) == "";
              Insert(lines, section, added) == lines + (if ended then [] else [""]) + ["[" + section + "]"] + added
  {
    hide SectionName, Strip, NextHeader;
    HeaderIndexFirst(lines, section);
    match HeaderIndex(lines, section)
    case Some(h) => BackedOver(lines, h + 1, NextHeader(lines, h + 1));
    case None => assert HeaderText(section) == "[" + section + "]";
  }

  lemma {:induction false} HeaderIndexMeaning(d: Doc, lines: seq<string>, s: string)
    requires Distinct(d) && LoadFrom(d, lines).Some? && !HasPlain(d, s)
    ensures HeaderIndex(lines, s).Some? <==> HasPlain(LoadFrom(d, lines).value, s)
    decreases |lines|
  {
    hide ReadLine, SectionName, CommentedKey, ActiveKey;
    if lines != [] {
      var e := LoadLine(d, lines[0]).value;
      LineAgrees(lines[0]);
      LoadLineExtends(d, lines[0]);
      LoadExtends(e, lines[1..]);
      if SectionName(lines[0]) == Some(s) {
        assert e[|e| - 1].name == s && e[|e| - 1].plain;
        ExtendsKeepsPlain(e, LoadFrom(d, lines).value, s);
      } else {
        NoNewPlain(d, e, lines[0], s);
        HeaderIndexMeaning(e, lines[1..], s);
      }
    }
  }

  lemma {:induction false} NoNewPlain(d: Doc, e: Doc, line: string, s: string)
    requires LoadLine(d, line) == Some(e) && SectionName(line) != Some(s) && !HasPlain(d, s)
    ensures !HasPlain(e, s)
  {
    hide ReadLine, SectionName, CommentedKey, ActiveKey, BareKey, Strip, All, HasKey, HasTable;
    LineAgrees(line);
    forall i | 0 <= i < |e|
      ensures !(e[i].name == s && e[i].plain)
    {
      if i < |d| {
        assert e[i].name == d[i].name && e[i].plain == d[i].plain;
      }
    }
  }

  /** Lines that say nothing to TOML and open no section for the scanners. */
  predicate Inert(lines: seq<string>) {
    forall i | 0 <= i < |lines| :: Idle(lines[i]) && SectionName(lines[i]).None?
  }

  /** The document after a section was given room: unchanged if it has a plain
      header, one empty table longer if it has none, and broken if its header is
      hidden, for then a second header is appended. */
  function Opened(o: Option<Doc>, s: string): Option<Doc> {
    if o.None? || Hidden(o.value, s) then None
    else if HasPlain(o.value, s) then o
    else Some(o.value + [Table(s, true, [])])
  }

  lemma {:induction false} NewSectionLoads(d: Doc, lines: seq<string>, s: string)
    requires BareKey(s)
    ensures LoadFrom(d, NewSection(lines, s))
         == if HasTable(d, s) then None else Some(d + [Table(s, true, [])])
  {
    hide ReadLine, SectionName, CommentedKey, ActiveKey, HeaderText, Strip;
    HeaderTextReads(s);
    var blank := if lines != [] && Strip(lines[|lines| - 1]) != "" then [""] else [];
    BareReads();
    LoadIdle(d, blank);
    LoadConcat(d, blank, [HeaderText(s)]);
    assert [HeaderText(s)][1..] == [];
  }

  lemma {:induction false} LoadInserted(a: seq<string>, added: seq<string>, z: seq<string>)
    requires Inert(added)
    ensures LoadLines(a + added + z) == LoadLines(a + z)
  {
    hide ReadLine, SectionName, CommentedKey, ActiveKey;
    LoadConcat([], a, z);
    LoadConcat([], a + added, z);
    LoadConcat([], a, added);
    if LoadLines(a).Some? {
      LoadIdle(LoadLines(a).value, added);
    }
  }

  lemma {:induction false} LoadAppended(lines: seq<string>, s: string, added: seq<string>)
    requires BareKey(s) && Inert(added)
    ensures LoadLines(lines + NewSection(lines, s) + added)
         == match LoadLines(lines)
            case None => None
            case Some(d) => if HasTable(d, s) then None else Some(d + [Table(s, true, [])])
  {
    hide ReadLine, SectionName, CommentedKey, ActiveKey;
    var tail := NewSection(lines, s);
    LoadInserted(lines + tail, added, []);
    assert lines + tail + added + [] == lines + tail + added;
    assert lines + tail + [] == lines + tail;
    LoadConcat([], lines, tail);
    if LoadLines(lines).Some? {
      NewSectionLoads(LoadLines(lines).value, lines, s);
    }
  }

  lemma {:induction false} InsertLoads(lines: seq<string>, s: string, added: seq<string>)
    requires BareKey(s) && Inert(added)
    ensures LoadLines(Insert(lines, s, added)) == Opened(LoadLines(lines), s)
  {
    hide ReadLine, SectionName, CommentedKey, ActiveKey, NewSection, NextHeader;
    if LoadLines(lines).Some? {
      HeaderIndexMeaning([], lines, s);
    }
    match HeaderIndex(lines, s)
    case Some(h) =>
      var i := InsertionPoint(lines, h);
      assert lines == lines[..i] + lines[i..];
      LoadInserted(lines[..i], added, lines[i..]);
    case None =>
      LoadAppended(lines, s, added);
  }

  lemma {:induction false} ScanUnder(cur: Option<string>, a: seq<string>, header: string, z: seq<string>)
    requires SectionName(header).Some?
    requires forall i | 0 <= i < |z| :: SectionName(z[i]).None?
    ensures SectionAfter(cur, a + ([header] + z)) == SectionName(header)
  {
    hide ReadLine, SectionName, CommentedKey, ActiveKey;
    ScanConcat(cur, a, [header] + z);
    assert ([header] + z)[1..] == z;
    ScanStays(SectionName(header), z);
  }

  /** Anywhere between a header and the next, the scan is in that section. */
  lemma {:induction false} ScanBetween(lines: seq<string>, h: nat, i: nat)
    requires h < i <= |lines| && SectionName(lines[h]).Some?
    requires forall j | h < j < i :: SectionName(lines[j]).None?
    ensures SectionAfter(None, lines[..i]) == SectionName(lines[h])
  {
    hide ReadLine, SectionName, CommentedKey, ActiveKey;
    var z := lines[h + 1..i];
    assert lines[..i] == lines[..h] + ([lines[h]] + z);
    ScanUnder(None, lines[..h], lines[h], z);
  }

  lemma {:induction false} ScanInserted(a: seq<string>, added: seq<string>, z: seq<string>, s: string)
    requires Inert(added) && SectionAfter(None, a) == Some(s)
    ensures Commented(None, a + z) <= Commented(None, a + added + z)
    ensures forall i | 0 <= i < |added| && CommentedKey(added[i]).Some? ::
              (s, CommentedKey(added[i]).value) in Commented(None, a + added + z)
  {
    hide ReadLine, SectionName, CommentedKey, ActiveKey;
    forall i | 0 <= i < |added| && CommentedKey(added[i]).Some?
      ensures (s, CommentedKey(added[i]).value) in Commented(Some(s), added)
    {
      ScanSees(s, added, CommentedKey(added[i]).value);
    }
    ScanStays(Some(s), added);
    ScanConcat(None, a, z);
    ScanConcat(None, a + added, z);
    ScanConcat(None, a, added);
  }

  lemma {:induction false} InsertScan(lines: seq<string>, s: string, added: seq<string>)
    requires BareKey(s) && Inert(added)
    ensures Commented(None, lines) <= Commented(None, Insert(lines, s, added))
    ensures forall i | 0 <= i < |added| && CommentedKey(added[i]).Some? ::
              (s, CommentedKey(added[i]).value) in Commented(None, Insert(lines, s, added))
  {
    hide ReadLine, SectionName, CommentedKey, ActiveKey, HeaderText, Strip, NextHeader;
    match HeaderIndex(lines, s)
    case Some(h) =>
      var i := InsertionPoint(lines, h);
      ScanBetween(lines, h, i);
      assert lines == lines[..i] + lines[i..];
      ScanInserted(lines[..i], added, lines[i..], s);
    case None =>
      var tail := NewSection(lines, s);
      HeaderTextReads(s);
      assert tail[|tail| - 1] == HeaderText(s);
      ScanUnder(None, lines + tail[..|tail| - 1], HeaderText(s), []);
      assert lines + tail == lines + tail[..|tail| - 1] + ([HeaderText(s)] + []);
      ScanInserted(lines + tail, added, [], s);
      ScanConcat(None, lines, tail);
      assert lines + tail + [] == lines + tail;
      assert lines + tail + added + [] == lines + tail + added;
  }

  lemma {:induction false} ScanOnly(s: string, added: seq<string>, x: (string, string))
    requires forall i | 0 <= i < |added| :: SectionName(added[i]).None?
    requires x in Commented(Some(s), added)
    ensures x.0 == s && exists i :: 0 <= i < |added| && CommentedKey(added[i]) == Some(x.1)
    decreases |added|
  {
    hide ReadLine, SectionName, CommentedKey, ActiveKey;
    assert SectionName(added[0]).None?;
    if x !in CommentedAt(Some(s), added[0]) {
      ScanOnly(s, added[1..], x);
      var i :| 0 <= i < |added[1..]| && CommentedKey(added[1..][i]) == Some(x.1);
      assert added[i + 1] == added[1..][i];
    }
  }

  lemma {:induction false} ScanInsertedOnly(a: seq<string>, added: seq<string>, z: seq<string>, s: string, x: (string, string))
    requires Inert(added) && SectionAfter(None, a) == Some(s)
    requires x in Commented(None, a + added + z) && x !in Commented(None, a + z)
    ensures x in Commented(Some(s), added)
  {
    hide ReadLine, SectionName, CommentedKey, ActiveKey, Commented, SectionAfter;
    ScanStays(Some(s), added);
    ScanConcat(None, a, z);
    ScanConcat(None, a + added, z);
    ScanConcat(None, a, added);
  }

  /** An insertion shows the comment scanner nothing but the inserted keys. */
  lemma {:induction false} InsertScanOnly(lines: seq<string>, s: string, added: seq<string>, x: (string, string))
    requires BareKey(s) && Inert(added)
    requires x in Commented(None, Insert(lines, s, added)) && x !in Commented(None, lines)
    ensures x.0 == s && exists i :: 0 <= i < |added| && CommentedKey(added[i]) == Some(x.1)
  {
    hide ReadLine, SectionName, CommentedKey, ActiveKey, HeaderText, Strip, NextHeader, Commented, SectionAfter;
    match HeaderIndex(lines, s)
    case Some(h) =>
      var i := InsertionPoint(lines, h);
      ScanBetween(lines, h, i);
      assert lines == lines[..i] + lines[i..];
      ScanInsertedOnly(lines[..i], added, lines[i..], s, x);
      ScanOnly(s, added, x);
    case None =>
      var tail := NewSection(lines, s);
      NewSectionScan(lines, s);
      ScanConcat(None, lines, tail);
      assert lines + tail + [] == lines + tail && lines + tail + added + [] == lines + tail + added;
      ScanInsertedOnly(lines + tail, added, [], s, x);
      ScanOnly(s, added, x);
  }

  lemma {:induction false} NewSectionScan(lines: seq<string>, s: string)
    requires BareKey(s)
    ensures SectionAfter(None, lines + NewSection(lines, s)) == Some(s)
    ensures forall cur :: Commented(cur, NewSection(lines, s)) == {}
  {
    hide ReadLine, ActiveKey, HeaderText, Strip;
    var tail := NewSection(lines, s);
    HeaderTextReads(s);
    assert tail[|tail| - 1] == HeaderText(s);
    ScanUnder(None, lines + tail[..|tail| - 1], HeaderText(s), []);
    assert lines + tail == lines + tail[..|tail| - 1] + ([HeaderText(s)] + []);
    forall cur: Option<string>
      ensures Commented(cur, tail) == {}
    {
      HeaderScan(cur, HeaderText(s), s);
      assert CommentedKey("") == None;
      assert [] + [HeaderText(s)] == [HeaderText(s)];
      ScanConcat(cur, [""], [HeaderText(s)]);
      ScanConcat(cur, [], [HeaderText(s)]);
      assert [""][1..] == [];
    }
  }

  lemma {:induction false} HeaderScan(cur: Option<string>, line: string, s: string)
    requires SectionName(line) == Some(s)
    ensures Commented(cur, [line]) == {}
  {
    assert [line][1..] == [];
  }
}
