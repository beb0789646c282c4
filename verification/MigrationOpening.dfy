/** Where added comments land, and what opening one does: inside its own section it
    sets the schema default and nothing else. */
module MigrationOpening {
  import opened Text
  import opened Toml
  import opened ConfigLines
  import opened ConfigSchema
  import opened TomlLaws
  import opened Migration
  import opened MigrationEdits
  import opened MigrationAdding
  import opened MigrationLaws
  import opened MigrationFile

  // -- where an insertion lands ------------------------------------------------

  /** No header with a trailing comment comes right after the section. */
  predicate FollowedByPlain(d: Doc, s: string) {
    forall i, j | 0 <= i < |d| && 0 <= j < |d| && j == i + 1 :: d[i].name == s ==> d[j].plain
  }

  lemma {:induction false} RStripKeepsInk(u: string)
    requires u != [] && !IsSpace(u[0])
    ensures RStrip(u) != []
  {
    if IsSpace(u[|u| - 1]) {
      RStripKeepsInk(u[..|u| - 1]);
    }
  }

  lemma {:induction false} InkSeen(line: string)
    requires ReadLine(line).Some? && !ReadLine(line).value.BlankLine?
    ensures Strip(line) != ""
  {
    var t := Skip(line, Blank);
    SkipBlankFirst(line);
    if t[0] != '#' && t[0] != '[' {
      KeyShape(t);
      BareKeyTrimmed(ReadKey(t).value.key);
      TakeSkip(t, WordDash);
    }
    NoSpace(t);
    RStripKeepsInk(t);
  }

  lemma {:induction false} BlankIsIdle(line: string)
    requires ReadLine(line).Some? && Strip(line) == ""
    ensures Idle(line)
  {
    if !ReadLine(line).value.BlankLine? {
      InkSeen(line);
    }
  }

  lemma {:induction false} BlanksBehind(lines: seq<string>, floor: nat, at: nat)
    requires floor <= at <= |lines|
    ensures forall j | BackOverBlanks(lines, floor, at) <= j < at :: Strip(lines[j]) == ""
    decreases at
  {
    if floor < at && Strip(lines[at - 1]) == "" {
      BlanksBehind(lines, floor, at - 1);
    }
  }

  predicate AllIdle(lines: seq<string>) {
    forall j | 0 <= j < |lines| :: Idle(lines[j])
  }

  /** What an insertion backs over says nothing to TOML. */
  lemma {:induction false} BackedOverIdle(lines: seq<string>, h: nat)
    requires h < |lines| && LoadLines(lines).Some?
    ensures AllIdle(lines[InsertionPoint(lines, h)..NextHeader(lines, h + 1)])
  {
    var i, end := InsertionPoint(lines, h), NextHeader(lines, h + 1);
    LoadReads([], lines);
    BlanksBehind(lines, h + 1, end);
    forall j | i <= j < end
      ensures Idle(lines[j])
    {
      BlankIsIdle(lines[j]);
    }
  }

  /** Up to a place between a plain header and the next, that header's table is the
      last plain one. */
  lemma {:induction false} UpToInsertion(lines: seq<string>, h: nat, i: nat)
    requires LoadLines(lines).Some? && h < i <= |lines| && SectionName(lines[h]).Some?
    requires forall j | h < j < i :: SectionName(lines[j]).None?
    ensures LoadLines(lines[..i]).Some?
    ensures LastPlain(LoadLines(lines[..i]).value) == SectionName(lines[h])
    ensures LoadFrom(LoadLines(lines[..i]).value, lines[i..]) == LoadLines(lines)
    ensures Distinct(LoadLines(lines[..i]).value)
  {
    hide ReadLine, SectionName, CommentedKey, ActiveKey;
    LoadConcat([], lines[..i], lines[i..]);
    assert lines == lines[..i] + lines[i..];
    LoadExtends([], lines[..i]);
    ScanTracks([], lines[..i]);
    ScanBetween(lines, h, i);
  }

  lemma {:induction false} HeaderOpens(p: Doc, z: seq<string>)
    requires Distinct(p) && z != [] && LoadFrom(p, z).Some? && SectionName(z[0]).Some?
    ensures var d := LoadFrom(p, z).value; |d| > |p| && d[|p|].plain
  {
    hide ReadLine, SectionName, CommentedKey, ActiveKey;
    var e := LoadLine(p, z[0]).value;
    LineAgrees(z[0]);
    LoadLineExtends(p, z[0]);
    LoadExtends(e, z[1..]);
    assert |e| == |p| + 1 && e[|p|].plain;
  }

  /** Behind idle lines and a header the scanners see, the next table is plain. */
  lemma {:induction false} NextIsPlain(p: Doc, idle: seq<string>, z: seq<string>)
    requires Distinct(p) && LoadFrom(p, idle + z).Some?
    requires AllIdle(idle)
    requires z != [] ==> SectionName(z[0]).Some?
    ensures var d := LoadFrom(p, idle + z).value; |d| == |p| || (|d| > |p| && d[|p|].plain)
  {
    hide ReadLine, SectionName, CommentedKey, ActiveKey;
    LoadConcat(p, idle, z);
    LoadIdle(p, idle);
    if z != [] {
      HeaderOpens(p, z);
    }
  }

  /** What `p` may still become: nothing, or `p` with a plain table behind it. */
  predicate NextPlain(p: Doc, d: Doc) { Extends(p, d) && (|d| == |p| || d[|p|].plain) }

  lemma {:induction false} IdleThenPlain(p: Doc, idle: seq<string>, z: seq<string>, d: Doc)
    requires Distinct(p) && LoadFrom(p, idle + z) == Some(d)
    requires AllIdle(idle)
    requires z != [] ==> SectionName(z[0]).Some?
    ensures NextPlain(p, d)
  {
    hide ReadLine, SectionName, CommentedKey, ActiveKey;
    LoadExtends(p, idle + z);
    NextIsPlain(p, idle, z);
  }

  /** From the insertion point on there are blank lines, and then the next header the
      scanners see, or the end. */
  lemma {:induction false} AfterInsertion(lines: seq<string>, h: nat, i: nat, d: Doc)
    requires LoadLines(lines) == Some(d) && h < |lines| && SectionName(lines[h]).Some?
    requires i == InsertionPoint(lines, h)
    ensures LoadLines(lines[..i]).Some?
    ensures LastPlain(LoadLines(lines[..i]).value) == SectionName(lines[h])
    ensures NextPlain(LoadLines(lines[..i]).value, d)
  {
    hide ReadLine, SectionName, CommentedKey, ActiveKey;
    var end := NextHeader(lines, h + 1);
    UpToInsertion(lines, h, i);
    BackedOverIdle(lines, h);
    assert lines[i..] == lines[i..end] + lines[end..];
    IdleThenPlain(LoadLines(lines[..i]).value, lines[i..end], lines[end..], d);
  }

  /** The last plain table, and only tables with commented headers behind it. */
  lemma {:induction false} LastPlainAt(p: Doc, s: string) returns (q: nat)
    requires LastPlain(p) == Some(s)
    ensures q < |p| && p[q].name == s && p[q].plain
    ensures forall x | q < x < |p| :: !p[x].plain
    decreases |p|
  {
    if p[|p| - 1].plain {
      q := |p| - 1;
    } else {
      q := LastPlainAt(p[..|p| - 1], s);
      assert forall x | 0 <= x < |p| - 1 :: p[x] == p[..|p| - 1][x];
    }
  }

  lemma {:induction false} LandsIff(p: Doc, d: Doc, s: string)
    requires Distinct(d) && LastPlain(p) == Some(s) && NextPlain(p, d)
    ensures p != [] && (p[|p| - 1].name == s <==> FollowedByPlain(d, s))
  {
    var q := LastPlainAt(p, s);
    var m := |p| - 1;
    assert forall i | 0 <= i < |p| :: d[i].name == p[i].name && d[i].plain == p[i].plain;
    assert q < m ==> !d[q + 1].plain;
  }

  /** An insertion lands inside its own section, as TOML reads the file, exactly when
      the header after that section carries no comment. */
  lemma {:induction false} InsertionLands(lines: seq<string>, s: string)
    requires LoadLines(lines).Some? && HeaderIndex(lines, s).Some?
    ensures var i := InsertionPoint(lines, HeaderIndex(lines, s).value);
            && LoadLines(lines[..i]).Some? && LoadLines(lines[..i]).value != []
            && var p := LoadLines(lines[..i]).value;
               p[|p| - 1].name == s <==> FollowedByPlain(LoadLines(lines).value, s)
  {
    hide ReadLine, SectionName, CommentedKey, ActiveKey;
    var h := HeaderIndex(lines, s).value;
    var i := InsertionPoint(lines, h);
    AfterInsertion(lines, h, i, LoadLines(lines).value);
    LoadExtends([], lines);
    LandsIff(LoadLines(lines[..i]).value, LoadLines(lines).value, s);
  }

  // -- opening an added line ---------------------------------------------------

  /** `line` stands somewhere in the file where TOML is in section `s`. */
  predicate Stands(lines: seq<string>, s: string, line: string, j: nat) {
    && j < |lines| && lines[j] == line
    && LoadLines(lines[..j]).Some?
    && var p := LoadLines(lines[..j]).value; p != [] && p[|p| - 1].name == s
  }

  ghost predicate Placed(lines: seq<string>, s: string, line: string) {
    exists j :: Stands(lines, s, line, j)
  }

  lemma {:induction false} PlacedInserted(a: seq<string>, added: seq<string>, z: seq<string>, s: string, line: string)
    requires Inert(added) && Placed(a + z, s, line)
    ensures Placed(a + added + z, s, line)
  {
    hide ReadLine, SectionName, CommentedKey, ActiveKey;
    var lines, out := a + z, a + added + z;
    var j: nat :| Stands(lines, s, line, j);
    if j < |a| {
      assert out[..j] == lines[..j];
      assert Stands(out, s, line, j);
    } else {
      var z1 := z[..j - |a|];
      assert lines[..j] == a + z1;
      assert out[..j + |added|] == a + added + z1;
      LoadInserted(a, added, z1);
      assert Stands(out, s, line, j + |added|);
    }
  }

  lemma {:induction false} PlacedAppended(lines: seq<string>, more: seq<string>, s: string, line: string)
    requires Placed(lines, s, line)
    ensures Placed(lines + more, s, line)
  {
    hide ReadLine, SectionName, CommentedKey, ActiveKey;
    var j: nat :| Stands(lines, s, line, j);
    assert (lines + more)[..j] == lines[..j];
    assert Stands(lines + more, s, line, j);
  }

  lemma {:induction false} InsertKeepsPlaced(lines: seq<string>, t: string, added: seq<string>, s: string, line: string)
    requires Inert(added) && Placed(lines, s, line)
    ensures Placed(Insert(lines, t, added), s, line)
  {
    hide ReadLine, SectionName, CommentedKey, ActiveKey;
    match HeaderIndex(lines, t)
    case Some(h) =>
      var i := InsertionPoint(lines, h);
      assert lines == lines[..i] + lines[i..];
      PlacedInserted(lines[..i], added, lines[i..], s, line);
    case None =>
      PlacedAppended(lines, NewSection(lines, t) + added, s, line);
      assert lines + NewSection(lines, t) + added == lines + (NewSection(lines, t) + added);
  }

  lemma {:induction false} PlacedBehind(a: seq<string>, added: seq<string>, z: seq<string>, s: string, n: nat)
    requires Inert(added) && n < |added| && LoadLines(a).Some?
    requires var p := LoadLines(a).value; p != [] && p[|p| - 1].name == s
    ensures Placed(a + added + z, s, added[n])
  {
    hide ReadLine, SectionName, CommentedKey, ActiveKey;
    var out := a + added + z;
    assert out[..|a| + n] == a + added[..n];
    LoadConcat([], a, added[..n]);
    LoadIdle(LoadLines(a).value, added[..n]);
    assert Stands(out, s, added[n], |a| + n);
  }

  /** What is inserted for a section stands in that section. */
  lemma {:induction false} InsertPlaces(lines: seq<string>, s: string, added: seq<string>, n: nat)
    requires BareKey(s) && Inert(added) && n < |added| && LoadLines(lines).Some?
    requires !Hidden(LoadLines(lines).value, s) && FollowedByPlain(LoadLines(lines).value, s)
    ensures Placed(Insert(lines, s, added), s, added[n])
  {
    hide ReadLine, SectionName, CommentedKey, ActiveKey;
    var d := LoadLines(lines).value;
    HeaderIndexMeaning([], lines, s);
    match HeaderIndex(lines, s)
    case Some(h) =>
      InsertionLands(lines, s);
      var i := InsertionPoint(lines, h);
      PlacedBehind(lines[..i], added, lines[i..], s, n);
    case None =>
      var tail := NewSection(lines, s);
      LoadConcat([], lines, tail);
      NewSectionLoads(d, lines, s);
      PlacedBehind(lines + tail, added, [], s, n);
      assert lines + tail + added + [] == lines + tail + added;
  }

  lemma {:induction false} AddAllKeepsPlaced(e: Edit, groups: seq<Group>, version: Option<string>, s: string, line: string)
    requires PlainVersion(version) && GoodGroups(groups) && Placed(e.lines, s, line)
    ensures Placed(AddAll(e, groups, version).lines, s, line)
    decreases |groups|
  {
    hide ReadLine, SectionName, CommentedKey, ActiveKey;
    if groups != [] {
      GroupRest(groups);
      AddedLinesLaw(groups[0].items, version);
      InsertKeepsPlaced(e.lines, groups[0].section, AddedLines(groups[0].items, version), s, line);
      AddAllKeepsPlaced(AddGroup(e, groups[0], version), groups[1..], version, s, line);
    }
  }

  lemma {:induction false} OpenedFollowed(d: Doc, t: string, s: string)
    requires Sound(d) && !Hidden(d, t) && FollowedByPlain(d, s)
    ensures FollowedByPlain(Opened(Some(d), t).value, s)
  {
    var e := Opened(Some(d), t).value;
    assert forall i | 0 <= i < |d| :: e[i] == d[i];
  }

  /** Every comment added for a section that is followed by a plain header stands in
      that section of the result. */
  lemma {:induction false} AddAllPlaces(e: Edit, groups: seq<Group>, version: Option<string>, d: Doc, m: Missing)
    requires PlainVersion(version) && GoodGroups(groups) && InGroups(groups, m)
    requires LoadLines(e.lines) == Some(d) && Sound(d) && !AnyHidden(d, groups)
    requires FollowedByPlain(d, m.section)
    ensures Placed(AddAll(e, groups, version).lines, m.section, AddedLine(m, version))
    decreases |groups|
  {
    hide ReadLine, SectionName, CommentedKey, ActiveKey;
    var g := groups[0];
    var f := AddGroup(e, g, version);
    var added := AddedLines(g.items, version);
    GroupRest(groups);
    AddedLinesLaw(g.items, version);
    assert !Hidden(d, groups[0].section);
    if m in g.items {
      var n :| 0 <= n < |g.items| && g.items[n] == m;
      InsertPlaces(e.lines, g.section, added, n);
      AddAllKeepsPlaced(f, groups[1..], version, m.section, AddedLine(m, version));
    } else {
      InGroupsStep(groups, m);
      InsertLoads(e.lines, g.section, added);
      OpenedLaw(d, g.section);
      OpenedFollowed(d, g.section, m.section);
      assert forall i | 0 <= i < |groups[1..]| :: groups[1..][i] == groups[i + 1];
      AddAllPlaces(f, groups[1..], version, Opened(Some(d), g.section).value, m);
    }
  }

  lemma {:induction false} DropAllFollowed(d: Doc, rs: seq<Retired>, s: string)
    requires FollowedByPlain(d, s)
    ensures FollowedByPlain(DropAll(d, rs), s)
    decreases |rs|
  {
    if rs != [] {
      var r := rs[0];
      var e := Drop(d, r.section, r.key);
      assert forall i | 0 <= i < |d| :: e[i].name == d[i].name && e[i].plain == d[i].plain;
      DropAllFollowed(if HasPlain(d, r.section) then e else d, rs[1..], s);
    }
  }

  // -- what opening does to the document ---------------------------------------

  lemma {:induction false} LiftLine(x: Doc, line: string, s: string, k: string)
    requires Distinct(x) && HasItem(x, s, k) && LoadLine(Drop(x, s, k), line).Some?
    requires !HasItem(LoadLine(Drop(x, s, k), line).value, s, k)
    ensures LoadLine(x, line).Some?
    ensures Drop(LoadLine(x, line).value, s, k) == LoadLine(Drop(x, s, k), line).value
    ensures Lookup(LoadLine(x, line).value, s, k) == Lookup(x, s, k)
  {
    hide ReadLine, SectionName, CommentedKey, ActiveKey;
    var c := Drop(x, s, k);
    var y := LoadLine(c, line).value;
    match ReadLine(line).value
    case BlankLine =>
    case CommentLine =>
    case HeaderLine(name, plain) =>
      assert forall i | 0 <= i < |x| :: c[i].name == x[i].name;
      LookupMore(x, Table(name, plain, []), s, k);
      LoadLineDrop(x, line, s, k);
    case KeyLine(key, value) =>
      var last := |x| - 1;
      DropKeyHas(x[last].items, k, key);
      GrownHas(c, Item(key, value));
      assert !HasKey(x[last].items, key);
      LoadLineDrop(x, line, s, k);
      GrownLookup(x, Item(key, value), s, k);
  }

  lemma {:induction false} FindItemGrown(items: seq<Item>, more: Item, k: string)
    ensures FindItem(items + [more], k)
         == if FindItem(items, k).None? && more.key == k then Some(more.value) else FindItem(items, k)
  {
    if items == [] {
      assert items + [more] == [more];
    } else {
      assert (items + [more])[1..] == items[1..] + [more];
      FindItemGrown(items[1..], more, k);
    }
  }

  /** One more item in the last table. */
  function Grown(d: Doc, it: Item): Doc
    requires d != []
  {
    var t := d[|d| - 1];
    d[..|d| - 1] + [t.(items := t.items + [it])]
  }

  lemma {:induction false} GrownHas(d: Doc, it: Item)
    requires d != []
    ensures HasItem(Grown(d, it), d[|d| - 1].name, it.key)
  {
    var t := Grown(d, it)[|d| - 1];
    assert t.items[|t.items| - 1].key == it.key;
  }

  lemma {:induction false} GrownLookup(d: Doc, it: Item, s: string, k: string)
    requires d != [] && Distinct(d)
    ensures Distinct(Grown(d, it))
    ensures Lookup(Grown(d, it), s, k)
         == if d[|d| - 1].name == s && it.key == k && Lookup(d, s, k).None? then Some(it.value) else Lookup(d, s, k)
  {
    var e, last := Grown(d, it), |d| - 1;
    assert forall i | 0 <= i < last :: e[i] == d[i];
    assert e[last].name == d[last].name;
    FindItemGrown(d[last].items, it, k);
    if i :| 0 <= i < |d| && d[i].name == s {
      LookupAt(d, i, k);
      LookupAt(e, i, k);
    } else {
      LookupNone(d, s, k);
      LookupNone(e, s, k);
    }
  }

  lemma {:induction false} LiftLines(x: Doc, lines: seq<string>, s: string, k: string)
    requires Distinct(x) && HasItem(x, s, k) && LoadFrom(Drop(x, s, k), lines).Some?
    requires !HasItem(LoadFrom(Drop(x, s, k), lines).value, s, k)
    ensures LoadFrom(x, lines).Some?
    ensures Drop(LoadFrom(x, lines).value, s, k) == LoadFrom(Drop(x, s, k), lines).value
    ensures Lookup(LoadFrom(x, lines).value, s, k) == Lookup(x, s, k)
    decreases |lines|
  {
    hide ReadLine, SectionName, CommentedKey, ActiveKey;
    if lines != [] {
      var c := Drop(x, s, k);
      var y := LoadLine(c, lines[0]).value;
      assert Distinct(c) by {
        assert forall i | 0 <= i < |x| :: c[i].name == x[i].name;
      }
      LoadLineExtends(c, lines[0]);
      LoadExtends(y, lines[1..]);
      if HasItem(y, s, k) {
        ExtendsKeepsItem(y, LoadFrom(y, lines[1..]).value, s, k);
        assert false;
      }
      LiftLine(x, lines[0], s, k);
      var e := LoadLine(x, lines[0]).value;
      LoadLineExtends(x, lines[0]);
      LookupMeaning(x, s, k);
      LookupMeaning(e, s, k);
      LiftLines(e, lines[1..], s, k);
    }
  }

  /** Writing `key = value` where TOML is in a section that lacks the key adds that
      item to the document and changes nothing else. */
  lemma {:induction false} OpeningSets(lines: seq<string>, s: string, line: string, j: nat, setter: string, k: string, v: Value)
    requires Stands(lines, s, line, j) && ReadLine(line) == Some(CommentLine)
    requires LoadLines(lines).Some? && Lookup(LoadLines(lines).value, s, k).None?
    requires ReadLine(setter) == Some(KeyLine(k, v))
    ensures LoadLines(lines[j := setter]).Some?
    ensures forall s', k' :: Lookup(LoadLines(lines[j := setter]).value, s', k')
                          == if s' == s && k' == k then Some(v) else Lookup(LoadLines(lines).value, s', k')
  {
    hide ReadLine, SectionName, CommentedKey, ActiveKey;
    var p, d := LoadLines(lines[..j]).value, LoadLines(lines).value;
    var z := lines[j + 1..];
    SplitThree(lines, j);
    LoadConcat([], lines[..j], [line] + z);
    LoadConcat([], lines[..j], [setter] + z);
    assert ([line] + z)[1..] == z && ([setter] + z)[1..] == z;
    LoadExtends([], lines[..j]);
    LoadExtends([], lines);
    LoadExtends(p, z);
    assert LoadFrom(p, z) == Some(d);
    LookupMeaning(d, s, k);
    LookupMeaning(p, s, k);
    if HasItem(p, s, k) {
      ExtendsKeepsItem(p, d, s, k);
      assert false;
    }
    var x := Grown(p, Item(k, v));
    GrownLookup(p, Item(k, v), s, k);
    LookupMeaning(x, s, k);
    assert !HasKey(p[|p| - 1].items, k);
    DropFresh(p, s, k, v);
    assert Drop(x, s, k) == p;
    assert LoadLine(p, setter) == Some(x);
    LiftLines(x, z, s, k);
    var e := LoadFrom(x, z).value;
    forall s', k'
      ensures Lookup(e, s', k') == if s' == s && k' == k then Some(v) else Lookup(d, s', k')
    {
      DropLookup(e, s, k, s', k');
    }
  }

  /** Line `j` is the comment added for `m`, in the section of `m`, and dropping its
      comment mark makes the file set that key to exactly the schema default and
      changes no other lookup. */
  ghost predicate OpensToDefault(lines: seq<string>, j: nat, m: Missing, version: Option<string>) {
    && Stands(lines, m.section, AddedLine(m, version), j)
    && var setter := lines[j][2..];
       var before, after := LoadLines(lines), LoadLines(lines[j := setter]);
       && before.Some? && after.Some?
       && forall s, k :: Lookup(after.value, s, k)
                      == if s == m.section && k == m.key then Some(m.default) else Lookup(before.value, s, k)
  }

  lemma {:induction false} PlacedOpens(lines: seq<string>, m: Missing, version: Option<string>)
    requires PlainMissing(m) && PlainVersion(version)
    requires Placed(lines, m.section, AddedLine(m, version))
    requires LoadLines(lines).Some? && Lookup(LoadLines(lines).value, m.section, m.key).None?
    ensures exists j :: OpensToDefault(lines, j, m, version)
  {
    hide ReadLine, SectionName, CommentedKey, ActiveKey;
    AddedLinePlain(m, version);
    OpenLineReads(m, version);
    var j: nat :| Stands(lines, m.section, AddedLine(m, version), j);
    assert lines[j][2..] == OpenLine(m, version);
    OpeningSets(lines, m.section, AddedLine(m, version), j, OpenLine(m, version), m.key, m.default);
    assert OpensToDefault(lines, j, m, version);
  }

  lemma {:induction false} MissingPlaced(schema: Schema, text: string, version: Option<string>, m: Missing)
    requires WellFormed(schema) && PlainVersion(version) && m in Diff(schema, text).missing
    requires !Blocked(schema, text, version) && FollowedByPlain(Reread(schema, text, version).value, m.section)
    ensures Placed(Rewrite(schema, text, version).lines, m.section, AddedLine(m, version))
  {
    hide ReadLine, SectionName, CommentedKey, ActiveKey;
    var mid := RetireAll(Edit(SplitLines(text), []), Diff(schema, text).deprecated, version);
    var d, groups := Reread(schema, text, version).value, Groups(schema, text);
    ReportGroups(schema, text);
    MissingHiddenGroups(schema, text, d);
    LoadSound([], mid.lines);
    AddAllPlaces(mid, groups, version, d, m);
  }

  /** The comment for a missing key can be opened, if the header after its section
      carries no comment and re-reading does not set the key. */
  lemma {:induction false} PlacedOpening(schema: Schema, text: string, version: Option<string>, m: Missing)
    requires WellFormed(schema) && PlainVersion(version) && m in Diff(schema, text).missing
    requires !Blocked(schema, text, version)
    requires var d := Reread(schema, text, version).value;
             FollowedByPlain(d, m.section) && Lookup(d, m.section, m.key).None?
    ensures exists j :: OpensToDefault(SplitLines(Migrate(schema, text, version).0), j, m, version)
  {
    hide ReadLine, SectionName, CommentedKey, ActiveKey, FirstPass;
    MissingPlaced(schema, text, version, m);
    MissingGood(schema, text, m);
    NewText(schema, text, version);
    MigrationExact(schema, text, version);
    PlacedOpens(Rewrite(schema, text, version).lines, m, version);
  }

  /** Opening a comment gives a file that reads only if the key was not set there. */
  lemma {:induction false} OpeningNeedsAbsent(lines: seq<string>, s: string, line: string, j: nat, setter: string, k: string, v: Value)
    requires Stands(lines, s, line, j) && ReadLine(line) == Some(CommentLine)
    requires ReadLine(setter) == Some(KeyLine(k, v)) && LoadLines(lines[j := setter]).Some?
    ensures LoadLines(lines).Some? && Lookup(LoadLines(lines).value, s, k).None?
  {
    hide ReadLine, SectionName, CommentedKey, ActiveKey;
    var p, z := LoadLines(lines[..j]).value, lines[j + 1..];
    SplitThree(lines, j);
    LoadConcat([], lines[..j], [line] + z);
    LoadConcat([], lines[..j], [setter] + z);
    LoadExtends([], lines[..j]);
    assert ([setter] + z)[0 := line] == [line] + z && ([setter] + z)[0] == setter;
    var last := |p| - 1;
    forall i | 0 <= i < |p| && p[i].name == s
      ensures !HasKey(p[i].items, k)
    {
      assert i == last;
    }
    RetireHere(p, [setter] + z, s, k, line);
    var x := LoadFrom(p, [setter] + z).value;
    DropLookup(x, s, k, s, k);
  }
}
