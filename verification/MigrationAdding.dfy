/** The second pass of a migration: missing keys grouped by section, and each group
    added as comments at the end of its section. */
module MigrationAdding {
  import opened Text
  import opened Toml
  import opened ConfigLines
  import opened ConfigSchema
  import opened TomlLaws
  import opened Migration
  import opened MigrationEdits

  // -- grouping ----------------------------------------------------------------

  predicate GoodMissing(m: Missing) { BareKey(m.section) && PlainMissing(m) }

  predicate GoodGroup(g: Group) {
    && g.items != []
    && forall i | 0 <= i < |g.items| :: GoodMissing(g.items[i]) && g.items[i].section == g.section
  }

  predicate GoodGroups(groups: seq<Group>) { forall i | 0 <= i < |groups| :: GoodGroup(groups[i]) }

  predicate InGroups(groups: seq<Group>, m: Missing) {
    exists i :: 0 <= i < |groups| && m in groups[i].items
  }

  lemma {:induction false} InGroupsStep(groups: seq<Group>, m: Missing)
    requires groups != []
    ensures InGroups(groups, m) <==> m in groups[0].items || InGroups(groups[1..], m)
  {
    assert forall i | 0 <= i < |groups[1..]| :: groups[1..][i] == groups[i + 1];
    assert forall i | 0 < i < |groups| :: groups[i] == groups[1..][i - 1];
  }

  lemma {:induction false} AddToGroupLaw(groups: seq<Group>, m: Missing)
    requires GoodGroups(groups) && GoodMissing(m)
    ensures GoodGroups(AddToGroup(groups, m))
    ensures forall x :: InGroups(AddToGroup(groups, m), x) <==> InGroups(groups, x) || x == m
  {
    var r := AddToGroup(groups, m);
    if groups != [] {
      if groups[0].section == m.section {
        assert r[1..] == groups[1..];
      } else {
        AddToGroupLaw(groups[1..], m);
        assert r[1..] == AddToGroup(groups[1..], m);
      }
      forall x
        ensures InGroups(r, x) <==> InGroups(groups, x) || x == m
      {
        InGroupsStep(groups, x);
        InGroupsStep(r, x);
      }
    } else {
      forall x
        ensures InGroups(r, x) <==> x == m
      {
        InGroupsStep(r, x);
      }
    }
  }

  /** Grouping keeps every missing key and invents none. */
  lemma {:induction false} GroupLaw(groups: seq<Group>, ms: seq<Missing>)
    requires GoodGroups(groups) && forall i | 0 <= i < |ms| :: GoodMissing(ms[i])
    ensures GoodGroups(GroupBySection(groups, ms))
    ensures forall x :: InGroups(GroupBySection(groups, ms), x) <==> InGroups(groups, x) || x in ms
    decreases |ms|
  {
    if ms != [] {
      AddToGroupLaw(groups, ms[0]);
      GroupLaw(AddToGroup(groups, ms[0]), ms[1..]);
      assert ms == [ms[0]] + ms[1..];
    }
  }

  // -- adding all groups -------------------------------------------------------

  lemma {:induction false} AddedLinesAt(ms: seq<Missing>, version: Option<string>)
    ensures |AddedLines(ms, version)| == |ms|
    ensures forall i | 0 <= i < |ms| :: AddedLines(ms, version)[i] == AddedLine(ms[i], version)
  {
    hide AddedLine;
    if ms != [] {
      AddedLinesAt(ms[1..], version);
      assert forall i | 0 < i < |ms| :: ms[i] == ms[1..][i - 1];
    }
  }

  lemma {:induction false} AddedLinesLaw(ms: seq<Missing>, version: Option<string>)
    requires PlainVersion(version) && forall i | 0 <= i < |ms| :: PlainMissing(ms[i])
    ensures |AddedLines(ms, version)| == |ms|
    ensures forall i | 0 <= i < |ms| :: AddedLines(ms, version)[i] == AddedLine(ms[i], version)
    ensures forall i | 0 <= i < |ms| :: CommentedKey(AddedLines(ms, version)[i]) == Some(ms[i].key)
    ensures Inert(AddedLines(ms, version)) && AllOneLine(AddedLines(ms, version))
  {
    hide ReadLine, SectionName, CommentedKey, ActiveKey, AddedLine;
    AddedLinesAt(ms, version);
    var added := AddedLines(ms, version);
    forall i | 0 <= i < |ms|
      ensures CommentedKey(added[i]) == Some(ms[i].key) && OneLine(added[i])
      ensures Idle(added[i]) && SectionName(added[i]).None?
    {
      AddedLinePlain(ms[i], version);
    }
  }

  /** The document after room was made for every group. */
  function AddedDoc(o: Option<Doc>, groups: seq<Group>): Option<Doc>
    decreases |groups|
  {
    if groups == [] then o else AddedDoc(Opened(o, groups[0].section), groups[1..])
  }

  lemma {:induction false} GroupRest(groups: seq<Group>)
    requires GoodGroups(groups) && groups != []
    ensures GoodGroup(groups[0]) && GoodGroups(groups[1..]) && BareKey(groups[0].section)
  {
    assert GoodGroup(groups[0]);
    assert GoodMissing(groups[0].items[0]);
    assert forall i | 0 <= i < |groups[1..]| :: groups[1..][i] == groups[i + 1];
  }

  lemma {:induction false} AddAllLoads(e: Edit, groups: seq<Group>, version: Option<string>)
    requires PlainVersion(version) && GoodGroups(groups)
    ensures LoadLines(AddAll(e, groups, version).lines) == AddedDoc(LoadLines(e.lines), groups)
    decreases |groups|
  {
    hide ReadLine, SectionName, CommentedKey, ActiveKey, AddChanges, Insert;
    if groups != [] {
      var g := groups[0];
      GroupRest(groups);
      AddedLinesLaw(g.items, version);
      InsertLoads(e.lines, g.section, AddedLines(g.items, version));
      AddAllLoads(AddGroup(e, g, version), groups[1..], version);
    }
  }

  lemma {:induction false} AddAllScan(e: Edit, groups: seq<Group>, version: Option<string>)
    requires PlainVersion(version) && GoodGroups(groups)
    ensures Commented(None, e.lines) <= Commented(None, AddAll(e, groups, version).lines)
    ensures forall m | InGroups(groups, m) :: (m.section, m.key) in Commented(None, AddAll(e, groups, version).lines)
    decreases |groups|
  {
    hide ReadLine, SectionName, CommentedKey, ActiveKey, AddChanges, Insert;
    if groups != [] {
      var g := groups[0];
      GroupRest(groups);
      var added := AddedLines(g.items, version);
      AddedLinesLaw(g.items, version);
      InsertScan(e.lines, g.section, added);
      var f := AddGroup(e, g, version);
      AddAllScan(f, groups[1..], version);
      forall m | InGroups(groups, m)
        ensures (m.section, m.key) in Commented(None, AddAll(e, groups, version).lines)
      {
        InGroupsStep(groups, m);
        if m in g.items {
          var i :| 0 <= i < |g.items| && g.items[i] == m;
          assert CommentedKey(added[i]) == Some(m.key);
          assert (g.section, m.key) in Commented(None, f.lines);
        }
      }
    }
  }

  /** The comment scanner sees nothing new but the missing keys. */
  lemma {:induction false} AddAllScanOnly(e: Edit, groups: seq<Group>, version: Option<string>, x: (string, string))
    requires PlainVersion(version) && GoodGroups(groups)
    requires x in Commented(None, AddAll(e, groups, version).lines) && x !in Commented(None, e.lines)
    ensures exists m :: InGroups(groups, m) && x == (m.section, m.key)
    decreases |groups|
  {
    hide ReadLine, SectionName, CommentedKey, ActiveKey, AddChanges, Insert, Commented;
    var g := groups[0];
    var f := AddGroup(e, g, version);
    GroupRest(groups);
    var added := AddedLines(g.items, version);
    AddedLinesLaw(g.items, version);
    if x in Commented(None, f.lines) {
      InsertScanOnly(e.lines, g.section, added, x);
      var i :| 0 <= i < |added| && CommentedKey(added[i]) == Some(x.1);
      var m := g.items[i];
      assert GoodGroup(g) && m.section == g.section;
      InGroupsStep(groups, m);
      assert InGroups(groups, m) && x == (m.section, m.key);
    } else {
      AddAllScanOnly(f, groups[1..], version, x);
      var m :| InGroups(groups[1..], m) && x == (m.section, m.key);
      InGroupsStep(groups, m);
      assert InGroups(groups, m);
    }
  }

  lemma {:induction false} InsertOneLine(lines: seq<string>, s: string, added: seq<string>)
    requires AllOneLine(lines) && AllOneLine(added) && BareKey(s)
    ensures AllOneLine(Insert(lines, s, added))
  {
    hide ReadLine, SectionName, CommentedKey, ActiveKey, HeaderText, Strip, NextHeader;
    HeaderTextReads(s);
  }

  lemma {:induction false} AddAllOneLine(e: Edit, groups: seq<Group>, version: Option<string>)
    requires PlainVersion(version) && GoodGroups(groups) && AllOneLine(e.lines)
    ensures AllOneLine(AddAll(e, groups, version).lines)
    decreases |groups|
  {
    hide ReadLine, SectionName, CommentedKey, ActiveKey, AddChanges, Insert;
    if groups != [] {
      GroupRest(groups);
      AddedLinesLaw(groups[0].items, version);
      InsertOneLine(e.lines, groups[0].section, AddedLines(groups[0].items, version));
      AddAllOneLine(AddGroup(e, groups[0], version), groups[1..], version);
    }
  }

  lemma {:induction false} AddAllChanges(e: Edit, groups: seq<Group>, version: Option<string>)
    requires GoodGroups(groups)
    ensures |e.changes| <= |AddAll(e, groups, version).changes|
    ensures groups != [] ==> |e.changes| < |AddAll(e, groups, version).changes|
    decreases |groups|
  {
    if groups != [] {
      GroupRest(groups);
      AddAllChanges(AddGroup(e, groups[0], version), groups[1..], version);
    }
  }

  // -- what adding does to the document ----------------------------------------

  lemma {:induction false} LookupMore(d: Doc, t: Table, s: string, k: string)
    requires t.items == []
    ensures Lookup(d + [t], s, k) == Lookup(d, s, k)
  {
    if d == [] {
      assert d + [t] == [t];
    } else {
      assert (d + [t])[1..] == d[1..] + [t];
      LookupMore(d[1..], t, s, k);
    }
  }

  lemma {:induction false} OpenedLaw(d: Doc, s: string)
    requires Sound(d) && BareKey(s) && !Hidden(d, s)
    ensures var e := Opened(Some(d), s).value;
            && Sound(e)
            && (forall n :: Hidden(e, n) <==> Hidden(d, n))
            && (forall n, k :: Lookup(e, n, k) == Lookup(d, n, k))
  {
    var e := Opened(Some(d), s).value;
    if e != d {
      var t := Table(s, true, []);
      forall n, k
        ensures Lookup(e, n, k) == Lookup(d, n, k)
      {
        LookupMore(d, t, n, k);
      }
      assert forall i | 0 <= i < |d| :: e[i] == d[i];
      assert e[|d|] == t && SoundTable(t);
      forall n
        ensures Hidden(e, n) <==> Hidden(d, n)
      {
        if HasTable(d, n) {
          var i :| 0 <= i < |d| && d[i].name == n;
          assert e[i].name == n;
        }
        if HasPlain(d, n) {
          var i :| 0 <= i < |d| && d[i].name == n && d[i].plain;
          assert e[i].name == n && e[i].plain;
        }
      }
    }
  }

  predicate AnyHidden(d: Doc, groups: seq<Group>) {
    exists i :: 0 <= i < |groups| && Hidden(d, groups[i].section)
  }

  lemma {:induction false} AddedDocNone(groups: seq<Group>)
    ensures AddedDoc(None, groups) == None
    decreases |groups|
  {
    if groups != [] {
      AddedDocNone(groups[1..]);
    }
  }

  /** Adding breaks the file exactly when some group's header is hidden; otherwise
      every lookup is as before. */
  lemma {:induction false} AddedDocLaw(d: Doc, groups: seq<Group>)
    requires Sound(d) && GoodGroups(groups)
    ensures AddedDoc(Some(d), groups).None? <==> AnyHidden(d, groups)
    ensures AddedDoc(Some(d), groups).Some? ==>
              var e := AddedDoc(Some(d), groups).value;
              && Sound(e)
              && (forall n :: Hidden(e, n) <==> Hidden(d, n))
              && (forall n, k :: Lookup(e, n, k) == Lookup(d, n, k))
    decreases |groups|
  {
    if groups != [] {
      var s := groups[0].section;
      GroupRest(groups);
      assert forall i | 0 <= i < |groups[1..]| :: groups[1..][i] == groups[i + 1];
      assert forall i | 0 < i < |groups| :: groups[i] == groups[1..][i - 1];
      if Hidden(d, s) {
        AddedDocNone(groups[1..]);
      } else {
        OpenedLaw(d, s);
        AddedDocLaw(Opened(Some(d), s).value, groups[1..]);
      }
    }
  }
}
