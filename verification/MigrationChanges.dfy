/** What the list of changes says: one entry for each line commented out and one for each
    comment added, naming its section and key. */
module MigrationChanges {
  import opened Text
  import opened Toml
  import opened ConfigLines
  import opened ConfigSchema
  import opened TomlLaws
  import opened Migration
  import opened MigrationEdits
  import opened MigrationLaws

  /** `[section] key: commented out (reason)`. */
  predicate TellsRetired(c: string, r: Retired) {
    c == "[" + r.section + "] " + r.key + ": commented out (" + r.reason + ")"
  }

  /** `[section] key: added (commented, default ...)`. */
  predicate TellsAdded(c: string, m: Missing) {
    c == "[" + m.section + "] " + m.key + ": added (commented, default " + TomlLiteral(m.default) + ")"
  }

  predicate Tells(changes: seq<string>, acted: seq<Retired>, added: seq<Missing>) {
    && |changes| == |acted| + |added|
    && (forall i | 0 <= i < |acted| :: TellsRetired(changes[i], acted[i]))
    && (forall i | 0 <= i < |added| :: TellsAdded(changes[|acted| + i], added[i]))
  }

  // -- the first pass ----------------------------------------------------------

  /** The listed keys that have a line to comment out when their turn comes. */
  function Acted(e: Edit, rs: seq<Retired>, version: Option<string>): seq<Retired>
    decreases |rs|
  {
    if rs == [] then []
    else
      (if FindActive(None, e.lines, rs[0].section, rs[0].key).Some? then [rs[0]] else [])
      + Acted(RetireOne(e, rs[0], version), rs[1..], version)
  }

  function RetireChanges(rs: seq<Retired>): seq<string> {
    if rs == [] then [] else [RetireChange(rs[0])] + RetireChanges(rs[1..])
  }

  lemma {:induction false} RetireAllTells(e: Edit, rs: seq<Retired>, version: Option<string>)
    ensures RetireAll(e, rs, version).changes == e.changes + RetireChanges(Acted(e, rs, version))
    decreases |rs|
  {
    hide FindActive, RetiredLine, RetireChange;
    if rs != [] {
      var f := RetireOne(e, rs[0], version);
      RetireAllTells(f, rs[1..], version);
      var rest := Acted(f, rs[1..], version);
      if FindActive(None, e.lines, rs[0].section, rs[0].key).Some? {
        assert ([rs[0]] + rest)[1..] == rest;
        assert f.changes + RetireChanges(rest) == e.changes + ([RetireChange(rs[0])] + RetireChanges(rest));
      } else {
        assert [] + rest == rest;
      }
    }
  }

  /** Replacing a line the scan did not look for, by one it does not see, changes nothing. */
  lemma {:induction false} FindActiveReplace(cur: Option<string>, lines: seq<string>, i: nat, c: string, s: string, k: string)
    requires i < |lines| && SectionName(lines[i]).None? && SectionName(c).None? && !ActiveKey(c, k)
    requires FindActive(cur, lines, s, k) != Some(i)
    ensures FindActive(cur, lines[i := c], s, k).Some? <==> FindActive(cur, lines, s, k).Some?
    decreases |lines|
  {
    hide SectionName, ActiveKey;
    var m := SectionName(lines[0]);
    var now := lines[i := c];
    if i == 0 {
      assert now[1..] == lines[1..];
    } else if !(m.None? && cur == Some(s) && ActiveKey(lines[0], k)) {
      assert now[1..] == lines[1..][i - 1 := c];
      FindActiveReplace(if m.Some? then m else cur, lines[1..], i - 1, c, s, k);
    }
  }

  lemma {:induction false} OneKeyALine(line: string, a: string, b: string)
    requires BareKey(a) && BareKey(b) && ActiveKey(line, a) && ActiveKey(line, b)
    ensures a == b
  {
    var t := Skip(line, Space);
    assert t == a + t[|a|..] && t == b + t[|b|..];
    KeyPrefix(a, t[|a|..]);
    KeyPrefix(b, t[|b|..]);
  }

  /** Commenting out the line of one key leaves every other key's line to be found. */
  lemma {:induction false} OtherStillFound(e: Edit, r: Retired, version: Option<string>, s: string, k: string)
    requires BareKey(r.key) && BareKey(k) && (r.section, r.key) != (s, k)
    ensures FindActive(None, RetireOne(e, r, version).lines, s, k).Some? <==> FindActive(None, e.lines, s, k).Some?
  {
    hide SectionName, ActiveKey, FindActive, RetireChange, CommentOut, RetireNote;
    var i := FindActive(None, e.lines, r.section, r.key);
    if i.Some? {
      var line := e.lines[i.value];
      FindActiveAt(None, e.lines, r.section, r.key);
      CommentInactive(line + ("   # " + RetireNote(r.reason, version)), k);
      if FindActive(None, e.lines, s, k) == i {
        FindActiveAt(None, e.lines, s, k);
        OneKeyALine(line, r.key, k);
      }
      FindActiveReplace(None, e.lines, i.value, RetiredLine(line, r, version), s, k);
    }
  }

  /** The keys acted on are those of the list that have an active line to begin with. */
  lemma {:induction false} ActedMeaning(e: Edit, rs: seq<Retired>, version: Option<string>, r: Retired)
    requires BareKeys(rs) && DistinctKeys(rs)
    ensures r in Acted(e, rs, version) <==> r in rs && FindActive(None, e.lines, r.section, r.key).Some?
    decreases |rs|
  {
    hide FindActive, RetireOne;
    if rs != [] {
      assert forall i | 0 <= i < |rs[1..]| :: rs[1..][i] == rs[i + 1];
      assert rs == [rs[0]] + rs[1..];
      ActedMeaning(RetireOne(e, rs[0], version), rs[1..], version, r);
      if r in rs[1..] {
        OtherStillFound(e, rs[0], version, r.section, r.key);
      }
    }
  }

  lemma {:induction false} ActedOnce(e: Edit, rs: seq<Retired>, version: Option<string>)
    requires BareKeys(rs) && DistinctKeys(rs)
    ensures DistinctKeys(Acted(e, rs, version))
    decreases |rs|
  {
    hide FindActive, RetireOne;
    if rs != [] {
      assert forall i | 0 <= i < |rs[1..]| :: rs[1..][i] == rs[i + 1];
      var f := RetireOne(e, rs[0], version);
      var rest := Acted(f, rs[1..], version);
      ActedOnce(f, rs[1..], version);
      forall i | 0 <= i < |rest|
        ensures (rest[i].section, rest[i].key) != (rs[0].section, rs[0].key)
      {
        ActedMeaning(f, rs[1..], version, rest[i]);
        assert rest[i] in rs[1..];
      }
    }
  }

  // -- the second pass ---------------------------------------------------------

  function AllItems(groups: seq<Group>): seq<Missing> {
    if groups == [] then [] else groups[0].items + AllItems(groups[1..])
  }

  /** The missing keys of one section, in order. */
  function Under(ms: seq<Missing>, section: string): seq<Missing> {
    if ms == [] then [] else (if ms[0].section == section then [ms[0]] else []) + Under(ms[1..], section)
  }

  lemma {:induction false} UnderStep(ms: seq<Missing>, section: string)
    ensures Under([], section) == []
    ensures ms != [] ==> Under(ms, section) == (if ms[0].section == section then [ms[0]] else []) + Under(ms[1..], section)
  {
  }

  lemma {:induction false} UnderConcat(a: seq<Missing>, b: seq<Missing>, section: string)
    ensures Under(a + b, section) == Under(a, section) + Under(b, section)
  {
    hide Under;
    UnderStep(a, section);
    if a == [] {
      assert a + b == b;
    } else {
      UnderStep(a + b, section);
      assert (a + b)[1..] == a[1..] + b;
      UnderConcat(a[1..], b, section);
    }
  }

  lemma {:induction false} UnderOther(ms: seq<Missing>, section: string)
    requires forall i | 0 <= i < |ms| :: ms[i].section != section
    ensures Under(ms, section) == []
  {
    if ms != [] {
      UnderOther(ms[1..], section);
    }
  }

  /** Each group holds the keys of its own section, and no two groups share one. */
  predicate OwnItems(groups: seq<Group>) {
    && (forall i, j | 0 <= i < |groups| && 0 <= j < |groups[i].items| :: groups[i].items[j].section == groups[i].section)
    && (forall i, j | 0 <= i < j < |groups| :: groups[i].section != groups[j].section)
  }

  lemma {:induction false} OwnRest(groups: seq<Group>)
    requires OwnItems(groups) && groups != []
    ensures OwnItems(groups[1..])
    ensures Under(AllItems(groups[1..]), groups[0].section) == []
  {
    hide Under, AllItems;
    assert forall i | 0 <= i < |groups[1..]| :: groups[1..][i] == groups[i + 1];
    NotAmong(groups[1..], groups[0].section);
  }

  lemma {:induction false} NotAmong(groups: seq<Group>, section: string)
    requires OwnItems(groups) && forall i | 0 <= i < |groups| :: groups[i].section != section
    ensures Under(AllItems(groups), section) == []
  {
    hide Under;
    if groups == [] {
      UnderOther([], section);
    } else {
      assert forall i | 0 <= i < |groups[1..]| :: groups[1..][i] == groups[i + 1];
      NotAmong(groups[1..], section);
      UnderOther(groups[0].items, section);
      UnderConcat(groups[0].items, AllItems(groups[1..]), section);
    }
  }

  lemma {:induction false} AddToGroupSections(groups: seq<Group>, m: Missing)
    ensures forall g | g in AddToGroup(groups, m) :: g.section == m.section || exists j :: 0 <= j < |groups| && groups[j].section == g.section
  {
    if groups != [] {
      var rest, tail := groups[1..], AddToGroup(groups[1..], m);
      AddToGroupSections(rest, m);
      forall g | g in tail
        ensures g.section == m.section || exists j :: 0 <= j < |groups| && groups[j].section == g.section
      {
        if j :| 0 <= j < |rest| && rest[j].section == g.section {
          assert groups[j + 1].section == g.section;
        }
      }
    }
  }

  lemma {:induction false} OwnMore(g: Group, rest: seq<Group>)
    requires OwnItems(rest) && (forall j | 0 <= j < |g.items| :: g.items[j].section == g.section)
    requires forall x | x in rest :: x.section != g.section
    ensures OwnItems([g] + rest)
  {
    var all := [g] + rest;
    assert forall i | 0 < i < |all| :: all[i] == rest[i - 1] && all[i] in rest;
  }

  lemma {:induction false} AddToGroupOwn(groups: seq<Group>, m: Missing)
    requires OwnItems(groups)
    ensures OwnItems(AddToGroup(groups, m))
  {
    if groups != [] {
      var g, rest := groups[0], groups[1..];
      assert forall i | 0 <= i < |rest| :: rest[i] == groups[i + 1];
      if g.section == m.section {
        OwnMore(g.(items := g.items + [m]), rest);
      } else {
        AddToGroupOwn(rest, m);
        AddToGroupSections(rest, m);
        OwnMore(g, AddToGroup(rest, m));
      }
    }
  }

  lemma {:induction false} UnderOne(m: Missing, section: string)
    ensures Under([m], section) == if m.section == section then [m] else []
  {
    assert [m][1..] == [];
  }

  lemma {:induction false} AddToGroupItems(groups: seq<Group>, m: Missing, section: string)
    requires OwnItems(groups)
    ensures Under(AllItems(AddToGroup(groups, m)), section) == Under(AllItems(groups), section) + Under([m], section)
  {
    hide Under, OwnItems;
    if groups == [] {
      assert AllItems([Group(m.section, [m])]) == [m] + [] == [] + [m];
      UnderConcat([], [m], section);
    } else {
      var g, rest := groups[0], groups[1..];
      OwnRest(groups);
      UnderConcat(g.items, AllItems(rest), section);
      if g.section == m.section {
        var grown := g.(items := g.items + [m]);
        assert ([grown] + rest)[1..] == rest;
        UnderConcat(g.items, [m], section);
        UnderConcat(g.items + [m], AllItems(rest), section);
        UnderOne(m, section);
        assert m.section != section ==> Under(g.items, section) + [] == Under(g.items, section);
        assert Under(AllItems(rest), section) == [] ==>
            Under(g.items, section) + Under([m], section) + [] == Under(g.items, section) + [] + Under([m], section);
        assert m.section != section ==>
            Under(g.items, section) + [] + Under(AllItems(rest), section) == Under(g.items, section) + Under(AllItems(rest), section) + [];
      } else {
        AddToGroupItems(rest, m, section);
        assert ([g] + AddToGroup(rest, m))[1..] == AddToGroup(rest, m);
        UnderConcat(g.items, AllItems(AddToGroup(rest, m)), section);
      }
    }
  }

  lemma {:induction false} GroupItems(groups: seq<Group>, ms: seq<Missing>, section: string)
    requires OwnItems(groups)
    ensures Under(AllItems(GroupBySection(groups, ms)), section) == Under(AllItems(groups), section) + Under(ms, section)
    decreases |ms|
  {
    hide AllItems, AddToGroup;
    if ms == [] {
      assert Under(AllItems(groups), section) + [] == Under(AllItems(groups), section);
    } else {
      AddToGroupOwn(groups, ms[0]);
      AddToGroupItems(groups, ms[0], section);
      GroupItems(AddToGroup(groups, ms[0]), ms[1..], section);
      assert ms == [ms[0]] + ms[1..];
      UnderConcat([ms[0]], ms[1..], section);
    }
  }

  lemma {:induction false} AddChangesConcat(a: seq<Missing>, b: seq<Missing>)
    ensures AddChanges(a + b) == AddChanges(a) + AddChanges(b)
  {
    if a == [] {
      assert a + b == b;
    } else {
      assert (a + b)[1..] == a[1..] + b;
      AddChangesConcat(a[1..], b);
    }
  }

  lemma {:induction false} AddAllTells(e: Edit, groups: seq<Group>, version: Option<string>)
    ensures AddAll(e, groups, version).changes == e.changes + AddChanges(AllItems(groups))
    decreases |groups|
  {
    hide Insert, AddedLines, AddChanges;
    if groups == [] {
      NoChanges();
    } else {
      AddAllTells(AddGroup(e, groups[0], version), groups[1..], version);
      AddChangesConcat(groups[0].items, AllItems(groups[1..]));
    }
  }

  lemma {:induction false} NoChanges()
    ensures AddChanges([]) == []
  {
  }

  lemma {:induction false} RetireChangesAt(rs: seq<Retired>)
    ensures |RetireChanges(rs)| == |rs| && forall i | 0 <= i < |rs| :: TellsRetired(RetireChanges(rs)[i], rs[i])
  {
    if rs != [] {
      RetireChangesAt(rs[1..]);
      assert forall i | 0 < i < |rs| :: rs[i] == rs[1..][i - 1] && RetireChanges(rs)[i] == RetireChanges(rs[1..])[i - 1];
      assert TellsRetired(RetireChange(rs[0]), rs[0]);
    }
  }

  lemma {:induction false} AddChangesAt(ms: seq<Missing>)
    ensures |AddChanges(ms)| == |ms| && forall i | 0 <= i < |ms| :: TellsAdded(AddChanges(ms)[i], ms[i])
  {
    hide TomlLiteral;
    if ms != [] {
      AddChangesAt(ms[1..]);
      assert forall i | 0 < i < |ms| :: ms[i] == ms[1..][i - 1] && AddChanges(ms)[i] == AddChanges(ms[1..])[i - 1];
      assert TellsAdded(AddChange(ms[0]), ms[0]);
    }
  }

  // -- the list ----------------------------------------------------------------

  /** The changes are, in this order: each reported retired key that had an active line, and
      each missing key, once; every other reported retired key goes without one. */
  lemma {:induction false} ChangesListed(schema: Schema, text: string, version: Option<string>)
    requires WellFormed(schema) && PlainVersion(version) && Load(text).Some?
    ensures var report, changes := Diff(schema, text), Migrate(schema, text, version).1;
            exists acted, added ::
              && Tells(changes, acted, added)
              && (forall section :: Under(added, section) == Under(report.missing, section))
              && DistinctKeys(acted)
              && forall r :: r in acted <==> r in report.deprecated && FindActive(None, SplitLines(text), r.section, r.key).Some?
  {
    hide Diff, FindActive, Tells, RetireOne, AddChanges, AllItems, BareKeys, Retirable;
    var start, report := Edit(SplitLines(text), []), Diff(schema, text);
    var acted := Acted(start, report.deprecated, version);
    var added := AllItems(Groups(schema, text));
    ReportKeys(schema, text);
    ReportDistinct(schema, text);
    RetireAllTells(start, report.deprecated, version);
    AddAllTells(RetireAll(start, report.deprecated, version), Groups(schema, text), version);
    NoItems();
    forall section
      ensures Under(added, section) == Under(report.missing, section)
    {
      GroupItems([], report.missing, section);
    }
    assert Tells(RetireChanges(acted) + AddChanges(added), acted, added) by { TellsBoth(acted, added); }
    assert [] + RetireChanges(acted) == RetireChanges(acted);
    ActedOnce(start, report.deprecated, version);
    forall r
      ensures r in acted <==> r in report.deprecated && FindActive(None, SplitLines(text), r.section, r.key).Some?
    {
      ActedMeaning(start, report.deprecated, version, r);
    }
  }

  lemma {:induction false} ReportDistinct(schema: Schema, text: string)
    requires WellFormed(schema) && Load(text).Some?
    ensures DistinctKeys(Diff(schema, text).deprecated)
  {
    hide Diff, WellFormed;
    ReportRetirable(schema, text);
  }

  lemma {:induction false} NoItems()
    ensures AllItems([]) == []
  {
  }

  lemma {:induction false} TellsBoth(acted: seq<Retired>, added: seq<Missing>)
    ensures Tells(RetireChanges(acted) + AddChanges(added), acted, added)
  {
    hide TellsRetired, TellsAdded;
    RetireChangesAt(acted);
    AddChangesAt(added);
  }
}
