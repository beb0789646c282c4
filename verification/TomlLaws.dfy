/** How a document grows as lines are read, and what taking one item out of the
    file does to the document. */
module TomlLaws {
  import opened Text
  import opened Toml
  import opened ConfigLines
  import opened ConfigSchema

  predicate Distinct(d: Doc) {
    forall i, j | 0 <= i < j < |d| :: d[i].name != d[j].name
  }

  /** The section the line scanners believe they are in: the last plain table. */
  function LastPlain(d: Doc): (r: Option<string>)
    ensures r.Some? ==> HasPlain(d, r.value)
  {
    if d == [] then None
    else if d[|d| - 1].plain then Some(d[|d| - 1].name)
    else
      var r := LastPlain(d[..|d| - 1]);
      assert r.Some? ==> exists i :: 0 <= i < |d| - 1 && d[i] == d[..|d| - 1][i] && d[i].name == r.value && d[i].plain;
      r
  }

  /** `r` is `d` with more items in its last table and more tables after it. */
  predicate Extends(d: Doc, r: Doc) {
    && |d| <= |r|
    && (forall i | 0 <= i < |d| - 1 :: r[i] == d[i])
    && (d != [] ==>
          var t, u := d[|d| - 1], r[|d| - 1];
          t.name == u.name && t.plain == u.plain && t.items <= u.items)
  }

  lemma {:induction false} LoadConcat(d: Doc, a: seq<string>, b: seq<string>)
    ensures LoadFrom(d, a + b)
         == match LoadFrom(d, a) case None => None case Some(e) => LoadFrom(e, b)
    decreases |a|
  {
    hide ReadLine, SectionName, CommentedKey, ActiveKey;
    if a == [] {
      assert a + b == b;
    } else {
      assert (a + b)[1..] == a[1..] + b;
      var e := LoadLine(d, a[0]);
      if e.Some? {
        LoadConcat(e.value, a[1..], b);
      }
    }
  }

  lemma {:induction false} LoadLineExtends(d: Doc, line: string)
    requires Distinct(d) && LoadLine(d, line).Some?
    ensures Extends(d, LoadLine(d, line).value) && Distinct(LoadLine(d, line).value)
  {
    hide ReadLine, SectionName, CommentedKey, ActiveKey;
  }

  lemma {:induction false} LoadExtends(d: Doc, lines: seq<string>)
    requires Distinct(d) && LoadFrom(d, lines).Some?
    ensures Extends(d, LoadFrom(d, lines).value) && Distinct(LoadFrom(d, lines).value)
    decreases |lines|
  {
    hide ReadLine, SectionName, CommentedKey, ActiveKey;
    if lines != [] {
      LoadLineExtends(d, lines[0]);
      LoadExtends(LoadLine(d, lines[0]).value, lines[1..]);
    }
  }

  lemma {:induction false} LoadReads(d: Doc, lines: seq<string>)
    requires LoadFrom(d, lines).Some?
    ensures forall i | 0 <= i < |lines| :: ReadLine(lines[i]).Some?
    decreases |lines|
  {
    hide ReadLine, SectionName, CommentedKey, ActiveKey;
    if lines != [] {
      LoadReads(LoadLine(d, lines[0]).value, lines[1..]);
      assert forall i | 0 < i < |lines| :: lines[i] == lines[1..][i - 1];
    }
  }

  /** Comments and blank lines change nothing. */
  predicate Idle(line: string) {
    ReadLine(line) == Some(CommentLine) || ReadLine(line) == Some(BlankLine)
  }

  lemma {:induction false} LoadIdle(d: Doc, lines: seq<string>)
    requires forall i | 0 <= i < |lines| :: Idle(lines[i])
    ensures LoadFrom(d, lines) == Some(d)
    decreases |lines|
  {
    hide ReadLine, SectionName, CommentedKey, ActiveKey;
    if lines != [] {
      assert Idle(lines[0]);
      LoadIdle(d, lines[1..]);
    }
  }

  /** The scanners' section follows the last plain header TOML has read. */
  lemma {:induction false} ScanTracks(d: Doc, lines: seq<string>)
    requires LoadFrom(d, lines).Some?
    ensures SectionAfter(LastPlain(d), lines) == LastPlain(LoadFrom(d, lines).value)
    decreases |lines|
  {
    hide ReadLine, SectionName, CommentedKey, ActiveKey;
    if lines != [] {
      StepTracks(d, lines[0]);
      ScanTracks(LoadLine(d, lines[0]).value, lines[1..]);
    }
  }

  lemma {:induction false} StepTracks(d: Doc, line: string)
    requires LoadLine(d, line).Some?
    ensures LastPlain(LoadLine(d, line).value)
         == if SectionName(line).Some? then SectionName(line) else LastPlain(d)
  {
    hide ReadLine, SectionName, CommentedKey, ActiveKey;
    LineAgrees(line);
    var e := LoadLine(d, line).value;
    if e != d {
      assert e[..|e| - 1] == if |e| == |d| then d[..|d| - 1] else d;
    }
  }

  lemma {:induction false} ExtendsKeepsPlain(d: Doc, r: Doc, s: string)
    requires Extends(d, r) && HasPlain(d, s)
    ensures HasPlain(r, s)
  {
    var i :| 0 <= i < |d| && d[i].name == s && d[i].plain;
    assert r[i].name == s && r[i].plain;
  }

  /** What holds of every table TOML has read. */
  predicate SoundItems(items: seq<Item>) {
    && (forall i | 0 <= i < |items| :: BareKey(items[i].key))
    && (forall i, j | 0 <= i < j < |items| :: items[i].key != items[j].key)
  }

  predicate SoundTable(t: Table) { BareKey(t.name) && SoundItems(t.items) }

  predicate Sound(d: Doc) { Distinct(d) && forall i | 0 <= i < |d| :: SoundTable(d[i]) }

  lemma {:induction false} LoadLineSound(d: Doc, line: string)
    requires Sound(d) && LoadLine(d, line).Some?
    ensures Sound(LoadLine(d, line).value)
  {
    hide ReadLine, SectionName, CommentedKey, ActiveKey;
    LoadLineExtends(d, line);
    LineAgrees(line);
    var e := LoadLine(d, line).value;
    assert forall i | 0 <= i < |e| - 1 :: e[i] == d[i];
    if ReadLine(line).value.KeyLine? {
      var t := d[|d| - 1];
      assert SoundTable(t) && SoundItems(t.items);
      assert forall i | 0 <= i < |t.items| :: t.items[i].key != ReadLine(line).value.key;
      assert SoundItems(e[|e| - 1].items);
      assert SoundTable(e[|e| - 1]);
    }
  }

  lemma {:induction false} LoadSound(d: Doc, lines: seq<string>)
    requires Sound(d) && LoadFrom(d, lines).Some?
    ensures Sound(LoadFrom(d, lines).value)
    decreases |lines|
  {
    hide ReadLine, SectionName, CommentedKey, ActiveKey;
    if lines != [] {
      LoadLineSound(d, lines[0]);
      LoadSound(LoadLine(d, lines[0]).value, lines[1..]);
    }
  }

  // -- lookups -----------------------------------------------------------------

  lemma {:induction false} FindItemMeaning(items: seq<Item>, k: string)
    ensures FindItem(items, k).Some? <==> HasKey(items, k)
  {
    if items != [] {
      FindItemMeaning(items[1..], k);
      if HasKey(items[1..], k) {
        var i :| 0 <= i < |items[1..]| && items[1..][i].key == k;
        assert items[i + 1].key == k;
      }
      if HasKey(items, k) && items[0].key != k {
        var i :| 0 <= i < |items| && items[i].key == k;
        assert items[1..][i - 1].key == k;
      }
    }
  }

  lemma {:induction false} LookupAt(d: Doc, i: nat, k: string)
    requires Distinct(d) && i < |d|
    ensures Lookup(d, d[i].name, k) == FindItem(d[i].items, k)
  {
    if i > 0 {
      assert d[1..][i - 1] == d[i];
      LookupAt(d[1..], i - 1, k);
    }
  }

  lemma {:induction false} LookupNone(d: Doc, s: string, k: string)
    requires !HasTable(d, s)
    ensures Lookup(d, s, k) == None
  {
    if d != [] {
      assert d[0].name != s;
      assert forall i | 0 <= i < |d[1..]| :: d[1..][i] == d[i + 1];
      LookupNone(d[1..], s, k);
    }
  }

  lemma {:induction false} LookupMeaning(d: Doc, s: string, k: string)
    requires Distinct(d)
    ensures Lookup(d, s, k).Some? <==> HasItem(d, s, k)
  {
    if HasTable(d, s) {
      var i :| 0 <= i < |d| && d[i].name == s;
      LookupAt(d, i, k);
      FindItemMeaning(d[i].items, k);
      assert forall j | 0 <= j < |d| && d[j].name == s :: j == i;
    } else {
      LookupNone(d, s, k);
    }
  }

  // -- taking one item out -----------------------------------------------------

  function DropKey(items: seq<Item>, k: string): (r: seq<Item>)
    ensures !HasKey(r, k)
  {
    if items == [] then []
    else (if items[0].key == k then [] else [items[0]]) + DropKey(items[1..], k)
  }

  function DropIn(t: Table, s: string, k: string): Table {
    if t.name == s then t.(items := DropKey(t.items, k)) else t
  }

  function Drop(d: Doc, s: string, k: string): Doc {
    seq(|d|, i requires 0 <= i < |d| => DropIn(d[i], s, k))
  }

  lemma {:induction false} DropKeyFind(items: seq<Item>, k: string, key: string)
    ensures FindItem(DropKey(items, k), key) == if key == k then None else FindItem(items, key)
  {
    if items != [] {
      DropKeyFind(items[1..], k, key);
      if items[0].key != k {
        assert DropKey(items, k)[1..] == DropKey(items[1..], k);
      } else {
        assert DropKey(items, k) == DropKey(items[1..], k);
      }
    }
  }

  lemma {:induction false} DropKeyHas(items: seq<Item>, k: string, key: string)
    ensures HasKey(DropKey(items, k), key) <==> key != k && HasKey(items, key)
  {
    DropKeyFind(items, k, key);
    FindItemMeaning(DropKey(items, k), key);
    FindItemMeaning(items, key);
  }

  lemma {:induction false} DropKeyMore(items: seq<Item>, x: Item, k: string)
    ensures DropKey(items + [x], k) == DropKey(items, k) + (if x.key == k then [] else [x])
  {
    if items == [] {
      assert items + [x] == [x];
    } else {
      assert (items + [x])[1..] == items[1..] + [x];
      DropKeyMore(items[1..], x, k);
    }
  }

  lemma {:induction false} DropKeyAbsent(items: seq<Item>, k: string)
    requires !HasKey(items, k)
    ensures DropKey(items, k) == items
  {
    if items != [] {
      assert items[0].key != k;
      assert forall i | 0 <= i < |items[1..]| :: items[1..][i] == items[i + 1];
      DropKeyAbsent(items[1..], k);
    }
  }

  lemma {:induction false} DropLookup(d: Doc, s: string, k: string, section: string, key: string)
    ensures Lookup(Drop(d, s, k), section, key)
         == if section == s && key == k then None else Lookup(d, section, key)
  {
    if d != [] {
      DropLookup(d[1..], s, k, section, key);
      assert Drop(d, s, k)[1..] == Drop(d[1..], s, k);
      DropKeyFind(d[0].items, k, key);
    }
  }

  lemma {:induction false} LoadLineDrop(d: Doc, line: string, s: string, k: string)
    requires Distinct(d) && LoadLine(d, line).Some? && HasItem(d, s, k)
    ensures LoadLine(Drop(d, s, k), line) == Some(Drop(LoadLine(d, line).value, s, k))
  {
    hide ReadLine, SectionName, CommentedKey, ActiveKey;
    var e := LoadLine(d, line).value;
    var c := Drop(d, s, k);
    match ReadLine(line).value
    case BlankLine =>
    case CommentLine =>
    case HeaderLine(name, plain) =>
      assert forall i | 0 <= i < |d| :: c[i].name == d[i].name;
      assert Drop(e, s, k) == c + [Table(name, plain, [])];
    case KeyLine(key, value) =>
      var t := d[|d| - 1];
      DropKeyHas(t.items, k, key);
      DropKeyMore(t.items, Item(key, value), k);
      if t.name == s {
        var i :| 0 <= i < |d| && d[i].name == s && HasKey(d[i].items, k);
        assert i == |d| - 1;
      }
      var u := DropIn(t, s, k);
      assert Drop(e, s, k) == c[..|c| - 1] + [u.(items := u.items + [Item(key, value)])];
  }

  lemma {:induction false} ExtendsKeepsItem(d: Doc, r: Doc, s: string, k: string)
    requires Extends(d, r) && HasItem(d, s, k)
    ensures HasItem(r, s, k)
  {
    var i :| 0 <= i < |d| && d[i].name == s && HasKey(d[i].items, k);
    var j :| 0 <= j < |d[i].items| && d[i].items[j].key == k;
    assert r[i].name == s && r[i].items[j].key == k;
  }

  lemma {:induction false} LoadDrop(d: Doc, lines: seq<string>, s: string, k: string)
    requires Distinct(d) && LoadFrom(d, lines).Some? && HasItem(d, s, k)
    ensures LoadFrom(Drop(d, s, k), lines) == Some(Drop(LoadFrom(d, lines).value, s, k))
    decreases |lines|
  {
    hide ReadLine, SectionName, CommentedKey, ActiveKey;
    if lines != [] {
      var e := LoadLine(d, lines[0]).value;
      LoadLineExtends(d, lines[0]);
      ExtendsKeepsItem(d, e, s, k);
      LoadLineDrop(d, lines[0], s, k);
      LoadDrop(e, lines[1..], s, k);
    }
  }
}
