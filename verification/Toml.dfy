/** The part of TOML v1.0.0 a deployed config.toml uses, read line by line:
    comments, `[table]` headers with a bare name, and `key = value` lines with a
    bare key and a one-line scalar (a string, an integer or a boolean). */
module Toml {
  import opened Text

  datatype Value = VStr(text: string) | VInt(number: int) | VBool(truth: bool)

  // -- scalars -----------------------------------------------------------------

  function DigitChar(d: nat): char
    requires d < 10
  {
    '0' + d as char
  }

  function NatText(n: nat): (s: string)
    ensures s != [] && All(s, Digit)
    ensures n > 0 ==> s[0] != '0'
    ensures n == 0 ==> s == "0"
  {
    if n < 10 then [DigitChar(n)] else NatText(n / 10) + [DigitChar(n % 10)]
  }

  /** Decimal text of an integer, as Python's `str` writes it. */
  function IntText(n: int): string {
    if n < 0 then "-" + NatText(-n) else NatText(n)
  }

  function ReadDigits(s: string): nat
    requires All(s, Digit)
  {
    if s == [] then 0 else 10 * ReadDigits(s[..|s| - 1]) + (s[|s| - 1] - '0') as nat
  }

  function ReadNat(s: string): Option<nat> {
    if s == [] || !All(s, Digit) || (s[0] == '0' && |s| > 1) then None else Some(ReadDigits(s))
  }

  /** A decimal TOML integer: an optional sign, no leading zero. */
  function ReadInt(s: string): Option<int> {
    if s == [] then None
    else if s[0] == '-' || s[0] == '+' then
      match ReadNat(s[1..])
      case None => None
      case Some(n) => var m: int := if s[0] == '-' then -(n as int) else n; Some(m)
    else
      match ReadNat(s)
      case None => None
      case Some(n) => Some(n)
  }

  lemma {:induction false} ReadNatText(n: nat)
    ensures ReadDigits(NatText(n)) == n
    ensures ReadNat(NatText(n)) == Some(n)
  {
    if n >= 10 {
      ReadNatText(n / 10);
      var s := NatText(n);
      assert s[..|s| - 1] == NatText(n / 10);
    } else {
      assert NatText(n)[..0] == [];
    }
  }

  lemma {:induction false} ReadIntText(n: int)
    ensures ReadInt(IntText(n)) == Some(n)
  {
    if n < 0 {
      ReadNatText(-n);
      assert IntText(n)[1..] == NatText(-n);
    } else {
      ReadNatText(n);
      assert In(NatText(n)[0], Digit);
    }
  }

  /** What a one-character escape of a basic string stands for. */
  function Unescape(c: char): Option<char> {
    match c
    case '\\' => Some('\\')
    case '"' => Some('"')
    case 'b' => Some('\U{08}')
    case 't' => Some('\t')
    case 'n' => Some('\n')
    case 'f' => Some('\U{0C}')
    case 'r' => Some('\r')
    case _ => None
  }

  /** A basic string after its opening quote: its text and what follows it. */
  function ReadBasic(s: string): Option<(string, string)> {
    if s == [] || !In(s[0], Uncontrol) then None
    else if s[0] == '"' then Some(([], s[1..]))
    else if s[0] == '\\' then
      if |s| == 1 || Unescape(s[1]).None? then None
      else
        match ReadBasic(s[2..])
        case None => None
        case Some(r) => Some(([Unescape(s[1]).value] + r.0, r.1))
    else
      match ReadBasic(s[1..])
      case None => None
      case Some(r) => Some(([s[0]] + r.0, r.1))
  }

  /** A literal string after its opening quote. */
  function ReadLiteral(s: string): Option<(string, string)> {
    if s == [] || !In(s[0], Uncontrol) then None
    else if s[0] == '\'' then Some(([], s[1..]))
    else
      match ReadLiteral(s[1..])
      case None => None
      case Some(r) => Some(([s[0]] + r.0, r.1))
  }

  function TokenValue(t: string): Option<Value> {
    if t == "true" then Some(VBool(true))
    else if t == "false" then Some(VBool(false))
    else
      match ReadInt(t)
      case None => None
      case Some(n) => Some(VInt(n))
  }

  /** A scalar at the start of `s`, and what follows it. */
  function ReadScalar(s: string): Option<(Value, string)> {
    if s == [] then None
    else if s[0] == '"' then
      match ReadBasic(s[1..])
      case None => None
      case Some(r) => Some((VStr(r.0), r.1))
    else if s[0] == '\'' then
      match ReadLiteral(s[1..])
      case None => None
      case Some(r) => Some((VStr(r.0), r.1))
    else
      match TokenValue(Take(s, TokenChar))
      case None => None
      case Some(v) => Some((v, Skip(s, TokenChar)))
  }

  // -- lines -------------------------------------------------------------------

  /** What one line of the file says. A header is plain when nothing but white
      space follows its closing bracket; TOML also allows a comment there. */
  datatype Line =
    | BlankLine
    | CommentLine
    | HeaderLine(name: string, plain: bool)
    | KeyLine(key: string, value: Value)

  /** What is left of a line after its meaning: nothing, or a comment. */
  datatype Rest = Nothing | Comment

  function ReadRest(s: string): Option<Rest> {
    var t := Skip(s, Blank);
    if t == [] then Some(Nothing) else if t[0] == '#' then Some(Comment) else None
  }

  predicate BareKey(k: string) { k != [] && All(k, WordDash) }

  /** A header after its opening bracket. */
  function ReadHeader(s: string): Option<Line> {
    var u := Skip(s, Blank);
    var name := Take(u, WordDash);
    var w := Skip(Skip(u, WordDash), Blank);
    if name == [] || w == [] || w[0] != ']' then None
    else
      match ReadRest(w[1..])
      case None => None
      case Some(r) => Some(HeaderLine(name, r.Nothing?))
  }

  /** A `key = value` line after its indentation. */
  function ReadKey(s: string): Option<Line> {
    var key := Take(s, WordDash);
    var w := Skip(Skip(s, WordDash), Blank);
    if key == [] || w == [] || w[0] != '=' then None
    else
      match ReadScalar(Skip(w[1..], Blank))
      case None => None
      case Some(r) => if ReadRest(r.1).None? then None else Some(KeyLine(key, r.0))
  }

  function ReadLine(line: string): Option<Line> {
    var t := Skip(line, Blank);
    if !All(line, Uncontrol) then None
    else if t == [] then Some(BlankLine)
    else if t[0] == '#' then Some(CommentLine)
    else if t[0] == '[' then ReadHeader(t[1..])
    else ReadKey(t)
  }

  // -- documents ---------------------------------------------------------------

  datatype Item = Item(key: string, value: Value)

  datatype Table = Table(name: string, plain: bool, items: seq<Item>)

  /** The tables read so far, in file order; the last one is the current one. */
  type Doc = seq<Table>

  predicate HasKey(items: seq<Item>, key: string) {
    exists i :: 0 <= i < |items| && items[i].key == key
  }

  predicate HasTable(d: Doc, name: string) {
    exists i :: 0 <= i < |d| && d[i].name == name
  }

  predicate HasPlain(d: Doc, name: string) {
    exists i :: 0 <= i < |d| && d[i].name == name && d[i].plain
  }

  predicate HasItem(d: Doc, name: string, key: string) {
    exists i :: 0 <= i < |d| && d[i].name == name && HasKey(d[i].items, key)
  }

  /** One more line. A table or a key defined twice is an error in TOML; a key
      above the first header is outside the files modelled here. */
  function LoadLine(d: Doc, line: string): Option<Doc> {
    match ReadLine(line)
    case None => None
    case Some(BlankLine) => Some(d)
    case Some(CommentLine) => Some(d)
    case Some(HeaderLine(name, plain)) =>
      if HasTable(d, name) then None else Some(d + [Table(name, plain, [])])
    case Some(KeyLine(key, value)) =>
      if d == [] || HasKey(d[|d| - 1].items, key) then None
      else
        var t := d[|d| - 1];
        Some(d[..|d| - 1] + [t.(items := t.items + [Item(key, value)])])
  }

  function LoadFrom(d: Doc, lines: seq<string>): Option<Doc>
    decreases |lines|
  {
    if lines == [] then Some(d)
    else
      match LoadLine(d, lines[0])
      case None => None
      case Some(e) => LoadFrom(e, lines[1..])
  }

  function LoadLines(lines: seq<string>): Option<Doc> { LoadFrom([], lines) }

  /** A whole file: `None` stands for a decoding error, and for a file outside
      the line language above. */
  function Load(text: string): Option<Doc> { LoadLines(FileLines(text)) }

  function FindItem(items: seq<Item>, key: string): Option<Value> {
    if items == [] then None
    else if items[0].key == key then Some(items[0].value)
    else FindItem(items[1..], key)
  }

  /** `data[section].get(key)`. */
  function Lookup(d: Doc, section: string, key: string): Option<Value> {
    if d == [] then None
    else if d[0].name == section then FindItem(d[0].items, key)
    else Lookup(d[1..], section, key)
  }
}
