/** Canonical payload text: which values can be written, the normal form they are written from, and the
    RFC 8785 text of that form. The code that appends the text piece by piece is in Encoder.dfy. */
module Canonical {
  import opened Unicode

  datatype Option<+T> = None | Some(value: T)

  /** A mapping key: text, or anything else. */
  datatype Key = Name(text: Text) | NotText

  datatype Entry = Entry(key: Key, value: Value)

  /** A Python value handed to canonical_json. Mappings keep insertion order. Unsupported stands for
      floats, decimals, dates and every other type. */
  datatype Value =
    | Null
    | Bool(b: bool)
    | Int(n: int)
    | Str(s: Text)
    | Mapping(entries: seq<Entry>)
    | List(items: seq<Value>)
    | Tuple(items: seq<Value>)
    | Unsupported

  datatype Member = Member(name: Text, value: Json)

  /** What the text says: lists and tuples are arrays, and members are in key order. */
  datatype Json =
    | JNull
    | JBool(b: bool)
    | JInt(n: int)
    | JStr(s: Text)
    | JObj(members: seq<Member>)
    | JArr(items: seq<Json>)

  const MAX_SAFE_INTEGER: int := 0x20_0000_0000_0000 - 1

  // ----- key order

  function Insert(m: Member, ms: seq<Member>): seq<Member> {
    if ms == [] then [m]
    else if LexLess(SortKey(ms[0].name), SortKey(m.name)) then [ms[0]] + Insert(m, ms[1..])
    else [m] + ms
  }

  /** A stable sort by UTF-16BE bytes. */
  function SortMembers(ms: seq<Member>): seq<Member> {
    if ms == [] then [] else Insert(ms[0], SortMembers(ms[1..]))
  }

  // ----- normal form

  /** The normal form, or None where canonical_json raises. */
  function Canon(v: Value): Option<Json>
    decreases v, 1
  {
    match v
    case Null => Some(JNull)
    case Bool(b) => Some(JBool(b))
    case Int(n) => if -MAX_SAFE_INTEGER <= n <= MAX_SAFE_INTEGER then Some(JInt(n)) else None
    case Str(s) => if Valid(s) then Some(JStr(s)) else None
    case Mapping(entries) =>
      var ms := CanonEntries(entries);
      if ms.None? then None else Some(JObj(SortMembers(ms.value)))
    case List(items) =>
      var js := CanonItems(items);
      if js.None? then None else Some(JArr(js.value))
    case Tuple(items) =>
      var js := CanonItems(items);
      if js.None? then None else Some(JArr(js.value))
    case Unsupported => None
  }

  function CanonItems(items: seq<Value>): (r: Option<seq<Json>>)
    ensures r.Some? ==> |r.value| == |items|
    decreases items, 0
  {
    if items == [] then
      Some([])
    else
      var first, rest := Canon(items[0]), CanonItems(items[1..]);
      if first.None? || rest.None? then None else Some([first.value] + rest.value)
  }

  function CanonEntries(entries: seq<Entry>): (r: Option<seq<Member>>)
    ensures r.Some? ==> |r.value| == |entries|
    decreases entries, 0
  {
    if entries == [] then
      Some([])
    else
      var first, rest := CanonEntry(entries[0]), CanonEntries(entries[1..]);
      if first.None? || rest.None? then None else Some([first.value] + rest.value)
  }

  function CanonEntry(e: Entry): Option<Member>
    decreases e, 0
  {
    var value := Canon(e.value);
    if e.key.Name? && Valid(e.key.text) && value.Some? then Some(Member(e.key.text, value.value)) else None
  }

  // ----- text

  const QUOTE: CodePoint := 0x22
  const BACKSLASH: CodePoint := 0x5C
  const COMMA: CodePoint := 0x2C
  const COLON: CodePoint := 0x3A
  const OPEN_ARRAY: CodePoint := 0x5B
  const CLOSE_ARRAY: CodePoint := 0x5D
  const OPEN_OBJECT: CodePoint := 0x7B
  const CLOSE_OBJECT: CodePoint := 0x7D
  const MINUS: CodePoint := 0x2D
  const ZERO: CodePoint := 0x30

  /** The letter of a two-character escape, for the characters that have one. */
  function ShortEscape(c: CodePoint): Option<CodePoint> {
    if c == QUOTE then Some(QUOTE)
    else if c == BACKSLASH then Some(BACKSLASH)
    else if c == 0x08 then Some(0x62)
    else if c == 0x0C then Some(0x66)
    else if c == 0x0A then Some(0x6E)
    else if c == 0x0D then Some(0x72)
    else if c == 0x09 then Some(0x74)
    else None
  }

  function HexDigit(d: nat): CodePoint
    requires d < 16
  {
    if d < 10 then 0x30 + d else 0x61 + d - 10
  }

  function EscapeChar(c: CodePoint): (t: Text)
    ensures t != []
  {
    if ShortEscape(c).Some? then [BACKSLASH, ShortEscape(c).value]
    else if c < 0x20 then [BACKSLASH, 0x75, ZERO, ZERO, HexDigit(c / 16), HexDigit(c % 16)]
    else [c]
  }

  function Escape(s: Text): Text {
    if s == [] then [] else EscapeChar(s[0]) + Escape(s[1..])
  }

  function Quoted(s: Text): Text {
    [QUOTE] + Escape(s) + [QUOTE]
  }

  function Decimal(n: nat): (t: Text)
    ensures t != []
  {
    if n < 10 then [ZERO + n] else Decimal(n / 10) + [ZERO + n % 10]
  }

  function Signed(n: int): Text {
    if n < 0 then [MINUS] + Decimal(-n) else Decimal(n)
  }

  const NULL_TEXT: Text := [0x6E, 0x75, 0x6C, 0x6C]
  const TRUE_TEXT: Text := [0x74, 0x72, 0x75, 0x65]
  const FALSE_TEXT: Text := [0x66, 0x61, 0x6C, 0x73, 0x65]

  function Print(j: Json): Text
    decreases j, 1
  {
    match j
    case JNull => NULL_TEXT
    case JBool(b) => if b then TRUE_TEXT else FALSE_TEXT
    case JInt(n) => Signed(n)
    case JStr(s) => Quoted(s)
    case JObj(members) => [OPEN_OBJECT] + PrintMembers(members) + [CLOSE_OBJECT]
    case JArr(items) => [OPEN_ARRAY] + PrintItems(items) + [CLOSE_ARRAY]
  }

  function PrintItems(items: seq<Json>): Text
    decreases items, 0
  {
    if items == [] then []
    else if |items| == 1 then Print(items[0])
    else Print(items[0]) + [COMMA] + PrintItems(items[1..])
  }

  function PrintMember(m: Member): Text
    decreases m, 2
  {
    Quoted(m.name) + [COLON] + Print(m.value)
  }

  function PrintMembers(members: seq<Member>): Text
    decreases members, 0
  {
    if members == [] then []
    else if |members| == 1 then PrintMember(members[0])
    else PrintMember(members[0]) + [COMMA] + PrintMembers(members[1..])
  }

  /** The text canonical_json returns, or None where it raises. */
  function CanonicalJson(v: Value): Option<Text> {
    var j := Canon(v);
    if j.None? then None else Some(Print(j.value))
  }
}
