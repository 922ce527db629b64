/** A reader for JSON text without white space, with the grammar's characters written out, and the proof that
    it gives back what was written. */
module CanonicalParse {
  import opened Unicode
  import opened Canonical

  datatype Parsed<+T> = Fail | Got(value: T, rest: Text)

  predicate Digit(c: CodePoint) {
    0x30 <= c < 0x3A
  }

  function HexValue(c: CodePoint): nat
    requires Digit(c) || 0x61 <= c < 0x67
  {
    if Digit(c) then c - 0x30 else c - 0x61 + 10
  }

  predicate HexChar(c: CodePoint) {
    Digit(c) || 0x61 <= c < 0x67
  }

  // ----- numbers

  function LeadingDigits(t: Text): (n: nat)
    ensures n <= |t|
  {
    if t == [] || !Digit(t[0]) then 0 else 1 + LeadingDigits(t[1..])
  }

  function NumberOf(digits: seq<int>): int {
    if digits == [] then 0
    else
      var last := |digits| - 1;
      NumberOf(digits[..last]) * 10 + (digits[last] - 0x30)
  }

  function ParseNat(t: Text): Parsed<int> {
    var n := LeadingDigits(t);
    if n == 0 then Fail else Got(NumberOf(t[..n]), t[n..])
  }

  lemma {:induction false} DecimalDigits(n: nat)
    ensures forall d <- Decimal(n) :: Digit(d)
    ensures NumberOf(Decimal(n)) == n
  {
    if n < 10 {
      var d: Text := Decimal(n);
      assert d[..0] == [];
    } else {
      DecimalDigits(n / 10);
      var d: Text := Decimal(n);
      assert d[..|d| - 1] == Decimal(n / 10);
    }
  }

  /** What follows a value: nothing, or something that does not continue a number. */
  predicate Ends(rest: Text) {
    rest == [] || !Digit(rest[0])
  }

  lemma {:induction false} LeadingDigitsStop(digits: Text, rest: Text)
    requires (forall d <- digits :: Digit(d)) && Ends(rest)
    ensures LeadingDigits(digits + rest) == |digits|
  {
    if digits == [] {
      assert digits + rest == rest;
    } else {
      assert (digits + rest)[1..] == digits[1..] + rest;
      LeadingDigitsStop(digits[1..], rest);
    }
  }

  lemma {:induction false} ParseNatReads(n: nat, rest: Text)
    requires Ends(rest)
    ensures ParseNat(Decimal(n) + rest) == Got(n, rest)
  {
    DecimalDigits(n);
    LeadingDigitsStop(Decimal(n), rest);
    var t := Decimal(n) + rest;
    assert t[..|Decimal(n)|] == Decimal(n) && t[|Decimal(n)|..] == rest;
  }

  // ----- strings

  /** The character a short escape letter stands for. */
  function Unescaped(letter: CodePoint): Option<CodePoint> {
    if letter == 0x22 then Some(0x22)
    else if letter == 0x5C then Some(0x5C)
    else if letter == 0x62 then Some(0x08)
    else if letter == 0x66 then Some(0x0C)
    else if letter == 0x6E then Some(0x0A)
    else if letter == 0x72 then Some(0x0D)
    else if letter == 0x74 then Some(0x09)
    else None
  }

  /** One character of a string, escaped or not. A bare control character is refused. */
  function ParseChar(t: Text): (r: Parsed<CodePoint>)
    requires t != []
    ensures r.Got? ==> |r.rest| < |t|
  {
    if t[0] < 0x20 then Fail
    else if t[0] != 0x5C then Got(t[0], t[1..])
    else if |t| < 2 then Fail
    else if Unescaped(t[1]).Some? then Got(Unescaped(t[1]).value, t[2..])
    else if |t| >= 6 && t[1] == 0x75 && t[2] == 0x30 && t[3] == 0x30 && HexChar(t[4]) && HexChar(t[5]) then
      Got(HexValue(t[4]) * 16 + HexValue(t[5]), t[6..])
    else Fail
  }

  /** The rest of a string after its opening quote. */
  function ParseChars(t: Text): (r: Parsed<Text>)
    ensures r.Got? ==> |r.rest| < |t|
    decreases |t|
  {
    if t == [] then Fail
    else if t[0] == 0x22 then Got([], t[1..])
    else
      var first := ParseChar(t);
      if first.Fail? then Fail
      else
        var others := ParseChars(first.rest);
        if others.Fail? then Fail else Got([first.value] + others.value, others.rest)
  }

  lemma {:induction false} ParseCharReads(c: CodePoint, rest: Text)
    ensures (EscapeChar(c) + rest)[0] != QUOTE
    ensures ParseChar(EscapeChar(c) + rest) == Got(c, rest)
  {
    var t := EscapeChar(c) + rest;
    var n := |EscapeChar(c)|;
    assert t[n..] == rest;
    assert forall i :: 0 <= i < n ==> t[i] == EscapeChar(c)[i];
  }

  lemma {:induction false} ParseCharsReads(s: Text, rest: Text)
    ensures ParseChars(Escape(s) + ([QUOTE] + rest)) == Got(s, rest)
  {
    if s == [] {
      assert Escape(s) + ([QUOTE] + rest) == [QUOTE] + rest;
      assert ([QUOTE] + rest)[1..] == rest;
    } else {
      var tail := Escape(s[1..]) + ([QUOTE] + rest);
      assert Escape(s) + ([QUOTE] + rest) == EscapeChar(s[0]) + tail;
      ParseCharReads(s[0], tail);
      ParseCharsReads(s[1..], rest);
      assert [s[0]] + s[1..] == s;
    }
  }

  lemma {:induction false} QuotedReads(s: Text, rest: Text)
    ensures (Quoted(s) + rest)[0] == QUOTE
    ensures ParseChars((Quoted(s) + rest)[1..]) == Got(s, rest)
  {
    assert (Quoted(s) + rest)[1..] == Escape(s) + ([QUOTE] + rest);
    ParseCharsReads(s, rest);
  }

  // ----- values

  function ParseWord(t: Text, word: Text, j: Json): (r: Parsed<Json>)
    requires word != []
    ensures r.Got? ==> |r.rest| < |t|
  {
    if word <= t then Got(j, t[|word|..]) else Fail
  }

  function ParseString(t: Text): (r: Parsed<Json>)
    requires t != []
    ensures r.Got? ==> |r.rest| < |t|
  {
    var s := ParseChars(t[1..]);
    if s.Fail? then Fail else Got(JStr(s.value), s.rest)
  }

  function ParseInt(t: Text): (r: Parsed<Json>)
    requires t != []
    ensures r.Got? ==> |r.rest| < |t|
  {
    var n := if t[0] == 0x2D then ParseNat(t[1..]) else ParseNat(t);
    if n.Fail? then Fail else Got(JInt(if t[0] == 0x2D then -n.value else n.value), n.rest)
  }

  function ParseValue(t: Text): (r: Parsed<Json>)
    ensures r.Got? ==> |r.rest| < |t|
    decreases |t|, 1
  {
    if t == [] then Fail
    else if t[0] == 0x6E then ParseWord(t, [0x6E, 0x75, 0x6C, 0x6C], JNull)
    else if t[0] == 0x74 then ParseWord(t, [0x74, 0x72, 0x75, 0x65], JBool(true))
    else if t[0] == 0x66 then ParseWord(t, [0x66, 0x61, 0x6C, 0x73, 0x65], JBool(false))
    else if t[0] == 0x22 then ParseString(t)
    else if t[0] == 0x5B then
      if |t| >= 2 && t[1] == 0x5D then Got(JArr([]), t[2..])
      else
        var items := ParseItems(t[1..]);
        if items.Fail? then Fail else Got(JArr(items.value), items.rest)
    else if t[0] == 0x7B then
      if |t| >= 2 && t[1] == 0x7D then Got(JObj([]), t[2..])
      else
        var members := ParseMembers(t[1..]);
        if members.Fail? then Fail else Got(JObj(members.value), members.rest)
    else ParseInt(t)
  }

  function ParseItems(t: Text): (r: Parsed<seq<Json>>)
    ensures r.Got? ==> |r.rest| < |t|
    decreases |t|, 2
  {
    var first := ParseValue(t);
    if first.Fail? || first.rest == [] then Fail
    else if first.rest[0] == 0x5D then Got([first.value], first.rest[1..])
    else if first.rest[0] == 0x2C then
      var others := ParseItems(first.rest[1..]);
      if others.Fail? then Fail else Got([first.value] + others.value, others.rest)
    else Fail
  }

  function ParseMember(t: Text): (r: Parsed<Member>)
    ensures r.Got? ==> |r.rest| < |t|
    decreases |t|, 0
  {
    if t == [] || t[0] != 0x22 then Fail
    else
      var name := ParseChars(t[1..]);
      if name.Fail? || name.rest == [] || name.rest[0] != 0x3A then Fail
      else
        var value := ParseValue(name.rest[1..]);
        if value.Fail? then Fail else Got(Member(name.value, value.value), value.rest)
  }

  function ParseMembers(t: Text): (r: Parsed<seq<Member>>)
    ensures r.Got? ==> |r.rest| < |t|
    decreases |t|, 2
  {
    var first := ParseMember(t);
    if first.Fail? || first.rest == [] then Fail
    else if first.rest[0] == 0x7D then Got([first.value], first.rest[1..])
    else if first.rest[0] == 0x2C then
      var others := ParseMembers(first.rest[1..]);
      if others.Fail? then Fail else Got([first.value] + others.value, others.rest)
    else Fail
  }

  /** Reads a whole text. */
  function Parse(t: Text): Option<Json> {
    var r := ParseValue(t);
    if r.Got? && r.rest == [] then Some(r.value) else None
  }

  // ----- what was written is what is read

  lemma {:induction false} PrintStarts(j: Json)
    ensures Print(j) != []
    ensures Print(j)[0] !in {CLOSE_ARRAY, CLOSE_OBJECT, COMMA, COLON}
  {
    if j.JInt? {
      var n := if j.n < 0 then -j.n else j.n;
      DecimalDigits(n);
      assert Decimal(n)[0] in Decimal(n);
    }
  }

  lemma {:induction false} MembersStart(members: seq<Member>)
    requires members != []
    ensures PrintMembers(members) != [] && PrintMembers(members)[0] == QUOTE
  {
    assert PrintMember(members[0])[0] == QUOTE;
  }

  lemma {:induction false} DecimalStarts(n: nat, rest: Text)
    ensures Digit((Decimal(n) + rest)[0])
  {
    DecimalDigits(n);
    assert Decimal(n)[0] in Decimal(n);
  }

  lemma {:induction false} ParseSign(t: Text, m: int, rest: Text)
    requires ParseNat(t) == Got(m, rest)
    ensures ParseInt([MINUS] + t) == Got(JInt(-m), rest)
    ensures t != [] && t[0] != MINUS ==> ParseInt(t) == Got(JInt(m), rest)
  {
    assert ([MINUS] + t)[1..] == t;
  }

  lemma {:induction false} ParseIntReads(n: int, rest: Text)
    requires Ends(rest)
    ensures (Signed(n) + rest)[0] == MINUS || Digit((Signed(n) + rest)[0])
    ensures ParseInt(Signed(n) + rest) == Got(JInt(n), rest)
  {
    var m := if n < 0 then -n else n;
    var t := Decimal(m) + rest;
    ParseNatReads(m, rest);
    DecimalStarts(m, rest);
    ParseSign(t, m, rest);
    if n < 0 {
      assert Signed(n) + rest == [MINUS] + t;
    }
  }

  lemma {:induction false} ParseWordReads(j: Json, rest: Text)
    requires j.JNull? || j.JBool?
    ensures ParseValue(Print(j) + rest) == Got(j, rest)
  {
    var t, n := Print(j) + rest, |Print(j)|;
    assert t[..n] == Print(j) && t[n..] == rest && t[0] == Print(j)[0];
  }

  lemma {:induction false} ParseBracket(inner: Text, items: seq<Json>, rest: Text)
    requires inner != [] && inner[0] != CLOSE_ARRAY && ParseItems(inner) == Got(items, rest)
    ensures ParseValue([OPEN_ARRAY] + inner) == Got(JArr(items), rest)
  {
    assert ([OPEN_ARRAY] + inner)[1..] == inner;
  }

  lemma {:induction false} ParseArrayReads(items: seq<Json>, rest: Text)
    requires items != [] && ParseItems(PrintItems(items) + ([CLOSE_ARRAY] + rest)) == Got(items, rest)
    ensures ParseValue(Print(JArr(items)) + rest) == Got(JArr(items), rest)
  {
    var inner := PrintItems(items) + ([CLOSE_ARRAY] + rest);
    PrintStarts(items[0]);
    assert inner[0] == Print(items[0])[0];
    ParseBracket(inner, items, rest);
    assert Print(JArr(items)) + rest == [OPEN_ARRAY] + inner;
  }

  lemma {:induction false} ParseBrace(inner: Text, members: seq<Member>, rest: Text)
    requires inner != [] && inner[0] != CLOSE_OBJECT && ParseMembers(inner) == Got(members, rest)
    ensures ParseValue([OPEN_OBJECT] + inner) == Got(JObj(members), rest)
  {
    assert ([OPEN_OBJECT] + inner)[1..] == inner;
  }

  lemma {:induction false} ObjectText(members: seq<Member>, rest: Text)
    ensures Print(JObj(members)) + rest == [OPEN_OBJECT] + (PrintMembers(members) + ([CLOSE_OBJECT] + rest))
  {
  }

  lemma {:induction false} ParseObjectReads(members: seq<Member>, rest: Text)
    requires members != [] && ParseMembers(PrintMembers(members) + ([CLOSE_OBJECT] + rest)) == Got(members, rest)
    ensures ParseValue(Print(JObj(members)) + rest) == Got(JObj(members), rest)
  {
    MembersStart(members);
    ParseBrace(PrintMembers(members) + ([CLOSE_OBJECT] + rest), members, rest);
    ObjectText(members, rest);
  }

  lemma {:induction false} ParsePrint(j: Json, rest: Text)
    requires Ends(rest)
    ensures ParseValue(Print(j) + rest) == Got(j, rest)
    decreases j, 1
  {
    match j
    case JNull => ParseWordReads(j, rest);
    case JBool(_) => ParseWordReads(j, rest);
    case JInt(n) => ParseIntReads(n, rest);
    case JStr(s) => QuotedReads(s, rest);
    case JArr(items) =>
      if items == [] {
        assert (Print(j) + rest)[2..] == rest;
      } else {
        ParsePrintItems(items, rest);
        ParseArrayReads(items, rest);
      }
    case JObj(members) =>
      if members == [] {
        assert (Print(j) + rest)[2..] == rest;
      } else {
        ParsePrintMembers(members, rest);
        ParseObjectReads(members, rest);
      }
  }

  lemma {:induction false} ParseItemsLast(t: Text, first: Json, rest: Text)
    requires ParseValue(t) == Got(first, [CLOSE_ARRAY] + rest)
    ensures ParseItems(t) == Got([first], rest)
  {
    assert ([CLOSE_ARRAY] + rest)[1..] == rest;
  }

  lemma {:induction false} ParseItemsCons(t: Text, first: Json, more: Text, others: seq<Json>, rest: Text)
    requires ParseValue(t) == Got(first, [COMMA] + more) && ParseItems(more) == Got(others, rest)
    ensures ParseItems(t) == Got([first] + others, rest)
  {
    assert ([COMMA] + more)[1..] == more;
  }

  lemma {:induction false} PrintItemsSplits(items: seq<Json>, tail: Text)
    requires |items| >= 2
    ensures PrintItems(items) + tail == Print(items[0]) + ([COMMA] + (PrintItems(items[1..]) + tail))
  {
  }

  lemma {:induction false} ItemsRead(items: seq<Json>, tail: Text, more: Text, rest: Text)
    requires |items| >= 2 && more == PrintItems(items[1..]) + tail && ParseItems(more) == Got(items[1..], rest)
    requires ParseValue(Print(items[0]) + ([COMMA] + more)) == Got(items[0], [COMMA] + more)
    ensures ParseItems(PrintItems(items) + tail) == Got(items, rest)
  {
    ParseItemsCons(Print(items[0]) + ([COMMA] + more), items[0], more, items[1..], rest);
    PrintItemsSplits(items, tail);
    assert items == [items[0]] + items[1..];
  }

  lemma {:induction false} ParsePrintItems(items: seq<Json>, rest: Text)
    requires items != []
    ensures ParseItems(PrintItems(items) + ([CLOSE_ARRAY] + rest)) == Got(items, rest)
    decreases items, 0
  {
    var tail := [CLOSE_ARRAY] + rest;
    if |items| == 1 {
      ParsePrint(items[0], tail);
      ParseItemsLast(Print(items[0]) + tail, items[0], rest);
      assert items == [items[0]];
    } else {
      var more := PrintItems(items[1..]) + tail;
      ParsePrint(items[0], [COMMA] + more);
      ParsePrintItems(items[1..], rest);
      ItemsRead(items, tail, more, rest);
    }
  }

  lemma {:induction false} ParseNamed(t: Text, name: Text, tail: Text)
    requires t != [] && t[0] == QUOTE && ParseChars(t[1..]) == Got(name, tail)
    requires tail != [] && tail[0] == COLON && ParseValue(tail[1..]).Got?
    ensures ParseMember(t) == Got(Member(name, ParseValue(tail[1..]).value), ParseValue(tail[1..]).rest)
  {
  }

  lemma {:induction false} ParsePrintMember(m: Member, rest: Text)
    requires Ends(rest)
    ensures ParseMember(PrintMember(m) + rest) == Got(m, rest)
    decreases m, 2
  {
    var tail := [COLON] + (Print(m.value) + rest);
    assert PrintMember(m) + rest == Quoted(m.name) + tail;
    QuotedReads(m.name, tail);
    assert tail[1..] == Print(m.value) + rest;
    ParsePrint(m.value, rest);
    ParseNamed(PrintMember(m) + rest, m.name, tail);
  }

  lemma {:induction false} ParseMembersLast(t: Text, first: Member, tail: Text)
    requires ParseMember(t) == Got(first, tail) && tail != [] && tail[0] == CLOSE_OBJECT
    ensures ParseMembers(t) == Got([first], tail[1..])
  {
  }

  lemma {:induction false} ParseMembersCons(t: Text, first: Member, more: Text, others: seq<Member>, rest: Text)
    requires ParseMember(t) == Got(first, [COMMA] + more) && ParseMembers(more) == Got(others, rest)
    ensures ParseMembers(t) == Got([first] + others, rest)
  {
    assert ([COMMA] + more)[1..] == more;
  }

  lemma {:induction false} PrintMembersSplits(members: seq<Member>, rest: Text)
    requires |members| >= 2
    ensures PrintMembers(members) + ([CLOSE_OBJECT] + rest) ==
            PrintMember(members[0]) + ([COMMA] + (PrintMembers(members[1..]) + ([CLOSE_OBJECT] + rest)))
  {
  }

  lemma {:induction false} ParsePrintOneMember(m: Member, rest: Text)
    ensures ParseMembers(PrintMembers([m]) + ([CLOSE_OBJECT] + rest)) == Got([m], rest)
    decreases m, 3
  {
    var tail := [CLOSE_OBJECT] + rest;
    ParsePrintMember(m, tail);
    assert tail[1..] == rest;
    ParseMembersLast(PrintMembers([m]) + tail, m, tail);
  }

  lemma {:induction false} ParsePrintMembers(members: seq<Member>, rest: Text)
    requires members != []
    ensures ParseMembers(PrintMembers(members) + ([CLOSE_OBJECT] + rest)) == Got(members, rest)
    decreases members, 0
  {
    if |members| == 1 {
      ParsePrintOneMember(members[0], rest);
      assert members == [members[0]];
    } else {
      ParsePrintMembers(members[1..], rest);
      var more := PrintMembers(members[1..]) + ([CLOSE_OBJECT] + rest);
      ParsePrintMember(members[0], [COMMA] + more);
      ParseMembersCons(PrintMember(members[0]) + ([COMMA] + more), members[0], more, members[1..], rest);
      PrintMembersSplits(members, rest);
      assert [members[0]] + members[1..] == members;
    }
  }

  /** Round trip: reading the printed text gives the value back, whatever the value. */
  lemma {:induction false} RoundTrip(j: Json)
    ensures Parse(Print(j)) == Some(j)
  {
    assert Print(j) + [] == Print(j);
    ParsePrint(j, []);
  }

  /** Every text canonical_json returns is read back as the value's normal form. */
  lemma {:induction false} CanonicalTextReadsBack(v: Value)
    ensures CanonicalJson(v).Some? ==> Parse(CanonicalJson(v).value) == Canon(v)
  {
    if Canon(v).Some? {
      RoundTrip(Canon(v).value);
    }
  }
}
