/** What the canonical text looks like, character by character, and that nothing shorter says the same. */
module CanonicalShape {
  import opened Unicode
  import opened Canonical
  import opened CanonicalParse
  import opened CanonicalMeaning

  // ----- characters

  /** The escaping rule of section 3.2.2.2 of RFC 8785. */
  lemma {:induction false} EscapingIs(c: CodePoint)
    ensures EscapeChar(c) ==
            if c == 0x22 then [0x5C, 0x22]
            else if c == 0x5C then [0x5C, 0x5C]
            else if c == 0x08 then [0x5C, 0x62]
            else if c == 0x09 then [0x5C, 0x74]
            else if c == 0x0A then [0x5C, 0x6E]
            else if c == 0x0C then [0x5C, 0x66]
            else if c == 0x0D then [0x5C, 0x72]
            else if c < 0x10 then [0x5C, 0x75, 0x30, 0x30, 0x30, if c < 0x0A then 0x30 + c else 0x57 + c]
            else if c < 0x20 then [0x5C, 0x75, 0x30, 0x30, 0x31, if c < 0x1A then 0x20 + c else 0x47 + c]
            else [c]
  {
  }

  lemma {:induction false} ShortestChar(t: Text)
    requires t != [] && t[0] != 0x22 && ParseChar(t).Got?
    ensures |t| >= |ParseChar(t).rest| + |EscapeChar(ParseChar(t).value)|
  {
    EscapingIs(ParseChar(t).value);
  }

  lemma {:induction false} ShortestChars(t: Text)
    requires ParseChars(t).Got?
    ensures |t| >= |ParseChars(t).rest| + |Escape(ParseChars(t).value)| + 1
    decreases |t|
  {
    if t[0] != 0x22 {
      var first := ParseChar(t);
      ShortestChar(t);
      ShortestChars(first.rest);
      var others := ParseChars(first.rest).value;
      assert ([first.value] + others)[1..] == others;
    }
  }

  // ----- numbers

  lemma {:induction false} DecimalFits(digits: seq<int>)
    requires digits != [] && forall i :: 0 <= i < |digits| ==> 0x30 <= digits[i] < 0x3A
    ensures NumberOf(digits) >= 0 && |Decimal(NumberOf(digits))| <= |digits|
  {
    var last := |digits| - 1;
    if last > 0 {
      DecimalFits(digits[..last]);
      assert NumberOf(digits) / 10 == NumberOf(digits[..last]);
    } else {
      assert digits[..0] == [];
    }
  }

  lemma {:induction false} DigitsLead(t: Text)
    ensures forall i :: 0 <= i < LeadingDigits(t) ==> 0x30 <= t[i] < 0x3A
  {
    if t != [] && Digit(t[0]) {
      DigitsLead(t[1..]);
      assert forall i :: 0 < i < LeadingDigits(t) ==> t[i] == t[1..][i - 1];
    }
  }

  lemma {:induction false} ShortestNat(t: Text)
    requires ParseNat(t).Got?
    ensures ParseNat(t).value >= 0 && |t| >= |ParseNat(t).rest| + |Decimal(ParseNat(t).value)|
  {
    DigitsLead(t);
    var digits: seq<int> := t[..LeadingDigits(t)];
    DecimalFits(digits);
  }

  // ----- values

  /** Some text was read, and it is no shorter than the printed value. */
  predicate NoShorter(t: Text, rest: Text, printed: Text) {
    |t| >= |rest| + |printed|
  }

  lemma {:induction false} ShortestString(t: Text)
    requires t != [] && ParseString(t).Got?
    ensures NoShorter(t, ParseString(t).rest, Print(ParseString(t).value))
  {
    ShortestChars(t[1..]);
  }

  lemma {:induction false} ShortestInt(t: Text)
    requires t != [] && ParseInt(t).Got?
    ensures NoShorter(t, ParseInt(t).rest, Print(ParseInt(t).value))
  {
    if t[0] == 0x2D {
      ShortestNat(t[1..]);
    } else {
      ShortestNat(t);
    }
  }

  lemma {:induction false} ShortestArray(t: Text)
    requires t != [] && t[0] == 0x5B && ParseValue(t).Got?
    ensures NoShorter(t, ParseValue(t).rest, Print(ParseValue(t).value))
    decreases |t|, 0
  {
    if !(|t| >= 2 && t[1] == 0x5D) {
      ShortestItems(t[1..]);
    }
  }

  lemma {:induction false} ShortestObject(t: Text)
    requires t != [] && t[0] == 0x7B && ParseValue(t).Got?
    ensures NoShorter(t, ParseValue(t).rest, Print(ParseValue(t).value))
    decreases |t|, 0
  {
    if !(|t| >= 2 && t[1] == 0x7D) {
      ShortestMembers(t[1..]);
    }
  }

  lemma {:induction false} ShortestWord(t: Text)
    requires t != [] && t[0] in {0x6E, 0x74, 0x66} && ParseValue(t).Got?
    ensures NoShorter(t, ParseValue(t).rest, Print(ParseValue(t).value))
  {
  }

  /** Of all texts that a reader reads as some value, none is shorter than the printed one. */
  lemma {:induction false} ShortestValue(t: Text)
    requires ParseValue(t).Got?
    ensures NoShorter(t, ParseValue(t).rest, Print(ParseValue(t).value))
    decreases |t|, 1
  {
    if t[0] == 0x22 {
      ShortestString(t);
    } else if t[0] == 0x5B {
      ShortestArray(t);
    } else if t[0] == 0x7B {
      ShortestObject(t);
    } else if t[0] in {0x6E, 0x74, 0x66} {
      ShortestWord(t);
    } else {
      ShortestInt(t);
    }
  }

  lemma {:induction false} ShortestItems(t: Text)
    requires ParseItems(t).Got?
    ensures |t| >= |ParseItems(t).rest| + |PrintItems(ParseItems(t).value)| + 1 && ParseItems(t).value != []
    decreases |t|, 2
  {
    var first := ParseValue(t);
    ShortestValue(t);
    if first.rest[0] == 0x2C {
      var others := ParseItems(first.rest[1..]);
      ShortestItems(first.rest[1..]);
      ItemsLength(first.value, others.value);
    }
  }

  lemma {:induction false} ItemsLength(first: Json, others: seq<Json>)
    requires others != []
    ensures |PrintItems([first] + others)| == |Print(first)| + 1 + |PrintItems(others)|
  {
    assert ([first] + others)[1..] == others;
  }

  lemma {:induction false} ShortestMember(t: Text)
    requires ParseMember(t).Got?
    ensures NoShorter(t, ParseMember(t).rest, PrintMember(ParseMember(t).value))
    decreases |t|, 0
  {
    var name := ParseChars(t[1..]);
    ShortestChars(t[1..]);
    ShortestValue(name.rest[1..]);
  }

  lemma {:induction false} ShortestMembers(t: Text)
    requires ParseMembers(t).Got?
    ensures |t| >= |ParseMembers(t).rest| + |PrintMembers(ParseMembers(t).value)| + 1 && ParseMembers(t).value != []
    decreases |t|, 2
  {
    var first := ParseMember(t);
    ShortestMember(t);
    if first.rest[0] == 0x2C {
      var others := ParseMembers(first.rest[1..]);
      ShortestMembers(first.rest[1..]);
      MembersLength(first.value, others.value);
    }
  }

  lemma {:induction false} MembersLength(first: Member, others: seq<Member>)
    requires others != []
    ensures |PrintMembers([first] + others)| == |PrintMember(first)| + 1 + |PrintMembers(others)|
  {
    assert ([first] + others)[1..] == others;
  }

  /** The canonical text is a shortest text of its value: nothing is escaped, spaced or padded needlessly. */
  lemma {:induction false} CanonicalIsShortest(v: Value, t: Text)
    requires CanonicalJson(v).Some? && Parse(t) == Canon(v)
    ensures |CanonicalJson(v).value| <= |t|
  {
    ShortestValue(t);
  }

  // ----- key order

  /** One name comes before another: at the first UTF-16 code unit where they differ it has the smaller one,
      or it ends there. */
  predicate Before(a: seq<int>, b: seq<int>, k: nat) {
    k <= |a| && k < |b| && a[..k] == b[..k] && (k == |a| || a[k] < b[k])
  }

  lemma {:induction false} LexIsBefore(a: seq<int>, b: seq<int>) returns (k: nat)
    requires LexLess(a, b)
    ensures Before(a, b, k)
  {
    if a == [] || a[0] < b[0] {
      k := 0;
    } else {
      var rest := LexIsBefore(a[1..], b[1..]);
      k := rest + 1;
      assert a[..k] == [a[0]] + a[1..][..rest] && b[..k] == [b[0]] + b[1..][..rest];
    }
  }

  ghost predicate NamesInOrder(ms: seq<Member>) {
    forall i, j :: 0 <= i < j < |ms| ==> InOrder(ms[i].name, ms[j].name)
  }

  ghost predicate InOrder(a: Text, b: Text) {
    exists k: nat :: Before(Utf16(a), Utf16(b), k)
  }

  /** The members of an object stand in the order of their names' UTF-16 code units, smallest first (section
      3.2.3 of RFC 8785). */
  lemma {:induction false} MembersInOrder(v: Value)
    requires v.Mapping? && Genuine(v) && Canon(v).Some?
    ensures NamesInOrder(Canon(v).value.members)
  {
    var entries := CanonEntries(v.entries).value;
    MembersOfGenuine(v);
    SortAscends(entries);
    var ms := SortMembers(entries);
    forall i, j | 0 <= i < j < |ms|
      ensures InOrder(ms[i].name, ms[j].name)
    {
      BigEndianKeepsOrder(Utf16(ms[i].name), Utf16(ms[j].name));
      var k := LexIsBefore(Utf16(ms[i].name), Utf16(ms[j].name));
    }
  }

  /** Integers are written up to 2^53 - 1 either way, and refused beyond. */
  lemma {:induction false} SafeIntegers(n: int)
    ensures Canon(Int(n)) == if -9007199254740991 <= n <= 9007199254740991 then Some(JInt(n)) else None
  {
  }
}
