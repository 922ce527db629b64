/** Python text as code points, its UTF-8 bytes, and the UTF-16 order RFC 8785 sorts keys by. */
module Unicode {
  import opened Hashing

  type CodePoint = c: int | 0 <= c < 0x110000

  /** A Python str: any code points, lone surrogates included. */
  type Text = seq<CodePoint>

  predicate Surrogate(c: CodePoint) {
    0xD800 <= c < 0xE000
  }

  lemma {:induction false} SurrogatesAre(c: CodePoint)
    ensures Surrogate(c) <==> 0xD800 <= c <= 0xDFFF
  {
  }

  /** Text that UTF-8 can encode. */
  predicate Valid(t: Text) {
    forall c <- t :: !Surrogate(c)
  }

  // ----- UTF-8

  function Utf8Char(c: CodePoint): (b: Bytes)
    requires !Surrogate(c)
    ensures 1 <= |b| <= 4
  {
    if c < 0x80 then
      [c]
    else if c < 0x800 then
      [0xC0 + c / 64, 0x80 + c % 64]
    else if c < 0x10000 then
      [0xE0 + c / 64 / 64, 0x80 + c / 64 % 64, 0x80 + c % 64]
    else
      [0xF0 + c / 64 / 64 / 64, 0x80 + c / 64 / 64 % 64, 0x80 + c / 64 % 64, 0x80 + c % 64]
  }

  function Utf8(t: Text): Bytes
    requires Valid(t)
  {
    if t == [] then [] else Utf8Char(t[0]) + Utf8(t[1..])
  }

  /** How many bytes the first byte of an encoded character announces. */
  function LeadLength(lead: int): nat {
    if lead < 0xC0 then 1 else if lead < 0xE0 then 2 else if lead < 0xF0 then 3 else 4
  }

  /** Reads one character back from the front of some bytes. */
  function FirstChar(b: seq<int>): int
    requires b != [] && |b| >= LeadLength(b[0])
  {
    if b[0] < 0xC0 then b[0]
    else if b[0] < 0xE0 then (b[0] - 0xC0) * 64 + (b[1] - 0x80)
    else if b[0] < 0xF0 then ((b[0] - 0xE0) * 64 + (b[1] - 0x80)) * 64 + (b[2] - 0x80)
    else (((b[0] - 0xF0) * 64 + (b[1] - 0x80)) * 64 + (b[2] - 0x80)) * 64 + (b[3] - 0x80)
  }

  lemma {:induction false} FirstCharAlone(c: CodePoint)
    requires !Surrogate(c)
    ensures LeadLength(Utf8Char(c)[0]) == |Utf8Char(c)| && FirstChar(Utf8Char(c)) == c
  {
  }

  lemma {:induction false} Utf8CharReads(c: CodePoint, rest: Bytes)
    requires !Surrogate(c)
    ensures var b: Bytes := Utf8Char(c) + rest;
            LeadLength(b[0]) == |Utf8Char(c)| && FirstChar(b) == c
  {
    FirstCharAlone(c);
    var b: Bytes, u := Utf8Char(c) + rest, Utf8Char(c);
    assert forall i :: 0 <= i < |u| ==> b[i] == u[i];
  }

  /** The table of section 3 of RFC 3629: how many bytes, and the bits each of them carries. */
  lemma {:induction false} Utf8Table(c: CodePoint)
    requires !Surrogate(c)
    ensures var b: seq<int> := Utf8Char(c);
            && (c <= 0x7F <==> |b| == 1) && (0x80 <= c <= 0x7FF <==> |b| == 2)
            && (0x800 <= c <= 0xFFFF <==> |b| == 3) && (0x10000 <= c <==> |b| == 4)
            && (|b| == 1 ==> b[0] == c)
            && (|b| == 2 ==> 0xC2 <= b[0] <= 0xDF && c == (b[0] - 0xC0) * 64 + (b[1] - 0x80))
            && (|b| == 3 ==> 0xE0 <= b[0] <= 0xEF && c == (b[0] - 0xE0) * 4096 + (b[1] - 0x80) * 64 + (b[2] - 0x80))
            && (|b| == 4 ==>
                 0xF0 <= b[0] <= 0xF4 &&
                 c == (b[0] - 0xF0) * 262144 + (b[1] - 0x80) * 4096 + (b[2] - 0x80) * 64 + (b[3] - 0x80))
            && forall i :: 1 <= i < |b| ==> 0x80 <= b[i] <= 0xBF
  {
  }

  /** UTF-8 loses nothing: two valid texts with the same bytes are the same text. */
  lemma {:induction false} Utf8Injective(s: Text, t: Text)
    requires Valid(s) && Valid(t) && Utf8(s) == Utf8(t)
    ensures s == t
  {
    if s != [] && t != [] {
      Utf8CharReads(s[0], Utf8(s[1..]));
      Utf8CharReads(t[0], Utf8(t[1..]));
      assert s[0] == t[0];
      var n := |Utf8Char(s[0])|;
      assert Utf8(s)[n..] == Utf8(s[1..]) && Utf8(t)[n..] == Utf8(t[1..]);
      Utf8Injective(s[1..], t[1..]);
    }
  }

  // ----- UTF-16

  type CodeUnit = u: int | 0 <= u < 0x10000

  /** The code units of one code point; a lone surrogate passes through as itself. */
  function Units(c: CodePoint): (u: seq<CodeUnit>)
    ensures 1 <= |u| <= 2
  {
    if c < 0x10000 then [c] else [0xD800 + (c - 0x10000) / 1024, 0xDC00 + (c - 0x10000) % 1024]
  }

  /** Section 3.9 of the Unicode standard: one unit, or a high and a low surrogate. */
  lemma {:induction false} UnitsAre(c: CodePoint)
    ensures var u: seq<int> := Units(c);
            if c < 0x10000 then u == [c]
            else
              && |u| == 2 && 0xD800 <= u[0] <= 0xDBFF && 0xDC00 <= u[1] <= 0xDFFF
              && c == 0x10000 + (u[0] - 0xD800) * 0x400 + (u[1] - 0xDC00)
  {
  }

  function Utf16(t: Text): seq<CodeUnit> {
    if t == [] then [] else Units(t[0]) + Utf16(t[1..])
  }

  function BigEndian(units: seq<CodeUnit>): Bytes {
    if units == [] then [] else [units[0] / 256, units[0] % 256] + BigEndian(units[1..])
  }

  /** The order Python compares byte strings by. */
  predicate LexLess(a: seq<int>, b: seq<int>) {
    b != [] && (a == [] || a[0] < b[0] || (a[0] == b[0] && LexLess(a[1..], b[1..])))
  }

  lemma {:induction false} LexTotal(a: seq<int>, b: seq<int>)
    ensures LexLess(a, b) || a == b || LexLess(b, a)
  {
    if a != [] && b != [] {
      LexTotal(a[1..], b[1..]);
    }
  }

  lemma {:induction false} LexTransitive(a: seq<int>, b: seq<int>, c: seq<int>)
    requires LexLess(a, b) && LexLess(b, c)
    ensures LexLess(a, c)
  {
    if a != [] && a[0] == b[0] == c[0] {
      LexTransitive(a[1..], b[1..], c[1..]);
    }
  }

  lemma {:induction false} LexIrreflexive(a: seq<int>)
    ensures !LexLess(a, a)
  {
    if a != [] {
      LexIrreflexive(a[1..]);
    }
  }

  lemma {:induction false} LexLessCommonPrefix(p: seq<int>, a: seq<int>, b: seq<int>)
    ensures LexLess(p + a, p + b) == LexLess(a, b)
  {
    if p == [] {
      assert p + a == a && p + b == b;
    } else {
      assert (p + a)[1..] == p[1..] + a && (p + b)[1..] == p[1..] + b;
      LexLessCommonPrefix(p[1..], a, b);
    }
  }

  /** Comparing big-endian bytes is comparing code units, which is the order RFC 8785 section 3.2.3
      asks for. */
  lemma {:induction false} BigEndianKeepsOrder(u: seq<CodeUnit>, v: seq<CodeUnit>)
    ensures LexLess(BigEndian(u), BigEndian(v)) <==> LexLess(u, v)
  {
    if u != [] && v != [] {
      BigEndianKeepsOrder(u[1..], v[1..]);
      if u[0] == v[0] {
        LexLessCommonPrefix([u[0] / 256, u[0] % 256], BigEndian(u[1..]), BigEndian(v[1..]));
      } else {
        var x: seq<int>, y: seq<int> := BigEndian(u), BigEndian(v);
        assert x[1..][0] == x[1] && y[1..][0] == y[1];
        assert u[0] == 256 * x[0] + x[1] && v[0] == 256 * y[0] + y[1];
      }
    }
  }

  lemma {:induction false} BigEndianInjective(u: seq<CodeUnit>, v: seq<CodeUnit>)
    requires BigEndian(u) == BigEndian(v)
    ensures u == v
  {
    if u != [] && v != [] {
      var x: seq<int>, y: seq<int> := BigEndian(u), BigEndian(v);
      assert u[0] == 256 * x[0] + x[1] && v[0] == 256 * y[0] + y[1];
      assert x[2..] == BigEndian(u[1..]) && y[2..] == BigEndian(v[1..]);
      BigEndianInjective(u[1..], v[1..]);
    }
  }

  /** On valid text UTF-16 loses nothing either, so no two keys compare equal. */
  lemma {:induction false} Utf16Injective(s: Text, t: Text)
    requires Valid(s) && Valid(t) && Utf16(s) == Utf16(t)
    ensures s == t
  {
    if s != [] && t != [] {
      var a, b := s[0], t[0];
      assert a in s && b in t;
      assert Utf16(s)[0] == Units(a)[0] && Utf16(t)[0] == Units(b)[0];
      if a >= 0x10000 && b >= 0x10000 {
        assert Utf16(s)[1] == Units(a)[1] && Utf16(t)[1] == Units(b)[1];
        var x: seq<int>, y: seq<int> := Units(a), Units(b);
        assert a - 0x10000 == 1024 * (x[0] - 0xD800) + (x[1] - 0xDC00);
        assert b - 0x10000 == 1024 * (y[0] - 0xD800) + (y[1] - 0xDC00);
      }
      assert a == b;
      var n := |Units(a)|;
      assert Utf16(s)[n..] == Utf16(s[1..]) && Utf16(t)[n..] == Utf16(t[1..]);
      Utf16Injective(s[1..], t[1..]);
    }
  }

  /** What keys are sorted by. */
  function SortKey(name: Text): Bytes {
    BigEndian(Utf16(name))
  }

  /** Two valid names are either equal or strictly ordered, one way only. */
  lemma {:induction false} SortKeyOrders(a: Text, b: Text)
    requires Valid(a) && Valid(b) && a != b
    ensures LexLess(SortKey(a), SortKey(b)) != LexLess(SortKey(b), SortKey(a))
  {
    LexTotal(SortKey(a), SortKey(b));
    if SortKey(a) == SortKey(b) {
      BigEndianInjective(Utf16(a), Utf16(b));
      Utf16Injective(a, b);
    }
    if LexLess(SortKey(a), SortKey(b)) && LexLess(SortKey(b), SortKey(a)) {
      LexTransitive(SortKey(a), SortKey(b), SortKey(a));
      LexIrreflexive(SortKey(a));
    }
  }
}
