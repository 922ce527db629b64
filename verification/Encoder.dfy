/** The encoder as the service runs it: parts appended to an output list, keys sorted before they are
    written, and a stop at the first value that cannot be encoded. */
module Encoder {
  import opened Unicode
  import opened Canonical
  import opened CanonicalParse
  import opened CanonicalMeaning

  // ----- appending at the end

  lemma {:induction false} EscapeSnoc(s: Text, c: CodePoint)
    ensures Escape(s + [c]) == Escape(s) + EscapeChar(c)
  {
    if s == [] {
      assert Escape([c]) == EscapeChar(c) + Escape([]);
    } else {
      assert (s + [c])[1..] == s[1..] + [c];
      EscapeSnoc(s[1..], c);
    }
  }

  function Separator(count: nat): Text {
    if count == 0 then [] else [COMMA]
  }

  lemma {:induction false} PrintItemsSnoc(items: seq<Json>, j: Json)
    ensures PrintItems(items + [j]) == PrintItems(items) + Separator(|items|) + Print(j)
  {
    if items != [] {
      assert (items + [j])[1..] == items[1..] + [j];
      PrintItemsSnoc(items[1..], j);
      if |items| > 1 {
        assert PrintItems(items + [j]) == Print(items[0]) + [COMMA] + PrintItems(items[1..] + [j]);
      }
    }
  }

  lemma {:induction false} PrintMembersSnoc(ms: seq<Member>, m: Member)
    ensures PrintMembers(ms + [m]) == PrintMembers(ms) + Separator(|ms|) + PrintMember(m)
  {
    if ms != [] {
      assert (ms + [m])[1..] == ms[1..] + [m];
      PrintMembersSnoc(ms[1..], m);
      if |ms| > 1 {
        assert PrintMembers(ms + [m]) == PrintMember(ms[0]) + [COMMA] + PrintMembers(ms[1..] + [m]);
      }
    }
  }

  lemma {:induction false} Regroup(a: Text, b: Text, c: Text, d: Text)
    ensures a + b + c + d == a + (b + c + d)
  {
  }

  lemma {:induction false} ItemsGrow(base: Text, items: seq<Json>, j: Json)
    ensures base + PrintItems(items) + Separator(|items|) + Print(j) == base + PrintItems(items + [j])
  {
    PrintItemsSnoc(items, j);
    Regroup(base, PrintItems(items), Separator(|items|), Print(j));
  }

  lemma {:induction false} RegroupMember(start: Text, name: Text, value: Text)
    ensures start + name + [COLON] + value == start + (name + [COLON] + value)
  {
  }

  lemma {:induction false} MembersGrow(base: Text, ms: seq<Member>, m: Member)
    ensures base + PrintMembers(ms) + Separator(|ms|) + Quoted(m.name) + [COLON] + Print(m.value) ==
            base + PrintMembers(ms + [m])
  {
    PrintMembersSnoc(ms, m);
    RegroupMember(base + PrintMembers(ms) + Separator(|ms|), Quoted(m.name), Print(m.value));
    Regroup(base, PrintMembers(ms), Separator(|ms|), PrintMember(m));
  }

  lemma {:induction false} ClosedArray(before: Text, items: seq<Json>)
    ensures before + [OPEN_ARRAY] + PrintItems(items) + [CLOSE_ARRAY] == before + Print(JArr(items))
  {
  }

  lemma {:induction false} ClosedObject(before: Text, ms: seq<Member>)
    ensures before + [OPEN_OBJECT] + PrintMembers(ms) + [CLOSE_OBJECT] == before + Print(JObj(ms))
  {
  }

  // ----- sorting the entries before they are written

  predicate TextKeys(entries: seq<Entry>) {
    forall e <- entries :: e.key.Name?
  }

  function InsertEntry(e: Entry, es: seq<Entry>): (r: seq<Entry>)
    requires e.key.Name? && TextKeys(es)
    ensures TextKeys(r) && |r| == |es| + 1
    ensures forall x <- r :: x == e || x in es
  {
    if es == [] then [e]
    else if LexLess(SortKey(es[0].key.text), SortKey(e.key.text)) then [es[0]] + InsertEntry(e, es[1..])
    else [e] + es
  }

  function SortEntries(es: seq<Entry>): (r: seq<Entry>)
    requires TextKeys(es)
    ensures TextKeys(r) && |r| == |es|
    ensures forall x <- r :: x in es
  {
    if es == [] then [] else InsertEntry(es[0], SortEntries(es[1..]))
  }

  lemma {:induction false} CanonEntriesCons(e: Entry, es: seq<Entry>)
    ensures var m, ms := CanonEntry(e), CanonEntries(es);
            CanonEntries([e] + es) == if m.None? || ms.None? then None else Some([m.value] + ms.value)
  {
    assert ([e] + es)[1..] == es;
  }

  lemma {:induction false} InsertUnfolds(m: Member, first: Member, others: seq<Member>)
    ensures Insert(m, [first] + others) ==
            if LexLess(SortKey(first.name), SortKey(m.name)) then [first] + Insert(m, others)
            else [m] + ([first] + others)
  {
    assert ([first] + others)[1..] == others;
  }

  lemma {:induction false} InsertEntryCanon(e: Entry, es: seq<Entry>)
    requires e.key.Name? && TextKeys(es)
    ensures var m, ms := CanonEntry(e), CanonEntries(es);
            CanonEntries(InsertEntry(e, es)) ==
            if m.None? || ms.None? then None else Some(Insert(m.value, ms.value))
  {
    CanonEntriesCons(e, es);
    if es == [] {
      assert [e] + es == [e];
      assert CanonEntry(e).Some? ==> [CanonEntry(e).value] + [] == [CanonEntry(e).value];
    } else {
      var first, others := es[0], es[1..];
      assert [first] + others == es;
      CanonEntriesCons(first, others);
      if LexLess(SortKey(first.key.text), SortKey(e.key.text)) {
        InsertEntryCanon(e, others);
        CanonEntriesCons(first, InsertEntry(e, others));
      }
      if CanonEntries(es).Some? && CanonEntry(e).Some? {
        InsertUnfolds(CanonEntry(e).value, CanonEntry(first).value, CanonEntries(others).value);
      }
    }
  }

  /** Sorting and encoding can be done in either order. */
  lemma {:induction false} SortEntriesCanon(es: seq<Entry>)
    requires TextKeys(es)
    ensures var ms := CanonEntries(es);
            CanonEntries(SortEntries(es)) == if ms.None? then None else Some(SortMembers(ms.value))
  {
    if es != [] {
      SortEntriesCanon(es[1..]);
      InsertEntryCanon(es[0], SortEntries(es[1..]));
      if CanonEntries(es).Some? {
        assert CanonEntries(es).value[1..] == CanonEntries(es[1..]).value;
      }
    }
  }

  // ----- the output list

  function Joined(parts: seq<Text>): Text {
    if parts == [] then [] else Joined(parts[..|parts| - 1]) + parts[|parts| - 1]
  }

  class Output {
    var parts: seq<Text>

    constructor ()
      ensures parts == []
    {
      parts := [];
    }

    function Text(): Text
      reads this
    {
      Joined(parts)
    }

    method Append(t: Unicode.Text)
      modifies this
      ensures Text() == old(Text()) + t
    {
      parts := parts + [t];
      assert parts[..|parts| - 1] == old(parts);
    }

    /** Nothing before the first element, a comma before every other one. */
    method Separate(count: nat)
      modifies this
      ensures Text() == old(Text()) + Separator(count)
    {
      if count > 0 {
        Append([COMMA]);
      }
    }
  }

  method EncodeString(value: Text) returns (r: Option<Text>)
    ensures r == if Valid(value) then Some(Quoted(value)) else None
  {
    if !Valid(value) {
      return None;
    }
    var escaped: Text := [];
    for i := 0 to |value|
      invariant escaped == Escape(value[..i])
    {
      var c := value[i];
      assert value[..i + 1] == value[..i] + [c];
      EscapeSnoc(value[..i], c);
      escaped := escaped + EscapeChar(c);
    }
    assert value[..|value|] == value;
    return Some([QUOTE] + escaped + [QUOTE]);
  }

  /** Appends the text of a value. When it stops early the output is abandoned by the caller. */
  method Encode(value: Value, out: Output) returns (ok: bool)
    modifies out
    ensures ok <==> Canon(value).Some?
    ensures ok ==> out.Text() == old(out.Text()) + Print(Canon(value).value)
    decreases value, 2
  {
    match value
    case Null => out.Append(NULL_TEXT); return true;
    case Bool(b) => out.Append(if b then TRUE_TEXT else FALSE_TEXT); return true;
    case Int(n) =>
      if n > MAX_SAFE_INTEGER || -n > MAX_SAFE_INTEGER {
        return false;
      }
      out.Append(Signed(n));
      return true;
    case Str(s) =>
      var quoted := EncodeString(s);
      if quoted.None? {
        return false;
      }
      out.Append(quoted.value);
      return true;
    case Mapping(entries) =>
      ok := EncodeMapping(value, entries, out);
    case List(items) =>
      ok := EncodeItems(value, items, out);
    case Tuple(items) =>
      ok := EncodeItems(value, items, out);
    case Unsupported => return false;
  }

  lemma {:induction false} ItemStops(items: seq<Value>, i: nat)
    requires i < |items| && Canon(items[i]).None?
    ensures CanonItems(items).None?
  {
    CanonItemsAt(items);
  }

  lemma {:induction false} ItemsWritten(items: seq<Value>, written: seq<Json>)
    requires |written| == |items| && forall k :: 0 <= k < |items| ==> Canon(items[k]) == Some(written[k])
    ensures CanonItems(items) == Some(written)
  {
    CanonItemsAt(items);
    assert CanonItems(items).value == written;
  }

  /** Writes the items of a list or tuple in order. */
  method EncodeEach(value: Value, items: seq<Value>, out: Output) returns (ok: bool)
    requires (value.List? || value.Tuple?) && value.items == items
    modifies out
    ensures ok <==> CanonItems(items).Some?
    ensures ok ==> out.Text() == old(out.Text()) + PrintItems(CanonItems(items).value)
    decreases value, 0
  {
    ghost var written: seq<Json> := [];
    for i := 0 to |items|
      invariant |written| == i && forall k :: 0 <= k < i ==> Canon(items[k]) == Some(written[k])
      invariant out.Text() == old(out.Text()) + PrintItems(written)
    {
      out.Separate(i);
      var fine := Encode(items[i], out);
      if !fine {
        ItemStops(items, i);
        return false;
      }
      ItemsGrow(old(out.Text()), written, Canon(items[i]).value);
      written := written + [Canon(items[i]).value];
    }
    ItemsWritten(items, written);
    return true;
  }

  method EncodeItems(value: Value, items: seq<Value>, out: Output) returns (ok: bool)
    requires (value.List? || value.Tuple?) && value.items == items
    modifies out
    ensures ok <==> Canon(value).Some?
    ensures ok ==> out.Text() == old(out.Text()) + Print(Canon(value).value)
    decreases value, 1
  {
    out.Append([OPEN_ARRAY]);
    ok := EncodeEach(value, items, out);
    if ok {
      out.Append([CLOSE_ARRAY]);
      ClosedArray(old(out.Text()), CanonItems(items).value);
    }
  }

  method AllText(entries: seq<Entry>) returns (ok: bool)
    ensures ok <==> TextKeys(entries)
  {
    for i := 0 to |entries|
      invariant TextKeys(entries[..i])
    {
      if !entries[i].key.Name? {
        assert entries[i] in entries;
        return false;
      }
      assert entries[..i + 1] == entries[..i] + [entries[i]];
    }
    assert entries[..|entries|] == entries;
    return true;
  }

  method EncodeMember(e: Entry, out: Output) returns (ok: bool)
    requires e.key.Name?
    modifies out
    ensures ok <==> CanonEntry(e).Some?
    ensures ok ==> var m := CanonEntry(e).value;
                   out.Text() == old(out.Text()) + Quoted(m.name) + [COLON] + Print(m.value)
    decreases e, 3
  {
    var name := EncodeString(e.key.text);
    if name.None? {
      return false;
    }
    out.Append(name.value);
    out.Append([COLON]);
    ok := Encode(e.value, out);
  }

  lemma {:induction false} EntryStops(es: seq<Entry>, i: nat)
    requires i < |es| && CanonEntry(es[i]).None?
    ensures CanonEntries(es).None?
  {
    CanonEntriesAt(es);
  }

  lemma {:induction false} EntriesWritten(es: seq<Entry>, ms: seq<Member>)
    requires |ms| == |es| && forall k :: 0 <= k < |es| ==> CanonEntry(es[k]) == Some(ms[k])
    ensures CanonEntries(es) == Some(ms)
  {
    CanonEntriesAt(es);
    assert CanonEntries(es).value == ms;
  }

  /** Writes the members of a mapping in the order given. */
  method EncodeMembers(value: Value, sorted: seq<Entry>, out: Output) returns (ok: bool)
    requires value.Mapping? && TextKeys(sorted) && forall e <- sorted :: e in value.entries
    modifies out
    ensures ok <==> CanonEntries(sorted).Some?
    ensures ok ==> out.Text() == old(out.Text()) + PrintMembers(CanonEntries(sorted).value)
    decreases value, 0
  {
    ghost var written: seq<Member> := [];
    for i := 0 to |sorted|
      invariant |written| == i && forall k :: 0 <= k < i ==> CanonEntry(sorted[k]) == Some(written[k])
      invariant out.Text() == old(out.Text()) + PrintMembers(written)
    {
      assert sorted[i] in sorted;
      out.Separate(i);
      var fine := EncodeMember(sorted[i], out);
      if !fine {
        EntryStops(sorted, i);
        return false;
      }
      MembersGrow(old(out.Text()), written, CanonEntry(sorted[i]).value);
      written := written + [CanonEntry(sorted[i]).value];
    }
    EntriesWritten(sorted, written);
    return true;
  }

  method EncodeMapping(value: Value, entries: seq<Entry>, out: Output) returns (ok: bool)
    requires value.Mapping? && value.entries == entries
    modifies out
    ensures ok <==> Canon(value).Some?
    ensures ok ==> out.Text() == old(out.Text()) + Print(Canon(value).value)
    decreases value, 1
  {
    var text := AllText(entries);
    if !text {
      CanonEntriesAt(entries);
      assert exists i :: 0 <= i < |entries| && CanonEntry(entries[i]).None?;
      return false;
    }
    var sorted := SortEntries(entries);
    SortEntriesCanon(entries);
    out.Append([OPEN_OBJECT]);
    ok := EncodeMembers(value, sorted, out);
    if ok {
      out.Append([CLOSE_OBJECT]);
      ClosedObject(old(out.Text()), CanonEntries(sorted).value);
    }
  }

  method CanonicalText(value: Value) returns (r: Option<Text>)
    ensures r == CanonicalJson(value)
    ensures r.Some? <==> Encodable(value)
    ensures r.Some? ==> Parse(r.value) == Canon(value)
  {
    EncodableIsCanon(value);
    CanonicalTextReadsBack(value);
    var out := new Output();
    var ok := Encode(value, out);
    assert ok ==> out.Text() == Print(Canon(value).value);
    return if ok then Some(out.Text()) else None;
  }
}
