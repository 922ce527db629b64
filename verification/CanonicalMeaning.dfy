/** What canonical text depends on: exactly the value read as nested maps and arrays. */
module CanonicalMeaning {
  import opened Unicode
  import opened Canonical
  import opened CanonicalParse

  // ----- sorting members

  ghost predicate ValidNames(ms: seq<Member>) {
    forall i :: 0 <= i < |ms| ==> Valid(ms[i].name)
  }

  ghost predicate DistinctNames(ms: seq<Member>) {
    forall i, j :: 0 <= i < j < |ms| ==> ms[i].name != ms[j].name
  }

  ghost predicate Ascending(ms: seq<Member>) {
    forall i, j :: 0 <= i < j < |ms| ==> LexLess(SortKey(ms[i].name), SortKey(ms[j].name))
  }

  lemma {:induction false} InsertPermutes(m: Member, ms: seq<Member>)
    ensures multiset(Insert(m, ms)) == multiset(ms) + multiset{m}
  {
    if ms != [] {
      assert ms == [ms[0]] + ms[1..];
      InsertPermutes(m, ms[1..]);
    }
  }

  lemma {:induction false} SortPermutes(ms: seq<Member>)
    ensures multiset(SortMembers(ms)) == multiset(ms)
  {
    if ms != [] {
      assert ms == [ms[0]] + ms[1..];
      SortPermutes(ms[1..]);
      InsertPermutes(ms[0], SortMembers(ms[1..]));
    }
  }

  lemma {:induction false} SameElements(xs: seq<Member>, ys: seq<Member>)
    requires multiset(xs) == multiset(ys)
    ensures forall m :: m in xs <==> m in ys
  {
    forall m
      ensures m in xs <==> m in ys
    {
      assert m in xs <==> m in multiset(xs);
      assert m in ys <==> m in multiset(ys);
    }
  }

  lemma {:induction false} ConsAscends(first: Member, tail: seq<Member>)
    requires Ascending(tail) && forall x <- tail :: LexLess(SortKey(first.name), SortKey(x.name))
    ensures Ascending([first] + tail)
  {
    assert forall j :: 0 <= j < |tail| ==> tail[j] in tail;
  }

  lemma {:induction false} InsertMembers(m: Member, ms: seq<Member>)
    ensures forall x :: x in Insert(m, ms) ==> x == m || x in ms
  {
    InsertPermutes(m, ms);
    assert multiset(ms + [m]) == multiset(ms) + multiset{m};
    SameElements(Insert(m, ms), ms + [m]);
  }

  lemma {:induction false} InsertAscends(m: Member, ms: seq<Member>)
    requires Ascending(ms) && ValidNames(ms) && Valid(m.name)
    requires forall x <- ms :: x.name != m.name
    ensures Ascending(Insert(m, ms))
  {
    if ms != [] {
      var first, others := ms[0], ms[1..];
      assert ms == [first] + others && first in ms;
      SortKeyOrders(first.name, m.name);
      if LexLess(SortKey(first.name), SortKey(m.name)) {
        InsertAscends(m, others);
        InsertMembers(m, others);
        ConsAscends(first, Insert(m, others));
      } else {
        forall x | x in ms
          ensures LexLess(SortKey(m.name), SortKey(x.name))
        {
          if x != first {
            LexTransitive(SortKey(m.name), SortKey(first.name), SortKey(x.name));
          }
        }
        ConsAscends(m, ms);
      }
    }
  }

  lemma {:induction false} SortAscends(ms: seq<Member>)
    requires ValidNames(ms) && DistinctNames(ms)
    ensures Ascending(SortMembers(ms)) && ValidNames(SortMembers(ms))
  {
    SortPermutes(ms);
    SameElements(SortMembers(ms), ms);
    forall i | 0 <= i < |SortMembers(ms)|
      ensures Valid(SortMembers(ms)[i].name)
    {
      assert SortMembers(ms)[i] in ms;
    }
    if ms != [] {
      SortAscends(ms[1..]);
      SortPermutes(ms[1..]);
      SameElements(SortMembers(ms[1..]), ms[1..]);
      InsertAscends(ms[0], SortMembers(ms[1..]));
    }
  }

  lemma {:induction false} AscendingHead(xs: seq<Member>, ys: seq<Member>)
    requires Ascending(xs) && Ascending(ys) && xs != [] && ys != []
    requires xs[0] in ys && ys[0] in xs
    ensures xs[0] == ys[0]
  {
    var i :| 0 <= i < |ys| && ys[i] == xs[0];
    var j :| 0 <= j < |xs| && xs[j] == ys[0];
    if i > 0 && j > 0 {
      LexTransitive(SortKey(ys[0].name), SortKey(xs[0].name), SortKey(ys[0].name));
      LexIrreflexive(SortKey(ys[0].name));
    }
  }

  lemma {:induction false} MultisetTail(xs: seq<Member>)
    requires xs != []
    ensures multiset(xs[1..]) == multiset(xs) - multiset{xs[0]}
  {
    assert xs == [xs[0]] + xs[1..];
  }

  /** An ascending list is determined by its elements. */
  lemma {:induction false} AscendingUnique(xs: seq<Member>, ys: seq<Member>)
    requires Ascending(xs) && Ascending(ys) && multiset(xs) == multiset(ys)
    ensures xs == ys
  {
    assert |multiset(xs)| == |xs| && |multiset(ys)| == |ys|;
    if xs != [] {
      SameElements(xs, ys);
      AscendingHead(xs, ys);
      MultisetTail(xs);
      MultisetTail(ys);
      AscendingUnique(xs[1..], ys[1..]);
    }
  }

  /** With distinct valid names, the sorted list depends only on which members there are. */
  lemma {:induction false} SortDependsOnMembers(xs: seq<Member>, ys: seq<Member>)
    requires ValidNames(xs) && ValidNames(ys) && DistinctNames(xs) && DistinctNames(ys)
    ensures SortMembers(xs) == SortMembers(ys) <==> multiset(xs) == multiset(ys)
  {
    SortPermutes(xs);
    SortPermutes(ys);
    if multiset(xs) == multiset(ys) {
      SortAscends(xs);
      SortAscends(ys);
      AscendingUnique(SortMembers(xs), SortMembers(ys));
    }
  }

  lemma {:induction false} DistinctInclusion(xs: seq<Member>, ys: seq<Member>)
    requires |xs| == |ys| && DistinctNames(xs)
    requires forall x <- xs :: x in ys
    ensures multiset(xs) == multiset(ys)
  {
    if xs == [] {
    } else {
      var x := xs[0];
      assert x in ys;
      var j :| 0 <= j < |ys| && ys[j] == x;
      var ys' := ys[..j] + ys[j + 1..];
      assert ys == ys[..j] + [x] + ys[j + 1..];
      forall m | m in xs[1..]
        ensures m in ys'
      {
        var i :| 0 <= i < |xs[1..]| && xs[1..][i] == m;
        assert xs[i + 1] == m && xs[0].name != m.name;
        assert m in xs && m in ys && m != x;
      }
      DistinctInclusion(xs[1..], ys');
      assert xs == [x] + xs[1..];
    }
  }

  // ----- meaning

  /** A mapping never holds a key twice, at any depth. */
  ghost predicate Genuine(v: Value)
    decreases v
  {
    match v
    case Mapping(entries) =>
      && (forall i, j :: 0 <= i < j < |entries| ==> entries[i].key != entries[j].key)
      && (forall i :: 0 <= i < |entries| ==> Genuine(entries[i].value))
    case List(items) => forall i :: 0 <= i < |items| ==> Genuine(items[i])
    case Tuple(items) => forall i :: 0 <= i < |items| ==> Genuine(items[i])
    case _ => true
  }

  /** The same facts: mappings compared as maps, lists and tuples alike as arrays. */
  ghost predicate Same(v: Value, w: Value)
    decreases v
  {
    match v
    case Mapping(entries) =>
      && w.Mapping? && |entries| == |w.entries|
      && (forall i :: 0 <= i < |entries| ==>
           (exists j :: (0 <= j < |w.entries|
              && w.entries[j].key == entries[i].key && Same(entries[i].value, w.entries[j].value))))
    case List(items) =>
      && (w.List? || w.Tuple?) && |items| == |w.items|
      && (forall i :: 0 <= i < |items| ==> Same(items[i], w.items[i]))
    case Tuple(items) =>
      && (w.List? || w.Tuple?) && |items| == |w.items|
      && (forall i :: 0 <= i < |items| ==> Same(items[i], w.items[i]))
    case _ => v == w
  }

  /** What canonical_json accepts: text without lone surrogates, safe integers, text keys. */
  ghost predicate Encodable(v: Value)
    decreases v
  {
    match v
    case Unsupported => false
    case Int(n) => -MAX_SAFE_INTEGER <= n <= MAX_SAFE_INTEGER
    case Str(s) => Valid(s)
    case Mapping(entries) =>
      forall i :: 0 <= i < |entries| ==>
        entries[i].key.Name? && Valid(entries[i].key.text) && Encodable(entries[i].value)
    case List(items) => forall i :: 0 <= i < |items| ==> Encodable(items[i])
    case Tuple(items) => forall i :: 0 <= i < |items| ==> Encodable(items[i])
    case _ => true
  }

  lemma {:induction false} CanonItemsAt(items: seq<Value>)
    ensures CanonItems(items).Some? <==> forall i :: 0 <= i < |items| ==> Canon(items[i]).Some?
    ensures CanonItems(items).Some? ==>
              forall i :: 0 <= i < |items| ==> Canon(items[i]) == Some(CanonItems(items).value[i])
  {
    if items != [] {
      CanonItemsAt(items[1..]);
      assert forall i :: 0 < i < |items| ==> items[i] == items[1..][i - 1];
    }
  }

  lemma {:induction false} CanonEntriesAt(entries: seq<Entry>)
    ensures CanonEntries(entries).Some? <==> forall i :: 0 <= i < |entries| ==> CanonEntry(entries[i]).Some?
    ensures CanonEntries(entries).Some? ==>
              forall i :: 0 <= i < |entries| ==> CanonEntry(entries[i]) == Some(CanonEntries(entries).value[i])
  {
    if entries != [] {
      CanonEntriesAt(entries[1..]);
      assert forall i :: 0 < i < |entries| ==> entries[i] == entries[1..][i - 1];
    }
  }

  /** canonical_json raises exactly on the values that are not encodable. */
  lemma {:induction false} EncodableIsCanon(v: Value)
    ensures CanonicalJson(v).Some? <==> Encodable(v)
    decreases v
  {
    match v
    case Mapping(entries) =>
      CanonEntriesAt(entries);
      forall i | 0 <= i < |entries|
        ensures CanonEntry(entries[i]).Some? <==>
                entries[i].key.Name? && Valid(entries[i].key.text) && Encodable(entries[i].value)
      {
        EncodableIsCanon(entries[i].value);
      }
    case List(items) =>
      CanonItemsAt(items);
      forall i | 0 <= i < |items| {
        EncodableIsCanon(items[i]);
      }
    case Tuple(items) =>
      CanonItemsAt(items);
      forall i | 0 <= i < |items| {
        EncodableIsCanon(items[i]);
      }
    case _ =>
  }

  ghost predicate CanonAgree(v: Value, w: Value) {
    Canon(v) == Canon(w)
  }

  lemma {:induction false} ArraysAgree(v: Value, w: Value)
    requires (v.List? || v.Tuple?) && (w.List? || w.Tuple?)
    requires Canon(v).Some? && Canon(w).Some?
    requires |v.items| == |w.items| ==> forall i :: 0 <= i < |v.items| ==>
               (Canon(v.items[i]) == Canon(w.items[i]) <==> Same(v.items[i], w.items[i]))
    ensures Canon(v) == Canon(w) <==> Same(v, w)
  {
    CanonItemsAt(v.items);
    CanonItemsAt(w.items);
    var a, b := CanonItems(v.items).value, CanonItems(w.items).value;
    if |a| == |b| {
      assert a == b <==> forall i :: 0 <= i < |a| ==> a[i] == b[i];
      if Same(v, w) {
        forall i | 0 <= i < |a|
          ensures a[i] == b[i]
        {
          assert Same(v.items[i], w.items[i]);
        }
      }
      if a == b {
        forall i | 0 <= i < |a|
          ensures Same(v.items[i], w.items[i])
        {
          assert Canon(v.items[i]) == Some(a[i]);
        }
      }
    }
  }

  lemma {:induction false} MembersOfGenuine(v: Value)
    requires v.Mapping? && Genuine(v) && Canon(v).Some?
    ensures CanonEntries(v.entries).Some?
    ensures var ms := CanonEntries(v.entries).value;
            ValidNames(ms) && DistinctNames(ms) && Written(v.entries, ms)
  {
    CanonEntriesAt(v.entries);
    var ms := CanonEntries(v.entries).value;
    forall i | 0 <= i < |ms|
      ensures v.entries[i].key == Name(ms[i].name) && Valid(ms[i].name)
    {
      assert CanonEntry(v.entries[i]) == Some(ms[i]);
    }
  }

  ghost predicate EntriesAgree(es: seq<Entry>, fs: seq<Entry>) {
    forall i, j :: 0 <= i < |es| && 0 <= j < |fs| ==>
      (CanonAgree(es[i].value, fs[j].value) <==> Same(es[i].value, fs[j].value))
  }

  ghost predicate Written(es: seq<Entry>, ms: seq<Member>) {
    |es| == |ms| && forall i :: 0 <= i < |ms| ==> CanonEntry(es[i]) == Some(ms[i])
  }

  lemma {:induction false} WrittenAt(es: seq<Entry>, ms: seq<Member>, i: nat)
    requires Written(es, ms) && i < |es|
    ensures es[i].key == Name(ms[i].name) && Canon(es[i].value) == Some(ms[i].value)
  {
    assert CanonEntry(es[i]) == Some(ms[i]);
  }

  lemma {:induction false} MembersToSame(es: seq<Entry>, fs: seq<Entry>, ms: seq<Member>, ns: seq<Member>, i: nat)
    requires EntriesAgree(es, fs) && Written(es, ms) && Written(fs, ns)
    requires i < |es| && ms[i] in ns
    ensures exists j :: 0 <= j < |fs| && fs[j].key == es[i].key && Same(es[i].value, fs[j].value)
  {
    var j :| 0 <= j < |ns| && ns[j] == ms[i];
    WrittenAt(es, ms, i);
    WrittenAt(fs, ns, j);
    assert CanonAgree(es[i].value, fs[j].value);
  }

  lemma {:induction false} SameToMembers(es: seq<Entry>, fs: seq<Entry>, ms: seq<Member>, ns: seq<Member>, i: nat,
        j: nat)
    requires EntriesAgree(es, fs) && Written(es, ms) && Written(fs, ns)
    requires i < |es| && j < |fs| && fs[j].key == es[i].key && Same(es[i].value, fs[j].value)
    ensures ns[j] == ms[i]
  {
    WrittenAt(es, ms, i);
    WrittenAt(fs, ns, j);
    assert CanonAgree(es[i].value, fs[j].value);
  }

  lemma {:induction false} MembersCoverEntries(es: seq<Entry>, fs: seq<Entry>, ms: seq<Member>, ns: seq<Member>)
    requires EntriesAgree(es, fs) && Written(es, ms) && Written(fs, ns) && multiset(ms) == multiset(ns)
    ensures Same(Mapping(es), Mapping(fs))
  {
    assert |multiset(ms)| == |ms| && |multiset(ns)| == |ns|;
    SameElements(ms, ns);
    forall i | 0 <= i < |es|
      ensures exists j :: 0 <= j < |fs| && fs[j].key == es[i].key && Same(es[i].value, fs[j].value)
    {
      assert ms[i] in ns;
      MembersToSame(es, fs, ms, ns, i);
    }
  }

  lemma {:induction false} EntriesCoverMembers(es: seq<Entry>, fs: seq<Entry>, ms: seq<Member>, ns: seq<Member>)
    requires EntriesAgree(es, fs) && Written(es, ms) && Written(fs, ns) && DistinctNames(ms)
    requires Same(Mapping(es), Mapping(fs))
    ensures multiset(ms) == multiset(ns)
  {
    forall m | m in ms
      ensures m in ns
    {
      var i :| 0 <= i < |ms| && ms[i] == m;
      var j :| 0 <= j < |fs| && fs[j].key == es[i].key && Same(es[i].value, fs[j].value);
      SameToMembers(es, fs, ms, ns, i, j);
    }
    DistinctInclusion(ms, ns);
  }

  lemma {:induction false} MapsAgree(v: Value, w: Value)
    requires v.Mapping? && w.Mapping? && Genuine(v) && Genuine(w)
    requires Canon(v).Some? && Canon(w).Some? && EntriesAgree(v.entries, w.entries)
    ensures Canon(v) == Canon(w) <==> Same(v, w)
  {
    MembersOfGenuine(v);
    MembersOfGenuine(w);
    var ms, ns := CanonEntries(v.entries).value, CanonEntries(w.entries).value;
    SortDependsOnMembers(ms, ns);
    if Same(v, w) {
      EntriesCoverMembers(v.entries, w.entries, ms, ns);
    }
    if multiset(ms) == multiset(ns) {
      MembersCoverEntries(v.entries, w.entries, ms, ns);
    }
  }

  lemma {:induction false} CanonDecidesSame(v: Value, w: Value)
    requires Genuine(v) && Genuine(w) && Canon(v).Some? && Canon(w).Some?
    ensures Canon(v) == Canon(w) <==> Same(v, w)
    decreases v
  {
    if v.Mapping? && w.Mapping? {
      MembersOfGenuine(v);
      MembersOfGenuine(w);
      forall i, j | 0 <= i < |v.entries| && 0 <= j < |w.entries|
        ensures CanonAgree(v.entries[i].value, w.entries[j].value) <==> Same(v.entries[i].value, w.entries[j].value)
      {
        WrittenAt(v.entries, CanonEntries(v.entries).value, i);
        WrittenAt(w.entries, CanonEntries(w.entries).value, j);
        CanonDecidesSame(v.entries[i].value, w.entries[j].value);
      }
      MapsAgree(v, w);
    } else if (v.List? || v.Tuple?) && (w.List? || w.Tuple?) {
      CanonItemsAt(v.items);
      CanonItemsAt(w.items);
      if |v.items| == |w.items| {
        forall i | 0 <= i < |v.items| {
          CanonDecidesSame(v.items[i], w.items[i]);
        }
      }
      ArraysAgree(v, w);
    }
  }

  /** Two encodable values have one canonical text exactly when they state the same facts: the text
      is injective up to key order and list-versus-tuple, and independent of both. */
  lemma {:induction false} CanonicalTextDecidesSame(v: Value, w: Value)
    requires Genuine(v) && Genuine(w) && Encodable(v) && Encodable(w)
    ensures CanonicalJson(v) == CanonicalJson(w) <==> Same(v, w)
  {
    EncodableIsCanon(v);
    EncodableIsCanon(w);
    CanonDecidesSame(v, w);
    CanonicalTextReadsBack(v);
    CanonicalTextReadsBack(w);
  }
}
