// codex-rs/app-server-protocol/src/schema_fixtures.rs: `canonicalize_json` decides equality of
// JSON schemas up to object key order and up to the order of arrays whose items all have a sort key.

module SchemaFixtures {
  import opened Sequences
  import opened Order
  import opened Json

  /** `Map::get`. */
  function Lookup(entries: seq<Entry>, key: string): Option<Value> {
    if entries == [] then None
    else if entries[0].key == key then Some(entries[0].value)
    else Lookup(entries[1..], key)
  }

  /** `schema_array_item_sort_key`. */
  function SortKey(item: Value): Option<string> {
    match item
    case Null => Some("null")
    case Bool(b) => Some("b:" + if b then "true" else "false")
    case Number(n) => Some("n:" + n)
    case String(s) => Some("s:" + s)
    case Object(entries) =>
      var ref, title := Lookup(entries, "$ref"), Lookup(entries, "title");
      if ref.Some? && ref.value.String? then Some("ref:" + ref.value.s)
      else if title.Some? && title.value.String? then Some("title:" + title.value.s)
      else None
    case Array(_) => None
  }

  predicate AllKeyed(items: seq<Value>) {
    forall x :: x in items ==> SortKey(x).Some?
  }

  function KeyText(x: Value): string {
    if SortKey(x).Some? then SortKey(x).value else ""
  }

  /** The comparator of the array sort: sort key first, printed text to break ties. */
  predicate ItemLe(x: Value, y: Value) {
    if KeyText(x) == KeyText(y) then LexLe(Print(x), Print(y)) else LexLe(KeyText(x), KeyText(y))
  }

  predicate KeyLe(x: Entry, y: Entry) {
    LexLe(x.key, y.key)
  }

  /** `canonicalize_json`. */
  function Canon(v: Value): Value {
    match v
    case Array(items) =>
      var cs := CanonItems(items);
      Array(if AllKeyed(cs) then Sort(cs, ItemLe) else cs)
    case Object(entries) => Object(Sort(CanonEntries(entries), KeyLe))
    case _ => v
  }

  function CanonItems(items: seq<Value>): seq<Value> {
    if items == [] then [] else [Canon(items[0])] + CanonItems(items[1..])
  }

  function CanonEntries(entries: seq<Entry>): seq<Entry> {
    if entries == [] then []
    else [Entry(entries[0].key, Canon(entries[0].value))] + CanonEntries(entries[1..])
  }

  // ---- The equivalence, stated without sorting or printing ----

  function Remove<T>(xs: seq<T>, i: nat): seq<T>
    requires i < |xs|
  {
    xs[..i] + xs[i + 1..]
  }

  /** Same value up to object key order and up to the order of arrays whose items all have a sort key. */
  ghost predicate Equiv(a: Value, b: Value)
    decreases b, 1
  {
    if a.Array? && b.Array? then
      Pairwise(a.items, b.items) || (AllKeyed(a.items) && Rearranged(a.items, b.items))
    else if a.Object? && b.Object? then
      SameEntries(a.entries, b.entries)
    else
      a == b
  }

  ghost predicate Pairwise(s: seq<Value>, t: seq<Value>)
    decreases t, 0
  {
    |s| == |t| && (t != [] ==> Equiv(s[0], t[0]) && Pairwise(s[1..], t[1..]))
  }

  /** The items of `s` can be matched one for one with those of `t`. */
  ghost predicate Rearranged(s: seq<Value>, t: seq<Value>)
    decreases t, 0
  {
    if t == [] then s == []
    else exists i | 0 <= i < |s| :: Equiv(s[i], t[0]) && Rearranged(Remove(s, i), t[1..])
  }

  /** The entries of `s` can be matched one for one, key by key, with those of `t`. */
  ghost predicate SameEntries(s: seq<Entry>, t: seq<Entry>)
    decreases t, 0
  {
    if t == [] then s == []
    else exists i | 0 <= i < |s| ::
      s[i].key == t[0].key && Equiv(s[i].value, t[0].value) && SameEntries(Remove(s, i), t[1..])
  }

  // ---- The two comparators are total orders ----

  lemma KeyLeOrder()
    ensures Total(KeyLe) && Transitive(KeyLe)
  {
    forall x: Entry, y: Entry ensures KeyLe(x, y) || KeyLe(y, x) {
      LexTotal(x.key, y.key);
    }
    forall x: Entry, y: Entry, z: Entry | KeyLe(x, y) && KeyLe(y, z) ensures KeyLe(x, z) {
      LexTransitive(x.key, y.key, z.key);
    }
  }

  lemma ItemLeTransitive(x: Value, y: Value, z: Value)
    requires ItemLe(x, y) && ItemLe(y, z)
    ensures ItemLe(x, z)
  {
    var kx, ky, kz := KeyText(x), KeyText(y), KeyText(z);
    assert LexLe(kx, ky) by { LexTotal(kx, kx); }
    assert LexLe(ky, kz) by { LexTotal(kz, kz); }
    LexTransitive(kx, ky, kz);
    if kx == kz {
      LexAntisymmetric(kx, ky);
      LexTransitive(Print(x), Print(y), Print(z));
    }
  }

  lemma ItemLeOrder()
    ensures Total(ItemLe) && Transitive(ItemLe)
  {
    forall x: Value, y: Value ensures ItemLe(x, y) || ItemLe(y, x) {
      LexTotal(KeyText(x), KeyText(y));
      LexTotal(Print(x), Print(y));
    }
    forall x: Value, y: Value, z: Value | ItemLe(x, y) && ItemLe(y, z) ensures ItemLe(x, z) {
      ItemLeTransitive(x, y, z);
    }
  }

  /** Items tied under `ItemLe` print alike, so they are equal: this is where the printer's injectivity is needed. */
  lemma ItemsUntied(xs: seq<Value>)
    requires forall x :: x in xs ==> Wf(x)
    ensures AntisymmetricOn(xs, ItemLe)
  {
    forall x, y | x in xs && y in xs && ItemLe(x, y) && ItemLe(y, x) ensures x == y {
      if KeyText(x) != KeyText(y) {
        LexAntisymmetric(KeyText(x), KeyText(y));
      }
      LexAntisymmetric(Print(x), Print(y));
      PrintInjective(x, y);
    }
  }

  lemma EntriesUntied(es: seq<Entry>)
    requires DistinctKeys(es)
    ensures AntisymmetricOn(es, KeyLe)
  {
    forall x, y | x in es && y in es && KeyLe(x, y) && KeyLe(y, x) ensures x == y {
      LexAntisymmetric(x.key, y.key);
    }
  }

  // ---- Elementwise views ----

  lemma {:induction false} CanonItemsAt(items: seq<Value>)
    ensures |CanonItems(items)| == |items|
    ensures forall i :: 0 <= i < |items| ==> CanonItems(items)[i] == Canon(items[i])
  {
    if items != [] {
      CanonItemsAt(items[1..]);
    }
  }

  lemma {:induction false} CanonEntriesAt(es: seq<Entry>)
    ensures |CanonEntries(es)| == |es|
    ensures forall i :: 0 <= i < |es| ==> CanonEntries(es)[i] == Entry(es[i].key, Canon(es[i].value))
  {
    if es != [] {
      CanonEntriesAt(es[1..]);
    }
  }

  lemma {:induction false} LookupIff(es: seq<Entry>, key: string)
    requires DistinctKeys(es)
    ensures Lookup(es, key).Some? ==> Entry(key, Lookup(es, key).value) in es
    ensures Lookup(es, key).None? ==> forall e :: e in es ==> e.key != key
  {
    if es != [] {
      LookupIff(es[1..], key);
    }
  }

  lemma TwiceIn<T>(t: seq<T>, i: nat, j: nat)
    requires i < j < |t| && t[i] == t[j]
    ensures multiset(t)[t[i]] >= 2
  {
    assert t == t[..j] + [t[j]] + t[j + 1..];
    assert t[i] in t[..j];
  }

  lemma {:induction false} OnceIn(s: seq<Entry>, e: Entry)
    requires DistinctKeys(s)
    ensures multiset(s)[e] <= 1
  {
    if s != [] {
      assert s == [s[0]] + s[1..];
      OnceIn(s[1..], e);
      if s[0] == e {
        assert e !in s[1..];
      }
    }
  }

  lemma DistinctPermuted(s: seq<Entry>, t: seq<Entry>)
    requires DistinctKeys(s) && multiset(s) == multiset(t)
    ensures DistinctKeys(t)
  {
    SameMultiset(s, t);
    forall i, j | 0 <= i < j < |t| ensures t[i].key != t[j].key {
      if t[i].key == t[j].key {
        assert t[i] in s && t[j] in s;
        assert t[i] == t[j];
        TwiceIn(t, i, j);
        OnceIn(s, t[i]);
      }
    }
  }

  // ---- Canonicalising keeps well-formedness and sort keys ----

  lemma {:induction false} CanonWf(v: Value)
    requires Wf(v)
    ensures Wf(Canon(v))
  {
    match v {
      case Array(items) =>
        CanonItemsAt(items);
        SortMembers(CanonItems(items), ItemLe);
        forall i | 0 <= i < |items| ensures Wf(CanonItems(items)[i]) {
          CanonWf(items[i]);
        }
      case Object(es) =>
        CanonEntriesAt(es);
        SortPermutes(CanonEntries(es), KeyLe);
        DistinctPermuted(CanonEntries(es), Sort(CanonEntries(es), KeyLe));
        SameMultiset(Sort(CanonEntries(es), KeyLe), CanonEntries(es));
        forall i | 0 <= i < |es| ensures Wf(CanonEntries(es)[i].value) {
          CanonWf(es[i].value);
        }
      case _ =>
    }
  }

  /** The entries of a canonical object are the canonicalised ones in another order. */
  lemma CanonEntriesIn(es: seq<Entry>)
    requires Wf(Object(es))
    ensures DistinctKeys(Canon(Object(es)).entries)
    ensures forall e :: e in Canon(Object(es)).entries <==> e in CanonEntries(es)
  {
    CanonWf(Object(es));
    SortPermutes(CanonEntries(es), KeyLe);
    SameMultiset(Canon(Object(es)).entries, CanonEntries(es));
  }

  lemma LookupMapped(es: seq<Entry>, c: seq<Entry>, key: string)
    requires DistinctKeys(es) && DistinctKeys(c) && |CanonEntries(es)| == |es|
    requires forall i :: 0 <= i < |es| ==> CanonEntries(es)[i] == Entry(es[i].key, Canon(es[i].value))
    requires forall e :: e in c <==> e in CanonEntries(es)
    ensures Lookup(es, key).Some? == Lookup(c, key).Some?
    ensures Lookup(es, key).Some? ==> Lookup(c, key).value == Canon(Lookup(es, key).value)
  {
    LookupIff(es, key);
    LookupIff(c, key);
    if Lookup(es, key).Some? {
      var i :| 0 <= i < |es| && es[i] == Entry(key, Lookup(es, key).value);
      assert CanonEntries(es)[i] in c;
    }
    if Lookup(c, key).Some? {
      assert Entry(key, Lookup(c, key).value) in CanonEntries(es);
    }
  }

  lemma LookupCanon(es: seq<Entry>, key: string)
    requires Wf(Object(es))
    ensures var c := Canon(Object(es)).entries;
            Lookup(es, key).Some? == Lookup(c, key).Some?
            && (Lookup(es, key).Some? ==> Lookup(c, key).value == Canon(Lookup(es, key).value))
  {
    CanonEntriesIn(es);
    CanonEntriesAt(es);
    LookupMapped(es, Canon(Object(es)).entries, key);
  }

  /** Canonicalising an item never changes its sort key. */
  lemma SortKeyKept(v: Value)
    requires Wf(v)
    ensures SortKey(Canon(v)) == SortKey(v)
  {
    if v.Object? {
      LookupCanon(v.entries, "$ref");
      LookupCanon(v.entries, "title");
    }
  }

  lemma AllKeyedKept(items: seq<Value>)
    requires Wf(Array(items))
    ensures AllKeyed(CanonItems(items)) <==> AllKeyed(items)
    ensures forall x :: x in CanonItems(items) ==> Wf(x)
  {
    CanonItemsAt(items);
    forall i | 0 <= i < |items|
      ensures SortKey(CanonItems(items)[i]) == SortKey(items[i]) && Wf(CanonItems(items)[i])
    {
      SortKeyKept(items[i]);
      CanonWf(items[i]);
    }
    forall x | AllKeyed(CanonItems(items)) && x in items ensures SortKey(x).Some? {
      var i :| 0 <= i < |items| && items[i] == x;
      assert CanonItems(items)[i] in CanonItems(items);
    }
  }

  // ---- Equivalent values have one canonical form ----

  lemma RemoveMultiset<T>(xs: seq<T>, i: nat)
    requires i < |xs|
    ensures multiset(xs) == multiset(Remove(xs, i)) + multiset{xs[i]}
  {
    assert xs == xs[..i] + [xs[i]] + xs[i + 1..];
  }

  lemma {:induction false} RemoveCanonItems(s: seq<Value>, i: nat)
    requires i < |s|
    ensures multiset(CanonItems(s)) == multiset(CanonItems(Remove(s, i))) + multiset{Canon(s[i])}
  {
    CanonItemsAt(s);
    CanonItemsAt(Remove(s, i));
    var c := CanonItems(s);
    assert CanonItems(Remove(s, i)) == Remove(c, i);
    RemoveMultiset(c, i);
  }

  lemma {:induction false} RemoveCanonEntries(s: seq<Entry>, i: nat)
    requires i < |s|
    ensures multiset(CanonEntries(s)) ==
      multiset(CanonEntries(Remove(s, i))) + multiset{Entry(s[i].key, Canon(s[i].value))}
  {
    CanonEntriesAt(s);
    CanonEntriesAt(Remove(s, i));
    var c := CanonEntries(s);
    assert CanonEntries(Remove(s, i)) == Remove(c, i);
    RemoveMultiset(c, i);
  }

  lemma WfRemove(s: seq<Value>, i: nat)
    requires i < |s| && Wf(Array(s))
    ensures Wf(s[i]) && Wf(Array(Remove(s, i)))
  {
  }

  lemma WfRemoveEntry(s: seq<Entry>, i: nat)
    requires i < |s| && Wf(Object(s))
    ensures Wf(s[i].value) && Wf(Object(Remove(s, i)))
  {
    var r := Remove(s, i);
    forall e | e in r ensures Wf(e.value) {
      assert e in s;
    }
  }

  lemma {:induction false} EquivSameCanon(a: Value, b: Value)
    requires Wf(a) && Wf(b) && Equiv(a, b)
    ensures Canon(a) == Canon(b)
    decreases b, 1
  {
    if a.Array? && b.Array? {
      AllKeyedKept(a.items);
      if Pairwise(a.items, b.items) {
        PairwiseSameCanon(a.items, b.items);
      } else {
        RearrangedSameCanon(a.items, b.items);
        SameMultiset(CanonItems(a.items), CanonItems(b.items));
        ItemLeOrder();
        ItemsUntied(CanonItems(a.items));
        SortCanonical(CanonItems(a.items), CanonItems(b.items), ItemLe);
      }
    } else if a.Object? && b.Object? {
      EntriesSameCanon(a.entries, b.entries);
      KeyLeOrder();
      CanonEntriesAt(a.entries);
      EntriesUntied(CanonEntries(a.entries));
      SortCanonical(CanonEntries(a.entries), CanonEntries(b.entries), KeyLe);
    }
  }

  lemma {:induction false} PairwiseSameCanon(s: seq<Value>, t: seq<Value>)
    requires Wf(Array(s)) && Wf(Array(t)) && Pairwise(s, t)
    ensures CanonItems(s) == CanonItems(t)
    decreases t, 0
  {
    if t != [] {
      WfParts(s);
      WfParts(t);
      EquivSameCanon(s[0], t[0]);
      PairwiseSameCanon(s[1..], t[1..]);
    }
  }

  lemma {:induction false} RearrangedSameCanon(s: seq<Value>, t: seq<Value>)
    requires Wf(Array(s)) && Wf(Array(t)) && Rearranged(s, t)
    ensures multiset(CanonItems(s)) == multiset(CanonItems(t))
    decreases t, 0
  {
    if t != [] {
      var i :| 0 <= i < |s| && Equiv(s[i], t[0]) && Rearranged(Remove(s, i), t[1..]);
      WfRemove(s, i);
      WfParts(t);
      EquivSameCanon(s[i], t[0]);
      RearrangedSameCanon(Remove(s, i), t[1..]);
      RemoveCanonItems(s, i);
      RemoveCanonItems(t, 0);
      assert Remove(t, 0) == t[1..];
    }
  }

  lemma {:induction false} EntriesSameCanon(s: seq<Entry>, t: seq<Entry>)
    requires Wf(Object(s)) && Wf(Object(t)) && SameEntries(s, t)
    ensures multiset(CanonEntries(s)) == multiset(CanonEntries(t))
    decreases t, 0
  {
    if t != [] {
      var i :| 0 <= i < |s| && s[i].key == t[0].key && Equiv(s[i].value, t[0].value)
               && SameEntries(Remove(s, i), t[1..]);
      WfRemoveEntry(s, i);
      WfRemoveEntry(t, 0);
      assert Remove(t, 0) == t[1..];
      EquivSameCanon(s[i].value, t[0].value);
      EntriesSameCanon(Remove(s, i), t[1..]);
      RemoveCanonEntries(s, i);
      RemoveCanonEntries(t, 0);
    }
  }

  // ---- Values with one canonical form are equivalent ----

  lemma {:induction false} SameCanonEquiv(a: Value, b: Value)
    requires Wf(a) && Wf(b) && Canon(a) == Canon(b)
    ensures Equiv(a, b)
    decreases b, 1
  {
    if a.Array? && b.Array? {
      var s, t := CanonItems(a.items), CanonItems(b.items);
      AllKeyedKept(a.items);
      AllKeyedKept(b.items);
      SortPermutes(s, ItemLe);
      SortPermutes(t, ItemLe);
      SameMultiset(Sort(s, ItemLe), s);
      SameMultiset(Sort(t, ItemLe), t);
      if AllKeyed(s) {
        assert AllKeyed(t);
        SameCanonRearranged(a.items, b.items);
      } else {
        assert !AllKeyed(t);
        SameCanonPairwise(a.items, b.items);
      }
    } else if a.Object? && b.Object? {
      SortPermutes(CanonEntries(a.entries), KeyLe);
      SortPermutes(CanonEntries(b.entries), KeyLe);
      SameCanonEntries(a.entries, b.entries);
    }
  }

  lemma {:induction false} SameCanonPairwise(s: seq<Value>, t: seq<Value>)
    requires Wf(Array(s)) && Wf(Array(t)) && CanonItems(s) == CanonItems(t)
    ensures Pairwise(s, t)
    decreases t, 0
  {
    CanonItemsAt(s);
    CanonItemsAt(t);
    if t != [] {
      WfParts(s);
      WfParts(t);
      SameCanonEquiv(s[0], t[0]);
      assert CanonItems(s)[1..] == CanonItems(s[1..]) && CanonItems(t)[1..] == CanonItems(t[1..]);
      SameCanonPairwise(s[1..], t[1..]);
    }
  }

  lemma CancelOne<T>(b: multiset<T>, c: multiset<T>, x: T)
    requires b + multiset{x} == c + multiset{x}
    ensures b == c
  {
    assert b == (b + multiset{x}) - multiset{x};
    assert c == (c + multiset{x}) - multiset{x};
  }

  lemma {:induction false} PickItem(s: seq<Value>, t: seq<Value>) returns (i: nat)
    requires t != [] && multiset(CanonItems(s)) == multiset(CanonItems(t))
    ensures i < |s| && Canon(s[i]) == Canon(t[0])
    ensures multiset(CanonItems(Remove(s, i))) == multiset(CanonItems(t[1..]))
  {
    CanonItemsAt(s);
    SameMultiset(CanonItems(s), CanonItems(t));
    assert CanonItems(t)[0] in CanonItems(s);
    i :| 0 <= i < |s| && CanonItems(s)[i] == Canon(t[0]);
    RemoveCanonItems(s, i);
    RemoveCanonItems(t, 0);
    assert Remove(t, 0) == t[1..];
    CancelOne(multiset(CanonItems(Remove(s, i))), multiset(CanonItems(t[1..])), Canon(t[0]));
  }

  lemma {:induction false} SameCanonRearranged(s: seq<Value>, t: seq<Value>)
    requires Wf(Array(s)) && Wf(Array(t)) && multiset(CanonItems(s)) == multiset(CanonItems(t))
    ensures Rearranged(s, t)
    decreases t, 0
  {
    if t == [] {
      CanonItemsAt(s);
      SameMultiset(CanonItems(s), CanonItems(t));
    } else {
      var i := PickItem(s, t);
      WfRemove(s, i);
      WfParts(t);
      SameCanonEquiv(s[i], t[0]);
      SameCanonRearranged(Remove(s, i), t[1..]);
    }
  }

  lemma {:induction false} PickEntry(s: seq<Entry>, t: seq<Entry>) returns (i: nat)
    requires t != [] && multiset(CanonEntries(s)) == multiset(CanonEntries(t))
    ensures i < |s| && s[i].key == t[0].key && Canon(s[i].value) == Canon(t[0].value)
    ensures multiset(CanonEntries(Remove(s, i))) == multiset(CanonEntries(t[1..]))
  {
    CanonEntriesAt(s);
    SameMultiset(CanonEntries(s), CanonEntries(t));
    var c := Entry(t[0].key, Canon(t[0].value));
    assert CanonEntries(t)[0] == c && c in CanonEntries(s);
    i :| 0 <= i < |s| && CanonEntries(s)[i] == c;
    RemoveCanonEntries(s, i);
    RemoveCanonEntries(t, 0);
    assert Remove(t, 0) == t[1..];
    CancelOne(multiset(CanonEntries(Remove(s, i))), multiset(CanonEntries(t[1..])), c);
  }

  lemma {:induction false} SameCanonEntries(s: seq<Entry>, t: seq<Entry>)
    requires Wf(Object(s)) && Wf(Object(t)) && multiset(CanonEntries(s)) == multiset(CanonEntries(t))
    ensures SameEntries(s, t)
    decreases t, 0
  {
    if t == [] {
      CanonEntriesAt(s);
      SameMultiset(CanonEntries(s), CanonEntries(t));
    } else {
      var i := PickEntry(s, t);
      WfRemoveEntry(s, i);
      WfRemoveEntry(t, 0);
      assert Remove(t, 0) == t[1..];
      SameCanonEquiv(s[i].value, t[0].value);
      SameCanonEntries(Remove(s, i), t[1..]);
    }
  }

  // ---- The main results ----

  /** `canonicalize_json` decides the equivalence. */
  lemma CanonDecidesEquiv(a: Value, b: Value)
    requires Wf(a) && Wf(b)
    ensures Canon(a) == Canon(b) <==> Equiv(a, b)
  {
    if Canon(a) == Canon(b) { SameCanonEquiv(a, b); }
    if Equiv(a, b) { EquivSameCanon(a, b); }
  }

  lemma {:induction false} ItemsFixed(s: seq<Value>)
    requires forall x :: x in s ==> Canon(x) == x
    ensures CanonItems(s) == s
  {
    CanonItemsAt(s);
  }

  lemma {:induction false} CanonArrayFixed(items: seq<Value>)
    requires Wf(Array(items))
    requires forall x :: x in CanonItems(items) ==> Canon(x) == x
    ensures Canon(Canon(Array(items))) == Canon(Array(items))
  {
    var c := CanonItems(items);
    var s := Sort(c, ItemLe);
    ItemLeOrder();
    SortSorted(c, ItemLe);
    SortPermutes(c, ItemLe);
    SameMultiset(s, c);
    ItemsFixed(c);
    ItemsFixed(s);
    SortOfSorted(s, ItemLe);
    assert AllKeyed(c) <==> AllKeyed(s);
  }

  lemma {:induction false} CanonObjectFixed(es: seq<Entry>)
    requires forall e :: e in CanonEntries(es) ==> Canon(e.value) == e.value
    ensures Canon(Canon(Object(es))) == Canon(Object(es))
  {
    var c := CanonEntries(es);
    var s := Sort(c, KeyLe);
    KeyLeOrder();
    SortSorted(c, KeyLe);
    SortPermutes(c, KeyLe);
    SameMultiset(s, c);
    CanonEntriesAt(s);
    assert CanonEntries(s) == s;
    SortOfSorted(s, KeyLe);
  }

  lemma {:induction false} CanonIdempotent(v: Value)
    requires Wf(v)
    ensures Canon(Canon(v)) == Canon(v)
  {
    match v {
      case Array(items) =>
        CanonItemsAt(items);
        forall i | 0 <= i < |items| ensures Canon(CanonItems(items)[i]) == CanonItems(items)[i] {
          CanonIdempotent(items[i]);
        }
        CanonArrayFixed(items);
      case Object(es) =>
        CanonEntriesAt(es);
        forall i | 0 <= i < |es| ensures Canon(CanonEntries(es)[i].value) == CanonEntries(es)[i].value {
          CanonIdempotent(es[i].value);
        }
        CanonObjectFixed(es);
      case _ =>
    }
  }

  /** Canonicalising only ever makes the changes the equivalence allows. */
  lemma CanonEquivalent(v: Value)
    requires Wf(v)
    ensures Equiv(v, Canon(v)) && Wf(Canon(v))
  {
    CanonWf(v);
    CanonIdempotent(v);
    CanonDecidesEquiv(v, Canon(v));
  }

  lemma EquivIsEquivalence(a: Value, b: Value, c: Value)
    requires Wf(a) && Wf(b) && Wf(c)
    ensures Equiv(a, a)
    ensures Equiv(a, b) ==> Equiv(b, a)
    ensures Equiv(a, b) && Equiv(b, c) ==> Equiv(a, c)
  {
    CanonDecidesEquiv(a, a);
    CanonDecidesEquiv(a, b);
    CanonDecidesEquiv(b, a);
    CanonDecidesEquiv(b, c);
    CanonDecidesEquiv(a, c);
  }

  // ---- The loops of `canonicalize_json` compute `Canon` ----

  /** What the array sort works on: each item zipped with its sort key and its printed text. */
  datatype Zipped = Zipped(item: Value, key: string, stable: string)

  type Sortable = z: Zipped | z.key == KeyText(z.item) && z.stable == Print(z.item)
    witness Zipped(Null, KeyText(Null), Print(Null))

  predicate SortableLe(x: Sortable, y: Sortable) {
    if x.key == y.key then LexLe(x.stable, y.stable) else LexLe(x.key, y.key)
  }

  /** `Map::insert`: replaces in place, or appends a new key. */
  function InsertEntry(entries: seq<Entry>, e: Entry): seq<Entry> {
    if entries == [] then [e]
    else if entries[0].key == e.key then [e] + entries[1..]
    else [entries[0]] + InsertEntry(entries[1..], e)
  }

  lemma {:induction false} InsertFresh(entries: seq<Entry>, e: Entry)
    requires forall x :: x in entries ==> x.key != e.key
    ensures InsertEntry(entries, e) == entries + [e]
  {
    if entries != [] {
      InsertFresh(entries[1..], e);
    }
  }

  lemma ZippedSort(zipped: seq<Sortable>, items: seq<Value>)
    requires |zipped| == |items| && AllKeyed(items)
    requires forall i :: 0 <= i < |items| ==>
      zipped[i] == Zipped(items[i], KeyText(items[i]), Print(items[i]))
    ensures Map((z: Sortable) => z.item, Sort(zipped, SortableLe)) == Sort(items, ItemLe)
  {
    var f := (z: Sortable) => z.item;
    SortMap(zipped, f, SortableLe, ItemLe);
    assert Map(f, zipped) == items;
  }

  lemma CanonOfSortedEntries(es: seq<Entry>, r: seq<Entry>)
    requires |r| == |Sort(es, KeyLe)|
    requires forall i :: 0 <= i < |r| ==>
      r[i] == Entry(Sort(es, KeyLe)[i].key, Canon(Sort(es, KeyLe)[i].value))
    ensures Object(r) == Canon(Object(es))
  {
    var f := (e: Entry) => Entry(e.key, Canon(e.value));
    SortMap(es, f, KeyLe, KeyLe);
    CanonEntriesAt(es);
    assert Map(f, es) == CanonEntries(es);
    assert Map(f, Sort(es, KeyLe)) == r;
  }

  method SortItems(items: seq<Value>) returns (r: Value)
    ensures r == Array(if AllKeyed(items) then Sort(items, ItemLe) else items)
  {
    var sortable: seq<Sortable> := [];
    for i := 0 to |items|
      invariant |sortable| == i && forall j :: 0 <= j < i ==> SortKey(items[j]).Some?
      invariant forall j :: 0 <= j < i ==>
        sortable[j] == Zipped(items[j], KeyText(items[j]), Print(items[j]))
    {
      var key := SortKey(items[i]);
      if key.None? {
        assert items[i] in items;
        return Array(items);
      }
      sortable := sortable + [Zipped(items[i], key.value, Print(items[i]))];
    }
    ZippedSort(sortable, items);
    r := Array(Map((z: Sortable) => z.item, Sort(sortable, SortableLe)));
  }

  method CanonicalizeJson(value: Value) returns (r: Value)
    requires Wf(value)
    ensures r == Canon(value)
    decreases value, 1
  {
    match value {
      case Array(children) =>
        var items := [];
        for i := 0 to |children|
          invariant |items| == i && forall j :: 0 <= j < i ==> items[j] == Canon(children[j])
        {
          var item := CanonicalizeJson(children[i]);
          items := items + [item];
        }
        CanonItemsAt(children);
        assert items == CanonItems(children);
        r := SortItems(items);
      case Object(entries) =>
        r := CanonicalizeObject(value);
      case _ =>
        r := value;
    }
  }

  lemma SortedEntries(es: seq<Entry>)
    requires Wf(Object(es))
    ensures |Sort(es, KeyLe)| == |es| && DistinctKeys(Sort(es, KeyLe))
    ensures forall i :: 0 <= i < |es| ==> Sort(es, KeyLe)[i] in es && Wf(Sort(es, KeyLe)[i].value)
  {
    SortPermutes(es, KeyLe);
    SortMembers(es, KeyLe);
    DistinctPermuted(es, Sort(es, KeyLe));
  }

  method CanonicalizeObject(value: Value) returns (r: Value)
    requires value.Object? && Wf(value)
    ensures r == Canon(value)
    decreases value, 0
  {
    var entries := Sort(value.entries, KeyLe);
    SortedEntries(value.entries);
    var sorted: seq<Entry> := [];
    for i := 0 to |entries|
      invariant |sorted| == i
      invariant forall j :: 0 <= j < i ==> sorted[j] == Entry(entries[j].key, Canon(entries[j].value))
    {
      var e := entries[i];
      assert e in value.entries;
      var child := CanonicalizeJson(e.value);
      InsertFresh(sorted, Entry(e.key, child));
      sorted := InsertEntry(sorted, Entry(e.key, child));
    }
    CanonOfSortedEntries(value.entries, sorted);
    r := Object(sorted);
  }
}
