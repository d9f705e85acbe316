/** The canonical text determines its value up to key order and normal form, and is read back as itself exactly when
    normalization keeps the order of keys. */
module CanonicalTheorems {
  import opened Wrappers
  import opened Texts
  import opened JsonText
  import opened JsonRoundTrip
  import opened JsonMembers
  import opened Canonical

  // ---------------------------------------------------------------- printable

  lemma {:induction false} InsertPrintable(key: Text, t: Syntax, m: Members<Text>)
    requires Printable(t) && PrintableMembers(m)
    ensures PrintableMembers(Insert(key, t, m))
  {
    if m.Member? && !Less(key, m.key) {
      InsertPrintable(key, t, m.rest);
    }
  }

  lemma {:induction false} SortPrintable(m: Members<Text>)
    requires PrintableMembers(m)
    ensures PrintableMembers(Sort(m))
  {
    if m.Member? {
      SortPrintable(m.rest);
      InsertPrintable(m.key, m.value, Sort(m.rest));
    }
  }

  lemma {:induction false} NfcPrintable(p: Primitives, m: Members<Text>)
    requires PrintableMembers(m)
    ensures PrintableMembers(NfcKeys(p, m))
  {
    if m.Member? {
      NfcPrintable(p, m.rest);
    }
  }

  lemma {:induction false} NormPrintable(p: Primitives, v: Value)
    requires Sound(p) && Finite(p, v)
    ensures Printable(Norm(p, v))
  {
    match v
    case Number(n) => assert NumbersRoundTrip(p, n);
    case Arr(items) => ItemsPrintable(p, items);
    case Obj(members) =>
      ValuesPrintable(p, members);
      SortPrintable(NormValues(p, members));
      NfcPrintable(p, Sort(NormValues(p, members)));
    case _ =>
  }

  lemma {:induction false} ItemsPrintable(p: Primitives, items: Items<Double>)
    requires Sound(p) && FiniteItems(p, items)
    ensures PrintableItems(NormItems(p, items))
  {
    if items.Item? {
      NormPrintable(p, items.head);
      ItemsPrintable(p, items.tail);
    }
  }

  lemma {:induction false} ValuesPrintable(p: Primitives, members: Members<Double>)
    requires Sound(p) && FiniteMembers(p, members)
    ensures PrintableMembers(NormValues(p, members))
  {
    if members.Member? {
      NormPrintable(p, members.value);
      ValuesPrintable(p, members.rest);
    }
  }

  /** Equal canonical texts come from equal normal forms. */
  lemma TextDeterminesNorm(p: Primitives, v: Value, w: Value)
    requires Sound(p) && Finite(p, v) && Finite(p, w)
    ensures CanonicalizeJson(p, v) == CanonicalizeJson(p, w) <==> Norm(p, v) == Norm(p, w)
  {
    NormPrintable(p, v);
    NormPrintable(p, w);
    if Print(Norm(p, v)) == Print(Norm(p, w)) {
      PrintInjective(Norm(p, v), Norm(p, w));
    }
  }

  // ---------------------------------------------------------------- equivalence

  lemma {:induction false} NormKeys(p: Primitives, m: Members<Double>, key: Text)
    ensures HasKey(NormValues(p, m), key) <==> HasKey(m, key)
    ensures HasKey(m, key) ==> Lookup(NormValues(p, m), key) == Norm(p, Lookup(m, key))
  {
    if m.Member? {
      NormKeys(p, m.rest, key);
    }
  }

  lemma {:induction false} NormDistinct(p: Primitives, m: Members<Double>)
    requires Distinct(m)
    ensures Distinct(NormValues(p, m)) && Count(NormValues(p, m)) == Count(m)
  {
    if m.Member? {
      NormDistinct(p, m.rest);
      NormKeys(p, m.rest, m.key);
    }
  }

  /** Equivalent values have the same normal form. */
  lemma {:induction false} EquivalentNorm(p: Primitives, v: Value, w: Value)
    requires IsValue(v) && IsValue(w) && Equivalent(p, v, w)
    ensures Norm(p, v) == Norm(p, w)
    decreases v, 1
  {
    match v
    case Arr(items) => EquivalentItemsNorm(p, items, w.items);
    case Obj(members) =>
      CoveredMaps(p, members, w.members);
      NormDistinct(p, members);
      NormDistinct(p, w.members);
      SortForgetsOrder(NormValues(p, members), NormValues(p, w.members));
    case _ =>
  }

  lemma {:induction false} EquivalentItemsNorm(p: Primitives, a: Items<Double>, b: Items<Double>)
    requires AreValues(a) && AreValues(b) && EquivalentItems(p, a, b)
    ensures NormItems(p, a) == NormItems(p, b)
    decreases a, 1
  {
    if a.Item? {
      EquivalentNorm(p, a.head, b.head);
      EquivalentItemsNorm(p, a.tail, b.tail);
    }
  }

  lemma {:induction false} LookupIsValue(m: Members<Double>, key: Text)
    requires HasValues(m) && HasKey(m, key)
    ensures IsValue(Lookup(m, key))
  {
    if m.key != key {
      LookupIsValue(m.rest, key);
    }
  }

  lemma {:induction false} CoveredMember(p: Primitives, a: Members<Double>, b: Members<Double>, key: Text)
    requires HasValues(a) && HasValues(b) && Covered(p, a, b) && HasKey(a, key)
    ensures HasKey(b, key) && Norm(p, Lookup(a, key)) == Norm(p, Lookup(b, key))
    decreases a, 0
  {
    if a.key == key {
      LookupIsValue(b, key);
      EquivalentNorm(p, a.value, Lookup(b, key));
    } else {
      CoveredMember(p, a.rest, b, key);
    }
  }

  lemma CoveredMaps(p: Primitives, a: Members<Double>, b: Members<Double>)
    requires HasValues(a) && HasValues(b) && Distinct(a) && Distinct(b) && Count(a) == Count(b) && Covered(p, a, b)
    ensures AsMap(NormValues(p, a)) == AsMap(NormValues(p, b))
    decreases a, 1
  {
    var m, n := NormValues(p, a), NormValues(p, b);
    NormDistinct(p, a);
    NormDistinct(p, b);
    MapCount(m);
    MapCount(n);
    forall key | key in AsMap(m) ensures key in AsMap(n) && AsMap(m)[key] == AsMap(n)[key] {
      MapLookup(m, key);
      MapLookup(n, key);
      NormKeys(p, a, key);
      NormKeys(p, b, key);
      CoveredMember(p, a, b, key);
    }
    SubsetOfSameSize(AsMap(m).Keys, AsMap(n).Keys);
  }

  lemma {:induction false} SubsetOfSameSize(a: set<Text>, b: set<Text>)
    requires a <= b && |a| == |b|
    ensures a == b
  {
    if a != b {
      var x :| x in b && x !in a;
      assert a <= b - {x};
      SubsetCardinality(a, b - {x});
    }
  }

  lemma {:induction false} SubsetCardinality(a: set<Text>, b: set<Text>)
    requires a <= b
    ensures |a| <= |b|
  {
    if a != {} {
      var x :| x in a;
      SubsetCardinality(a - {x}, b - {x});
    }
  }

  lemma {:induction false} NfcKeyedIdentity(p: Primitives, m: Members<Text>)
    requires forall k | HasKey(m, k) :: p.nfc(k) == k
    ensures NfcKeys(p, m) == m
  {
    if m.Member? {
      assert HasKey(m, m.key);
      forall k | HasKey(m.rest, k) ensures p.nfc(k) == k {
        assert HasKey(m, k);
      }
      NfcKeyedIdentity(p, m.rest);
    }
  }

  lemma {:induction false} NfcKeyedKey(p: Primitives, m: Members<Double>, key: Text)
    requires MembersNfcKeyed(p, m) && HasKey(m, key)
    ensures p.nfc(key) == key && NfcKeyed(p, Lookup(m, key))
  {
    if m.key != key {
      NfcKeyedKey(p, m.rest, key);
    }
  }

  /** The normal form of an object with normal keys is the sorted object. */
  lemma NormalObject(p: Primitives, m: Members<Double>)
    requires MembersNfcKeyed(p, m)
    ensures Norm(p, Obj(m)) == Obj(Sort(NormValues(p, m)))
  {
    var sorted := Sort(NormValues(p, m));
    forall k | HasKey(sorted, k) ensures p.nfc(k) == k {
      SortHas(NormValues(p, m), k);
      NormKeys(p, m, k);
      NfcKeyedKey(p, m, k);
    }
    NfcKeyedIdentity(p, sorted);
  }

  /** Values with normal keys and the same normal form are equivalent. */
  lemma {:induction false} NormEquivalent(p: Primitives, v: Value, w: Value)
    requires IsValue(v) && IsValue(w) && NfcKeyed(p, v) && NfcKeyed(p, w) && Norm(p, v) == Norm(p, w)
    ensures Equivalent(p, v, w)
    decreases v, 1
  {
    match v
    case Arr(items) => NormEquivalentItems(p, items, w.items);
    case Obj(members) =>
      NormalObject(p, members);
      NormalObject(p, w.members);
      SameMaps(p, members, w.members);
      CoveredFrom(p, members, members, w.members);
    case _ =>
  }

  lemma {:induction false} NormEquivalentItems(p: Primitives, a: Items<Double>, b: Items<Double>)
    requires AreValues(a) && AreValues(b) && ItemsNfcKeyed(p, a) && ItemsNfcKeyed(p, b)
    requires NormItems(p, a) == NormItems(p, b)
    ensures EquivalentItems(p, a, b)
    decreases a, 1
  {
    if a.Item? {
      NormEquivalent(p, a.head, b.head);
      NormEquivalentItems(p, a.tail, b.tail);
    }
  }

  lemma SameMaps(p: Primitives, a: Members<Double>, b: Members<Double>)
    requires Distinct(a) && Distinct(b) && Sort(NormValues(p, a)) == Sort(NormValues(p, b))
    ensures AsMap(NormValues(p, a)) == AsMap(NormValues(p, b)) && Count(a) == Count(b)
  {
    NormDistinct(p, a);
    NormDistinct(p, b);
    SortSorts(NormValues(p, a));
    SortSorts(NormValues(p, b));
    MapCount(NormValues(p, a));
    MapCount(NormValues(p, b));
  }

  lemma {:induction false} CoveredFrom(p: Primitives, all: Members<Double>, a: Members<Double>, b: Members<Double>)
    requires HasValues(a) && HasValues(b) && MembersNfcKeyed(p, a) && MembersNfcKeyed(p, b) && Distinct(a)
    requires AsMap(NormValues(p, all)) == AsMap(NormValues(p, b))
    requires forall k | HasKey(a, k) :: HasKey(all, k) && Lookup(all, k) == Lookup(a, k)
    ensures Covered(p, a, b)
    decreases a, 0
  {
    if a.Member? {
      var k := a.key;
      assert HasKey(a, k);
      MapLookup(NormValues(p, all), k);
      MapLookup(NormValues(p, b), k);
      NormKeys(p, all, k);
      NormKeys(p, b, k);
      LookupIsValue(b, k);
      NfcKeyedKey(p, b, k);
      NormEquivalent(p, a.value, Lookup(b, k));
      forall j | HasKey(a.rest, j) ensures HasKey(all, j) && Lookup(all, j) == Lookup(a.rest, j) {
        assert HasKey(a, j);
      }
      CoveredFrom(p, all, a.rest, b);
    }
  }

  /** Reordering members, or writing a string in another form, never changes the canonical text. */
  lemma EquivalentSameText(p: Primitives, v: Value, w: Value)
    requires Sound(p) && IsValue(v) && IsValue(w) && Finite(p, v) && Finite(p, w) && Equivalent(p, v, w)
    ensures CanonicalizeJson(p, v) == CanonicalizeJson(p, w)
  {
    EquivalentNorm(p, v, w);
  }

  /** Two values have the same canonical text exactly when they are equal up to key order and normal form. */
  lemma SameTextExactly(p: Primitives, v: Value, w: Value)
    requires Sound(p) && IsValue(v) && IsValue(w) && Finite(p, v) && Finite(p, w)
    requires NfcKeyed(p, v) && NfcKeyed(p, w)
    ensures CanonicalizeJson(p, v) == CanonicalizeJson(p, w) <==> Equivalent(p, v, w)
  {
    TextDeterminesNorm(p, v, w);
    if Equivalent(p, v, w) {
      EquivalentNorm(p, v, w);
    }
    if Norm(p, v) == Norm(p, w) {
      NormEquivalent(p, v, w);
    }
  }
}
