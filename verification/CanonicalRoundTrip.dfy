/** Reading a canonical text and canonicalizing the value again gives the same text exactly when normalization keeps the
    order of keys in every object. */
module CanonicalRoundTrip {
  import opened Wrappers
  import opened Texts
  import opened JsonText
  import opened JsonRoundTrip
  import opened JsonMembers
  import opened Canonical
  import opened CanonicalTheorems

  /** Strings, keys and tokens are what normalization leaves alone. */
  ghost predicate Normalized(p: Primitives, t: Syntax) {
    match t
    case Number(token) => p.isFinite(p.parseNumber(token)) && p.printNumber(p.parseNumber(token)) == token
    case Str(s) => p.nfc(s) == s
    case Arr(items) => NormalizedItems(p, items)
    case Obj(members) => NormalizedMembers(p, members)
    case _ => true
  }

  ghost predicate NormalizedItems(p: Primitives, items: Items<Text>) {
    items.NoItems? || (Normalized(p, items.head) && NormalizedItems(p, items.tail))
  }

  ghost predicate NormalizedValues(p: Primitives, members: Members<Text>) {
    members.NoMembers? || (Normalized(p, members.value) && NormalizedValues(p, members.rest))
  }

  ghost predicate NormalizedMembers(p: Primitives, members: Members<Text>) {
    members.NoMembers? || (p.nfc(members.key) == members.key && Normalized(p, members.value)
                           && NormalizedMembers(p, members.rest))
  }

  /** The keys of every object in the text increase. */
  predicate Ordered(t: Syntax) {
    match t
    case Arr(items) => OrderedItems(items)
    case Obj(members) => StrictlySorted(members) && OrderedValues(members)
    case _ => true
  }

  predicate OrderedItems(items: Items<Text>) {
    items.NoItems? || (Ordered(items.head) && OrderedItems(items.tail))
  }

  predicate OrderedValues(members: Members<Text>) {
    members.NoMembers? || (Ordered(members.value) && OrderedValues(members.rest))
  }

  // ---------------------------------------------------------------- the normal form is normalized

  lemma {:induction false} InsertNormalized(p: Primitives, key: Text, t: Syntax, m: Members<Text>)
    requires Normalized(p, t) && NormalizedValues(p, m)
    ensures NormalizedValues(p, Insert(key, t, m))
  {
    if m.Member? && !Less(key, m.key) {
      InsertNormalized(p, key, t, m.rest);
    }
  }

  lemma {:induction false} SortNormalized(p: Primitives, m: Members<Text>)
    requires NormalizedValues(p, m)
    ensures NormalizedValues(p, Sort(m))
  {
    if m.Member? {
      SortNormalized(p, m.rest);
      InsertNormalized(p, m.key, m.value, Sort(m.rest));
    }
  }

  lemma {:induction false} KeysNormalized(p: Primitives, m: Members<Text>)
    requires Sound(p) && NormalizedValues(p, m)
    ensures NormalizedMembers(p, NfcKeys(p, m))
  {
    if m.Member? {
      KeysNormalized(p, m.rest);
    }
  }

  lemma {:induction false} NormNormalized(p: Primitives, v: Value)
    requires Sound(p) && Finite(p, v)
    ensures Normalized(p, Norm(p, v))
  {
    match v
    case Number(n) => assert NumbersRoundTrip(p, n);
    case Arr(items) => ItemsNormalized(p, items);
    case Obj(members) =>
      ValuesNormalized(p, members);
      SortNormalized(p, NormValues(p, members));
      KeysNormalized(p, Sort(NormValues(p, members)));
    case _ =>
  }

  lemma {:induction false} ItemsNormalized(p: Primitives, items: Items<Double>)
    requires Sound(p) && FiniteItems(p, items)
    ensures NormalizedItems(p, NormItems(p, items))
  {
    if items.Item? {
      NormNormalized(p, items.head);
      ItemsNormalized(p, items.tail);
    }
  }

  lemma {:induction false} ValuesNormalized(p: Primitives, members: Members<Double>)
    requires Sound(p) && FiniteMembers(p, members)
    ensures NormalizedValues(p, NormValues(p, members))
  {
    if members.Member? {
      NormNormalized(p, members.value);
      ValuesNormalized(p, members.rest);
    }
  }

  // ---------------------------------------------------------------- reading

  lemma {:induction false} RemoveHas(m: Members<Double>, key: Text, k: Text)
    ensures HasKey(Remove(m, key), k) <==> HasKey(m, k) && k != key
  {
    if m.Member? {
      RemoveHas(m.rest, key, k);
    }
  }

  lemma {:induction false} RemoveDistinct(m: Members<Double>, key: Text)
    requires Distinct(m)
    ensures Distinct(Remove(m, key))
  {
    if m.Member? {
      RemoveDistinct(m.rest, key);
      RemoveHas(m.rest, key, m.key);
    }
  }

  lemma {:induction false} ReadKeys(p: Primitives, m: Members<Text>, k: Text)
    ensures HasKey(ReadMembers(p, m), k) <==> HasKey(m, k)
  {
    if m.Member? {
      ReadKeys(p, m.rest, k);
      RemoveHas(ReadMembers(p, m.rest), m.key, k);
    }
  }

  /** A parsed object has no key twice, whatever the text. */
  lemma {:induction false} ReadDistinct(p: Primitives, m: Members<Text>)
    ensures Distinct(ReadMembers(p, m))
  {
    if m.Member? {
      var later := ReadMembers(p, m.rest);
      ReadDistinct(p, m.rest);
      RemoveDistinct(later, m.key);
      RemoveHas(later, m.key, m.key);
    }
  }

  lemma {:induction false} RemoveFinite(p: Primitives, m: Members<Double>, key: Text)
    requires FiniteMembers(p, m)
    ensures FiniteMembers(p, Remove(m, key))
    ensures HasKey(m, key) ==> Finite(p, Lookup(m, key))
  {
    if m.Member? {
      RemoveFinite(p, m.rest, key);
    }
  }

  /** Reading back a normalized text finds no infinite number. */
  lemma {:induction false} ReadFinite(p: Primitives, t: Syntax)
    requires Normalized(p, t)
    ensures Finite(p, Read(p, t))
  {
    match t
    case Arr(items) => ReadItemsFinite(p, items);
    case Obj(members) => ReadMembersFinite(p, members);
    case _ =>
  }

  lemma {:induction false} ReadItemsFinite(p: Primitives, items: Items<Text>)
    requires NormalizedItems(p, items)
    ensures FiniteItems(p, ReadItems(p, items))
  {
    if items.Item? {
      ReadFinite(p, items.head);
      ReadItemsFinite(p, items.tail);
    }
  }

  lemma {:induction false} ReadMembersFinite(p: Primitives, members: Members<Text>)
    requires NormalizedMembers(p, members)
    ensures FiniteMembers(p, ReadMembers(p, members))
  {
    if members.Member? {
      ReadFinite(p, members.value);
      ReadMembersFinite(p, members.rest);
      RemoveFinite(p, ReadMembers(p, members.rest), members.key);
    }
  }

  // ---------------------------------------------------------------- normalizing what was read

  lemma {:induction false} NormalizedKey(p: Primitives, m: Members<Text>, k: Text)
    requires NormalizedMembers(p, m) && HasKey(m, k)
    ensures p.nfc(k) == k
  {
    if m.key != k {
      NormalizedKey(p, m.rest, k);
    }
  }

  /** The object that is written after reading `m` has the keys of `m` in order. */
  lemma Rewritten(p: Primitives, m: Members<Text>)
    requires NormalizedMembers(p, m)
    ensures Norm(p, Read(p, Obj(m))) == Obj(Sort(NormValues(p, ReadMembers(p, m))))
    ensures StrictlySorted(Sort(NormValues(p, ReadMembers(p, m))))
  {
    var read := ReadMembers(p, m);
    var values := NormValues(p, read);
    ReadDistinct(p, m);
    NormDistinct(p, read);
    SortSorts(values);
    forall k | HasKey(Sort(values), k) ensures p.nfc(k) == k {
      SortHas(values, k);
      NormKeys(p, read, k);
      ReadKeys(p, m, k);
      NormalizedKey(p, m, k);
    }
    NfcKeyedIdentity(p, Sort(values));
  }

  /** A normalized text survives reading and writing exactly when its keys increase. */
  lemma {:induction false} RewriteExactly(p: Primitives, t: Syntax)
    requires Normalized(p, t)
    ensures Norm(p, Read(p, t)) == t <==> Ordered(t)
    decreases t, 1
  {
    match t
    case Arr(items) => RewriteItems(p, items);
    case Obj(members) =>
      Rewritten(p, members);
      if StrictlySorted(members) {
        RewriteMembers(p, members);
        if OrderedValues(members) {
          SortIdentity(members);
        } else {
          NamesKept(p, members);
          SortIdentity(NormValues(p, ReadMembers(p, members)));
        }
      }
    case _ =>
  }

  lemma {:induction false} RewriteItems(p: Primitives, items: Items<Text>)
    requires NormalizedItems(p, items)
    ensures NormItems(p, ReadItems(p, items)) == items <==> OrderedItems(items)
    decreases items, 1
  {
    if items.Item? {
      RewriteExactly(p, items.head);
      RewriteItems(p, items.tail);
    }
  }

  /** Without repeated keys the members are read one by one. */
  lemma {:induction false} RewriteMembers(p: Primitives, m: Members<Text>)
    requires NormalizedMembers(p, m) && StrictlySorted(m)
    ensures NormValues(p, ReadMembers(p, m)) == m <==> OrderedValues(m)
    decreases m, 1
  {
    if m.Member? {
      SortedDistinct(m);
      ReadKeys(p, m.rest, m.key);
      RewriteExactly(p, m.value);
      RewriteMembers(p, m.rest);
    }
  }

  lemma {:induction false} NamesKept(p: Primitives, m: Members<Text>)
    requires StrictlySorted(m)
    ensures StrictlySorted(NormValues(p, ReadMembers(p, m)))
  {
    if m.Member? {
      SortedDistinct(m);
      ReadKeys(p, m.rest, m.key);
      NamesKept(p, m.rest);
      NamesAbove(p, m.key, m.rest);
    }
  }

  lemma {:induction false} NamesAbove(p: Primitives, low: Text, m: Members<Text>)
    requires StrictlySorted(m) && Above(low, m)
    ensures Above(low, NormValues(p, ReadMembers(p, m)))
  {
    if m.Member? {
      SortedDistinct(m);
      ReadKeys(p, m.rest, m.key);
      NamesAbove(p, low, m.rest);
    }
  }

  // ---------------------------------------------------------------- order of the normal form

  lemma {:induction false} NfcHas(p: Primitives, m: Members<Text>, k: Text)
    requires HasKey(m, k)
    ensures HasKey(NfcKeys(p, m), p.nfc(k))
  {
    if m.key != k {
      NfcHas(p, m.rest, k);
    }
  }

  lemma {:induction false} NfcAbove(p: Primitives, low: Text, m: Members<Text>)
    requires forall k | HasKey(m, k) :: Less(low, p.nfc(k))
    ensures Above(low, NfcKeys(p, m))
  {
    if m.Member? {
      assert HasKey(m, m.key);
      forall k | HasKey(m.rest, k) ensures Less(low, p.nfc(k)) {
        assert HasKey(m, k);
      }
      NfcAbove(p, low, m.rest);
    }
  }

  lemma {:induction false} SortedKeepsOrder(p: Primitives, m: Members<Text>, a: Text, b: Text)
    requires StrictlySorted(m) && StrictlySorted(NfcKeys(p, m))
    requires HasKey(m, a) && HasKey(m, b) && Less(a, b)
    ensures Less(p.nfc(a), p.nfc(b))
  {
    LessIrreflexive(a);
    if a == m.key {
      NfcHas(p, m.rest, b);
      AboveKey(p.nfc(a), NfcKeys(p, m.rest), p.nfc(b));
    } else if b == m.key {
      AboveKey(m.key, m.rest, a);
      LessTransitive(a, b, a);
    } else {
      SortedKeepsOrder(p, m.rest, a, b);
    }
  }

  lemma {:induction false} OrderKeptSorts(p: Primitives, m: Members<Text>)
    requires StrictlySorted(m) && OrderKept(p, m)
    ensures StrictlySorted(NfcKeys(p, m))
  {
    if m.Member? {
      forall k | HasKey(m.rest, k) ensures Less(p.nfc(m.key), p.nfc(k)) {
        AboveKey(m.key, m.rest, k);
        assert HasKey(m, m.key) && HasKey(m, k);
      }
      NfcAbove(p, p.nfc(m.key), m.rest);
      forall a, b | HasKey(m.rest, a) && HasKey(m.rest, b) && Less(a, b) ensures Less(p.nfc(a), p.nfc(b)) {
        assert HasKey(m, a) && HasKey(m, b);
      }
      OrderKeptSorts(p, m.rest);
    }
  }

  lemma ObjectOrderExactly(p: Primitives, members: Members<Double>)
    requires Distinct(members)
    ensures StrictlySorted(NfcKeys(p, Sort(NormValues(p, members)))) <==> OrderKept(p, members)
  {
    var values := NormValues(p, members);
    var sorted := Sort(values);
    NormDistinct(p, members);
    SortSorts(values);
    forall k ensures HasKey(sorted, k) <==> HasKey(members, k) {
      SortHas(values, k);
      NormKeys(p, members, k);
    }
    if OrderKept(p, members) {
      OrderKeptSorts(p, sorted);
    }
    if StrictlySorted(NfcKeys(p, sorted)) {
      forall a, b | HasKey(members, a) && HasKey(members, b) && Less(a, b) ensures Less(p.nfc(a), p.nfc(b)) {
        SortedKeepsOrder(p, sorted, a, b);
      }
    }
  }

  lemma {:induction false} InsertOrdered(key: Text, t: Syntax, m: Members<Text>)
    ensures OrderedValues(Insert(key, t, m)) <==> Ordered(t) && OrderedValues(m)
  {
    if m.Member? && !Less(key, m.key) {
      InsertOrdered(key, t, m.rest);
    }
  }

  lemma {:induction false} SortOrdered(m: Members<Text>)
    ensures OrderedValues(Sort(m)) <==> OrderedValues(m)
  {
    if m.Member? {
      SortOrdered(m.rest);
      InsertOrdered(m.key, m.value, Sort(m.rest));
    }
  }

  lemma {:induction false} NfcOrdered(p: Primitives, m: Members<Text>)
    ensures OrderedValues(NfcKeys(p, m)) <==> OrderedValues(m)
  {
    if m.Member? {
      NfcOrdered(p, m.rest);
    }
  }

  lemma {:induction false} OrderedExactly(p: Primitives, v: Value)
    requires IsValue(v)
    ensures Ordered(Norm(p, v)) <==> KeysStayOrdered(p, v)
  {
    match v
    case Arr(items) => ItemsOrderedExactly(p, items);
    case Obj(members) =>
      ObjectOrderExactly(p, members);
      ValuesOrderedExactly(p, members);
      SortOrdered(NormValues(p, members));
      NfcOrdered(p, Sort(NormValues(p, members)));
    case _ =>
  }

  lemma {:induction false} ItemsOrderedExactly(p: Primitives, items: Items<Double>)
    requires AreValues(items)
    ensures OrderedItems(NormItems(p, items)) <==> ItemsStayOrdered(p, items)
  {
    if items.Item? {
      OrderedExactly(p, items.head);
      ItemsOrderedExactly(p, items.tail);
    }
  }

  lemma {:induction false} ValuesOrderedExactly(p: Primitives, members: Members<Double>)
    requires HasValues(members)
    ensures OrderedValues(NormValues(p, members)) <==> MembersStayOrdered(p, members)
  {
    if members.Member? {
      OrderedExactly(p, members.value);
      ValuesOrderedExactly(p, members.rest);
    }
  }

  // ---------------------------------------------------------------- the round trip

  /** A canonical text always parses, and to a value that has a canonical text. */
  lemma CanonicalParses(p: Primitives, v: Value)
    requires Sound(p) && Finite(p, v)
    ensures var text := CanonicalizeJson(p, v).value;
            && ParseJson(p, text) == Some(Read(p, Norm(p, v)))
            && Finite(p, Read(p, Norm(p, v)))
  {
    NormPrintable(p, v);
    ParsePrint(Norm(p, v));
    NormNormalized(p, v);
    ReadFinite(p, Norm(p, v));
  }

  /** The round trip of the canonical text, for every value: it holds if and only if normalization keeps the order of
      the keys in every object. */
  lemma RoundTripExactly(p: Primitives, v: Value)
    requires Sound(p) && IsValue(v) && Finite(p, v)
    ensures var text := CanonicalizeJson(p, v).value;
            var parsed := ParseJson(p, text);
            && parsed.Some?
            && (CanonicalizeJson(p, parsed.value) == Some(text) <==> KeysStayOrdered(p, v))
  {
    var t := Norm(p, v);
    CanonicalParses(p, v);
    NormPrintable(p, v);
    NormNormalized(p, v);
    RewriteExactly(p, t);
    OrderedExactly(p, v);
    if Print(Norm(p, Read(p, t))) == Print(t) {
      NormPrintable(p, Read(p, t));
      PrintInjective(Norm(p, Read(p, t)), t);
    }
  }

  /** Keys that are already in normal form stay in order. */
  lemma {:induction false} NfcKeysStayOrdered(p: Primitives, v: Value)
    requires NfcKeyed(p, v)
    ensures KeysStayOrdered(p, v)
  {
    match v
    case Arr(items) => NfcItemsStayOrdered(p, items);
    case Obj(members) =>
      forall a, b | HasKey(members, a) && HasKey(members, b) && Less(a, b) ensures Less(p.nfc(a), p.nfc(b)) {
        NfcKeyedKey(p, members, a);
        NfcKeyedKey(p, members, b);
      }
      NfcMembersStayOrdered(p, members);
    case _ =>
  }

  lemma {:induction false} NfcItemsStayOrdered(p: Primitives, items: Items<Double>)
    requires ItemsNfcKeyed(p, items)
    ensures ItemsStayOrdered(p, items)
  {
    if items.Item? {
      NfcKeysStayOrdered(p, items.head);
      NfcItemsStayOrdered(p, items.tail);
    }
  }

  lemma {:induction false} NfcMembersStayOrdered(p: Primitives, members: Members<Double>)
    requires MembersNfcKeyed(p, members)
    ensures MembersStayOrdered(p, members)
  {
    if members.Member? {
      NfcKeysStayOrdered(p, members.value);
      NfcMembersStayOrdered(p, members.rest);
    }
  }

  /** The round trip on values with normal keys. */
  lemma RoundTripOfNfcKeys(p: Primitives, v: Value)
    requires Sound(p) && IsValue(v) && Finite(p, v) && NfcKeyed(p, v)
    ensures var text := CanonicalizeJson(p, v).value;
            var parsed := ParseJson(p, text);
            parsed.Some? && CanonicalizeJson(p, parsed.value) == Some(text)
  {
    NfcKeysStayOrdered(p, v);
    RoundTripExactly(p, v);
  }

  const ANGSTROM_SIGN: Text := [0x212B]
  const A_WITH_RING: Text := [0xC5]
  const A_WITH_MACRON: Text := [0x100]

  /** An object with the keys U+0100 and U+212B is written in the order of the raw keys, but the second key becomes
      U+00C5: its canonical text is not canonical. */
  lemma ReorderedKeysBreakTheRoundTrip(p: Primitives) returns (v: Value)
    requires Sound(p) && p.nfc(ANGSTROM_SIGN) == A_WITH_RING && p.nfc(A_WITH_MACRON) == A_WITH_MACRON
    ensures IsValue(v) && Finite(p, v)
    ensures var text := CanonicalizeJson(p, v).value;
            var parsed := ParseJson(p, text);
            parsed.Some? && CanonicalizeJson(p, parsed.value) != Some(text)
  {
    var members: Members<Double> := Member(A_WITH_MACRON, Null, Member(ANGSTROM_SIGN, Null, NoMembers));
    v := Obj(members);
    assert HasKey(members, A_WITH_MACRON) && HasKey(members.rest, ANGSTROM_SIGN);
    assert Less(A_WITH_MACRON, ANGSTROM_SIGN) && !Less(A_WITH_MACRON, A_WITH_RING);
    assert !OrderKept(p, members);
    assert Finite(p, Null) && FiniteMembers(p, NoMembers);
    assert FiniteMembers(p, members.rest);
    RoundTripExactly(p, v);
  }
}
