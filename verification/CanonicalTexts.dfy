/** What the canonical text of a value looks like, in terms of the text itself: the words, brackets and escapes of
    RFC 8259, and the members of every object in ascending order of their source keys. */
module CanonicalTexts {
  import opened Wrappers
  import opened Texts
  import opened JsonText
  import opened JsonRoundTrip
  import opened JsonMembers
  import opened Canonical
  import opened CanonicalTheorems
  import opened CanonicalRoundTrip

  /** The code units of a string literal. */
  function Units(s: string): (t: Text)
    requires forall i | 0 <= i < |s| :: s[i] < 0x1_0000 as char
    ensures |t| == |s| && forall i | 0 <= i < |s| :: t[i] == s[i] as int
  {
    seq(|s|, i requires 0 <= i < |s| => s[i] as int)
  }

  // ---------------------------------------------------------------- the order of strings

  /** `a` is a proper prefix of `b`, or the first unit in which they differ is smaller in `a`. */
  predicate DiffersBelow(a: Text, b: Text, k: nat) {
    && k <= |a| && k < |b| && a[..k] == b[..k] && (k < |a| ==> a[k] as int < b[k] as int)
  }

  ghost predicate Precedes(a: Text, b: Text) {
    exists k: nat :: DiffersBelow(a, b, k)
  }

  lemma {:induction false} LessExactly(a: Text, b: Text)
    ensures Less(a, b) <==> Precedes(a, b)
  {
    if b != [] {
      if a == [] || a[0] != b[0] {
        assert Less(a, b) ==> DiffersBelow(a, b, 0);
      } else {
        LessExactly(a[1..], b[1..]);
        if k: nat :| DiffersBelow(a[1..], b[1..], k) {
          LongerPrefix(a, b, k);
        }
        if k: nat :| DiffersBelow(a, b, k) {
          ShorterPrefix(a, b, k);
        }
      }
    }
  }

  lemma LongerPrefix(a: Text, b: Text, k: nat)
    requires a != [] && b != [] && a[0] == b[0] && DiffersBelow(a[1..], b[1..], k)
    ensures DiffersBelow(a, b, k + 1)
  {
    assert a[..k + 1] == [a[0]] + a[1..][..k];
    assert b[..k + 1] == [b[0]] + b[1..][..k];
  }

  lemma ShorterPrefix(a: Text, b: Text, k: nat)
    requires a != [] && b != [] && a[0] == b[0] && DiffersBelow(a, b, k)
    ensures k > 0 && DiffersBelow(a[1..], b[1..], k - 1)
  {
    assert a[1..][..k - 1] == a[..k][1..];
    assert b[1..][..k - 1] == b[..k][1..];
  }

  ghost predicate Ascending(keys: seq<Text>) {
    forall i, j | 0 <= i < j < |keys| :: Precedes(keys[i], keys[j])
  }

  // ---------------------------------------------------------------- members

  function KeyList<N>(m: Members<N>): seq<Text> {
    if m.NoMembers? then [] else [m.key] + KeyList(m.rest)
  }

  lemma {:induction false} KeyListHas<N>(m: Members<N>, key: Text)
    ensures key in KeyList(m) <==> HasKey(m, key)
  {
    if m.Member? {
      KeyListHas(m.rest, key);
    }
  }

  lemma {:induction false} AboveAll<N>(low: Text, m: Members<N>, i: nat)
    requires Above(low, m) && i < |KeyList(m)|
    ensures Precedes(low, KeyList(m)[i])
  {
    if i == 0 {
      LessExactly(low, m.key);
    } else {
      AboveAll(low, m.rest, i - 1);
    }
  }

  lemma {:induction false} SortedAscends<N>(m: Members<N>)
    requires StrictlySorted(m)
    ensures Ascending(KeyList(m))
  {
    if m.Member? {
      SortedAscends(m.rest);
      forall i, j | 0 <= i < j < |KeyList(m)| ensures Precedes(KeyList(m)[i], KeyList(m)[j]) {
        if i == 0 {
          AboveAll(m.key, m.rest, j - 1);
        } else {
          assert KeyList(m)[i] == KeyList(m.rest)[i - 1] && KeyList(m)[j] == KeyList(m.rest)[j - 1];
        }
      }
    }
  }

  // ---------------------------------------------------------------- texts

  function Joined(parts: seq<Text>): Text {
    if parts == [] then [] else if |parts| == 1 then parts[0] else parts[0] + Units(",") + Joined(parts[1..])
  }

  lemma {:induction false} LookupFinite(p: Primitives, m: Members<Double>, key: Text)
    requires FiniteMembers(p, m) && HasKey(m, key)
    ensures Finite(p, Lookup(m, key))
  {
    if m.key != key {
      LookupFinite(p, m.rest, key);
    }
  }

  /** The canonical text of a value without infinite numbers. */
  function TextOf(p: Primitives, v: Value): Text
    requires Finite(p, v)
  {
    CanonicalizeJson(p, v).value
  }

  function MemberText(p: Primitives, members: Members<Double>, key: Text): Text
    requires FiniteMembers(p, members) && HasKey(members, key)
  {
    LookupFinite(p, members, key);
    Quoted(p.nfc(key)) + Units(":") + TextOf(p, Lookup(members, key))
  }

  function MemberTexts(p: Primitives, members: Members<Double>, keys: seq<Text>): seq<Text>
    requires FiniteMembers(p, members) && forall i | 0 <= i < |keys| :: HasKey(members, keys[i])
  {
    seq(|keys|, i requires 0 <= i < |keys| => MemberText(p, members, keys[i]))
  }

  function ItemTexts(p: Primitives, items: Items<Double>): seq<Text>
    requires FiniteItems(p, items)
  {
    if items.NoItems? then [] else [TextOf(p, items.head)] + ItemTexts(p, items.tail)
  }

  /** The sorted list `m` carries the normal forms of the object's values. */
  ghost predicate Carries(p: Primitives, members: Members<Double>, m: Members<Text>) {
    forall key | HasKey(m, key) :: HasKey(members, key) && Lookup(m, key) == Norm(p, Lookup(members, key))
  }

  lemma FirstMember(p: Primitives, m: Members<Text>)
    requires m.Member?
    ensures PrintMembers(NfcKeys(p, m)) == Quoted(p.nfc(m.key)) + Units(":") + Print(m.value)
                                         + (if m.rest.NoMembers? then [] else Units(",") + PrintMembers(NfcKeys(p, m.rest)))
  {
    assert Units(":") == [COLON] && Units(",") == [COMMA];
  }

  lemma CarriedText(p: Primitives, members: Members<Double>, m: Members<Text>)
    requires FiniteMembers(p, members) && Carries(p, members, m) && m.Member?
    ensures HasKey(members, m.key)
    ensures MemberText(p, members, m.key) == Quoted(p.nfc(m.key)) + Units(":") + Print(m.value)
  {
    assert HasKey(m, m.key) && Lookup(m, m.key) == m.value;
    LookupFinite(p, members, m.key);
  }

  lemma CarriesRest(p: Primitives, members: Members<Double>, m: Members<Text>)
    requires Carries(p, members, m) && Distinct(m) && m.Member?
    ensures Carries(p, members, m.rest)
  {
    forall key | HasKey(m.rest, key) ensures HasKey(members, key) && Lookup(m.rest, key) == Norm(p, Lookup(members, key)) {
      assert HasKey(m, key) && key != m.key;
    }
  }

  lemma JoinFirst(first: Text, rest: seq<Text>)
    ensures Joined([first] + rest) == first + (if rest == [] then [] else Units(",") + Joined(rest))
  {
    var parts := [first] + rest;
    assert parts[1..] == rest;
  }

  lemma {:induction false} MembersJoined(p: Primitives, members: Members<Double>, m: Members<Text>)
    requires FiniteMembers(p, members) && Carries(p, members, m) && Distinct(m)
    ensures forall i | 0 <= i < |KeyList(m)| :: HasKey(members, KeyList(m)[i])
    ensures PrintMembers(NfcKeys(p, m)) == Joined(MemberTexts(p, members, KeyList(m)))
  {
    if m.Member? {
      CarriesRest(p, members, m);
      MembersJoined(p, members, m.rest);
      CarriedText(p, members, m);
      FirstMember(p, m);
      var rest := MemberTexts(p, members, KeyList(m.rest));
      assert MemberTexts(p, members, KeyList(m)) == [MemberText(p, members, m.key)] + rest;
      JoinFirst(MemberText(p, members, m.key), rest);
      assert m.rest.NoMembers? <==> rest == [];
    }
  }

  lemma {:induction false} ItemsJoined(p: Primitives, items: Items<Double>)
    requires FiniteItems(p, items)
    ensures PrintItems(NormItems(p, items)) == Joined(ItemTexts(p, items))
  {
    if items.Item? {
      ItemsJoined(p, items.tail);
      var rest := ItemTexts(p, items.tail);
      JoinFirst(TextOf(p, items.head), rest);
      assert items.tail.NoItems? <==> rest == [];
      assert Units(",") == [COMMA];
    }
  }

  /** The keys of the object in the order of its canonical text. */
  function SortedKeys(p: Primitives, members: Members<Double>): seq<Text> {
    KeyList(Sort(NormValues(p, members)))
  }

  lemma SortedCarries(p: Primitives, members: Members<Double>)
    requires Distinct(members)
    ensures var m := Sort(NormValues(p, members));
            Carries(p, members, m) && StrictlySorted(m) && Distinct(m)
    ensures forall key :: HasKey(Sort(NormValues(p, members)), key) <==> HasKey(members, key)
  {
    var values := NormValues(p, members);
    NormDistinct(p, members);
    SortSorts(values);
    SortedDistinct(Sort(values));
    forall key ensures HasKey(Sort(values), key) <==> HasKey(members, key)
               ensures HasKey(members, key) ==> Lookup(Sort(values), key) == Norm(p, Lookup(members, key))
    {
      NormKeys(p, members, key);
      SortHas(values, key);
      MapLookup(values, key);
      MapLookup(Sort(values), key);
    }
  }

  lemma {:induction false} KeyListCount<N>(m: Members<N>)
    ensures |KeyList(m)| == Count(m)
  {
    if m.Member? {
      KeyListCount(m.rest);
    }
  }

  /** The members of an object, wherever it stands in a value: exactly its keys, each once, in strictly ascending order of
      the keys as they are in the source, each written in normal form before the canonical text of its value. */
  lemma ObjectText(p: Primitives, members: Members<Double>)
    requires IsValue(Obj(members)) && Finite(p, Obj(members))
    ensures var keys := SortedKeys(p, members);
            && |keys| == Count(members) && Ascending(keys) && (forall key :: key in keys <==> HasKey(members, key))
            && TextOf(p, Obj(members)) == Units("{") + Joined(MemberTexts(p, members, keys)) + Units("}")
  {
    var m := Sort(NormValues(p, members));
    SortedCarries(p, members);
    SortedAscends(m);
    MembersJoined(p, members, m);
    NormDistinct(p, members);
    KeyListCount(m);
    SortSorts(NormValues(p, members));
    MapCount(m);
    MapCount(NormValues(p, members));
    forall key ensures key in KeyList(m) <==> HasKey(members, key) {
      KeyListHas(m, key);
    }
  }

  /** The canonical text of every other kind of value. */
  lemma ValueText(p: Primitives, v: Value)
    requires Finite(p, v)
    ensures v == Null ==> TextOf(p, v) == Units("null")
    ensures v == Bool(true) ==> TextOf(p, v) == Units("true")
    ensures v == Bool(false) ==> TextOf(p, v) == Units("false")
    ensures v.Number? ==> TextOf(p, v) == p.printNumber(v.n)
    ensures v.Str? ==> TextOf(p, v) == Quoted(p.nfc(v.s))
    ensures v.Arr? ==> TextOf(p, v) == Units("[") + Joined(ItemTexts(p, v.items)) + Units("]")
  {
    if v.Arr? {
      ItemsJoined(p, v.items);
    }
  }

  // ---------------------------------------------------------------- strings

  const HEX := "0123456789abcdef"

  function Hex(d: nat): Text
    requires d < 16
  {
    Units([HEX[d]])
  }

  lemma NumericText(u: Unit)
    ensures UnicodeEscape(u) == Units("\\u") + Hex(u / 4096) + Hex(u / 256 % 16) + Hex(u / 16 % 16) + Hex(u % 16)
  {
    assert forall d: nat | d < 16 :: Hex(d) == [HexDigit(d)];
  }

  /** How one unit is written inside a string: the seven short escapes, a numeric escape in lower case for the other
      control characters and for lone surrogates, and otherwise the unit itself. */
  lemma UnitText(u: Unit)
    ensures Escape([u]) ==
      if u == '\"' as int then Units("\\\"")
      else if u == '\\' as int then Units("\\\\")
      else if u == 8 then Units("\\b")
      else if u == 9 then Units("\\t")
      else if u == 10 then Units("\\n")
      else if u == 12 then Units("\\f")
      else if u == 13 then Units("\\r")
      else if u < 32 || 0xD800 <= u < 0xE000 then
        Units("\\u") + Hex(u / 4096) + Hex(u / 256 % 16) + Hex(u / 16 % 16) + Hex(u % 16)
      else [u]
  {
    EscapeFirst([u]);
    assert [u][1..] == [];
    NumericText(u);
  }

  lemma SingleText(s: Text)
    requires s != [] && !StartsWithPair(s)
    ensures Escape(s) == Escape(s[..1]) + Escape(s[1..])
  {
    var first := [s[0]];
    assert s[..1] == first && first[1..] == [];
    EscapeFirst(s);
    EscapeFirst(first);
    assert Escape(first) == EscapeUnit(s[0]);
  }

  predicate StartsWithPair(s: Text) {
    |s| >= 2 && 0xD800 <= s[0] < 0xDC00 && 0xDC00 <= s[1] < 0xE000
  }

  lemma PairText(s: Text)
    requires StartsWithPair(s)
    ensures Escape(s) == s[..2] + Escape(s[2..])
  {
    assert [s[0], s[1]] == s[..2];
  }

  /** Strings are written unit by unit; the two halves of a pair are written as they are. */
  lemma StringText(s: Text)
    ensures Quoted(s) == Units("\"") + Escape(s) + Units("\"")
    ensures Escape(s) == if s == [] then [] else if StartsWithPair(s) then s[..2] + Escape(s[2..])
                         else Escape(s[..1]) + Escape(s[1..])
  {
    assert Units("\"") == [QUOTE];
    if StartsWithPair(s) {
      PairText(s);
    } else if s != [] {
      SingleText(s);
    }
  }

  // ---------------------------------------------------------------- repeated keys

  /** The value after the last occurrence of the key. */
  function LastValue(m: Members<Text>, key: Text): Syntax
    requires HasKey(m, key)
  {
    if HasKey(m.rest, key) then LastValue(m.rest, key) else m.value
  }

  lemma {:induction false} RemoveKeepsOthers(m: Members<Double>, key: Text, other: Text)
    requires other != key && HasKey(m, other)
    ensures HasKey(Remove(m, key), other) && Lookup(Remove(m, key), other) == Lookup(m, other)
  {
    RemoveHas(m, key, other);
    if m.key != other {
      RemoveKeepsOthers(m.rest, key, other);
    }
  }

  /** A parsed object has each key of its text once, with its last value. */
  lemma {:induction false} LastValueWins(p: Primitives, m: Members<Text>, key: Text)
    ensures Distinct(ReadMembers(p, m)) && (HasKey(ReadMembers(p, m), key) <==> HasKey(m, key))
    ensures HasKey(m, key) ==> Lookup(ReadMembers(p, m), key) == Read(p, LastValue(m, key))
  {
    if m.Member? {
      var later := ReadMembers(p, m.rest);
      LastValueWins(p, m.rest, key);
      LastValueWins(p, m.rest, m.key);
      RemoveHas(later, m.key, key);
      RemoveHas(later, m.key, m.key);
      RemoveDistinct(later, m.key);
      if key != m.key && HasKey(later, key) {
        RemoveKeepsOthers(later, m.key, key);
      }
    }
  }
}
