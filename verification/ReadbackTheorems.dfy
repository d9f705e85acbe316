/** What is written is found again, and what was accepted at enqueue is accepted by the worker: exactly when the text is
    its own canonical text. */
module ReadbackTheorems {
  import opened Wrappers
  import opened Texts
  import opened JsonText
  import opened JsonRoundTrip
  import opened JsonMembers
  import opened Canonical
  import opened CanonicalTheorems
  import opened CanonicalRoundTrip
  import opened Encodings
  import opened CanonicalContent

  // ---------------------------------------------------------------- canonical texts as bytes

  lemma {:induction false} PlainWellFormed(s: Text)
    requires forall i | 0 <= i < |s| :: !IsSurrogate(s[i])
    ensures WellFormed(s)
  {
    if s != [] {
      PlainWellFormed(s[1..]);
    }
  }

  lemma {:induction false} EscapeWellFormed(s: Text)
    ensures WellFormed(Escape(s))
    decreases |s|
  {
    if s == [] {
    } else if |s| >= 2 && IsHigh(s[0]) && IsLow(s[1]) {
      EscapeWellFormed(s[2..]);
      WellFormedAppend([s[0], s[1]], Escape(s[2..]));
    } else {
      EscapeWellFormed(s[1..]);
      PlainWellFormed(EscapeUnit(s[0]));
      WellFormedAppend(EscapeUnit(s[0]), Escape(s[1..]));
    }
  }

  lemma QuotedWellFormed(s: Text)
    ensures WellFormed(Quoted(s))
  {
    EscapeWellFormed(s);
    PlainWellFormed([QUOTE]);
    WellFormedAppend([QUOTE], Escape(s));
    WellFormedAppend([QUOTE] + Escape(s), [QUOTE]);
  }

  predicate AllBelow128(s: Text, n: nat)
    requires n <= |s|
  {
    forall i | 0 <= i < n :: s[i] < 128
  }

  lemma {:induction false} DigitsAscii(s: Text)
    ensures AllBelow128(s, Digits(s))
  {
    if s != [] && IsDigit(s[0]) {
      DigitsAscii(s[1..]);
      forall i | 0 <= i < Digits(s) ensures s[i] < 128 {
        assert i > 0 ==> s[i] == s[1..][i - 1];
      }
    }
  }

  lemma ShiftAscii(s: Text, k: nat, n: nat)
    requires k + n <= |s| && AllBelow128(s, k) && AllBelow128(s[k..], n)
    ensures AllBelow128(s, k + n)
  {
    forall i | 0 <= i < k + n ensures s[i] < 128 {
      assert i >= k ==> s[i] == s[k..][i - k];
    }
  }

  lemma FractionAscii(s: Text)
    requires FractionPart(s).Got?
    ensures AllBelow128(s, FractionPart(s).value)
  {
    if FractionPart(s).value > 0 {
      DigitsAscii(s[1..]);
      ShiftAscii(s, 1, Digits(s[1..]));
    }
  }

  lemma ExponentAscii(s: Text)
    requires ExponentPart(s).Got?
    ensures AllBelow128(s, ExponentPart(s).value)
  {
    if ExponentPart(s).value > 0 {
      var sign := if |s| > 1 && (s[1] == 43 || s[1] == MINUS) then 2 else 1;
      DigitsAscii(s[sign..]);
      ShiftAscii(s, sign, Digits(s[sign..]));
    }
  }

  lemma UnsignedAscii(s: Text)
    requires UnsignedLength(s) > 0
    ensures AllBelow128(s, UnsignedLength(s))
  {
    var whole := IntegerPart(s);
    DigitsAscii(s);
    var t := s[whole..];
    var fraction := FractionPart(t).value;
    FractionAscii(t);
    ExponentAscii(t[fraction..]);
    ShiftAscii(t, fraction, ExponentPart(t[fraction..]).value);
    ShiftAscii(s, whole, TailLength(t).value);
  }

  lemma NumberWellFormed(token: Text)
    requires IsNumber(token)
    ensures WellFormed(token)
  {
    if token[0] == MINUS {
      UnsignedAscii(token[1..]);
      ShiftAscii(token, 1, UnsignedLength(token[1..]));
    } else {
      UnsignedAscii(token);
    }
    PlainWellFormed(token);
  }

  /** Canonical texts have no lone surrogate: unpaired ones are written as escapes. */
  lemma {:induction false} PrintWellFormed(t: Syntax)
    requires Printable(t)
    ensures WellFormed(Print(t))
  {
    match t
    case Number(token) => NumberWellFormed(token);
    case Str(s) => QuotedWellFormed(s);
    case Arr(items) =>
      PrintItemsWellFormed(items);
      Enclosed(LBRACKET, PrintItems(items), RBRACKET);
    case Obj(members) =>
      PrintMembersWellFormed(members);
      Enclosed(LBRACE, PrintMembers(members), RBRACE);
    case _ => PlainWellFormed(Print(t));
  }

  lemma Enclosed(open: Unit, s: Text, close: Unit)
    requires WellFormed(s) && open < 128 && close < 128
    ensures WellFormed([open] + s + [close])
  {
    PlainWellFormed([open]);
    PlainWellFormed([close]);
    WellFormedAppend([open], s);
    WellFormedAppend([open] + s, [close]);
  }

  lemma Separated(s: Text, separator: Unit, t: Text)
    requires WellFormed(s) && WellFormed(t) && separator < 128
    ensures WellFormed(s + ([separator] + t))
  {
    PlainWellFormed([separator]);
    WellFormedAppend([separator], t);
    WellFormedAppend(s, [separator] + t);
  }

  lemma {:induction false} PrintItemsWellFormed(items: Items<Text>)
    requires PrintableItems(items)
    ensures WellFormed(PrintItems(items))
  {
    if items.Item? {
      PrintWellFormed(items.head);
      if items.tail.NoItems? {
        assert PrintItems(items) == Print(items.head);
      } else {
        PrintItemsWellFormed(items.tail);
        Separated(Print(items.head), COMMA, PrintItems(items.tail));
      }
    }
  }

  lemma {:induction false} PrintMembersWellFormed(members: Members<Text>)
    requires PrintableMembers(members)
    ensures WellFormed(PrintMembers(members))
  {
    if members.Member? {
      var key, value := Quoted(members.key), Print(members.value);
      QuotedWellFormed(members.key);
      PrintWellFormed(members.value);
      Separated(key, COLON, value);
      if members.rest.NoMembers? {
        assert PrintMembers(members) == key + ([COLON] + value);
      } else {
        PrintMembersWellFormed(members.rest);
        Separated(key + ([COLON] + value), COMMA, PrintMembers(members.rest));
        assert PrintMembers(members) == key + ([COLON] + value) + ([COMMA] + PrintMembers(members.rest));
      }
    }
  }

  /** The scalar value that the encoding of a text starts with. */
  function FirstScalar(text: Text): (c: int)
    requires text != []
    ensures IsScalar(c)
  {
    if |text| >= 2 && IsHigh(text[0]) && IsLow(text[1]) then PairValue(text[0], text[1])
    else if IsSurrogate(text[0]) then 0xFFFD
    else text[0]
  }

  lemma EncodeStart(text: Text)
    requires text != []
    ensures DecodeScalar(Encode(text)).Lead? && DecodeScalar(Encode(text)).scalar == FirstScalar(text)
  {
    var c := FirstScalar(text);
    var rest := if |text| >= 2 && IsHigh(text[0]) && IsLow(text[1]) then text[2..] else text[1..];
    assert EncodeScalar(0xFFFD) == REPLACEMENT;
    assert Encode(text) == EncodeScalar(c) + Encode(rest);
    ScalarInverse(c, Encode(rest));
  }

  /** Only a text that starts with U+FEFF starts with a byte order mark. */
  lemma BomStart(text: Text)
    requires BOM <= Encode(text)
    ensures text != [] && text[0] == 0xFEFF
  {
    var b := Encode(text);
    assert b[0] == 0xEF && b[1] == 0xBB && b[2] == 0xBF;
    assert DecodeScalar(b) == Lead(0xFEFF, 3);
    EncodeStart(text);
  }

  lemma MarkIsNoJson(text: Text)
    requires text != [] && text[0] == 0xFEFF
    ensures Parse(text).Fail?
  {
    assert Skip(text) == text;
    assert NumberLength(text) == 0;
  }

  /** A JSON text does not start with U+FEFF. */
  lemma NoBom(text: Text)
    requires Parse(text).Got?
    ensures !(BOM <= Encode(text))
  {
    if BOM <= Encode(text) {
      BomStart(text);
      MarkIsNoJson(text);
    }
  }

  /** The bytes of a JSON text decode to the text. */
  lemma JsonBytes(text: Text)
    requires WellFormed(text) && Parse(text).Got?
    ensures Decode(Encode(text)) == Some(text)
  {
    NoBom(text);
    DecodeEncode(text);
  }

  // ---------------------------------------------------------------- write, then read back

  lemma EncodeNonempty(text: Text)
    requires text != []
    ensures Encode(text) != [] && HexEncode(Encode(text)) != []
  {
  }

  /** An entry with the bytes of a canonical text of `v` is accepted exactly when the text reads back as itself. */
  lemma EntryExactly(p: Primitives, v: Value)
    requires Sound(p) && IsValue(v) && Finite(p, v)
    ensures var bytes := Encode(CanonicalizeJson(p, v).value);
            DigestCanonicalHexEntry(p, Str(HexEncode(bytes)))
              == if IsCanonicalText(p, CanonicalizeJson(p, v).value) then Some(p.sha256(bytes)) else None
  {
    var text := CanonicalizeJson(p, v).value;
    NormPrintable(p, v);
    ParsePrint(Norm(p, v));
    PrintWellFormed(Norm(p, v));
    PrintStart(Norm(p, v));
    JsonBytes(text);
    HexRoundTrip(Encode(text));
    EncodeNonempty(text);
  }

  /** Readback reports what `prepareIdentityContentUpdate` wrote as verified, for that digest, if and only if
      normalization keeps the order of the payload's keys. */
  lemma WrittenIsVerifiedExactly(p: Primitives, value: Object, policy: Policy, content: ContentMultiMap, key: Text)
    requires Sound(p) && IsValue(Obj(value)) && IsVdxfKey(key)
    requires PrepareCanonicalPayload(p, value, policy).Payload?
    ensures var payload := PrepareCanonicalPayload(p, value, policy);
            var updated := PrepareIdentityContentUpdate(content, key, payload);
            && updated.Some?
            && (ReadbackFinds(p, updated.value, key, payload.digest) <==> KeysStayOrdered(p, Obj(value)))
            && (forall k | k != key :: Entries(updated.value, k) == Entries(content, k))
  {
    var payload := PrepareCanonicalPayload(p, value, policy);
    var updated := PrepareIdentityContentUpdate(content, key, payload).value;
    EntryExactly(p, Obj(value));
    RoundTripExactly(p, Obj(value));
    assert Entries(updated, key) == [Str(HexEncode(payload.bytes))];
    if KeysStayOrdered(p, Obj(value)) {
      assert DigestCanonicalHexEntry(p, Entries(updated, key)[0]) == Some(payload.digest);
    }
  }

  /** Which bytes readback accepts: the encoding of a canonical text, with or without a byte order mark. */
  lemma AcceptedBytesExactly(p: Primitives, bytes: Bytes)
    ensures DigestCanonicalHexEntry(p, Str(HexEncode(bytes))).Some?
       <==> exists text :: WellFormed(text) && IsCanonicalText(p, text)
                           && (bytes == Encode(text) || bytes == BOM + Encode(text))
  {
    HexRoundTrip(bytes);
    if DigestCanonicalHexEntry(p, Str(HexEncode(bytes))).Some? {
      var body := if BOM <= bytes then bytes[3..] else bytes;
      EncodeDecode(body);
      assert BOM <= bytes ==> bytes == BOM + bytes[3..];
      assert IsCanonicalText(p, DecodeAll(body).value);
    }
    if text :| WellFormed(text) && IsCanonicalText(p, text) && (bytes == Encode(text) || bytes == BOM + Encode(text)) {
      NoBom(text);
      DecodeEncode(text);
      EmptyIsNoJson(text);
      EncodeNonempty(text);
      if bytes == BOM + Encode(text) {
        assert bytes[3..] == Encode(text);
        assert bytes[0] == 0xEF;
      }
      assert Decode(bytes) == Some(text);
      assert bytes != [];
    }
  }

  lemma EmptyIsNoJson(text: Text)
    requires Parse(text).Got?
    ensures text != []
  {
  }

  // ---------------------------------------------------------------- reordered manifests

  lemma {:induction false} SameEquivalent(p: Primitives, v: Value, w: Value)
    requires SameValue(v, w)
    ensures Equivalent(p, v, w)
    decreases v, 1
  {
    match v
    case Arr(items) => SameEquivalentItems(p, items, w.items);
    case Obj(members) => SameCovered(p, members, w.members);
    case _ =>
  }

  lemma {:induction false} SameEquivalentItems(p: Primitives, a: Items<Double>, b: Items<Double>)
    requires SameItems(a, b)
    ensures EquivalentItems(p, a, b)
    decreases a, 1
  {
    if a.Item? {
      SameEquivalent(p, a.head, b.head);
      SameEquivalentItems(p, a.tail, b.tail);
    }
  }

  lemma {:induction false} SameCovered(p: Primitives, a: Object, b: Object)
    requires SameMembers(a, b)
    ensures Covered(p, a, b)
    decreases a, 1
  {
    if a.Member? {
      SameEquivalent(p, a.value, Lookup(b, a.key));
      SameCovered(p, a.rest, b);
    }
  }

  lemma {:induction false} SameMember(a: Object, b: Object, k: Text)
    requires SameMembers(a, b) && HasKey(a, k)
    ensures HasKey(b, k) && SameValue(Lookup(a, k), Lookup(b, k))
  {
    if a.key != k {
      SameMember(a.rest, b, k);
    }
  }

  lemma SameKeys(a: Object, b: Object, k: Text)
    requires SameMembers(a, b) && Count(a) == Count(b) && Distinct(a) && Distinct(b)
    ensures HasKey(a, k) <==> HasKey(b, k)
  {
    MapCount(a);
    MapCount(b);
    forall x | x in AsMap(a) ensures x in AsMap(b) {
      MapLookup(a, x);
      MapLookup(b, x);
      SameMember(a, b, x);
    }
    SubsetOfSameSize(AsMap(a).Keys, AsMap(b).Keys);
    MapLookup(a, k);
    MapLookup(b, k);
  }

  /** The relation is symmetric: `b` has no member that `a` lacks. */
  lemma {:induction false} SameSymmetric(v: Value, w: Value)
    requires IsValue(v) && IsValue(w) && SameValue(v, w)
    ensures SameValue(w, v)
    decreases v, 1
  {
    match v
    case Arr(items) => SameItemsSymmetric(items, w.items);
    case Obj(a) => SameBack(a, w.members, w.members);
    case _ =>
  }

  lemma {:induction false} SameItemsSymmetric(a: Items<Double>, b: Items<Double>)
    requires AreValues(a) && AreValues(b) && SameItems(a, b)
    ensures SameItems(b, a)
    decreases a, 1
  {
    if a.Item? {
      SameSymmetric(a.head, b.head);
      SameItemsSymmetric(a.tail, b.tail);
    }
  }

  lemma {:induction false} SameBack(a: Object, b: Object, rest: Object)
    requires HasValues(a) && HasValues(rest) && Distinct(a) && Distinct(b) && Distinct(rest)
    requires Count(a) == Count(b) && SameMembers(a, b)
    requires forall k | HasKey(rest, k) :: HasKey(b, k) && Lookup(b, k) == Lookup(rest, k)
    ensures SameMembers(rest, a)
    decreases a, 0, rest
  {
    if rest.Member? {
      var k := rest.key;
      assert HasKey(rest, k);
      SameKeys(a, b, k);
      SameMember(a, b, k);
      LookupIsValue(a, k);
      SameSymmetric(Lookup(a, k), rest.value);
      forall j | HasKey(rest.rest, j) ensures HasKey(b, j) && Lookup(b, j) == Lookup(rest.rest, j) {
        assert HasKey(rest, j);
      }
      SameBack(a, b, rest.rest);
    }
  }

  lemma {:induction false} CleanMember(p: Primitives, m: Object, k: Text, depth: nat)
    requires HasKey(m, k)
    ensures CleanMembers(p, m, depth) ==> !p.forbidden(k) && Clean(p, Lookup(m, k), depth)
    ensures FiniteMembers(p, m) ==> Finite(p, Lookup(m, k))
  {
    if m.key != k {
      CleanMember(p, m.rest, k, depth);
    }
  }

  /** Forbidden keys, depth and infinite numbers of `v` are all found in `w`. */
  lemma {:induction false} SameChecks(p: Primitives, v: Value, w: Value, depth: nat)
    requires SameValue(v, w)
    ensures Clean(p, w, depth) ==> Clean(p, v, depth)
    ensures Finite(p, w) ==> Finite(p, v)
    decreases v, 1
  {
    match v
    case Arr(items) => SameItemsChecks(p, items, w.items, depth + 1);
    case Obj(a) => SameMembersChecks(p, a, w.members, depth + 1);
    case _ =>
  }

  lemma {:induction false} SameItemsChecks(p: Primitives, a: Items<Double>, b: Items<Double>, depth: nat)
    requires SameItems(a, b)
    ensures CleanItems(p, b, depth) ==> CleanItems(p, a, depth)
    ensures FiniteItems(p, b) ==> FiniteItems(p, a)
    decreases a, 1
  {
    if a.Item? {
      SameChecks(p, a.head, b.head, depth);
      SameItemsChecks(p, a.tail, b.tail, depth);
    }
  }

  lemma {:induction false} SameMembersChecks(p: Primitives, a: Object, b: Object, depth: nat)
    requires SameMembers(a, b)
    ensures CleanMembers(p, b, depth) ==> CleanMembers(p, a, depth)
    ensures FiniteMembers(p, b) ==> FiniteMembers(p, a)
    decreases a, 1
  {
    if a.Member? {
      CleanMember(p, b, a.key, depth);
      SameChecks(p, a.value, Lookup(b, a.key), depth);
      SameMembersChecks(p, a.rest, b, depth);
    }
  }

  /** Reordering members changes neither check, at any depth. */
  lemma SamePasses(p: Primitives, v: Value, w: Value, depth: nat)
    requires IsValue(v) && IsValue(w) && SameValue(v, w)
    ensures Clean(p, v, depth) == Clean(p, w, depth) && Finite(p, v) == Finite(p, w)
  {
    SameSymmetric(v, w);
    SameChecks(p, v, w, depth);
    SameChecks(p, w, v, depth);
  }

  lemma {:induction false} AllowedKey(m: Object, policy: Policy, k: Text)
    requires FieldsAllowed(m, policy) && HasKey(m, k)
    ensures k in policy.allowed
  {
    if m.key != k {
      AllowedKey(m.rest, policy, k);
    }
  }

  lemma {:induction false} SameAllowed(a: Object, b: Object, policy: Policy)
    requires SameMembers(a, b) && FieldsAllowed(b, policy)
    ensures FieldsAllowed(a, policy)
  {
    if a.Member? {
      AllowedKey(b, policy, a.key);
      SameAllowed(a.rest, b, policy);
    }
  }

  lemma SameFields(a: Object, b: Object, policy: Policy)
    requires IsValue(Obj(a)) && IsValue(Obj(b)) && SameValue(Obj(a), Obj(b))
    ensures FieldsAllowed(a, policy) == FieldsAllowed(b, policy)
    ensures FieldsPresent(a, policy) == FieldsPresent(b, policy)
  {
    SameSymmetric(Obj(a), Obj(b));
    if FieldsAllowed(a, policy) {
      SameAllowed(b, a, policy);
    }
    if FieldsAllowed(b, policy) {
      SameAllowed(a, b, policy);
    }
    forall k ensures HasKey(a, k) <==> HasKey(b, k) {
      SameKeys(a, b, k);
    }
  }

  /** Any reordering of the members, at any depth, gives the same payload or the same rejection. */
  lemma PreparationIgnoresOrder(p: Primitives, a: Object, b: Object, policy: Policy)
    requires Sound(p) && IsValue(Obj(a)) && IsValue(Obj(b)) && SameValue(Obj(a), Obj(b))
    ensures PrepareCanonicalPayload(p, a, policy) == PrepareCanonicalPayload(p, b, policy)
  {
    SameFields(a, b, policy);
    SamePasses(p, Obj(a), Obj(b), 0);
    SameEquivalent(p, Obj(a), Obj(b));
    EquivalentNorm(p, Obj(a), Obj(b));
  }

  // ---------------------------------------------------------------- the worker's manifest check

  lemma PayloadText(p: Primitives, value: Object)
    requires Sound(p) && Finite(p, Obj(value))
    ensures Decode(Encode(CanonicalizeJson(p, Obj(value)).value)) == CanonicalizeJson(p, Obj(value))
  {
    var t := Norm(p, Obj(value));
    NormPrintable(p, Obj(value));
    ParsePrint(t);
    PrintWellFormed(t);
    JsonBytes(Print(t));
  }

  /** A manifest that was accepted at enqueue passes the worker's check, in whatever order the database returns its
      members, if and only if the stored text is the manifest's canonical text. */
  lemma WorkerAcceptsExactly(p: Primitives, m: Manifest, loaded: Object)
    requires Sound(p) && IsValue(Obj(m.value)) && IsValue(Obj(loaded))
    requires EnqueueAccepts(p, m) && SameValue(Obj(m.value), Obj(loaded))
    ensures WorkerAccepts(p, loaded, m) <==> CanonicalizeJson(p, Obj(m.value)) == Some(m.canonical)
  {
    PreparationIgnoresOrder(p, m.value, loaded, m.policy);
    if Finite(p, Obj(m.value)) {
      PayloadText(p, m.value);
    }
  }

  /** A manifest whose text is the canonical text of some value with stable keys never fails the worker's check. */
  lemma PreparedManifestAccepted(p: Primitives, v: Value, m: Manifest, loaded: Object)
    requires Sound(p) && IsValue(v) && Finite(p, v) && KeysStayOrdered(p, v)
    requires CanonicalizeJson(p, v) == Some(m.canonical)
    requires IsValue(Obj(m.value)) && IsValue(Obj(loaded))
    requires EnqueueAccepts(p, m) && SameValue(Obj(m.value), Obj(loaded))
    ensures WorkerAccepts(p, loaded, m)
  {
    var parsed := Read(p, Norm(p, v));
    CanonicalParses(p, v);
    RoundTripExactly(p, v);
    ReadIsValue(p, Norm(p, v));
    SamePasses(p, parsed, Obj(m.value), 0);
    SameEquivalent(p, parsed, Obj(m.value));
    EquivalentSameText(p, parsed, Obj(m.value));
    WorkerAcceptsExactly(p, m, loaded);
  }

  lemma {:induction false} RemoveValues(m: Object, key: Text)
    requires HasValues(m)
    ensures HasValues(Remove(m, key))
  {
    if m.Member? {
      RemoveValues(m.rest, key);
    }
  }

  /** What JSON.parse returns has no object with a repeated key. */
  lemma {:induction false} ReadIsValue(p: Primitives, t: Syntax)
    ensures IsValue(Read(p, t))
  {
    match t
    case Arr(items) => ReadAreValues(p, items);
    case Obj(members) =>
      ReadDistinct(p, members);
      ReadHasValues(p, members);
    case _ =>
  }

  lemma {:induction false} ReadAreValues(p: Primitives, items: Items<Text>)
    ensures AreValues(ReadItems(p, items))
  {
    if items.Item? {
      ReadIsValue(p, items.head);
      ReadAreValues(p, items.tail);
    }
  }

  lemma {:induction false} ReadHasValues(p: Primitives, members: Members<Text>)
    ensures HasValues(ReadMembers(p, members))
  {
    if members.Member? {
      ReadIsValue(p, members.value);
      ReadHasValues(p, members.rest);
      var later := ReadMembers(p, members.rest);
      RemoveValues(later, members.key);
      if HasKey(later, members.key) {
        LookupIsValue(later, members.key);
      }
    }
  }
}
