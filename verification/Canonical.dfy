/** packages/verus/src/canonical-content.ts: the canonical text of a JSON value. */
module Canonical {
  import opened Wrappers
  import opened Texts
  import opened JsonText
  import opened JsonRoundTrip
  import opened JsonMembers

  /** A JavaScript number, as its bit pattern. */
  type Double = x: int | 0 <= x < 0x1_0000_0000_0000_0000
  type Value = Tree<Double>

  /** What the program takes from its platform. */
  datatype Primitives = Primitives(
    nfc: Text -> Text,              // String.prototype.normalize("NFC")
    forbidden: Text -> bool,        // the key, folded to lower case without punctuation, is on the list of private fields
    isFinite: Double -> bool,       // Number.isFinite
    printNumber: Double -> Text,    // JSON.stringify of a number
    parseNumber: Text -> Double,    // JSON.parse of a number
    sha256: seq<Byte> -> Text)      // lower-case hexadecimal digest

  ghost predicate NumbersRoundTrip(p: Primitives, d: Double) {
    var token := p.printNumber(d);
    && IsNumber(token)
    && p.isFinite(p.parseNumber(token))
    && p.printNumber(p.parseNumber(token)) == token
  }

  ghost predicate Sound(p: Primitives) {
    && (forall s: Text :: p.nfc(p.nfc(s)) == p.nfc(s))
    && (forall d: Double | p.isFinite(d) :: NumbersRoundTrip(p, d))
  }

  // ---------------------------------------------------------------- canonicalizeJson

  predicate Finite(p: Primitives, v: Value) {
    match v
    case Number(n) => p.isFinite(n)
    case Arr(items) => FiniteItems(p, items)
    case Obj(members) => FiniteMembers(p, members)
    case _ => true
  }

  predicate FiniteItems(p: Primitives, items: Items<Double>) {
    items.NoItems? || (Finite(p, items.head) && FiniteItems(p, items.tail))
  }

  predicate FiniteMembers(p: Primitives, members: Members<Double>) {
    members.NoMembers? || (Finite(p, members.value) && FiniteMembers(p, members.rest))
  }

  /** Keys are sorted as they are and normalized afterwards. */
  function Norm(p: Primitives, v: Value): Syntax {
    match v
    case Null => Null
    case Bool(b) => Bool(b)
    case Number(n) => Number(p.printNumber(n))
    case Str(s) => Str(p.nfc(s))
    case Arr(items) => Arr(NormItems(p, items))
    case Obj(members) => Obj(NfcKeys(p, Sort(NormValues(p, members))))
  }

  function NormItems(p: Primitives, items: Items<Double>): Items<Text> {
    match items
    case NoItems => NoItems
    case Item(head, tail) => Item(Norm(p, head), NormItems(p, tail))
  }

  function NormValues(p: Primitives, members: Members<Double>): Members<Text> {
    match members
    case NoMembers => NoMembers
    case Member(key, value, rest) => Member(key, Norm(p, value), NormValues(p, rest))
  }

  function NfcKeys(p: Primitives, members: Members<Text>): Members<Text> {
    match members
    case NoMembers => NoMembers
    case Member(key, value, rest) => Member(p.nfc(key), value, NfcKeys(p, rest))
  }

  /** `None` is the PAYLOAD_FORBIDDEN error for a non-finite number. */
  function CanonicalizeJson(p: Primitives, v: Value): Option<Text> {
    if Finite(p, v) then Some(Print(Norm(p, v))) else None
  }

  // ---------------------------------------------------------------- JSON.parse

  function Remove(m: Members<Double>, key: Text): Members<Double> {
    match m
    case NoMembers => NoMembers
    case Member(k, value, rest) => if k == key then Remove(rest, key) else Member(k, value, Remove(rest, key))
  }

  /** The value of a text: a repeated key keeps its first place and its last value. */
  function Read(p: Primitives, t: Syntax): Value {
    match t
    case Null => Null
    case Bool(b) => Bool(b)
    case Number(token) => Number(p.parseNumber(token))
    case Str(s) => Str(s)
    case Arr(items) => Arr(ReadItems(p, items))
    case Obj(members) => Obj(ReadMembers(p, members))
  }

  function ReadItems(p: Primitives, items: Items<Text>): Items<Double> {
    match items
    case NoItems => NoItems
    case Item(head, tail) => Item(Read(p, head), ReadItems(p, tail))
  }

  function ReadMembers(p: Primitives, members: Members<Text>): Members<Double> {
    match members
    case NoMembers => NoMembers
    case Member(key, value, rest) =>
      var later := ReadMembers(p, rest);
      if HasKey(later, key) then Member(key, Lookup(later, key), Remove(later, key))
      else Member(key, Read(p, value), later)
  }

  function ParseJson(p: Primitives, text: Text): Option<Value> {
    var t := Parse(text);
    if t.Fail? then None else Some(Read(p, t.value))
  }

  // ---------------------------------------------------------------- values

  /** A JavaScript object never has a key twice. */
  predicate IsValue(v: Value) {
    match v
    case Arr(items) => AreValues(items)
    case Obj(members) => Distinct(members) && HasValues(members)
    case _ => true
  }

  predicate AreValues(items: Items<Double>) {
    items.NoItems? || (IsValue(items.head) && AreValues(items.tail))
  }

  predicate HasValues(members: Members<Double>) {
    members.NoMembers? || (IsValue(members.value) && HasValues(members.rest))
  }

  /** Normalization keeps the order of the object's keys, in this object and in all objects below it. */
  ghost predicate KeysStayOrdered(p: Primitives, v: Value) {
    match v
    case Arr(items) => ItemsStayOrdered(p, items)
    case Obj(members) => OrderKept(p, members) && MembersStayOrdered(p, members)
    case _ => true
  }

  ghost predicate ItemsStayOrdered(p: Primitives, items: Items<Double>) {
    items.NoItems? || (KeysStayOrdered(p, items.head) && ItemsStayOrdered(p, items.tail))
  }

  ghost predicate MembersStayOrdered(p: Primitives, members: Members<Double>) {
    members.NoMembers? || (KeysStayOrdered(p, members.value) && MembersStayOrdered(p, members.rest))
  }

  ghost predicate OrderKept<N(!new)>(p: Primitives, members: Members<N>) {
    forall a, b | HasKey(members, a) && HasKey(members, b) && Less(a, b) :: Less(p.nfc(a), p.nfc(b))
  }

  /** Every key is already in normal form. */
  predicate NfcKeyed(p: Primitives, v: Value) {
    match v
    case Arr(items) => ItemsNfcKeyed(p, items)
    case Obj(members) => MembersNfcKeyed(p, members)
    case _ => true
  }

  predicate ItemsNfcKeyed(p: Primitives, items: Items<Double>) {
    items.NoItems? || (NfcKeyed(p, items.head) && ItemsNfcKeyed(p, items.tail))
  }

  predicate MembersNfcKeyed(p: Primitives, members: Members<Double>) {
    members.NoMembers? || (p.nfc(members.key) == members.key && NfcKeyed(p, members.value) && MembersNfcKeyed(p, members.rest))
  }

  /** Equal up to the order of members, the normal form of strings, and numbers that print alike. */
  predicate Equivalent(p: Primitives, v: Value, w: Value) {
    match v
    case Null => w.Null?
    case Bool(b) => w == Bool(b)
    case Number(n) => w.Number? && p.printNumber(n) == p.printNumber(w.n)
    case Str(s) => w.Str? && p.nfc(s) == p.nfc(w.s)
    case Arr(items) => w.Arr? && EquivalentItems(p, items, w.items)
    case Obj(members) => w.Obj? && Count(members) == Count(w.members) && Covered(p, members, w.members)
  }

  predicate EquivalentItems(p: Primitives, a: Items<Double>, b: Items<Double>) {
    if a.NoItems? then b.NoItems?
    else b.Item? && Equivalent(p, a.head, b.head) && EquivalentItems(p, a.tail, b.tail)
  }

  /** Every member of `a` has its equivalent under the same key of `b`. */
  predicate Covered(p: Primitives, a: Members<Double>, b: Members<Double>) {
    a.NoMembers? || (HasKey(b, a.key) && Equivalent(p, a.value, Lookup(b, a.key)) && Covered(p, a.rest, b))
  }
}
