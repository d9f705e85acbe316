/** Which payloads are accepted, and in which form they are published, in terms of their keys, depth and characters. */
module PayloadPolicies {
  import opened Wrappers
  import opened Texts
  import opened JsonText
  import opened JsonMembers
  import opened Canonical
  import opened CanonicalTexts
  import opened Encodings
  import opened CanonicalContent

  // ---------------------------------------------------------------- keys and depth

  /** The keys of all objects in the value, at any depth. */
  function AllKeys(v: Value): set<Text> {
    match v
    case Arr(items) => ItemKeys(items)
    case Obj(members) => MemberKeys(members)
    case _ => {}
  }

  function ItemKeys(items: Items<Double>): set<Text> {
    if items.NoItems? then {} else AllKeys(items.head) + ItemKeys(items.tail)
  }

  function MemberKeys(members: Object): set<Text> {
    if members.NoMembers? then {} else {members.key} + AllKeys(members.value) + MemberKeys(members.rest)
  }

  function Max(a: nat, b: nat): nat {
    if a < b then b else a
  }

  /** How deep arrays and objects are nested, empty ones included as leaves. */
  function Height(v: Value): nat {
    match v
    case Arr(items) => if items.NoItems? then 0 else 1 + ItemsHeight(items)
    case Obj(members) => if members.NoMembers? then 0 else 1 + MembersHeight(members)
    case _ => 0
  }

  function ItemsHeight(items: Items<Double>): nat {
    if items.NoItems? then 0 else Max(Height(items.head), ItemsHeight(items.tail))
  }

  function MembersHeight(members: Object): nat {
    if members.NoMembers? then 0 else Max(Height(members.value), MembersHeight(members.rest))
  }

  ghost predicate NoneForbidden(p: Primitives, keys: set<Text>) {
    forall key | key in keys :: !p.forbidden(key)
  }

  lemma {:induction false} CleanExactly(p: Primitives, v: Value, depth: nat)
    ensures Clean(p, v, depth) <==> depth + Height(v) <= 32 && NoneForbidden(p, AllKeys(v))
    decreases v, 1
  {
    match v
    case Arr(items) => CleanItemsExactly(p, items, depth + 1);
    case Obj(members) => CleanMembersExactly(p, members, depth + 1);
    case _ =>
  }

  lemma {:induction false} CleanItemsExactly(p: Primitives, items: Items<Double>, depth: nat)
    ensures CleanItems(p, items, depth) <==>
              items.NoItems? || (depth + ItemsHeight(items) <= 32 && NoneForbidden(p, ItemKeys(items)))
    decreases items, 0
  {
    if items.Item? {
      CleanExactly(p, items.head, depth);
      CleanItemsExactly(p, items.tail, depth);
    }
  }

  lemma {:induction false} CleanMembersExactly(p: Primitives, members: Object, depth: nat)
    ensures CleanMembers(p, members, depth) <==>
              members.NoMembers? || (depth + MembersHeight(members) <= 32 && NoneForbidden(p, MemberKeys(members)))
    decreases members, 0
  {
    if members.Member? {
      CleanExactly(p, members.value, depth);
      CleanMembersExactly(p, members.rest, depth);
    }
  }

  // ---------------------------------------------------------------- acceptance

  lemma {:induction false} AllowedExactly(members: Object, policy: Policy)
    ensures FieldsAllowed(members, policy) <==> forall key | HasKey(members, key) :: key in policy.allowed
  {
    if members.Member? {
      AllowedExactly(members.rest, policy);
      assert HasKey(members, members.key);
      assert forall key | HasKey(members.rest, key) :: HasKey(members, key);
    }
  }

  predicate LimitValid(policy: Policy) {
    1 <= policy.maximumBytes < 0x20_0000_0000_0000
  }

  /** The top-level keys obey the policy, no key at any depth is forbidden, at most 32 levels are nested, and every number
      is finite. */
  ghost predicate Publishable(p: Primitives, value: Object, policy: Policy) {
    && (forall key | HasKey(value, key) :: key in policy.allowed)
    && (forall key | key in policy.required :: HasKey(value, key))
    && NoneForbidden(p, AllKeys(Obj(value))) && Height(Obj(value)) <= 32
    && Finite(p, Obj(value))
  }

  /** When a payload is prepared, when it is rejected and for which reason. What is prepared contains no forbidden key at
      any depth, and its bytes are those of the canonical text. */
  lemma PreparedExactly(p: Primitives, value: Object, policy: Policy)
    ensures var r := PrepareCanonicalPayload(p, value, policy);
            && (r.Payload? ==>
                  && LimitValid(policy) && Publishable(p, value, policy)
                  && r.bytes == Encode(TextOf(p, Obj(value))) && |r.bytes| <= policy.maximumBytes
                  && r.digest == p.sha256(r.bytes))
            && (r == Rejected(PayloadForbidden) <==> LimitValid(policy) && !Publishable(p, value, policy))
            && (r == Rejected(PayloadOversize) <==>
                  || !LimitValid(policy)
                  || (Publishable(p, value, policy) && |Encode(TextOf(p, Obj(value)))| > policy.maximumBytes))
  {
    AllowedExactly(value, policy);
    CleanExactly(p, Obj(value), 0);
  }

  /** The check at enqueue, in the same terms, with its own limit of one mebibyte. */
  lemma EnqueueAcceptsExactly(p: Primitives, m: Manifest)
    ensures EnqueueAccepts(p, m) <==>
              && p.sha256(Encode(m.canonical)) == m.digest
              && ParseJson(p, m.canonical).Some? && SameValue(ParseJson(p, m.canonical).value, Obj(m.value))
              && |Encode(m.canonical)| <= m.policy.maximumBytes <= 1024 * 1024 && 1 <= m.policy.maximumBytes
              && (forall key | HasKey(m.value, key) :: key in m.policy.allowed)
              && (forall key | key in m.policy.required :: HasKey(m.value, key))
              && NoneForbidden(p, AllKeys(Obj(m.value))) && Height(Obj(m.value)) <= 32
  {
    AllowedExactly(m.value, m.policy);
    CleanExactly(p, Obj(m.value), 0);
  }

  // ---------------------------------------------------------------- identity keys

  predicate Between(u: Unit, low: char, high: char) {
    low as int <= u <= high as int
  }

  /** Keys have the form of an i-address: an `i` and 20 to 63 digits and letters other than 0, O, I and l. */
  lemma VdxfKeyExactly(key: Text)
    ensures IsVdxfKey(key) <==>
              && 21 <= |key| <= 64 && key[0] == 'i' as int
              && forall i | 1 <= i < |key| ::
                   || Between(key[i], '1', '9') || Between(key[i], 'A', 'H') || Between(key[i], 'J', 'N')
                   || Between(key[i], 'P', 'Z') || Between(key[i], 'a', 'k') || Between(key[i], 'm', 'z')
  {
  }

  // ---------------------------------------------------------------- samples of the standards

  /** The examples of section 7 of RFC 3629. */
  lemma Utf8Samples()
    ensures Encode([0x41, 0x2262, 0x391, 0x2E]) == [0x41, 0xE2, 0x89, 0xA2, 0xCE, 0x91, 0x2E]
    ensures Encode([0xD55C, 0xAD6D, 0xC5B4]) == [0xED, 0x95, 0x9C, 0xEA, 0xB5, 0xAD, 0xEC, 0x96, 0xB4]
    ensures Encode([0xD84C, 0xDFB4]) == [0xF0, 0xA3, 0x8E, 0xB4]
    ensures Encode([0xD800]) == [0xEF, 0xBF, 0xBD]
  {
  }

  /** The last example of section 10 of RFC 4648, in lower case. */
  lemma HexSample()
    ensures HexEncode([0x66, 0x6F, 0x6F, 0x62, 0x61, 0x72]) == Units("666f6f626172")
  {
  }
}
