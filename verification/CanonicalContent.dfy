/** Payload policies, identity updates and readback: packages/verus/src/canonical-content.ts and reconciliation.ts, with
    the manifest checks of packages/db/src/verus-job-repository.ts and apps/worker/src/verus-worker.ts. */
module CanonicalContent {
  import opened Wrappers
  import opened Texts
  import opened JsonText
  import opened JsonMembers
  import opened Canonical
  import opened Encodings

  const MAX_SAFE_INTEGER := 0x1F_FFFF_FFFF_FFFF
  const MAX_MANIFEST_BYTES := 1_048_576
  const MAX_DEPTH := 32

  type Object = Members<Double>

  /** `rejectForbiddenFields` finds nothing. */
  predicate Clean(p: Primitives, v: Value, depth: nat) {
    && depth <= MAX_DEPTH
    && match v
       case Arr(items) => CleanItems(p, items, depth + 1)
       case Obj(members) => CleanMembers(p, members, depth + 1)
       case _ => true
  }

  predicate CleanItems(p: Primitives, items: Items<Double>, depth: nat) {
    items.NoItems? || (Clean(p, items.head, depth) && CleanItems(p, items.tail, depth))
  }

  predicate CleanMembers(p: Primitives, members: Object, depth: nat) {
    members.NoMembers? || (!p.forbidden(members.key) && Clean(p, members.value, depth)
                           && CleanMembers(p, members.rest, depth))
  }

  datatype Policy = Policy(allowed: set<Text>, required: set<Text>, maximumBytes: int)

  predicate FieldsAllowed(members: Object, policy: Policy) {
    (members.NoMembers? || (members.key in policy.allowed && FieldsAllowed(members.rest, policy)))
  }

  predicate FieldsPresent(members: Object, policy: Policy) {
    forall field | field in policy.required :: HasKey(members, field)
  }

  datatype PayloadError = PayloadOversize | PayloadForbidden
  datatype Payload = Payload(bytes: Bytes, digest: Text) | Rejected(error: PayloadError)

  function PrepareCanonicalPayload(p: Primitives, value: Object, policy: Policy): Payload {
    if !(1 <= policy.maximumBytes <= MAX_SAFE_INTEGER) then Rejected(PayloadOversize)
    else if !FieldsAllowed(value, policy) || !FieldsPresent(value, policy) then Rejected(PayloadForbidden)
    else if !Clean(p, Obj(value), 0) then Rejected(PayloadForbidden)
    else
      var canonical := CanonicalizeJson(p, Obj(value));
      if canonical.None? then Rejected(PayloadForbidden)
      else
        var bytes := Encode(canonical.value);
        if |bytes| > policy.maximumBytes then Rejected(PayloadOversize) else Payload(bytes, p.sha256(bytes))
  }

  // ---------------------------------------------------------------- identity content

  type ContentMultiMap = map<Text, seq<Value>>

  predicate IsBase58(u: Unit) {
    49 <= u <= 57 || (65 <= u <= 90 && u != 73 && u != 79) || (97 <= u <= 122 && u != 108)
  }

  /** An i-address. */
  predicate IsVdxfKey(key: Text) {
    21 <= |key| <= 64 && key[0] == 105 && forall i | 1 <= i < |key| :: IsBase58(key[i])
  }

  /** The key's entries are replaced by the payload; `None` is VDXF_ID_MISMATCH. */
  function PrepareIdentityContentUpdate(content: ContentMultiMap, key: Text, payload: Payload): Option<ContentMultiMap>
    requires payload.Payload?
  {
    if IsVdxfKey(key) then Some(content[key := [Str(HexEncode(payload.bytes))]]) else None
  }

  predicate IsCanonicalText(p: Primitives, text: Text) {
    var parsed := ParseJson(p, text);
    parsed.Some? && CanonicalizeJson(p, parsed.value) == Some(text)
  }

  function DigestCanonicalHexEntry(p: Primitives, entry: Value): Option<Text> {
    if !entry.Str? || entry.s == [] then None
    else
      var bytes := HexDecode(entry.s);
      if bytes.None? then None
      else
        var text := Decode(bytes.value);
        if text.None? || !IsCanonicalText(p, text.value) then None else Some(p.sha256(bytes.value))
  }

  function Entries(content: ContentMultiMap, key: Text): seq<Value> {
    if key in content then content[key] else []
  }

  /** `verifyIdentityContentReadback` answers "verified"; `findReadbackEvidenceBeforeResubmission` answers found. */
  predicate ReadbackFinds(p: Primitives, content: ContentMultiMap, key: Text, digest: Text) {
    exists i | 0 <= i < |Entries(content, key)| ::
      DigestCanonicalHexEntry(p, Entries(content, key)[i]) == Some(digest)
  }

  // ---------------------------------------------------------------- persisted manifests

  /** `isDeepStrictEqual`, and what a jsonb column keeps: everything but the order of members. */
  predicate SameValue(v: Value, w: Value) {
    match v
    case Arr(items) => w.Arr? && SameItems(items, w.items)
    case Obj(members) => w.Obj? && Count(members) == Count(w.members) && SameMembers(members, w.members)
    case _ => v == w
  }

  predicate SameItems(a: Items<Double>, b: Items<Double>) {
    if a.NoItems? then b.NoItems? else b.Item? && SameValue(a.head, b.head) && SameItems(a.tail, b.tail)
  }

  predicate SameMembers(a: Object, b: Object) {
    a.NoMembers? || (HasKey(b, a.key) && SameValue(a.value, Lookup(b, a.key)) && SameMembers(a.rest, b))
  }

  datatype Manifest = Manifest(value: Object, canonical: Text, digest: Text, policy: Policy)

  /** The manifest checks of `validateInput`. */
  predicate EnqueueAccepts(p: Primitives, m: Manifest) {
    && p.sha256(Encode(m.canonical)) == m.digest
    && ParseJson(p, m.canonical).Some? && SameValue(ParseJson(p, m.canonical).value, Obj(m.value))
    && 1 <= m.policy.maximumBytes <= MAX_MANIFEST_BYTES && |Encode(m.canonical)| <= m.policy.maximumBytes
    && FieldsAllowed(m.value, m.policy) && FieldsPresent(m.value, m.policy)
    && Clean(p, Obj(m.value), 0)
  }

  /** The worker's check of the manifest that it loaded. */
  predicate WorkerAccepts(p: Primitives, loaded: Object, m: Manifest) {
    var payload := PrepareCanonicalPayload(p, loaded, m.policy);
    payload.Payload? && payload.digest == m.digest && Decode(payload.bytes) == Some(m.canonical)
  }
}
