/** Member lists as objects: lookup, distinct keys, and sorting by key. */
module JsonMembers {
  import opened Texts
  import opened JsonText

  predicate HasKey<N(==)>(m: Members<N>, key: Text) {
    m.Member? && (m.key == key || HasKey(m.rest, key))
  }

  function Lookup<N>(m: Members<N>, key: Text): (value: Tree<N>)
    requires HasKey(m, key)
    ensures value < m
  {
    if m.key == key then m.value else Lookup(m.rest, key)
  }

  function Count<N>(m: Members<N>): nat {
    if m.NoMembers? then 0 else 1 + Count(m.rest)
  }

  /** No key occurs twice. */
  predicate Distinct<N(==)>(m: Members<N>) {
    m.NoMembers? || (!HasKey(m.rest, m.key) && Distinct(m.rest))
  }

  /** The object as a map. */
  function AsMap<N>(m: Members<N>): map<Text, Tree<N>> {
    if m.NoMembers? then map[] else AsMap(m.rest)[m.key := m.value]
  }

  lemma {:induction false} MapLookup<N>(m: Members<N>, key: Text)
    ensures key in AsMap(m) <==> HasKey(m, key)
    ensures HasKey(m, key) ==> AsMap(m)[key] == Lookup(m, key)
  {
    if m.Member? {
      MapLookup(m.rest, key);
    }
  }

  lemma {:induction false} MapCount<N>(m: Members<N>)
    requires Distinct(m)
    ensures |AsMap(m)| == Count(m)
  {
    if m.Member? {
      MapLookup(m.rest, m.key);
      MapCount(m.rest);
      assert AsMap(m).Keys == AsMap(m.rest).Keys + {m.key};
    }
  }

  // ---------------------------------------------------------------- order

  /** Every key of the list is above `key`. */
  predicate Above<N>(key: Text, m: Members<N>) {
    m.NoMembers? || (Less(key, m.key) && Above(key, m.rest))
  }

  predicate StrictlySorted<N>(m: Members<N>) {
    m.NoMembers? || (Above(m.key, m.rest) && StrictlySorted(m.rest))
  }

  function Insert<N>(key: Text, value: Tree<N>, m: Members<N>): Members<N> {
    if m.NoMembers? || Less(key, m.key) then Member(key, value, m)
    else Member(m.key, m.value, Insert(key, value, m.rest))
  }

  /** `Object.entries(value).sort(...)`. */
  function Sort<N>(m: Members<N>): Members<N> {
    if m.NoMembers? then m else Insert(m.key, m.value, Sort(m.rest))
  }

  lemma {:induction false} AboveKey<N>(low: Text, m: Members<N>, key: Text)
    requires Above(low, m) && HasKey(m, key)
    ensures Less(low, key)
  {
    if m.key != key {
      AboveKey(low, m.rest, key);
    }
  }

  lemma {:induction false} AboveTransitive<N>(low: Text, key: Text, m: Members<N>)
    requires Less(low, key) && Above(key, m)
    ensures Above(low, m)
  {
    if m.Member? {
      LessTransitive(low, key, m.key);
      AboveTransitive(low, key, m.rest);
    }
  }

  lemma {:induction false} SortedDistinct<N>(m: Members<N>)
    requires StrictlySorted(m)
    ensures Distinct(m)
  {
    if m.Member? {
      SortedDistinct(m.rest);
      if HasKey(m.rest, m.key) {
        AboveKey(m.key, m.rest, m.key);
        LessIrreflexive(m.key);
      }
    }
  }

  lemma {:induction false} InsertHas<N>(key: Text, value: Tree<N>, m: Members<N>, k: Text)
    ensures HasKey(Insert(key, value, m), k) <==> k == key || HasKey(m, k)
  {
    if m.Member? {
      InsertHas(key, value, m.rest, k);
    }
  }

  lemma {:induction false} InsertAbove<N>(low: Text, key: Text, value: Tree<N>, m: Members<N>)
    requires Less(low, key) && Above(low, m)
    ensures Above(low, Insert(key, value, m))
  {
    if m.Member? && !Less(key, m.key) {
      InsertAbove(low, key, value, m.rest);
    }
  }

  lemma {:induction false} InsertSorted<N>(key: Text, value: Tree<N>, m: Members<N>)
    requires StrictlySorted(m) && !HasKey(m, key)
    ensures StrictlySorted(Insert(key, value, m))
  {
    if m.Member? {
      if Less(key, m.key) {
        AboveTransitive(key, m.key, m.rest);
      } else {
        LessTotal(key, m.key);
        InsertSorted(key, value, m.rest);
        InsertAbove(m.key, key, value, m.rest);
      }
    }
  }

  lemma {:induction false} InsertMap<N>(key: Text, value: Tree<N>, m: Members<N>)
    requires !HasKey(m, key)
    ensures AsMap(Insert(key, value, m)) == AsMap(m)[key := value]
  {
    if m.Member? && !Less(key, m.key) {
      InsertMap(key, value, m.rest);
    }
  }

  lemma {:induction false} SortHas<N>(m: Members<N>, k: Text)
    ensures HasKey(Sort(m), k) <==> HasKey(m, k)
  {
    if m.Member? {
      SortHas(m.rest, k);
      InsertHas(m.key, m.value, Sort(m.rest), k);
    }
  }

  /** Sorting orders the members and keeps every one of them. */
  lemma {:induction false} SortSorts<N>(m: Members<N>)
    requires Distinct(m)
    ensures StrictlySorted(Sort(m)) && AsMap(Sort(m)) == AsMap(m)
  {
    if m.Member? {
      SortSorts(m.rest);
      SortHas(m.rest, m.key);
      InsertSorted(m.key, m.value, Sort(m.rest));
      InsertMap(m.key, m.value, Sort(m.rest));
    }
  }

  /** Sorting leaves a sorted list alone. */
  lemma {:induction false} SortIdentity<N>(m: Members<N>)
    requires StrictlySorted(m)
    ensures Sort(m) == m
  {
    if m.Member? {
      SortIdentity(m.rest);
    }
  }

  /** Sorted lists of the same object are equal. */
  lemma {:induction false} SortedUnique<N>(a: Members<N>, b: Members<N>)
    requires StrictlySorted(a) && StrictlySorted(b) && AsMap(a) == AsMap(b)
    ensures a == b
  {
    if a.Member? {
      assert a.key in AsMap(b);
    }
    if b.Member? {
      assert b.key in AsMap(a);
    }
    if a.Member? && b.Member? {
      SameFirst(a, b);
      SortedDistinct(a);
      SortedDistinct(b);
      MapLookup(a.rest, a.key);
      MapLookup(b.rest, b.key);
      assert AsMap(a)[a.key] == AsMap(b)[b.key];
      assert AsMap(a.rest) == AsMap(a) - {a.key};
      assert AsMap(b.rest) == AsMap(b) - {b.key};
      SortedUnique(a.rest, b.rest);
    }
  }

  lemma SameFirst<N>(a: Members<N>, b: Members<N>)
    requires a.Member? && b.Member? && StrictlySorted(a) && StrictlySorted(b)
    requires a.key in AsMap(b) && b.key in AsMap(a)
    ensures a.key == b.key
  {
    MapLookup(b, a.key);
    MapLookup(a, b.key);
    if a.key != b.key {
      AboveKey(b.key, b.rest, a.key);
      AboveKey(a.key, a.rest, b.key);
      LessTransitive(a.key, b.key, a.key);
      LessIrreflexive(a.key);
    }
  }

  /** The order in which an object lists its members does not survive sorting. */
  lemma SortForgetsOrder<N>(a: Members<N>, b: Members<N>)
    requires Distinct(a) && Distinct(b) && AsMap(a) == AsMap(b)
    ensures Sort(a) == Sort(b)
  {
    SortSorts(a);
    SortSorts(b);
    SortedUnique(Sort(a), Sort(b));
  }
}
