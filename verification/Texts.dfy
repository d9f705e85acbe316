/** JavaScript strings: sequences of UTF-16 code units, compared unit by unit. */
module Texts {

  type Unit = x: int | 0 <= x < 0x1_0000
  type Text = seq<Unit>
  type Byte = x: int | 0 <= x < 256

  /** The operator `<` on strings. */
  predicate Less(a: Text, b: Text) {
    b != [] && (a == [] || a[0] < b[0] || (a[0] == b[0] && Less(a[1..], b[1..])))
  }

  lemma {:induction false} LessIrreflexive(a: Text)
    ensures !Less(a, a)
  {
    if a != [] {
      LessIrreflexive(a[1..]);
    }
  }

  lemma {:induction false} LessTransitive(a: Text, b: Text, c: Text)
    requires Less(a, b) && Less(b, c)
    ensures Less(a, c)
  {
    if a != [] && a[0] == b[0] == c[0] {
      LessTransitive(a[1..], b[1..], c[1..]);
    }
  }

  lemma {:induction false} LessTotal(a: Text, b: Text)
    ensures a == b || Less(a, b) || Less(b, a)
  {
    if a != [] && b != [] && a[0] == b[0] {
      LessTotal(a[1..], b[1..]);
      assert a == [a[0]] + a[1..];
      assert b == [b[0]] + b[1..];
    }
  }

  predicate IsHigh(u: Unit) {
    0xD800 <= u <= 0xDBFF
  }

  predicate IsLow(u: Unit) {
    0xDC00 <= u <= 0xDFFF
  }

  predicate IsSurrogate(u: Unit) {
    0xD800 <= u <= 0xDFFF
  }

  /** Every surrogate is half of a pair. */
  predicate WellFormed(s: Text)
    decreases |s|
  {
    || s == []
    || (!IsSurrogate(s[0]) && WellFormed(s[1..]))
    || (|s| >= 2 && IsHigh(s[0]) && IsLow(s[1]) && WellFormed(s[2..]))
  }

  lemma {:induction false} WellFormedAppend(a: Text, b: Text)
    requires WellFormed(a) && WellFormed(b)
    ensures WellFormed(a + b)
    decreases |a|
  {
    if a == [] {
      assert a + b == b;
    } else if !IsSurrogate(a[0]) {
      WellFormedAppend(a[1..], b);
      assert (a + b)[1..] == a[1..] + b;
    } else {
      WellFormedAppend(a[2..], b);
      assert (a + b)[2..] == a[2..] + b;
    }
  }
}
