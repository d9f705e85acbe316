/** Parsing inverts printing, for every syntax tree at any depth. */
module JsonRoundTrip {
  import opened Texts
  import opened JsonText

  /** All number tokens of the tree are JSON numbers. */
  predicate Printable(t: Syntax) {
    match t
    case Number(token) => IsNumber(token)
    case Arr(items) => PrintableItems(items)
    case Obj(members) => PrintableMembers(members)
    case _ => true
  }

  predicate PrintableItems(items: Items<Text>) {
    items.NoItems? || (Printable(items.head) && PrintableItems(items.tail))
  }

  predicate PrintableMembers(members: Members<Text>) {
    members.NoMembers? || (Printable(members.value) && PrintableMembers(members.rest))
  }

  /** What may follow a value: nothing, white space, a separator or a closing bracket. */
  predicate Stops(rest: Text) {
    rest == [] || rest[0] == COMMA || rest[0] == RBRACKET || rest[0] == RBRACE || IsSpace(rest[0])
  }

  // ---------------------------------------------------------------- numbers

  lemma {:induction false} DigitsStop(a: Text, rest: Text)
    requires Stops(rest)
    ensures Digits(a + rest) == Digits(a)
  {
    if a == [] {
      assert a + rest == rest;
      assert rest != [] && IsSpace(rest[0]) ==> rest[0] < 48;
    } else if IsDigit(a[0]) {
      assert (a + rest)[1..] == a[1..] + rest;
      DigitsStop(a[1..], rest);
    }
  }

  lemma FractionStop(a: Text, rest: Text)
    requires Stops(rest)
    ensures FractionPart(a + rest).Got? == FractionPart(a).Got?
    ensures FractionPart(a).Got? ==> FractionPart(a + rest).value == FractionPart(a).value
  {
    if a == [] {
      assert a + rest == rest;
    } else {
      assert (a + rest)[1..] == a[1..] + rest;
      DigitsStop(a[1..], rest);
    }
  }

  lemma ExponentStop(a: Text, rest: Text)
    requires Stops(rest)
    ensures ExponentPart(a + rest).Got? == ExponentPart(a).Got?
    ensures ExponentPart(a).Got? ==> ExponentPart(a + rest).value == ExponentPart(a).value
  {
    if a == [] {
      assert a + rest == rest;
    } else {
      assert (a + rest)[1..] == a[1..] + rest;
      DigitsStop(a[1..], rest);
      if |a| > 1 {
        assert (a + rest)[2..] == a[2..] + rest;
        DigitsStop(a[2..], rest);
      }
    }
  }

  lemma IntegerStop(a: Text, rest: Text)
    requires Stops(rest)
    ensures IntegerPart(a + rest) == IntegerPart(a)
  {
    DigitsStop(a, rest);
    if a == [] {
      assert a + rest == rest;
    }
  }

  lemma TailStop(a: Text, rest: Text)
    requires Stops(rest)
    ensures TailLength(a + rest).Got? == TailLength(a).Got?
    ensures TailLength(a).Got? ==> TailLength(a + rest).value == TailLength(a).value
  {
    FractionStop(a, rest);
    if FractionPart(a).Got? {
      var k := FractionPart(a).value;
      assert (a + rest)[k..] == a[k..] + rest;
      ExponentStop(a[k..], rest);
    }
  }

  lemma UnsignedStop(a: Text, rest: Text)
    requires Stops(rest)
    ensures UnsignedLength(a + rest) == UnsignedLength(a)
  {
    IntegerStop(a, rest);
    var whole := IntegerPart(a);
    assert (a + rest)[whole..] == a[whole..] + rest;
    TailStop(a[whole..], rest);
  }

  /** A number token ends where the separator begins. */
  lemma NumberStop(a: Text, rest: Text)
    requires a != [] && Stops(rest)
    ensures NumberLength(a + rest) == NumberLength(a)
  {
    if a[0] == MINUS {
      assert (a + rest)[1..] == a[1..] + rest;
      UnsignedStop(a[1..], rest);
    } else {
      UnsignedStop(a, rest);
    }
  }

  lemma NumberStart(token: Text)
    requires IsNumber(token)
    ensures token[0] == MINUS || IsDigit(token[0])
  {
  }

  // ---------------------------------------------------------------- strings

  lemma HexDigitInverse(d: int)
    requires 0 <= d < 16
    ensures HexValue(HexDigit(d)) == d
  {
  }

  lemma Nibbles(u: Unit)
    ensures 0 <= u / 4096 < 16
    ensures u == u / 4096 * 4096 + u / 256 % 16 * 256 + u / 16 % 16 * 16 + u % 16
  {
    assert u / 16 / 16 == u / 256 && u / 256 / 16 == u / 4096;
  }

  lemma HexInverse(u: Unit)
    ensures var e := UnicodeEscape(u); StartsUnicodeEscape(e) && UnicodeValue(e) == u
  {
    Nibbles(u);
    HexDigitInverse(u / 4096);
    HexDigitInverse(u / 256 % 16);
    HexDigitInverse(u / 16 % 16);
    HexDigitInverse(u % 16);
  }

  lemma UnicodeStep(u: Unit, tail: Text)
    ensures ParseChars(UnicodeEscape(u) + tail) == Prepend(u, ParseChars(tail))
  {
    var s := UnicodeEscape(u) + tail;
    HexInverse(u);
    assert s[6..] == tail;
    assert StartsUnicodeEscape(s) && UnicodeValue(s) == UnicodeValue(UnicodeEscape(u));
  }

  lemma ShortStep(u: Unit, tail: Text)
    requires ShortEscape(u) != 0
    ensures ParseChars([BACKSLASH, ShortEscape(u)] + tail) == Prepend(u, ParseChars(tail))
  {
    var s := [BACKSLASH, ShortEscape(u)] + tail;
    assert s[2..] == tail;
  }

  lemma PlainStep(u: Unit, tail: Text)
    requires u >= 32 && u != QUOTE && u != BACKSLASH
    ensures ParseChars([u] + tail) == Prepend(u, ParseChars(tail))
  {
    assert ([u] + tail)[1..] == tail;
  }

  /** The units that stand for one unpaired unit. */
  function EscapeUnit(u: Unit): Text {
    if ShortEscape(u) != 0 then [BACKSLASH, ShortEscape(u)]
    else if u < 32 || IsSurrogate(u) then UnicodeEscape(u)
    else [u]
  }

  lemma UnitStep(u: Unit, tail: Text)
    ensures ParseChars(EscapeUnit(u) + tail) == Prepend(u, ParseChars(tail))
  {
    if ShortEscape(u) != 0 {
      ShortStep(u, tail);
    } else if u < 32 || IsSurrogate(u) {
      UnicodeStep(u, tail);
    } else {
      PlainStep(u, tail);
    }
  }

  lemma PairStep(a: Unit, b: Unit, tail: Text)
    requires IsHigh(a) && IsLow(b)
    ensures ParseChars([a, b] + tail) == Prepend(a, Prepend(b, ParseChars(tail)))
  {
    assert [a, b] + tail == [a] + ([b] + tail);
    PlainStep(a, [b] + tail);
    PlainStep(b, tail);
  }

  lemma EscapeStep(s: Text, tail: Text)
    requires s != [] && !(|s| >= 2 && IsHigh(s[0]) && IsLow(s[1]))
    ensures Escape(s) + tail == EscapeUnit(s[0]) + (Escape(s[1..]) + tail)
  {
    EscapeFirst(s);
    Associative(EscapeUnit(s[0]), Escape(s[1..]), tail);
  }

  lemma EscapeFirst(s: Text)
    requires s != [] && !(|s| >= 2 && IsHigh(s[0]) && IsLow(s[1]))
    ensures Escape(s) == EscapeUnit(s[0]) + Escape(s[1..])
  {
  }

  lemma Associative(a: Text, b: Text, c: Text)
    ensures (a + b) + c == a + (b + c)
  {
  }

  lemma EscapePair(s: Text, tail: Text)
    requires |s| >= 2 && IsHigh(s[0]) && IsLow(s[1])
    ensures Escape(s) + tail == [s[0], s[1]] + (Escape(s[2..]) + tail)
  {
    assert Escape(s) == [s[0], s[1]] + Escape(s[2..]);
    Associative([s[0], s[1]], Escape(s[2..]), tail);
  }

  lemma CharsUnit(s: Text, close: Text, rest: Text)
    requires s != [] && !(|s| >= 2 && IsHigh(s[0]) && IsLow(s[1]))
    requires ParseChars(Escape(s[1..]) + close) == Got(s[1..], rest)
    ensures ParseChars(Escape(s) + close) == Got(s, rest)
  {
    EscapeStep(s, close);
    UnitStep(s[0], Escape(s[1..]) + close);
    assert [s[0]] + s[1..] == s;
  }

  lemma CharsPair(s: Text, close: Text, rest: Text)
    requires |s| >= 2 && IsHigh(s[0]) && IsLow(s[1])
    requires ParseChars(Escape(s[2..]) + close) == Got(s[2..], rest)
    ensures ParseChars(Escape(s) + close) == Got(s, rest)
  {
    EscapePair(s, close);
    PairStep(s[0], s[1], Escape(s[2..]) + close);
    assert [s[0]] + ([s[1]] + s[2..]) == s;
  }

  /** Reading an escaped string gives the string back. */
  lemma {:induction false} CharsRoundTrip(s: Text, rest: Text)
    ensures ParseChars(Escape(s) + ([QUOTE] + rest)) == Got(s, rest)
    decreases |s|
  {
    var close := [QUOTE] + rest;
    if s == [] {
      assert Escape(s) + close == close;
      assert close[1..] == rest;
    } else if |s| >= 2 && IsHigh(s[0]) && IsLow(s[1]) {
      CharsRoundTrip(s[2..], rest);
      CharsPair(s, close, rest);
    } else {
      CharsRoundTrip(s[1..], rest);
      CharsUnit(s, close, rest);
    }
  }

  /** No printed value starts with white space or a closing bracket. */
  lemma PrintStart(t: Syntax)
    requires Printable(t)
    ensures Print(t) != []
    ensures var u := Print(t)[0]; !IsSpace(u) && u != RBRACKET && u != RBRACE
  {
    if t.Number? {
      NumberStart(t.n);
    }
  }

  lemma SkipPrinted(t: Syntax, rest: Text)
    requires Printable(t)
    ensures Skip(Print(t) + rest) == Print(t) + rest
  {
    PrintStart(t);
  }

  // ---------------------------------------------------------------- values

  lemma NumberStep(s: Text, n: nat)
    requires s != [] && (s[0] == MINUS || IsDigit(s[0])) && n == NumberLength(s) > 0
    ensures ParseValue(s) == Got(Number(s[..n]), s[n..])
  {
    assert NULL[0] == 110 && TRUE[0] == 116 && FALSE[0] == 102;
    assert !(NULL <= s) && !(TRUE <= s) && !(FALSE <= s);
  }

  lemma NumberRoundTrip(token: Text, rest: Text)
    requires IsNumber(token) && Stops(rest)
    ensures ParseValue(token + rest) == Got(Number(token), rest)
  {
    var s := token + rest;
    NumberStart(token);
    NumberStop(token, rest);
    assert s[..|token|] == token && s[|token|..] == rest;
    NumberStep(s, |token|);
  }

  lemma StringRoundTrip(text: Text, rest: Text)
    ensures ParseValue(Quoted(text) + rest) == Got(Str(text), rest)
  {
    CharsRoundTrip(text, rest);
    assert (Quoted(text) + rest)[1..] == Escape(text) + ([QUOTE] + rest);
  }

  lemma WordRoundTrip(t: Syntax, rest: Text)
    requires t.Null? || t.Bool?
    ensures ParseValue(Print(t) + rest) == Got(t, rest)
  {
    var word := Print(t);
    assert (word + rest)[|word|..] == rest;
  }

  lemma {:induction false} ValueRoundTrip(t: Syntax, rest: Text)
    requires Printable(t) && Stops(rest)
    ensures ParseValue(Print(t) + rest) == Got(t, rest)
    decreases t, 1
  {
    match t
    case Number(token) => NumberRoundTrip(token, rest);
    case Str(text) => StringRoundTrip(text, rest);
    case Arr(items) => ArrayRoundTrip(items, rest);
    case Obj(members) => ObjectRoundTrip(members, rest);
    case _ => WordRoundTrip(t, rest);
  }

  lemma LastItem(s: Text, head: Syntax, rest: Text)
    requires ParseValue(s) == Got(head, [RBRACKET] + rest)
    ensures ParseItems(s) == Got(Item(head, NoItems), rest)
  {
    assert ([RBRACKET] + rest)[1..] == rest;
  }

  lemma NextItem(s: Text, head: Syntax, more: Text, tail: Items<Text>, rest: Text)
    requires ParseValue(s) == Got(head, [COMMA] + more)
    requires more != [] && !IsSpace(more[0]) && ParseItems(more) == Got(tail, rest)
    ensures ParseItems(s) == Got(Item(head, tail), rest)
  {
    assert ([COMMA] + more)[1..] == more;
  }

  lemma LastMember(s: Text, key: Text, afterKey: Text, value: Syntax, rest: Text)
    requires ParseKey(s) == Got(key, afterKey) && ParseValue(afterKey) == Got(value, [RBRACE] + rest)
    ensures ParseMembers(s) == Got(Member(key, value, NoMembers), rest)
  {
    assert ([RBRACE] + rest)[1..] == rest;
  }

  lemma NextMember(s: Text, key: Text, afterKey: Text, value: Syntax, more: Text, tail: Members<Text>, rest: Text)
    requires ParseKey(s) == Got(key, afterKey) && ParseValue(afterKey) == Got(value, [COMMA] + more)
    requires more != [] && !IsSpace(more[0]) && ParseMembers(more) == Got(tail, rest)
    ensures ParseMembers(s) == Got(Member(key, value, tail), rest)
  {
    assert ([COMMA] + more)[1..] == more;
  }

  lemma {:induction false} ArrayRoundTrip(items: Items<Text>, rest: Text)
    requires PrintableItems(items) && Stops(rest)
    ensures ParseValue(Print(Arr(items)) + rest) == Got(Arr(items), rest)
    decreases items, 2
  {
    var s := Print(Arr(items)) + rest;
    var inner := PrintItems(items) + ([RBRACKET] + rest);
    assert s[1..] == inner;
    if items.NoItems? {
      assert inner == [RBRACKET] + rest;
      assert inner[1..] == rest;
    } else {
      PrintStart(items.head);
      assert inner[0] == Print(items.head)[0];
      ItemsRoundTrip(items, rest);
    }
  }

  lemma {:induction false} ItemsRoundTrip(items: Items<Text>, rest: Text)
    requires PrintableItems(items) && items.Item? && Stops(rest)
    ensures ParseItems(PrintItems(items) + ([RBRACKET] + rest)) == Got(items, rest)
    decreases items, 1
  {
    var close := [RBRACKET] + rest;
    var s := PrintItems(items) + close;
    if items.tail.NoItems? {
      assert s == Print(items.head) + close;
      ValueRoundTrip(items.head, close);
      LastItem(s, items.head, rest);
    } else {
      var more := PrintItems(items.tail) + close;
      assert s == Print(items.head) + ([COMMA] + more);
      ValueRoundTrip(items.head, [COMMA] + more);
      PrintStart(items.tail.head);
      assert more[0] == Print(items.tail.head)[0];
      ItemsRoundTrip(items.tail, rest);
      NextItem(s, items.head, more, items.tail, rest);
    }
  }

  lemma KeyStep(s: Text, key: Text, value: Text)
    requires s != [] && s[0] == QUOTE && ParseChars(s[1..]) == Got(key, [COLON] + value) && Skip(value) == value
    ensures ParseKey(s) == Got(key, value)
  {
    assert ([COLON] + value)[1..] == value;
  }

  lemma KeyRoundTrip(key: Text, t: Syntax, rest: Text)
    requires Printable(t)
    ensures ParseKey(Quoted(key) + ([COLON] + (Print(t) + rest))) == Got(key, Print(t) + rest)
  {
    var value := Print(t) + rest;
    var s := Quoted(key) + ([COLON] + value);
    CharsRoundTrip(key, [COLON] + value);
    assert s[1..] == Escape(key) + ([QUOTE] + ([COLON] + value));
    SkipPrinted(t, rest);
    KeyStep(s, key, value);
  }

  lemma {:induction false} ObjectRoundTrip(members: Members<Text>, rest: Text)
    requires PrintableMembers(members) && Stops(rest)
    ensures ParseValue(Print(Obj(members)) + rest) == Got(Obj(members), rest)
    decreases members, 2
  {
    var s := Print(Obj(members)) + rest;
    var inner := PrintMembers(members) + ([RBRACE] + rest);
    assert s[1..] == inner;
    if members.NoMembers? {
      assert inner == [RBRACE] + rest;
      assert inner[1..] == rest;
    } else {
      MembersStart(members);
      MembersRoundTrip(members, rest);
      ObjectStep(s, inner, members, rest);
    }
  }

  lemma ObjectStep(s: Text, inner: Text, members: Members<Text>, rest: Text)
    requires s != [] && s[0] == LBRACE && s[1..] == inner && inner != [] && inner[0] == QUOTE
    requires ParseMembers(inner) == Got(members, rest)
    ensures ParseValue(s) == Got(Obj(members), rest)
  {
  }

  lemma MembersStart(members: Members<Text>)
    requires members.Member?
    ensures PrintMembers(members) != [] && PrintMembers(members)[0] == QUOTE
  {
  }

  lemma PrintLastMember(members: Members<Text>, close: Text)
    requires members.Member? && members.rest.NoMembers?
    ensures PrintMembers(members) + close == Quoted(members.key) + ([COLON] + (Print(members.value) + close))
  {
  }

  lemma PrintNextMember(members: Members<Text>, close: Text)
    requires members.Member? && members.rest.Member?
    ensures PrintMembers(members) + close
         == Quoted(members.key) + ([COLON] + (Print(members.value) + ([COMMA] + (PrintMembers(members.rest) + close))))
  {
    var separated := [COMMA] + (PrintMembers(members.rest) + close);
    assert PrintMembers(members) + close == Quoted(members.key) + [COLON] + Print(members.value) + separated;
  }

  lemma {:induction false} MembersRoundTrip(members: Members<Text>, rest: Text)
    requires PrintableMembers(members) && members.Member? && Stops(rest)
    ensures ParseMembers(PrintMembers(members) + ([RBRACE] + rest)) == Got(members, rest)
    decreases members, 1
  {
    var close := [RBRACE] + rest;
    var s := PrintMembers(members) + close;
    if members.rest.NoMembers? {
      PrintLastMember(members, close);
      KeyRoundTrip(members.key, members.value, close);
      ValueRoundTrip(members.value, close);
      LastMember(s, members.key, Print(members.value) + close, members.value, rest);
    } else {
      var more := PrintMembers(members.rest) + close;
      var separated := [COMMA] + more;
      PrintNextMember(members, close);
      KeyRoundTrip(members.key, members.value, separated);
      ValueRoundTrip(members.value, separated);
      MembersStart(members.rest);
      MembersRoundTrip(members.rest, rest);
      NextMember(s, members.key, Print(members.value) + separated, members.value, more, members.rest, rest);
    }
  }

  /** JSON.parse inverts the printer. */
  lemma ParsePrint(t: Syntax)
    requires Printable(t)
    ensures Parse(Print(t)) == Got(t, [])
  {
    assert Print(t) + [] == Print(t);
    SkipPrinted(t, []);
    ValueRoundTrip(t, []);
  }

  /** Two trees with the same text are the same tree. */
  lemma PrintInjective(t: Syntax, u: Syntax)
    requires Printable(t) && Printable(u) && Print(t) == Print(u)
    ensures t == u
  {
    ParsePrint(t);
    ParsePrint(u);
  }

  lemma {:induction false} DigitsPrefix(s: Text, n: nat)
    requires Digits(s) <= n <= |s|
    ensures Digits(s[..n]) == Digits(s)
  {
    if s != [] && IsDigit(s[0]) {
      assert s[..n][1..] == s[1..][..n - 1];
      DigitsPrefix(s[1..], n - 1);
    }
  }

  lemma IntegerPrefix(s: Text, n: nat)
    requires IntegerPart(s) <= n <= |s| && 0 < n
    ensures IntegerPart(s[..n]) == IntegerPart(s)
  {
    if s[0] != ZERO {
      DigitsPrefix(s, n);
    }
  }

  lemma FractionPrefix(s: Text, n: nat)
    requires n <= |s| && FractionPart(s).Got? && FractionPart(s).value <= n
    ensures FractionPart(s[..n]).Got? && FractionPart(s[..n]).value == FractionPart(s).value
  {
    if FractionPart(s).value > 0 {
      assert s[..n][1..] == s[1..][..n - 1];
      DigitsPrefix(s[1..], n - 1);
    }
  }

  lemma ExponentPrefix(s: Text, n: nat)
    requires n <= |s| && ExponentPart(s).Got? && ExponentPart(s).value == n
    ensures ExponentPart(s[..n]).Got? && ExponentPart(s[..n]).value == n
  {
    if n > 0 {
      var sign := if |s| > 1 && (s[1] == 43 || s[1] == MINUS) then 2 else 1;
      assert s[..n][sign..] == s[sign..][..n - sign];
      DigitsPrefix(s[sign..], n - sign);
    }
  }

  lemma TailPrefix(s: Text, n: nat)
    requires n <= |s| && TailLength(s).Got? && TailLength(s).value == n
    ensures TailLength(s[..n]).Got? && TailLength(s[..n]).value == n
  {
    FractionPrefix(s, n);
    var k := FractionPart(s).value;
    assert s[..n][k..] == s[k..][..n - k];
    ExponentPrefix(s[k..], n - k);
  }

  lemma UnsignedPrefix(s: Text, n: nat)
    requires n == UnsignedLength(s) > 0
    ensures UnsignedLength(s[..n]) == n
  {
    var whole := IntegerPart(s);
    IntegerPrefix(s, n);
    assert s[..n][whole..] == s[whole..][..n - whole];
    TailPrefix(s[whole..], n - whole);
  }

  /** Every number token that the parser accepts is a number. */
  lemma TokenIsNumber(s: Text)
    requires NumberLength(s) > 0
    ensures IsNumber(s[..NumberLength(s)])
  {
    var n := NumberLength(s);
    if s[0] == MINUS {
      UnsignedPrefix(s[1..], n - 1);
      assert s[..n][1..] == s[1..][..n - 1];
    } else {
      UnsignedPrefix(s, n);
    }
  }

  // ---------------------------------------------------------------- what the parser returns

  lemma {:induction false} ValuePrintable(s: Text)
    ensures ParseValue(s).Got? ==> Printable(ParseValue(s).value)
    decreases |s|, 0
  {
    if s != [] && s[0] == LBRACE {
      MembersPrintable(Skip(s[1..]));
    } else if s != [] && s[0] == LBRACKET {
      ItemsPrintable(Skip(s[1..]));
    } else if NumberLength(s) > 0 {
      TokenIsNumber(s);
    }
  }

  lemma {:induction false} ItemsPrintable(s: Text)
    ensures ParseItems(s).Got? ==> PrintableItems(ParseItems(s).value)
    decreases |s|, 1
  {
    var head := ParseValue(s);
    ValuePrintable(s);
    if head.Got? && Skip(head.rest) != [] {
      ItemsPrintable(Skip(Skip(head.rest)[1..]));
    }
  }

  lemma {:induction false} MembersPrintable(s: Text)
    ensures ParseMembers(s).Got? ==> PrintableMembers(ParseMembers(s).value)
    decreases |s|, 1
  {
    var key := ParseKey(s);
    if key.Got? {
      var value := ParseValue(key.rest);
      ValuePrintable(key.rest);
      if value.Got? && Skip(value.rest) != [] {
        MembersPrintable(Skip(Skip(value.rest)[1..]));
      }
    }
  }

  /** The other way round, for every text that parses, white space, long escapes and repeated keys included: printing what
      was parsed gives a text that parses to the same tree, so the parser's results are exactly the printable trees. */
  lemma ParsePrintParse(s: Text)
    requires Parse(s).Got?
    ensures Printable(Parse(s).value) && Parse(Print(Parse(s).value)) == Parse(s)
  {
    ValuePrintable(Skip(s));
    ParsePrint(Parse(s).value);
  }
}
