/** The parser against the grammar: sound and complete for numbers, strings and values. */
module JsonLanguage {
  import opened Texts
  import opened JsonText
  import opened JsonRoundTrip
  import opened JsonGrammar

  // ---------------------------------------------------------------- numbers

  predicate NoDigitFirst(s: Text) {
    s == [] || !IsDigit(s[0])
  }

  lemma {:induction false} DigitsRun(a: Text, rest: Text)
    requires (a == [] || AreDigits(a)) && NoDigitFirst(rest)
    ensures Digits(a + rest) == |a|
  {
    if a == [] {
      assert a + rest == rest;
    } else {
      assert DigitUnit(a[0]);
      assert (a + rest)[1..] == a[1..] + rest;
      DigitsRun(a[1..], rest);
    }
  }

  lemma {:induction false} DigitsSplit(s: Text) returns (a: Text, b: Text)
    ensures s == a + b && |a| == Digits(s) && (a == [] || AreDigits(a)) && NoDigitFirst(b)
  {
    if s != [] && IsDigit(s[0]) {
      var more;
      more, b := DigitsSplit(s[1..]);
      a := [s[0]] + more;
      MoreDigits(s[0], more);
    } else {
      a, b := [], s;
    }
  }

  lemma MoreDigits(u: Unit, more: Text)
    requires IsDigit(u) && (more == [] || AreDigits(more))
    ensures AreDigits([u] + more)
  {
    assert DigitUnit(u);
  }

  lemma DigitsTaken(s: Text)
    ensures Digits(s) > 0 ==> AreDigits(s[..Digits(s)])
    ensures NoDigitFirst(s[Digits(s)..])
  {
    var a, b := DigitsSplit(s);
    assert s[..|a|] == a && s[|a|..] == b;
  }

  lemma WholeTaken(s: Text)
    ensures IntegerPart(s) > 0 ==> WholeText(s[..IntegerPart(s)])
  {
    DigitsTaken(s);
    if s != [] && s[0] == ZERO {
      assert s[..1] == [ZERO];
    }
  }

  lemma FractionTaken(s: Text)
    requires FractionPart(s).Got?
    ensures FractionText(s[..FractionPart(s).value])
  {
    var n := FractionPart(s).value;
    if n > 0 {
      DigitsTaken(s[1..]);
      assert s[..n][1..] == s[1..][..n - 1];
    }
  }

  lemma ExponentTaken(s: Text)
    requires ExponentPart(s).Got?
    ensures ExponentText(s[..ExponentPart(s).value])
  {
    var n := ExponentPart(s).value;
    if n > 0 {
      var sign := if |s| > 1 && (s[1] == 43 || s[1] == MINUS) then 2 else 1;
      DigitsTaken(s[sign..]);
      assert s[..n][sign..] == s[sign..][..n - sign];
    }
  }

  lemma WholeRead(a: Text, rest: Text)
    requires WholeText(a) && NoDigitFirst(rest)
    ensures IntegerPart(a + rest) == |a|
  {
    if a != [ZERO] {
      DigitsRun(a, rest);
    }
  }

  predicate NoFractionFirst(s: Text) {
    NoDigitFirst(s) && (s == [] || s[0] != DOT)
  }

  lemma FractionRead(a: Text, rest: Text)
    requires FractionText(a) && NoFractionFirst(rest)
    ensures FractionPart(a + rest) == Got(|a|, a + rest)
  {
    if a == [] {
      assert a + rest == rest;
    } else {
      DigitsRun(a[1..], rest);
      assert (a + rest)[1..] == a[1..] + rest;
    }
  }

  lemma ExponentRead(a: Text)
    requires ExponentText(a)
    ensures ExponentPart(a) == Got(|a|, a)
  {
    if a != [] {
      var sign := if |a| > 1 && (a[1] == 43 || a[1] == MINUS) then 2 else 1;
      if sign == 2 {
        assert !DigitUnit(a[1]) && a[1] == a[1..][0];
      }
      DigitsRun(a[sign..], []);
      assert a[sign..] + [] == a[sign..];
    }
  }

  lemma TailSound(tail: Text) returns (f: Text, e: Text)
    requires TailLength(tail).Got? && TailLength(tail).value == |tail|
    ensures tail == f + e && FractionText(f) && ExponentText(e)
  {
    var n := FractionPart(tail).value;
    f, e := tail[..n], tail[n..];
    FractionTaken(tail);
    ExponentTaken(e);
    assert e[..ExponentPart(e).value] == e;
  }

  lemma UnsignedSound(s: Text)
    requires s != [] && UnsignedLength(s) == |s|
    ensures UnsignedText(s)
  {
    var whole := s[..IntegerPart(s)];
    WholeTaken(s);
    var f, e := TailSound(s[IntegerPart(s)..]);
    assert s == whole + (f + e);
  }

  lemma FollowsWhole(f: Text, e: Text)
    requires FractionText(f) && ExponentText(e)
    ensures NoFractionFirst(e) && NoDigitFirst(f + e)
  {
  }

  lemma TailComplete(f: Text, e: Text)
    requires FractionText(f) && ExponentText(e)
    ensures TailLength(f + e) == Got(|f| + |e|, f + e)
  {
    FollowsWhole(f, e);
    FractionRead(f, e);
    ExponentRead(e);
    assert (f + e)[|f|..] == e;
  }

  lemma Rest(a: Text, b: Text)
    ensures (a + b)[|a|..] == b
  {
  }

  lemma WholeNotEmpty(a: Text)
    requires WholeText(a)
    ensures |a| > 0
  {
  }

  lemma UnsignedJoined(a: Text, f: Text, e: Text)
    requires WholeText(a) && FractionText(f) && ExponentText(e)
    ensures UnsignedLength(a + (f + e)) == |a + (f + e)| > 0
  {
    var tail := f + e;
    FollowsWhole(f, e);
    WholeRead(a, tail);
    TailComplete(f, e);
    Rest(a, tail);
    WholeNotEmpty(a);
  }

  lemma UnsignedComplete(s: Text)
    requires UnsignedText(s)
    ensures s != [] && UnsignedLength(s) == |s|
  {
    var a: Text, f: Text, e: Text :| WholeText(a) && FractionText(f) && ExponentText(e) && s == a + (f + e);
    UnsignedJoined(a, f, e);
  }

  /** The number tokens of the parser are those of the grammar. */
  lemma NumberExactly(token: Text)
    ensures IsNumber(token) <==> NumberText(token)
  {
    if token != [] {
      var s := if token[0] == MINUS then token[1..] else token;
      if UnsignedText(s) {
        UnsignedComplete(s);
      }
      if s != [] && UnsignedLength(s) == |s| {
        UnsignedSound(s);
      }
    }
  }

  // ---------------------------------------------------------------- strings

  lemma EscapesExactly(s: Text)
    requires |s| >= 2 && s[0] == BACKSLASH
    ensures StartsUnicodeEscape(s) ==> HexEscape(s, UnicodeValue(s)) && s[1] == 117
    ensures Unescape(s[1]) >= 0 ==> LetterEscape(s[1], Unescape(s[1])) && s[1] != 117
    ensures forall u: Unit :: HexEscape(s, u) ==> StartsUnicodeEscape(s) && UnicodeValue(s) == u
    ensures forall u: Unit :: LetterEscape(s[1], u) ==> Unescape(s[1]) == u && s[1] != 117
  {
  }

  lemma {:induction false} CharsSound(s: Text) returns (c: Text)
    requires ParseChars(s).Got?
    ensures s == c + ([QUOTE] + ParseChars(s).rest) && CharsText(ParseChars(s).value, c)
    decreases |s|
  {
    if s[0] == QUOTE {
      c := [];
    } else if s[0] != BACKSLASH {
      var more := CharsSound(s[1..]);
      c := [s[0]] + more;
      assert c[1..] == more;
    } else {
      EscapesExactly(s);
      var n := if StartsUnicodeEscape(s) then 6 else 2;
      var more := CharsSound(s[n..]);
      c := s[..n] + more;
      assert c[n..] == more;
      EscapesExactly(c);
    }
  }

  lemma {:induction false} CharsComplete(u: Text, c: Text, rest: Text)
    requires CharsText(u, c)
    ensures ParseChars(c + ([QUOTE] + rest)) == Got(u, rest)
    decreases |c|
  {
    var s := c + ([QUOTE] + rest);
    if c == [] {
      assert s[1..] == rest;
    } else if c[0] != BACKSLASH {
      assert s[1..] == c[1..] + ([QUOTE] + rest);
      CharsComplete(u[1..], c[1..], rest);
      assert [u[0]] + u[1..] == u;
    } else {
      EscapesExactly(c);
      EscapesExactly(s);
      var n := if HexEscape(c, u[0]) then 6 else 2;
      assert s[n..] == c[n..] + ([QUOTE] + rest);
      CharsComplete(u[1..], c[n..], rest);
      assert [u[0]] + u[1..] == u;
    }
  }

  // ---------------------------------------------------------------- white space

  lemma {:induction false} SkipSound(s: Text) returns (w: Text)
    ensures IsBlank(w) && s == w + Skip(s)
    ensures Skip(s) == [] || !IsSpace(Skip(s)[0])
  {
    if s != [] && IsSpace(s[0]) {
      var more := SkipSound(s[1..]);
      w := [s[0]] + more;
    } else {
      w := [];
    }
  }

  lemma {:induction false} SkipComplete(w: Text, rest: Text)
    requires IsBlank(w)
    ensures Skip(w + rest) == Skip(rest)
  {
    if w == [] {
      assert w + rest == rest;
    } else {
      assert (w + rest)[1..] == w[1..] + rest;
      SkipComplete(w[1..], rest);
    }
  }

  lemma BlankAppend(v: Text, w: Text)
    requires IsBlank(v) && IsBlank(w)
    ensures IsBlank(v + w)
  {
  }

  // ---------------------------------------------------------------- regrouping

  lemma Regroup(a: Text, b: Text, c: Text)
    ensures (a + b) + c == a + (b + c)
  {
  }

  lemma Regroup4(a: Text, b: Text, c: Text, d: Text)
    ensures (a + (b + c)) + d == a + (b + (c + d))
  {
    Regroup(a, b + c, d);
    Regroup(b, c, d);
  }

  // ---------------------------------------------------------------- white space in front

  lemma PadMore(t: Syntax, w: Text, s: Text)
    requires IsBlank(w) && PaddedValue(t, s)
    ensures PaddedValue(t, w + s)
  {
    var before: Text, v: Text, after: Text :|
      IsBlank(before) && ValueText(t, v) && IsBlank(after) && s == before + (v + after);
    BlankAppend(w, before);
    Regroup(w, before, v + after);
  }

  lemma PadItems(items: Items<Text>, w: Text, s: Text)
    requires items.Item? && IsBlank(w) && ItemsText(items, s)
    ensures ItemsText(items, w + s)
  {
    if items.tail.NoItems? {
      PadMore(items.head, w, s);
    } else {
      var first: Text, rest: Text :|
        PaddedValue(items.head, first) && ItemsText(items.tail, rest) && s == first + ([COMMA] + rest);
      PadMore(items.head, w, first);
      Regroup(w, first, [COMMA] + rest);
    }
  }

  lemma PadString(u: Text, w: Text, s: Text)
    requires IsBlank(w) && PaddedString(u, s)
    ensures PaddedString(u, w + s)
  {
    var before: Text, v: Text, after: Text :|
      IsBlank(before) && StringText(u, v) && IsBlank(after) && s == before + (v + after);
    BlankAppend(w, before);
    Regroup(w, before, v + after);
  }

  lemma PadMember(key: Text, value: Syntax, w: Text, s: Text)
    requires IsBlank(w) && MemberText(key, value, s)
    ensures MemberText(key, value, w + s)
  {
    var k: Text, v: Text :| PaddedString(key, k) && PaddedValue(value, v) && s == k + ([COLON] + v);
    PadString(key, w, k);
    Regroup(w, k, [COLON] + v);
  }

  lemma PadMembers(members: Members<Text>, w: Text, s: Text)
    requires members.Member? && IsBlank(w) && MembersText(members, s)
    ensures MembersText(members, w + s)
  {
    if members.rest.NoMembers? {
      PadMember(members.key, members.value, w, s);
    } else {
      var first: Text, rest: Text :|
        MemberText(members.key, members.value, first) && MembersText(members.rest, rest) && s == first + ([COMMA] + rest);
      PadMember(members.key, members.value, w, first);
      Regroup(w, first, [COMMA] + rest);
    }
  }

  lemma Unpadded(t: Syntax, v: Text, after: Text)
    requires ValueText(t, v) && IsBlank(after)
    ensures PaddedValue(t, v + after)
  {
    assert v + after == [] + (v + after);
  }

  lemma UnpaddedString(u: Text, v: Text, after: Text)
    requires StringText(u, v) && IsBlank(after)
    ensures PaddedString(u, v + after)
  {
    assert v + after == [] + (v + after);
  }

  // ---------------------------------------------------------------- soundness

  lemma QuotedSound(s: Text) returns (v: Text)
    requires s != [] && s[0] == QUOTE && ParseChars(s[1..]).Got?
    ensures s == v + ParseChars(s[1..]).rest && StringText(ParseChars(s[1..]).value, v)
  {
    var c := CharsSound(s[1..]);
    v := QUOTATION + (c + QUOTATION);
    Regroup4(QUOTATION, c, QUOTATION, ParseChars(s[1..]).rest);
    assert s == [s[0]] + s[1..];
  }

  lemma PlainSound(s: Text) returns (v: Text)
    requires ParseValue(s).Got? && s[0] !in {LBRACE, LBRACKET, QUOTE}
    ensures s == v + ParseValue(s).rest && ValueText(ParseValue(s).value, v)
  {
    v := s[..|s| - |ParseValue(s).rest|];
    if !(NULL <= s) && !(TRUE <= s) && !(FALSE <= s) {
      TokenIsNumber(s);
      NumberExactly(v);
    }
  }

  lemma {:induction false} ValueSound(s: Text) returns (v: Text)
    requires ParseValue(s).Got?
    ensures s == v + ParseValue(s).rest && ValueText(ParseValue(s).value, v)
    decreases |s|, 0
  {
    if s[0] == LBRACE {
      v := ObjectSound(s);
    } else if s[0] == LBRACKET {
      v := ArraySound(s);
    } else if s[0] == QUOTE {
      v := QuotedSound(s);
    } else {
      v := PlainSound(s);
    }
  }

  lemma Enclosed(s: Text, open: Unit, w: Text, inner: Text, body: Text, close: Unit, rest: Text)
    requires s != [] && s[0] == open && s[1..] == w + inner && inner == body + ([close] + rest)
    ensures s == ([open] + ((w + body) + [close])) + rest
  {
    Regroup(w, body, [close] + rest);
    Regroup4([open], w + body, [close], rest);
    assert s == [s[0]] + s[1..];
  }

  lemma {:induction false} ArraySound(s: Text) returns (v: Text)
    requires s != [] && s[0] == LBRACKET && ParseValue(s).Got?
    ensures s == v + ParseValue(s).rest && ValueText(ParseValue(s).value, v)
    decreases |s|, 0, 0
  {
    var w := SkipSound(s[1..]);
    var inner := Skip(s[1..]);
    var body: Text := [];
    if inner[0] == RBRACKET {
      assert w + body == w && inner == body + ([RBRACKET] + inner[1..]);
      assert ElementsText(NoItems, w + body);
    } else {
      body := ItemsSound(inner);
      PadItems(ParseItems(inner).value, w, body);
      assert ElementsText(ParseItems(inner).value, w + body);
    }
    Enclosed(s, LBRACKET, w, inner, body, RBRACKET, ParseValue(s).rest);
    v := [LBRACKET] + ((w + body) + [RBRACKET]);
  }

  lemma Separated(s: Text, first: Text, after: Text, w: Text, more: Text, close: Text)
    requires s == first + after && after != [] && after[0] == COMMA && after[1..] == w + (more + close)
    ensures s == (first + ([COMMA] + (w + more))) + close
  {
    Regroup(w, more, close);
    Regroup4(first, [COMMA], w + more, close);
    assert after == [after[0]] + after[1..];
  }

  lemma {:induction false} ItemsSound(s: Text) returns (body: Text)
    requires ParseItems(s).Got?
    ensures s == body + ([RBRACKET] + ParseItems(s).rest)
    ensures ParseItems(s).value.Item? && ItemsText(ParseItems(s).value, body)
    decreases |s|, 1
  {
    var head := ParseValue(s);
    var v := ValueSound(s);
    var w := SkipSound(head.rest);
    var after := Skip(head.rest);
    Unpadded(head.value, v, w);
    Regroup(v, w, after);
    if after[0] == RBRACKET {
      body := v + w;
      assert after == [after[0]] + after[1..];
    } else {
      var w2 := SkipSound(after[1..]);
      var more := ItemsSound(Skip(after[1..]));
      PadItems(ParseItems(Skip(after[1..])).value, w2, more);
      body := (v + w) + ([COMMA] + (w2 + more));
      Separated(s, v + w, after, w2, more, [RBRACKET] + ParseItems(s).rest);
    }
  }

  lemma {:induction false} ObjectSound(s: Text) returns (v: Text)
    requires s != [] && s[0] == LBRACE && ParseValue(s).Got?
    ensures s == v + ParseValue(s).rest && ValueText(ParseValue(s).value, v)
    decreases |s|, 0, 0
  {
    var w := SkipSound(s[1..]);
    var inner := Skip(s[1..]);
    var body: Text := [];
    if inner[0] == RBRACE {
      assert w + body == w && inner == body + ([RBRACE] + inner[1..]);
      assert FieldsText(NoMembers, w + body);
    } else {
      body := MembersSound(inner);
      PadMembers(ParseMembers(inner).value, w, body);
      assert FieldsText(ParseMembers(inner).value, w + body);
    }
    Enclosed(s, LBRACE, w, inner, body, RBRACE, ParseValue(s).rest);
    v := [LBRACE] + ((w + body) + [RBRACE]);
  }

  /** A quoted key, blanks, a colon and blanks. */
  lemma KeySound(s: Text) returns (k: Text, w: Text)
    requires ParseKey(s).Got?
    ensures s == k + ([COLON] + (w + ParseKey(s).rest)) && PaddedString(ParseKey(s).value, k) && IsBlank(w)
  {
    var key := ParseChars(s[1..]);
    var v := QuotedSound(s);
    var before := SkipSound(key.rest);
    var after := Skip(key.rest);
    w := SkipSound(after[1..]);
    UnpaddedString(key.value, v, before);
    k := v + before;
    Regroup(v, before, after);
    assert after == [after[0]] + after[1..];
  }

  lemma MemberOf(key: Text, value: Syntax, k: Text, w: Text, v: Text, after: Text)
    requires PaddedString(key, k) && IsBlank(w) && ValueText(value, v) && IsBlank(after)
    ensures MemberText(key, value, k + ([COLON] + (w + (v + after))))
  {
    assert PaddedValue(value, w + (v + after));
  }

  lemma RegroupMember(k: Text, w: Text, v: Text, after: Text, rest: Text)
    ensures (k + ([COLON] + (w + (v + after)))) + rest == k + ([COLON] + (w + (v + (after + rest))))
  {
    Regroup4(k, [COLON], w + (v + after), rest);
    Regroup4(w, v, after, rest);
  }

  lemma {:induction false} MemberSound(s: Text) returns (first: Text)
    requires ParseKey(s).Got? && ParseValue(ParseKey(s).rest).Got?
    ensures var value := ParseValue(ParseKey(s).rest);
            s == first + Skip(value.rest) && MemberText(ParseKey(s).value, value.value, first)
    decreases |s|, 0, 0
  {
    var key := ParseKey(s);
    var value := ParseValue(key.rest);
    var k, w := KeySound(s);
    var v := ValueSound(key.rest);
    var after := SkipSound(value.rest);
    MemberOf(key.value, value.value, k, w, v, after);
    first := k + ([COLON] + (w + (v + after)));
    RegroupMember(k, w, v, after, Skip(value.rest));
  }

  lemma {:induction false} MembersSound(s: Text) returns (body: Text)
    requires ParseMembers(s).Got?
    ensures s == body + ([RBRACE] + ParseMembers(s).rest)
    ensures ParseMembers(s).value.Member? && MembersText(ParseMembers(s).value, body)
    decreases |s|, 1
  {
    var first := MemberSound(s);
    var after := Skip(ParseValue(ParseKey(s).rest).rest);
    if after[0] == RBRACE {
      body := first;
      assert after == [after[0]] + after[1..];
    } else {
      var w := SkipSound(after[1..]);
      var more := MembersSound(Skip(after[1..]));
      PadMembers(ParseMembers(Skip(after[1..])).value, w, more);
      body := first + ([COMMA] + (w + more));
      Separated(s, first, after, w, more, [RBRACE] + ParseMembers(s).rest);
    }
  }

  // ---------------------------------------------------------------- completeness

  lemma First(u: Unit, s: Text)
    ensures ([u] + s)[0] == u && ([u] + s)[1..] == s
  {
  }

  /** A value starts with none of the characters that end or separate values. */
  lemma ValueStart(t: Syntax, v: Text)
    requires ValueText(t, v)
    ensures v != [] && !IsSpace(v[0]) && v[0] != RBRACKET && v[0] != RBRACE && v[0] != COMMA
  {
    if t.Number? {
      NumberExactly(v);
      NumberStart(v);
    }
  }

  lemma QuotedComplete(u: Text, v: Text, rest: Text) returns (c: Text)
    requires StringText(u, v)
    ensures v + rest == [QUOTE] + c && ParseChars(c) == Got(u, rest)
  {
    var chars: Text :| CharsText(u, chars) && v == QUOTATION + (chars + QUOTATION);
    c := chars + ([QUOTE] + rest);
    CharsComplete(u, chars, rest);
    Regroup4([QUOTE], chars, [QUOTE], rest);
  }

  lemma {:induction false} ValueComplete(t: Syntax, v: Text, rest: Text)
    requires ValueText(t, v) && Stops(rest)
    ensures ParseValue(v + rest) == Got(t, rest)
    decreases t, 3
  {
    match t
    case Number(token) =>
      NumberExactly(token);
      NumberRoundTrip(token, rest);
    case Str(u) =>
      var c := QuotedComplete(u, v, rest);
      First(QUOTE, c);
    case Arr(items) => ArrayComplete(items, v, rest);
    case Obj(members) => ObjectComplete(members, v, rest);
    case _ => WordRoundTrip(t, rest);
  }

  lemma {:induction false} ArrayComplete(items: Items<Text>, v: Text, rest: Text)
    requires ValueText(Arr(items), v) && Stops(rest)
    ensures ParseValue(v + rest) == Got(Arr(items), rest)
    decreases items, 2
  {
    var body: Text :| ElementsText(items, body) && v == [LBRACKET] + (body + [RBRACKET]);
    var close := [RBRACKET] + rest;
    Regroup4([LBRACKET], body, [RBRACKET], rest);
    First(LBRACKET, body + close);
    First(RBRACKET, rest);
    if items.NoItems? {
      SkipComplete(body, close);
    } else {
      ItemsStart(items, body, close);
      ItemsComplete(items, body, rest);
    }
  }

  /** Skipping leads to the first unit of the value. */
  lemma PaddedStart(t: Syntax, s: Text, rest: Text)
    requires PaddedValue(t, s)
    ensures Skip(s + rest) != [] && Skip(s + rest)[0] != RBRACKET
  {
    var before: Text, v: Text, after: Text :|
      IsBlank(before) && ValueText(t, v) && IsBlank(after) && s == before + (v + after);
    ValueStart(t, v);
    Regroup4(before, v, after, rest);
    SkipComplete(before, v + (after + rest));
  }

  lemma ItemsStart(items: Items<Text>, body: Text, rest: Text)
    requires items.Item? && ItemsText(items, body)
    ensures Skip(body + rest) != [] && Skip(body + rest)[0] != RBRACKET
  {
    if items.tail.NoItems? {
      PaddedStart(items.head, body, rest);
    } else {
      var first: Text, more: Text :|
        PaddedValue(items.head, first) && ItemsText(items.tail, more) && body == first + ([COMMA] + more);
      PaddedStart(items.head, first, ([COMMA] + more) + rest);
      Regroup(first, [COMMA] + more, rest);
    }
  }

  lemma StopsAfter(after: Text, rest: Text)
    requires IsBlank(after) && Stops(rest)
    ensures Stops(after + rest)
  {
    if after == [] {
      assert after + rest == rest;
    } else {
      assert IsSpace(after[0]) && (after + rest)[0] == after[0];
    }
  }

  lemma NothingSkipped(v: Text, more: Text)
    requires v != [] && !IsSpace(v[0])
    ensures Skip(v + more) == v + more
  {
  }

  /** A value with its blanks, up to what stops it. */
  lemma {:induction false} PaddedComplete(t: Syntax, s: Text, rest: Text)
    requires PaddedValue(t, s) && Stops(rest) && Skip(rest) == rest
    ensures var r := ParseValue(Skip(s + rest)); r.Got? && r.value == t && Skip(r.rest) == rest
    decreases t, 4
  {
    var before: Text, v: Text, after: Text :|
      IsBlank(before) && ValueText(t, v) && IsBlank(after) && s == before + (v + after);
    Regroup4(before, v, after, rest);
    SkipComplete(before, v + (after + rest));
    ValueStart(t, v);
    NothingSkipped(v, after + rest);
    StopsAfter(after, rest);
    ValueComplete(t, v, after + rest);
    SkipComplete(after, rest);
  }

  lemma {:induction false} ItemsComplete(items: Items<Text>, body: Text, rest: Text)
    requires items.Item? && ItemsText(items, body) && Stops(rest)
    ensures ParseItems(Skip(body + ([RBRACKET] + rest))) == Got(items, rest)
    decreases items, 1
  {
    var close := [RBRACKET] + rest;
    First(RBRACKET, rest);
    if items.tail.NoItems? {
      PaddedComplete(items.head, body, close);
    } else {
      var first: Text, more: Text :|
        PaddedValue(items.head, first) && ItemsText(items.tail, more) && body == first + ([COMMA] + more);
      Regroup4(first, [COMMA], more, close);
      First(COMMA, more + close);
      PaddedComplete(items.head, first, [COMMA] + (more + close));
      ItemsComplete(items.tail, more, rest);
    }
  }

  lemma {:induction false} ObjectComplete(members: Members<Text>, v: Text, rest: Text)
    requires ValueText(Obj(members), v) && Stops(rest)
    ensures ParseValue(v + rest) == Got(Obj(members), rest)
    decreases members, 2
  {
    var body: Text :| FieldsText(members, body) && v == [LBRACE] + (body + [RBRACE]);
    var close := [RBRACE] + rest;
    Regroup4([LBRACE], body, [RBRACE], rest);
    First(LBRACE, body + close);
    First(RBRACE, rest);
    if members.NoMembers? {
      SkipComplete(body, close);
    } else {
      FieldsStart(members, body, close);
      MembersComplete(members, body, rest);
    }
  }

  lemma PaddedStringStart(key: Text, k: Text, rest: Text)
    requires PaddedString(key, k)
    ensures Skip(k + rest) != [] && Skip(k + rest)[0] == QUOTE
  {
    var before: Text, v: Text, after: Text :|
      IsBlank(before) && StringText(key, v) && IsBlank(after) && k == before + (v + after);
    Regroup4(before, v, after, rest);
    SkipComplete(before, v + (after + rest));
    var c := QuotedComplete(key, v, after + rest);
  }

  lemma MemberStart(key: Text, value: Syntax, s: Text, rest: Text)
    requires MemberText(key, value, s)
    ensures Skip(s + rest) != [] && Skip(s + rest)[0] == QUOTE
  {
    var k: Text, v: Text :| PaddedString(key, k) && PaddedValue(value, v) && s == k + ([COLON] + v);
    PaddedStringStart(key, k, ([COLON] + v) + rest);
    Regroup(k, [COLON] + v, rest);
  }

  lemma FieldsStart(members: Members<Text>, body: Text, rest: Text)
    requires members.Member? && MembersText(members, body)
    ensures Skip(body + rest) != [] && Skip(body + rest)[0] == QUOTE
  {
    if members.rest.NoMembers? {
      MemberStart(members.key, members.value, body, rest);
    } else {
      var first: Text, more: Text :|
        && MemberText(members.key, members.value, first) && MembersText(members.rest, more)
        && body == first + ([COMMA] + more);
      MemberStart(members.key, members.value, first, ([COMMA] + more) + rest);
      Regroup(first, [COMMA] + more, rest);
    }
  }

  /** A key with its blanks, its colon, and the blanks of its value. */
  lemma KeyComplete(key: Text, k: Text, rest: Text)
    requires PaddedString(key, k)
    ensures ParseKey(Skip(k + ([COLON] + rest))) == Got(key, Skip(rest))
  {
    var before: Text, v: Text, after: Text :|
      IsBlank(before) && StringText(key, v) && IsBlank(after) && k == before + (v + after);
    var tail := [COLON] + rest;
    Regroup4(before, v, after, tail);
    SkipComplete(before, v + (after + tail));
    var c := QuotedComplete(key, v, after + tail);
    First(QUOTE, c);
    SkipComplete(after, tail);
    First(COLON, rest);
  }

  lemma {:induction false} MemberComplete(key: Text, value: Syntax, s: Text, rest: Text)
    requires MemberText(key, value, s) && Stops(rest) && Skip(rest) == rest
    ensures var k := ParseKey(Skip(s + rest));
            && k.Got? && k.value == key
            && var r := ParseValue(k.rest); r.Got? && r.value == value && Skip(r.rest) == rest
    decreases value, 5
  {
    var k: Text, v: Text :| PaddedString(key, k) && PaddedValue(value, v) && s == k + ([COLON] + v);
    Regroup4(k, [COLON], v, rest);
    KeyComplete(key, k, v + rest);
    PaddedComplete(value, v, rest);
  }

  lemma {:induction false} MembersComplete(members: Members<Text>, body: Text, rest: Text)
    requires members.Member? && MembersText(members, body) && Stops(rest)
    ensures ParseMembers(Skip(body + ([RBRACE] + rest))) == Got(members, rest)
    decreases members, 1
  {
    var close := [RBRACE] + rest;
    First(RBRACE, rest);
    if members.rest.NoMembers? {
      MemberComplete(members.key, members.value, body, close);
    } else {
      var first: Text, more: Text :|
        && MemberText(members.key, members.value, first) && MembersText(members.rest, more)
        && body == first + ([COMMA] + more);
      Regroup4(first, [COMMA], more, close);
      First(COMMA, more + close);
      MemberComplete(members.key, members.value, first, [COMMA] + (more + close));
      MembersComplete(members.rest, more, rest);
    }
  }

  /** JSON.parse accepts exactly the JSON texts of the grammar, and returns the tree that the grammar assigns to them. */
  lemma ParsesExactly(t: Syntax, s: Text)
    ensures Parse(s) == Got(t, []) <==> PaddedValue(t, s)
  {
    if Parse(s) == Got(t, []) {
      var before := SkipSound(s);
      var v := ValueSound(Skip(s));
      var after := SkipSound(ParseValue(Skip(s)).rest);
      assert after + [] == after;
    }
    if PaddedValue(t, s) {
      assert s + [] == s;
      PaddedComplete(t, s, []);
    }
  }
}
