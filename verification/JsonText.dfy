/** JSON texts: JSON.stringify without white space and JSON.parse, over the grammar of RFC 8259. */
module JsonText {
  import opened Texts

  /** A JSON value whose numbers are of type `N`: doubles in a value, number tokens in a text. */
  datatype Tree<N> = Null | Bool(b: bool) | Number(n: N) | Str(s: Text) | Arr(items: Items<N>) | Obj(members: Members<N>)

  datatype Items<N> = NoItems | Item(head: Tree<N>, tail: Items<N>)

  /** Members in text order; a text, unlike an object, may repeat a key. */
  datatype Members<N> = NoMembers | Member(key: Text, value: Tree<N>, rest: Members<N>)

  type Syntax = Tree<Text>

  const QUOTE: Unit := 34
  const COMMA: Unit := 44
  const MINUS: Unit := 45
  const DOT: Unit := 46
  const ZERO: Unit := 48
  const COLON: Unit := 58
  const LBRACKET: Unit := 91
  const BACKSLASH: Unit := 92
  const RBRACKET: Unit := 93
  const LBRACE: Unit := 123
  const RBRACE: Unit := 125
  const NULL: Text := [110, 117, 108, 108]
  const TRUE: Text := [116, 114, 117, 101]
  const FALSE: Text := [102, 97, 108, 115, 101]

  // ---------------------------------------------------------------- printing

  function HexDigit(d: int): Unit
    requires 0 <= d < 16
  {
    if d < 10 then 48 + d else 87 + d
  }

  function UnicodeEscape(u: Unit): Text {
    [BACKSLASH, 117, HexDigit(u / 4096), HexDigit(u / 256 % 16), HexDigit(u / 16 % 16), HexDigit(u % 16)]
  }

  /** The letter of a two-unit escape sequence, or 0. */
  function ShortEscape(u: Unit): Unit {
    if u == QUOTE || u == BACKSLASH then u
    else if u == 8 then 98
    else if u == 12 then 102
    else if u == 10 then 110
    else if u == 13 then 114
    else if u == 9 then 116
    else 0
  }

  /** The inside of a quoted string; a surrogate without its partner is escaped, in lower-case hexadecimal. */
  function Escape(s: Text): Text
    decreases |s|
  {
    if s == [] then []
    else if |s| >= 2 && IsHigh(s[0]) && IsLow(s[1]) then [s[0], s[1]] + Escape(s[2..])
    else if ShortEscape(s[0]) != 0 then [BACKSLASH, ShortEscape(s[0])] + Escape(s[1..])
    else if s[0] < 32 || IsSurrogate(s[0]) then UnicodeEscape(s[0]) + Escape(s[1..])
    else [s[0]] + Escape(s[1..])
  }

  function Quoted(s: Text): Text {
    [QUOTE] + Escape(s) + [QUOTE]
  }

  function Print(t: Syntax): Text {
    match t
    case Null => NULL
    case Bool(b) => if b then TRUE else FALSE
    case Number(token) => token
    case Str(s) => Quoted(s)
    case Arr(items) => [LBRACKET] + PrintItems(items) + [RBRACKET]
    case Obj(members) => [LBRACE] + PrintMembers(members) + [RBRACE]
  }

  function PrintItems(items: Items<Text>): Text {
    match items
    case NoItems => []
    case Item(head, tail) => Print(head) + (if tail.NoItems? then [] else [COMMA] + PrintItems(tail))
  }

  function PrintMembers(members: Members<Text>): Text {
    match members
    case NoMembers => []
    case Member(key, value, rest) =>
      Quoted(key) + [COLON] + Print(value) + (if rest.NoMembers? then [] else [COMMA] + PrintMembers(rest))
  }

  // ---------------------------------------------------------------- parsing

  datatype Parsed<T> = Fail | Got(value: T, rest: Text)

  predicate IsSpace(u: Unit) {
    u == 32 || u == 9 || u == 10 || u == 13
  }

  function Skip(s: Text): (r: Text)
    ensures |r| <= |s|
  {
    if s != [] && IsSpace(s[0]) then Skip(s[1..]) else s
  }

  predicate IsDigit(u: Unit) {
    48 <= u <= 57
  }

  /** Length of the longest run of digits at the start. */
  function Digits(s: Text): (n: nat)
    ensures n <= |s|
  {
    if s != [] && IsDigit(s[0]) then 1 + Digits(s[1..]) else 0
  }

  /** Length of the integer part, or 0: a single zero, or digits that do not start with zero. */
  function IntegerPart(s: Text): (n: nat)
    ensures n <= |s|
  {
    if s != [] && s[0] == ZERO then 1 else Digits(s)
  }

  /** Length of a fraction, 0 if there is none; `Fail` if a point is not followed by a digit. */
  function FractionPart(s: Text): (r: Parsed<nat>)
    ensures r.Got? ==> r.value <= |s|
  {
    if s == [] || s[0] != DOT then Got(0, s)
    else if Digits(s[1..]) == 0 then Fail
    else Got(1 + Digits(s[1..]), s)
  }

  function ExponentPart(s: Text): (r: Parsed<nat>)
    ensures r.Got? ==> r.value <= |s|
  {
    if s == [] || (s[0] != 101 && s[0] != 69) then Got(0, s)
    else
      var sign := if |s| > 1 && (s[1] == 43 || s[1] == MINUS) then 2 else 1;
      if Digits(s[sign..]) == 0 then Fail else Got(sign + Digits(s[sign..]), s)
  }

  /** Length of fraction and exponent together. */
  function TailLength(s: Text): (r: Parsed<nat>)
    ensures r.Got? ==> r.value <= |s|
  {
    var fraction := FractionPart(s);
    if fraction.Fail? then Fail
    else
      var exponent := ExponentPart(s[fraction.value..]);
      if exponent.Fail? then Fail else Got(fraction.value + exponent.value, s)
  }

  /** Length of a number without its sign, or 0. */
  function UnsignedLength(s: Text): (n: nat)
    ensures n <= |s|
  {
    var whole := IntegerPart(s);
    var tail := TailLength(s[whole..]);
    if whole == 0 || tail.Fail? then 0 else whole + tail.value
  }

  /** Length of the number at the start of the text, or 0. */
  function NumberLength(s: Text): (n: nat)
    ensures n <= |s|
  {
    if s != [] && s[0] == MINUS then
      var n := UnsignedLength(s[1..]);
      if n == 0 then 0 else 1 + n
    else UnsignedLength(s)
  }

  /** A whole text that is one number. */
  predicate IsNumber(token: Text) {
    token != [] && NumberLength(token) == |token|
  }

  function HexValue(u: Unit): int {
    if IsDigit(u) then u - 48
    else if 97 <= u <= 102 then u - 87
    else if 65 <= u <= 70 then u - 55
    else -1
  }

  /** What the letter of a two-unit escape sequence stands for, or -1. */
  function Unescape(u: Unit): int {
    if u == QUOTE || u == BACKSLASH || u == 47 then u
    else if u == 98 then 8
    else if u == 102 then 12
    else if u == 110 then 10
    else if u == 114 then 13
    else if u == 116 then 9
    else -1
  }

  predicate StartsUnicodeEscape(s: Text) {
    |s| >= 6 && s[0] == BACKSLASH && s[1] == 117
    && HexValue(s[2]) >= 0 && HexValue(s[3]) >= 0 && HexValue(s[4]) >= 0 && HexValue(s[5]) >= 0
  }

  function UnicodeValue(s: Text): Unit
    requires StartsUnicodeEscape(s)
  {
    HexValue(s[2]) * 4096 + HexValue(s[3]) * 256 + HexValue(s[4]) * 16 + HexValue(s[5])
  }

  function Prepend(u: Unit, r: Parsed<Text>): Parsed<Text> {
    if r.Fail? then Fail else Got([u] + r.value, r.rest)
  }

  /** The inside of a string up to and including its closing quote. */
  function ParseChars(s: Text): (r: Parsed<Text>)
    ensures r.Got? ==> |r.rest| < |s|
    decreases |s|
  {
    if s == [] || s[0] < 32 then Fail
    else if s[0] == QUOTE then Got([], s[1..])
    else if s[0] != BACKSLASH then Prepend(s[0], ParseChars(s[1..]))
    else if StartsUnicodeEscape(s) then Prepend(UnicodeValue(s), ParseChars(s[6..]))
    else if |s| >= 2 && Unescape(s[1]) >= 0 then Prepend(Unescape(s[1]), ParseChars(s[2..]))
    else Fail
  }

  function ParseValue(s: Text): (r: Parsed<Syntax>)
    ensures r.Got? ==> |r.rest| < |s|
    decreases |s|, 0
  {
    if s == [] then Fail
    else if s[0] == LBRACE then
      var inner := Skip(s[1..]);
      if inner != [] && inner[0] == RBRACE then Got(Obj(NoMembers), inner[1..])
      else
        var r := ParseMembers(inner);
        if r.Fail? then Fail else Got(Obj(r.value), r.rest)
    else if s[0] == LBRACKET then
      var inner := Skip(s[1..]);
      if inner != [] && inner[0] == RBRACKET then Got(Arr(NoItems), inner[1..])
      else
        var r := ParseItems(inner);
        if r.Fail? then Fail else Got(Arr(r.value), r.rest)
    else if s[0] == QUOTE then
      var r := ParseChars(s[1..]);
      if r.Fail? then Fail else Got(Str(r.value), r.rest)
    else if NULL <= s then Got(Null, s[4..])
    else if TRUE <= s then Got(Bool(true), s[4..])
    else if FALSE <= s then Got(Bool(false), s[5..])
    else
      var n := NumberLength(s);
      if n == 0 then Fail else Got(Number(s[..n]), s[n..])
  }

  /** One or more items and the closing bracket. */
  function ParseItems(s: Text): (r: Parsed<Items<Text>>)
    ensures r.Got? ==> |r.rest| < |s|
    decreases |s|, 1
  {
    var head := ParseValue(s);
    if head.Fail? then Fail
    else
      var after := Skip(head.rest);
      if after == [] then Fail
      else if after[0] == RBRACKET then Got(Item(head.value, NoItems), after[1..])
      else if after[0] != COMMA then Fail
      else
        var tail := ParseItems(Skip(after[1..]));
        if tail.Fail? then Fail else Got(Item(head.value, tail.value), tail.rest)
  }

  /** A quoted key and its colon. */
  function ParseKey(s: Text): (r: Parsed<Text>)
    ensures r.Got? ==> |r.rest| < |s|
  {
    if s == [] || s[0] != QUOTE then Fail
    else
      var key := ParseChars(s[1..]);
      if key.Fail? then Fail
      else
        var after := Skip(key.rest);
        if after == [] || after[0] != COLON then Fail else Got(key.value, Skip(after[1..]))
  }

  /** One or more members and the closing brace. */
  function ParseMembers(s: Text): (r: Parsed<Members<Text>>)
    ensures r.Got? ==> |r.rest| < |s|
    decreases |s|, 1
  {
    var key := ParseKey(s);
    if key.Fail? then Fail
    else
      var value := ParseValue(key.rest);
      if value.Fail? then Fail
      else
        var after := Skip(value.rest);
        if after == [] then Fail
        else if after[0] == RBRACE then Got(Member(key.value, value.value, NoMembers), after[1..])
        else if after[0] != COMMA then Fail
        else
          var rest := ParseMembers(Skip(after[1..]));
          if rest.Fail? then Fail else Got(Member(key.value, value.value, rest.value), rest.rest)
  }

  /** A complete JSON text; `Fail` is a SyntaxError. */
  function Parse(s: Text): Parsed<Syntax> {
    var r := ParseValue(Skip(s));
    if r.Fail? || Skip(r.rest) != [] then Fail else Got(r.value, [])
  }
}
