/** The grammar of RFC 8259 as a relation between syntax trees and texts, with white space, all escapes and all number
    forms: the parser accepts exactly the texts of the grammar, and returns their trees. */
module JsonGrammar {
  import opened Texts
  import opened JsonText
  import opened JsonRoundTrip

  // ---------------------------------------------------------------- the grammar

  /** Section 2: insignificant white space. */
  predicate IsBlank(s: Text) {
    forall i | 0 <= i < |s| :: s[i] == 0x20 || s[i] == 0x09 || s[i] == 0x0A || s[i] == 0x0D
  }

  predicate DigitUnit(u: Unit) {
    '0' as int <= u <= '9' as int
  }

  predicate AreDigits(s: Text) {
    s != [] && forall i | 0 <= i < |s| :: DigitUnit(s[i])
  }

  /** Section 6: no leading zeros. */
  predicate WholeText(s: Text) {
    s == ['0' as int] || (AreDigits(s) && s[0] != '0' as int)
  }

  predicate FractionText(s: Text) {
    s == [] || (s[0] == '.' as int && AreDigits(s[1..]))
  }

  predicate ExponentText(s: Text) {
    || s == []
    || ((s[0] == 'e' as int || s[0] == 'E' as int)
        && (AreDigits(s[1..]) || (|s| >= 2 && (s[1] == '+' as int || s[1] == '-' as int) && AreDigits(s[2..]))))
  }

  ghost predicate UnsignedText(s: Text) {
    exists whole: Text, fraction: Text, exponent: Text ::
      WholeText(whole) && FractionText(fraction) && ExponentText(exponent) && s == whole + (fraction + exponent)
  }

  ghost predicate NumberText(s: Text) {
    s != [] && UnsignedText(if s[0] == '-' as int then s[1..] else s)
  }

  function HexOf(u: Unit): int {
    if '0' as int <= u <= '9' as int then u as int - '0' as int
    else if 'a' as int <= u <= 'f' as int then u as int - 'a' as int + 10
    else if 'A' as int <= u <= 'F' as int then u as int - 'A' as int + 10
    else -1
  }

  /** Section 7: the escapes of one letter. */
  predicate LetterEscape(letter: Unit, u: Unit) {
    || (letter == '\"' as int && u == '\"' as int) || (letter == '\\' as int && u == '\\' as int)
    || (letter == '/' as int && u == '/' as int)
    || (letter == 'b' as int && u == 0x08) || (letter == 'f' as int && u == 0x0C)
    || (letter == 'n' as int && u == 0x0A) || (letter == 'r' as int && u == 0x0D) || (letter == 't' as int && u == 0x09)
  }

  predicate HexEscape(s: Text, u: Unit) {
    && |s| >= 6 && s[0] == '\\' as int && s[1] == 'u' as int
    && HexOf(s[2]) >= 0 && HexOf(s[3]) >= 0 && HexOf(s[4]) >= 0 && HexOf(s[5]) >= 0
    && u as int == 0x1000 * HexOf(s[2]) + 0x100 * HexOf(s[3]) + 0x10 * HexOf(s[4]) + HexOf(s[5])
  }

  /** The inside of a string that stands for `u`. */
  predicate CharsText(u: Text, s: Text)
    decreases |s|
  {
    if s == [] then u == []
    else
      && u != []
      && ( || (s[0] >= 0x20 && s[0] != '\"' as int && s[0] != '\\' as int && u[0] == s[0] && CharsText(u[1..], s[1..]))
           || (|s| >= 2 && s[0] == '\\' as int && LetterEscape(s[1], u[0]) && CharsText(u[1..], s[2..]))
           || (HexEscape(s, u[0]) && CharsText(u[1..], s[6..])))
  }

  const QUOTATION := ['\"' as int]

  ghost predicate StringText(u: Text, s: Text) {
    exists chars: Text :: CharsText(u, chars) && s == QUOTATION + (chars + QUOTATION)
  }

  /** The text of a value, without the white space around it. */
  ghost predicate ValueText(t: Syntax, s: Text)
    decreases t, 0
  {
    match t
    case Null => s == ['n' as int, 'u' as int, 'l' as int, 'l' as int]
    case Bool(b) =>
      s == if b then ['t' as int, 'r' as int, 'u' as int, 'e' as int]
           else ['f' as int, 'a' as int, 'l' as int, 's' as int, 'e' as int]
    case Number(token) => s == token && NumberText(token)
    case Str(u) => StringText(u, s)
    case Arr(items) => exists body: Text :: ElementsText(items, body) && s == ['[' as int] + (body + [']' as int])
    case Obj(members) => exists body: Text :: FieldsText(members, body) && s == ['{' as int] + (body + ['}' as int])
  }

  ghost predicate PaddedValue(t: Syntax, s: Text)
    decreases t, 1
  {
    exists before: Text, v: Text, after: Text ::
      IsBlank(before) && ValueText(t, v) && IsBlank(after) && s == before + (v + after)
  }

  ghost predicate PaddedString(u: Text, s: Text) {
    exists before: Text, v: Text, after: Text ::
      IsBlank(before) && StringText(u, v) && IsBlank(after) && s == before + (v + after)
  }

  /** The inside of an array. */
  ghost predicate ElementsText(items: Items<Text>, s: Text)
    decreases items, 1
  {
    if items.NoItems? then IsBlank(s) else ItemsText(items, s)
  }

  ghost predicate ItemsText(items: Items<Text>, s: Text)
    requires items.Item?
    decreases items, 0
  {
    if items.tail.NoItems? then PaddedValue(items.head, s)
    else exists first: Text, rest: Text ::
           PaddedValue(items.head, first) && ItemsText(items.tail, rest) && s == first + ([',' as int] + rest)
  }

  ghost predicate MemberText(key: Text, value: Syntax, s: Text)
    decreases value, 2
  {
    exists k: Text, v: Text :: PaddedString(key, k) && PaddedValue(value, v) && s == k + ([':' as int] + v)
  }

  /** The inside of an object. */
  ghost predicate FieldsText(members: Members<Text>, s: Text)
    decreases members, 1
  {
    if members.NoMembers? then IsBlank(s) else MembersText(members, s)
  }

  ghost predicate MembersText(members: Members<Text>, s: Text)
    requires members.Member?
    decreases members, 0
  {
    if members.rest.NoMembers? then MemberText(members.key, members.value, s)
    else exists first: Text, rest: Text ::
           && MemberText(members.key, members.value, first) && MembersText(members.rest, rest)
           && s == first + ([',' as int] + rest)
  }
}
