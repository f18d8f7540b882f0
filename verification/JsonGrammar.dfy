/**
 The grammar of sections 2 to 7 of RFC 8259, as concrete syntax trees that keep every byte.
 A `char` stands for one byte of the text; `Decoder` stands for decoding one string literal,
 which may fail (bad UTF-8, a lone surrogate escape).
 */
module JsonGrammar {
  import opened Options

  type Decoder = string -> Option<string>

  predicate IsSpace(c: char) { c == ' ' || c == '\t' || c == '\r' || c == '\n' }

  predicate IsDigit(c: char) { '0' <= c <= '9' }

  predicate IsHex(c: char) { '0' <= c <= '9' || 'a' <= c <= 'f' || 'A' <= c <= 'F' }

  predicate IsGap(s: string) { forall i | 0 <= i < |s| :: IsSpace(s[i]) }

  predicate IsDigits(s: string) { s != [] && forall i | 0 <= i < |s| :: IsDigit(s[i]) }

  predicate IsShortEscape(c: char) { c in "\"\\/bfnrt" }

  predicate IsUnescaped(c: char) { ' ' <= c && c != '"' && c != '\\' }

  /** The bytes between the quotation marks of a string literal. */
  predicate IsStringBody(s: string)
  {
    || s == []
    || (IsUnescaped(s[0]) && IsStringBody(s[1..]))
    || (s[0] == '\\' && |s| >= 2 && IsShortEscape(s[1]) && IsStringBody(s[2..]))
    || (s[0] == '\\' && |s| >= 6 && s[1] == 'u' && (forall i | 2 <= i < 6 :: IsHex(s[i]))
        && IsStringBody(s[6..]))
  }

  datatype Exponent = Exponent(mark: char, sign: string, digits: string)

  datatype Value =
    | Word(word: string)
    | Number(negative: bool, whole: string, fraction: Option<string>, exponent: Option<Exponent>)
    | Text(body: string)
    | EmptyArray(gap: string)
    | Array(items: Items)
    | EmptyObject(gap: string)
    | Object(members: Members)

  datatype Items = NoItem | Item(before: string, value: Value, after: string, rest: Items)

  datatype Members =
    | NoMember
    | Member(before: string, key: string, middle: string, gap: string, value: Value, after: string,
             rest: Members)

  function PrintFraction(f: Option<string>): string { if f.None? then "" else "." + f.value }

  function PrintExponent(e: Option<Exponent>): string
  {
    if e.None? then "" else [e.value.mark] + (e.value.sign + e.value.digits)
  }

  function PrintUnsigned(whole: string, f: Option<string>, e: Option<Exponent>): string
  {
    whole + (PrintFraction(f) + PrintExponent(e))
  }

  function Quoted(body: string): string { "\"" + (body + "\"") }

  function Print(v: Value): string
  {
    match v
    case Word(w) => w
    case Number(neg, whole, f, e) =>
      if neg then "-" + PrintUnsigned(whole, f, e) else PrintUnsigned(whole, f, e)
    case Text(body) => Quoted(body)
    case EmptyArray(gap) => "[" + (gap + "]")
    case Array(items) => "[" + PrintItems(items)
    case EmptyObject(gap) => "{" + (gap + "}")
    case Object(members) => "{" + PrintMembers(members)
  }

  /** The items of an array up to and including its closing bracket. */
  function PrintItems(i: Items): string
  {
    match i
    case NoItem => "]"
    case Item(before, v, after, rest) =>
      ItemText(before, Print(v), after, if rest.NoItem? then "]" else "," + PrintItems(rest))
  }

  function ItemText(before: string, value: string, after: string, tail: string): string
  {
    before + (value + (after + tail))
  }

  /** The members of an object up to and including its closing brace. */
  function PrintMembers(m: Members): string
  {
    match m
    case NoMember => "}"
    case Member(before, key, middle, gap, v, after, rest) =>
      MemberText(before, Quoted(key), middle, ItemText(gap, Print(v), after,
        if rest.NoMember? then "}" else "," + PrintMembers(rest)))
  }

  function MemberText(before: string, key: string, middle: string, item: string): string
  {
    before + (key + (middle + (":" + item)))
  }

  predicate WellFormedNumber(v: Value)
    requires v.Number?
  {
    && IsDigits(v.whole)
    && (v.whole[0] == '0' ==> |v.whole| == 1)
    && (v.fraction.Some? ==> IsDigits(v.fraction.value))
    && (v.exponent.Some? ==>
          && (v.exponent.value.mark == 'e' || v.exponent.value.mark == 'E')
          && (v.exponent.value.sign == "" || v.exponent.value.sign == "+" || v.exponent.value.sign == "-")
          && IsDigits(v.exponent.value.digits))
  }

  /** The tree follows the grammar and every one of its string literals decodes. */
  predicate WellFormed(v: Value, decode: Decoder)
  {
    match v
    case Word(w) => w == "true" || w == "false" || w == "null"
    case Number(_, _, _, _) => WellFormedNumber(v)
    case Text(body) => IsStringBody(body) && decode(Quoted(body)).Some?
    case EmptyArray(gap) => IsGap(gap)
    case Array(items) => items.Item? && WellFormedItems(items, decode)
    case EmptyObject(gap) => IsGap(gap)
    case Object(members) => members.Member? && WellFormedMembers(members, decode)
  }

  predicate WellFormedItems(i: Items, decode: Decoder)
  {
    match i
    case NoItem => true
    case Item(before, v, after, rest) =>
      IsGap(before) && WellFormed(v, decode) && IsGap(after) && WellFormedItems(rest, decode)
  }

  predicate WellFormedMembers(m: Members, decode: Decoder)
  {
    match m
    case NoMember => true
    case Member(before, key, middle, gap, v, after, rest) =>
      && IsGap(before) && IsStringBody(key) && decode(Quoted(key)).Some? && IsGap(middle)
      && IsGap(gap) && WellFormed(v, decode) && IsGap(after) && WellFormedMembers(rest, decode)
  }

  function DecodedKeys(m: Members, decode: Decoder): (keys: seq<string>)
    requires WellFormedMembers(m, decode)
  {
    if m.NoMember? then [] else [decode(Quoted(m.key)).value] + DecodedKeys(m.rest, decode)
  }

  predicate Distinct(keys: seq<string>) { forall i, j | 0 <= i < j < |keys| :: keys[i] != keys[j] }

  /** No object at any depth has two keys that decode to the same string. */
  predicate UniqueKeys(v: Value, decode: Decoder)
    requires WellFormed(v, decode)
  {
    match v
    case Array(items) => UniqueKeysInItems(items, decode)
    case Object(members) =>
      Distinct(DecodedKeys(members, decode)) && UniqueKeysInMembers(members, decode)
    case _ => true
  }

  predicate UniqueKeysInItems(i: Items, decode: Decoder)
    requires WellFormedItems(i, decode)
  {
    i.Item? ==> UniqueKeys(i.value, decode) && UniqueKeysInItems(i.rest, decode)
  }

  predicate UniqueKeysInMembers(m: Members, decode: Decoder)
    requires WellFormedMembers(m, decode)
  {
    m.Member? ==> UniqueKeys(m.value, decode) && UniqueKeysInMembers(m.rest, decode)
  }

  /** `raw` is the text of some grammar tree, its surrounding gaps included. */
  ghost predicate IsTextOf(raw: string, before: string, v: Value, after: string, decode: Decoder)
  {
    IsGap(before) && WellFormed(v, decode) && IsGap(after) && raw == before + (Print(v) + after)
  }
}
