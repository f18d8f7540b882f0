/**
 The scanner accepts exactly the texts of the grammar whose string literals all decode and in
 which no object repeats a decoded key; such a text with a repeated key gets the duplicate error.
 */
module JsonTheorems {
  import opened Options
  import opened JsonGrammar
  import opened JsonScanner

  /** What may follow a value inside a text: the end, a gap, a separator or a closing bracket. */
  predicate Follows(rest: string)
  {
    rest == [] || IsSpace(rest[0]) || rest[0] == ',' || rest[0] == ']' || rest[0] == '}'
  }

  function Leading(s: string): (gap: string)
    ensures IsGap(gap) && s == gap + AfterSpace(s)
  {
    if s != [] && IsSpace(s[0]) then
      assert s == [s[0]] + s[1..];
      [s[0]] + Leading(s[1..])
    else []
  }

  lemma {:induction false} GapIsSkipped(gap: string, s: string)
    requires IsGap(gap)
    ensures AfterSpace(gap + s) == AfterSpace(s)
  {
    if gap == [] {
      assert gap + s == s;
    } else {
      assert (gap + s)[1..] == gap[1..] + s;
      GapIsSkipped(gap[1..], s);
    }
  }

  // ---------------------------------------------------------------- string literals

  lemma {:induction false} BodyComplete(body: string, rest: string)
    requires IsStringBody(body)
    ensures AfterBody(body + ("\"" + rest)) == Some(rest)
  {
    var s := body + ("\"" + rest);
    if body == [] {
      assert s[1..] == rest;
    } else if IsUnescaped(body[0]) && IsStringBody(body[1..]) {
      assert s[1..] == body[1..] + ("\"" + rest);
      BodyComplete(body[1..], rest);
    } else if |body| >= 2 && IsShortEscape(body[1]) && IsStringBody(body[2..]) {
      assert s[1..][1..] == body[2..] + ("\"" + rest);
      BodyComplete(body[2..], rest);
    } else {
      assert forall i | 1 <= i < 5 :: s[1..][i] == body[i + 1];
      assert s[1..][5..] == body[6..] + ("\"" + rest);
      BodyComplete(body[6..], rest);
    }
  }

  predicate IsEscape(p: string)
  {
    && |p| >= 2 && p[0] == '\\'
    && ((|p| == 2 && IsShortEscape(p[1])) || (|p| == 6 && p[1] == 'u' && forall i | 2 <= i < 6 :: IsHex(p[i])))
  }

  lemma {:induction false} EscapedBody(p: string, tail: string)
    requires IsEscape(p) && IsStringBody(tail)
    ensures IsStringBody(p + tail)
  {
    var s := p + tail;
    assert s[|p|..] == tail;
    assert forall i | 0 <= i < |p| :: s[i] == p[i];
  }

  lemma EscapeSound(s: string) returns (p: string)
    requires s != [] && s[0] == '\\' && AfterEscape(s[1..]).Some?
    ensures IsEscape(p) && s == p + AfterEscape(s[1..]).value
  {
    var t := s[1..];
    if IsShortEscape(t[0]) {
      p := s[..2];
      assert t[1..] == s[2..];
    } else {
      p := s[..6];
      assert t[5..] == s[6..];
      forall i | 2 <= i < 6 ensures IsHex(p[i]) { assert p[i] == t[i - 1]; }
    }
  }

  lemma {:induction false} BodySound(s: string) returns (body: string)
    requires AfterBody(s).Some?
    ensures IsStringBody(body) && s == body + ("\"" + AfterBody(s).value)
    decreases |s|, 1
  {
    HeadAndTail(s);
    if s[0] == '"' {
      body := [];
    } else if s[0] != '\\' {
      var tail := BodySound(s[1..]);
      body := [s[0]] + tail;
      assert body[1..] == tail;
      Associate([s[0]], tail, "\"" + AfterBody(s).value);
    } else {
      body := EscapedBodySound(s);
    }
  }

  lemma {:induction false} EscapedBodySound(s: string) returns (body: string)
    requires s != [] && s[0] == '\\' && AfterBody(s).Some?
    ensures IsStringBody(body) && s == body + ("\"" + AfterBody(s).value)
    decreases |s|, 0
  {
    var p := EscapeSound(s);
    var t := AfterEscape(s[1..]).value;
    var tail := BodySound(t);
    body := p + tail;
    EscapedBody(p, tail);
    Associate(p, tail, "\"" + AfterBody(t).value);
  }

  lemma Associate(a: string, b: string, c: string)
    ensures (a + b) + c == a + (b + c)
  {
  }

  lemma HeadAndTail(s: string)
    requires s != []
    ensures s == [s[0]] + s[1..]
  {
  }

  lemma Adjoin(s: string, n: nat, k: nat)
    requires n + k <= |s|
    ensures s[..n] + s[n..][..k] == s[..n + k]
  {
  }

  lemma {:induction false} StringComplete(body: string, rest: string, decode: Decoder)
    requires IsStringBody(body) && decode(Quoted(body)).Some?
    ensures AfterString(Quoted(body) + rest, decode) == Scanned(decode(Quoted(body)).value, rest)
  {
    var s := Quoted(body) + rest;
    assert s[1..] == body + ("\"" + rest);
    BodyComplete(body, rest);
    assert s[..|s| - |rest|] == Quoted(body);
  }

  lemma {:induction false} StringSound(s: string, decode: Decoder) returns (body: string)
    requires AfterString(s, decode).Scanned?
    ensures IsStringBody(body) && decode(Quoted(body)) == Some(AfterString(s, decode).value)
    ensures s == Quoted(body) + AfterString(s, decode).rest
  {
    body := BodySound(s[1..]);
    var rest := AfterBody(s[1..]).value;
    HeadAndTail(s);
    QuotedAppends(body, rest);
  }

  lemma QuotedAppends(body: string, rest: string)
    ensures "\"" + (body + ("\"" + rest)) == Quoted(body) + rest
    ensures var s := Quoted(body) + rest; s[..|s| - |rest|] == Quoted(body)
  {
    Associate("\"", body + "\"", rest);
    Associate(body, "\"", rest);
  }

  // ---------------------------------------------------------------- numbers

  lemma {:induction false} DigitsComplete(digits: string, rest: string)
    requires forall i | 0 <= i < |digits| :: IsDigit(digits[i])
    requires rest == [] || !IsDigit(rest[0])
    ensures DigitCount(digits + rest) == |digits|
  {
    if digits == [] {
      assert digits + rest == rest;
    } else {
      assert (digits + rest)[1..] == digits[1..] + rest;
      DigitsComplete(digits[1..], rest);
    }
  }

  lemma {:induction false} DigitsSound(s: string)
    ensures forall i | 0 <= i < DigitCount(s) :: IsDigit(s[i])
    ensures DigitCount(s) < |s| ==> !IsDigit(s[DigitCount(s)])
  {
    if s != [] && IsDigit(s[0]) {
      DigitsSound(s[1..]);
      forall i | 0 <= i < DigitCount(s) ensures IsDigit(s[i]) {
        if i > 0 { assert s[i] == s[1..][i - 1]; }
      }
    }
  }

  lemma FractionComplete(f: Option<string>, rest: string)
    requires f.Some? ==> IsDigits(f.value)
    requires rest == [] || (!IsDigit(rest[0]) && rest[0] != '.')
    ensures FractionLength(PrintFraction(f) + rest) == |PrintFraction(f)|
  {
    if f.Some? {
      assert (PrintFraction(f) + rest)[1..] == f.value + rest;
      DigitsComplete(f.value, rest);
    } else {
      assert PrintFraction(f) + rest == rest;
    }
  }

  lemma ExponentComplete(e: Exponent, rest: string)
    requires e.mark == 'e' || e.mark == 'E'
    requires (e.sign == "" || e.sign == "+" || e.sign == "-") && IsDigits(e.digits)
    requires rest == [] || !IsDigit(rest[0])
    ensures ExponentLength(([e.mark] + (e.sign + e.digits)) + rest) == 1 + |e.sign| + |e.digits|
  {
    var s := ([e.mark] + (e.sign + e.digits)) + rest;
    var k := 1 + |e.sign|;
    assert s[k..] == e.digits + rest;
    assert s[k] == e.digits[0];
    DigitsComplete(e.digits, rest);
    if e.sign != "" {
      assert s[1] == e.sign[0];
    }
  }

  lemma TailComplete(v: Value, rest: string)
    requires v.Number? && WellFormedNumber(v) && Follows(rest)
    ensures var f, e := PrintFraction(v.fraction), PrintExponent(v.exponent);
            TailLength(f + (e + rest)) == |f| + |e|
  {
    var f, e := PrintFraction(v.fraction), PrintExponent(v.exponent);
    var s := f + (e + rest);
    FractionComplete(v.fraction, e + rest);
    assert s[|f|..] == e + rest;
    if v.exponent.Some? {
      ExponentComplete(v.exponent.value, rest);
    } else {
      assert e + rest == rest;
    }
  }

  lemma WholeComplete(whole: string, tail: string)
    requires IsDigits(whole) && (whole[0] == '0' ==> |whole| == 1)
    requires tail == [] || !IsDigit(tail[0])
    ensures UnsignedLength(whole + tail) == Some(|whole| + TailLength(tail))
  {
    var s := whole + tail;
    assert s[0] == whole[0];
    DigitsComplete(whole, tail);
    var n := if s[0] == '0' then 1 else DigitCount(s);
    assert n == |whole|;
    assert s[n..] == tail;
  }

  /** `text` is an unsigned number and what follows it, without the nesting of its printed form. */
  lemma UnsignedComplete(whole: string, tail: string, text: string, n: nat)
    requires IsDigits(whole) && (whole[0] == '0' ==> |whole| == 1)
    requires tail == [] || !IsDigit(tail[0])
    requires text == whole + tail && n == |whole| + TailLength(tail)
    ensures UnsignedLength(text) == Some(n) && text != [] && IsDigit(text[0])
  {
    WholeComplete(whole, tail);
  }

  lemma UnsignedAppends(whole: string, f: string, e: string, rest: string)
    ensures (whole + (f + e)) + rest == whole + (f + (e + rest))
  {
    Associate(whole, f + e, rest);
    Associate(f, e, rest);
  }

  lemma PrintedUnsignedComplete(v: Value, rest: string)
    requires v.Number? && WellFormedNumber(v) && Follows(rest)
    ensures var t := PrintUnsigned(v.whole, v.fraction, v.exponent) + rest;
            && t != [] && IsDigit(t[0])
            && UnsignedLength(t) == Some(|PrintUnsigned(v.whole, v.fraction, v.exponent)|)
  {
    var f, e := PrintFraction(v.fraction), PrintExponent(v.exponent);
    TailComplete(v, rest);
    TailStarts(v, rest);
    UnsignedAppends(v.whole, f, e, rest);
    UnsignedComplete(v.whole, f + (e + rest), (v.whole + (f + e)) + rest, |v.whole + (f + e)|);
  }

  lemma {:induction false} NumberComplete(v: Value, rest: string)
    requires v.Number? && WellFormedNumber(v) && Follows(rest)
    ensures NumberLength(Print(v) + rest) == Some(|Print(v)|)
  {
    var u := PrintUnsigned(v.whole, v.fraction, v.exponent);
    PrintedUnsignedComplete(v, rest);
    SignComplete(u, rest);
  }

  lemma TailStarts(v: Value, rest: string)
    requires v.Number? && WellFormedNumber(v) && Follows(rest)
    ensures var tail := PrintFraction(v.fraction) + (PrintExponent(v.exponent) + rest);
            tail == [] || !IsDigit(tail[0])
  {
  }

  lemma SignComplete(u: string, rest: string)
    requires UnsignedLength(u + rest) == Some(|u|) && u + rest != [] && IsDigit((u + rest)[0])
    ensures NumberLength(u + rest) == Some(|u|)
    ensures NumberLength(("-" + u) + rest) == Some(1 + |u|)
  {
    assert (("-" + u) + rest)[1..] == u + rest;
  }

  lemma FractionSound(s: string) returns (f: Option<string>)
    ensures f.Some? ==> IsDigits(f.value)
    ensures PrintFraction(f) == s[..FractionLength(s)]
  {
    f := None;
    if FractionLength(s) > 0 {
      DigitsSound(s[1..]);
      f := Some(s[1..][..DigitCount(s[1..])]);
    }
  }

  lemma ExponentSound(s: string) returns (e: Option<Exponent>)
    ensures WellFormedNumber(Number(false, "0", None, e))
    ensures PrintExponent(e) == s[..ExponentLength(s)]
  {
    e := None;
    if ExponentLength(s) > 0 {
      var k := if |s| >= 2 && (s[1] == '+' || s[1] == '-') then 2 else 1;
      DigitsSound(s[k..]);
      var digits := s[k..][..DigitCount(s[k..])];
      e := Some(Exponent(s[0], s[1..k], digits));
      Adjoin(s, k, |digits|);
      assert s[..k] == [s[0]] + s[1..k];
      Associate([s[0]], s[1..k], digits);
    }
  }

  lemma TailSound(s: string) returns (f: Option<string>, e: Option<Exponent>)
    ensures WellFormedNumber(Number(false, "0", f, e))
    ensures PrintFraction(f) + PrintExponent(e) == s[..TailLength(s)]
  {
    f := FractionSound(s);
    var n := FractionLength(s);
    e := ExponentSound(s[n..]);
    Adjoin(s, n, ExponentLength(s[n..]));
  }

  lemma UnsignedSound(s: string) returns (v: Value)
    requires UnsignedLength(s).Some?
    ensures v.Number? && !v.negative && WellFormedNumber(v)
    ensures PrintUnsigned(v.whole, v.fraction, v.exponent) == s[..UnsignedLength(s).value]
  {
    DigitsSound(s);
    var whole := if s[0] == '0' then 1 else DigitCount(s);
    var f, e := TailSound(s[whole..]);
    v := Number(false, s[..whole], f, e);
    Adjoin(s, whole, TailLength(s[whole..]));
  }

  lemma NumberSound(s: string) returns (v: Value)
    requires NumberLength(s).Some?
    ensures v.Number? && WellFormedNumber(v) && Print(v) == s[..NumberLength(s).value]
  {
    if s[0] == '-' {
      v := UnsignedSound(s[1..]);
      v := v.(negative := true);
      Adjoin(s, 1, UnsignedLength(s[1..]).value);
      assert s[..1] == "-";
    } else {
      v := UnsignedSound(s);
    }
  }

  lemma WordComplete(v: Value, rest: string)
    requires v.Word? && (v.word == "true" || v.word == "false" || v.word == "null")
    ensures WordLength(v.word + rest) == Some(|v.word|)
  {
    var s := v.word + rest;
    assert v.word <= s;
    assert s[0] == v.word[0];
  }

  lemma {:induction false} WordOrNumberComplete(v: Value, rest: string, decode: Decoder)
    requires (v.Word? || v.Number?) && WellFormed(v, decode) && Follows(rest)
    ensures WordLength(Print(v) + rest) == Some(|Print(v)|)
  {
    if v.Word? {
      WordComplete(v, rest);
    } else {
      NumberComplete(v, rest);
      var s := Print(v) + rest;
      assert s[0] == '-' || IsDigit(s[0]);
    }
  }

  // ---------------------------------------------------------------- every text is scanned

  ghost predicate Answers(r: Scan<()>, unique: bool, rest: string)
  {
    r == if unique then Scanned((), rest) else Rejected(DuplicateKey)
  }

  lemma {:induction false} ValueComplete(gap: string, v: Value, rest: string, decode: Decoder)
    requires IsGap(gap) && WellFormed(v, decode) && Follows(rest)
    ensures Answers(AfterValue(gap + (Print(v) + rest), decode), UniqueKeys(v, decode), rest)
    decreases v, 1
  {
    GapIsSkipped(gap, Print(v) + rest);
    PrintStartsValue(v, decode);
    TokenComplete(v, rest, decode);
  }

  lemma {:induction false} TokenComplete(v: Value, rest: string, decode: Decoder)
    requires WellFormed(v, decode) && Follows(rest)
    ensures Answers(AfterToken(Print(v) + rest, decode), UniqueKeys(v, decode), rest)
    decreases v, 0
  {
    match v
    case Word(_) =>
      WordOrNumberComplete(v, rest, decode);
      WordToken(Print(v), rest, decode);
    case Number(_, _, _, _) =>
      WordOrNumberComplete(v, rest, decode);
      NumberStarts(v, rest);
      WordToken(Print(v), rest, decode);
    case Text(body) => StringComplete(body, rest, decode);
    case EmptyArray(g) => EmptyComplete(g, "]", rest);
    case EmptyObject(g) => EmptyComplete(g, "}", rest);
    case Array(items) =>
      ArrayComplete(items, rest, decode);
      BracketToken(PrintItems(items), rest, decode);
    case Object(members) =>
      ObjectComplete(members, rest, decode);
      BracketToken(PrintMembers(members), rest, decode);
  }

  lemma {:induction false} WordToken(w: string, rest: string, decode: Decoder)
    requires w != [] && w[0] != '{' && w[0] != '[' && w[0] != '"'
    requires WordLength(w + rest) == Some(|w|)
    ensures AfterToken(w + rest, decode) == Scanned((), rest)
  {
    assert (w + rest)[|w|..] == rest;
  }

  lemma {:induction false} BracketToken(inner: string, rest: string, decode: Decoder)
    ensures AfterToken(("[" + inner) + rest, decode) == AfterArray(inner + rest, decode)
    ensures AfterToken(("{" + inner) + rest, decode) == AfterObject(inner + rest, decode)
  {
    assert (("[" + inner) + rest)[1..] == inner + rest == (("{" + inner) + rest)[1..];
  }

  lemma EmptyComplete(g: string, close: string, rest: string)
    requires IsGap(g) && |close| == 1 && !IsSpace(close[0])
    ensures AfterSpace((("{" + (g + close)) + rest)[1..]) == close + rest
    ensures AfterSpace((("[" + (g + close)) + rest)[1..]) == close + rest
    ensures (close + rest)[1..] == rest
  {
    assert (("{" + (g + close)) + rest)[1..] == g + (close + rest) == (("[" + (g + close)) + rest)[1..];
    GapIsSkipped(g, close + rest);
  }

  lemma {:induction false} NumberStarts(v: Value, rest: string)
    requires v.Number? && WellFormedNumber(v)
    ensures Print(v) != [] && (Print(v)[0] == '-' || IsDigit(Print(v)[0]))
    ensures AfterSpace(Print(v) + rest) == Print(v) + rest
  {
  }

  lemma {:induction false} PrintStartsValue(v: Value, decode: Decoder)
    requires WellFormed(v, decode)
    ensures Print(v) != [] && !IsSpace(Print(v)[0]) && Print(v)[0] != ']' && Print(v)[0] != '}'
  {
    if v.Number? { NumberStarts(v, ""); }
  }

  /** Skipping a gap first changes nothing. */
  lemma {:induction false} LeadingGapIsFree(s: string, decode: Decoder)
    ensures AfterValue(AfterSpace(s), decode) == AfterValue(s, decode)
    ensures AfterItems(AfterSpace(s), decode) == AfterItems(s, decode)
    ensures AfterMembers(AfterSpace(s), {}, decode) == AfterMembers(s, {}, decode)
  {
    assert AfterSpace(AfterSpace(s)) == AfterSpace(s);
    assert AfterItem(AfterSpace(s), decode) == AfterItem(s, decode);
    assert AfterMember(AfterSpace(s), {}, decode) == AfterMember(s, {}, decode);
  }

  lemma ItemTextAppends(before: string, value: string, after: string, tail: string, rest: string)
    ensures ItemText(before, value, after, tail) + rest == ItemText(before, value, after, tail + rest)
  {
    Associate(before, value + (after + tail), rest);
    Associate(value, after + tail, rest);
    Associate(after, tail, rest);
  }

  /** One value with its gaps in front of a separator or a closing bracket. */
  lemma {:induction false} ItemComplete(before: string, v: Value, after: string, tail: string, decode: Decoder)
    requires IsGap(before) && WellFormed(v, decode) && IsGap(after)
    requires tail != [] && (tail[0] == ',' || tail[0] == ']' || tail[0] == '}')
    ensures Answers(AfterItem(ItemText(before, Print(v), after, tail), decode), UniqueKeys(v, decode), tail)
    decreases v, 2
  {
    if after != [] { assert (after + tail)[0] == after[0]; } else { assert after + tail == tail; }
    ValueComplete(before, v, after + tail, decode);
    GapIsSkipped(after, tail);
  }

  lemma {:induction false} ArrayComplete(i: Items, rest: string, decode: Decoder)
    requires i.Item? && WellFormedItems(i, decode)
    ensures Answers(AfterArray(PrintItems(i) + rest, decode), UniqueKeysInItems(i, decode), rest)
    decreases i, 4
  {
    var s := PrintItems(i) + rest;
    ItemsComplete(i, rest, decode);
    LeadingGapIsFree(s, decode);
    var tail := if i.rest.NoItem? then "]" else "," + PrintItems(i.rest);
    ItemTextAppends(i.before, Print(i.value), i.after, tail, rest);
    PrintStartsValue(i.value, decode);
    GapIsSkipped(i.before, Print(i.value) + (i.after + (tail + rest)));
  }

  lemma {:induction false} ItemsComplete(i: Items, rest: string, decode: Decoder)
    requires i.Item? && WellFormedItems(i, decode)
    ensures Answers(AfterItems(PrintItems(i) + rest, decode), UniqueKeysInItems(i, decode), rest)
    decreases i, 3
  {
    var tail := if i.rest.NoItem? then "]" else "," + PrintItems(i.rest);
    ItemTextAppends(i.before, Print(i.value), i.after, tail, rest);
    ItemComplete(i.before, i.value, i.after, tail + rest, decode);
    if i.rest.NoItem? {
      assert (tail + rest)[1..] == rest;
    } else {
      assert (tail + rest)[1..] == PrintItems(i.rest) + rest;
      ItemsComplete(i.rest, rest, decode);
    }
  }

  lemma {:induction false} ObjectComplete(m: Members, rest: string, decode: Decoder)
    requires m.Member? && WellFormedMembers(m, decode)
    ensures Answers(AfterObject(PrintMembers(m) + rest, decode),
                    Distinct(DecodedKeys(m, decode)) && UniqueKeysInMembers(m, decode), rest)
    decreases m, 4
  {
    var s := PrintMembers(m) + rest;
    MembersComplete(m, {}, rest, decode);
    LeadingGapIsFree(s, decode);
    var t := Quoted(m.key) + (m.middle + (":" + ItemText(m.gap, Print(m.value), m.after,
                 if m.rest.NoMember? then "}" else "," + PrintMembers(m.rest))));
    Associate(m.before, t, rest);
    GapIsSkipped(m.before, t + rest);
    assert (t + rest)[0] == '"';
  }

  ghost predicate Unseen(keys: seq<string>, seen: set<string>) { forall k | k in keys :: k !in seen }

  lemma {:induction false} MembersComplete(m: Members, seen: set<string>, rest: string, decode: Decoder)
    requires m.Member? && WellFormedMembers(m, decode)
    ensures var keys := DecodedKeys(m, decode);
            Answers(AfterMembers(PrintMembers(m) + rest, seen, decode),
                    Unseen(keys, seen) && Distinct(keys) && UniqueKeysInMembers(m, decode), rest)
    decreases m, 3
  {
    var tail := if m.rest.NoMember? then "}" else "," + PrintMembers(m.rest);
    var k, more := decode(Quoted(m.key)).value, DecodedKeys(m.rest, decode);
    MemberComplete(m, seen, tail, rest, decode);
    FirstKeySplits(k, more, seen);
    if m.rest.NoMember? {
      LastMember(PrintMembers(m) + rest, seen, rest, decode);
    } else {
      Associate(",", PrintMembers(m.rest), rest);
      NextMember(PrintMembers(m) + rest, seen, PrintMembers(m.rest) + rest, decode);
      MembersComplete(m.rest, seen + {k}, rest, decode);
    }
  }

  lemma {:induction false} LastMember(s: string, seen: set<string>, rest: string, decode: Decoder)
    ensures var m := AfterMember(s, seen, decode);
            && (m.Scanned? && m.rest == "}" + rest ==> AfterMembers(s, seen, decode) == Scanned((), rest))
            && (m.Rejected? ==> AfterMembers(s, seen, decode) == Rejected(m.error))
  {
    assert ("}" + rest)[1..] == rest;
  }

  lemma {:induction false} NextMember(s: string, seen: set<string>, next: string, decode: Decoder)
    ensures var m := AfterMember(s, seen, decode);
            && (m.Scanned? && m.rest == "," + next ==>
                  AfterMembers(s, seen, decode) == AfterMembers(next, seen + {m.value}, decode))
            && (m.Rejected? ==> AfterMembers(s, seen, decode) == Rejected(m.error))
  {
    assert ("," + next)[1..] == next;
  }

  lemma FirstKeySplits(k: string, more: seq<string>, seen: set<string>)
    ensures Unseen([k] + more, seen) && Distinct([k] + more)
       <==> k !in seen && Unseen(more, seen + {k}) && Distinct(more)
  {
    var keys := [k] + more;
    assert forall i | 0 <= i < |more| :: keys[i + 1] == more[i];
    assert forall x | x in more :: x in keys;
    if Unseen(keys, seen) && Distinct(keys) {
      assert keys[0] in keys;
      forall i, j | 0 <= i < j < |more| ensures more[i] != more[j] { assert keys[i + 1] != keys[j + 1]; }
    }
  }

  lemma {:induction false} MemberComplete(m: Members, seen: set<string>, tail: string, rest: string,
                                          decode: Decoder)
    requires m.Member? && WellFormedMembers(m, decode)
    requires tail == if m.rest.NoMember? then "}" else "," + PrintMembers(m.rest)
    ensures AfterMember(PrintMembers(m) + rest, seen, decode)
         == (var k := decode(Quoted(m.key)).value;
             if k !in seen && UniqueKeys(m.value, decode) then Scanned(k, tail + rest)
             else Rejected(DuplicateKey))
    decreases m, 2
  {
    var item := ItemText(m.gap, Print(m.value), m.after, tail);
    var colon := ":" + item;
    Associate(m.before, Quoted(m.key) + (m.middle + colon), rest);
    GapIsSkipped(m.before, (Quoted(m.key) + (m.middle + colon)) + rest);
    Associate(Quoted(m.key), m.middle + colon, rest);
    StringComplete(m.key, (m.middle + colon) + rest, decode);
    Associate(m.middle, colon, rest);
    GapIsSkipped(m.middle, colon + rest);
    assert (colon + rest)[1..] == item + rest;
    ItemTextAppends(m.gap, Print(m.value), m.after, tail, rest);
    ItemComplete(m.gap, m.value, m.after, tail + rest, decode);
  }

  // ---------------------------------------------------------------- every accepted text is in the grammar

  /** `s` starts with the gap and a good value, and `rest` is what follows them. */
  ghost predicate Parses(s: string, gap: string, v: Value, rest: string, decode: Decoder)
  {
    IsGap(gap) && AfterSpace(s) == Print(v) + rest && s == gap + AfterSpace(s) && IsGood(v, decode)
  }

  ghost predicate IsGood(v: Value, decode: Decoder) { WellFormed(v, decode) && UniqueKeys(v, decode) }

  lemma {:induction false} ValueSound(s: string, decode: Decoder) returns (gap: string, v: Value)
    requires AfterValue(s, decode).Scanned?
    ensures Parses(s, gap, v, AfterValue(s, decode).rest, decode)
    decreases |s|, 1
  {
    gap := Leading(s);
    v := TokenSound(AfterSpace(s), decode);
  }

  lemma {:induction false} TokenSound(t: string, decode: Decoder) returns (v: Value)
    requires AfterToken(t, decode).Scanned?
    ensures IsGood(v, decode) && t == Print(v) + AfterToken(t, decode).rest
    decreases |t|, 0
  {
    var rest := AfterToken(t, decode).rest;
    if t[0] == '{' || t[0] == '[' {
      if t[0] == '{' { v := ObjectSound(t[1..], decode); } else { v := ArraySound(t[1..], decode); }
      assert t == [t[0]] + t[1..];
    } else if t[0] == '"' {
      var body := StringSound(t, decode);
      v := Text(body);
    } else {
      v := WordSound(t);
      assert t == t[..WordLength(t).value] + rest;
    }
  }

  lemma WordSound(t: string) returns (v: Value)
    requires WordLength(t).Some?
    ensures Print(v) == t[..WordLength(t).value]
    ensures v.Word? || (v.Number? && WellFormedNumber(v))
    ensures v.Word? ==> v.word == "true" || v.word == "false" || v.word == "null"
  {
    if "true" <= t { v := Word("true"); }
    else if "false" <= t { v := Word("false"); }
    else if "null" <= t { v := Word("null"); }
    else { v := NumberSound(t); }
  }

  lemma OpenAppends(open: string, inner: string, rest: string)
    ensures open + (inner + rest) == (open + inner) + rest
  {
  }

  lemma CloseAppends(gap: string, close: string, rest: string)
    ensures gap + (close + rest) == (gap + close) + rest
  {
  }

  lemma {:induction false} ArraySound(s: string, decode: Decoder) returns (v: Value)
    requires AfterArray(s, decode).Scanned?
    ensures IsGood(v, decode) && "[" + s == Print(v) + AfterArray(s, decode).rest
    decreases |s|, 4
  {
    var t, rest := AfterSpace(s), AfterArray(s, decode).rest;
    if t[0] == ']' {
      v := EmptyArray(Leading(s));
      HeadAndTail(t);
      CloseAppends(Leading(s), "]", rest);
      OpenAppends("[", Leading(s) + "]", rest);
    } else {
      LeadingGapIsFree(s, decode);
      var items := ItemsSound(s, decode);
      v := Array(items);
      OpenAppends("[", PrintItems(items), rest);
    }
  }

  lemma {:induction false} ItemsSound(s: string, decode: Decoder) returns (i: Items)
    requires AfterItems(s, decode).Scanned?
    ensures i.Item? && WellFormedItems(i, decode) && UniqueKeysInItems(i, decode)
    ensures s == PrintItems(i) + AfterItems(s, decode).rest
    decreases |s|, 3
  {
    var rest := AfterItems(s, decode).rest;
    var gap, v := ValueSound(s, decode);
    var after := AfterValue(s, decode).rest;
    var t := AfterItem(s, decode).rest;
    HeadAndTail(t);
    if t[0] == ']' {
      i := Item(gap, v, Leading(after), NoItem);
      ItemTextAppends(gap, Print(v), Leading(after), "]", rest);
    } else {
      var more := ItemsSound(t[1..], decode);
      i := Item(gap, v, Leading(after), more);
      Associate(",", PrintItems(more), rest);
      ItemTextAppends(gap, Print(v), Leading(after), "," + PrintItems(more), rest);
    }
  }

  lemma {:induction false} ObjectSound(s: string, decode: Decoder) returns (v: Value)
    requires AfterObject(s, decode).Scanned?
    ensures IsGood(v, decode) && "{" + s == Print(v) + AfterObject(s, decode).rest
    decreases |s|, 4
  {
    var t, rest := AfterSpace(s), AfterObject(s, decode).rest;
    if t[0] == '}' {
      v := EmptyObject(Leading(s));
      HeadAndTail(t);
      CloseAppends(Leading(s), "}", rest);
      OpenAppends("{", Leading(s) + "}", rest);
    } else {
      LeadingGapIsFree(s, decode);
      var members := MembersSound(s, {}, decode);
      v := Object(members);
      OpenAppends("{", PrintMembers(members), rest);
    }
  }

  lemma {:induction false} MembersSound(s: string, seen: set<string>, decode: Decoder) returns (m: Members)
    requires AfterMembers(s, seen, decode).Scanned?
    ensures m.Member? && WellFormedMembers(m, decode) && UniqueKeysInMembers(m, decode)
    ensures Unseen(DecodedKeys(m, decode), seen) && Distinct(DecodedKeys(m, decode))
    ensures s == PrintMembers(m) + AfterMembers(s, seen, decode).rest
    decreases |s|, 3
  {
    var one := AfterMember(s, seen, decode);
    var t := one.rest;
    assert t == [t[0]] + t[1..];
    if t[0] == '}' {
      m := MemberSound(s, seen, NoMember, t[1..], decode);
      FirstKeySplits(one.value, [], seen);
    } else {
      var more := MembersSound(t[1..], seen + {one.value}, decode);
      var rest := AfterMembers(s, seen, decode).rest;
      Associate(",", PrintMembers(more), rest);
      m := MemberSound(s, seen, more, rest, decode);
      FirstKeySplits(one.value, DecodedKeys(more, decode), seen);
    }
  }

  lemma {:induction false} MemberSound(s: string, seen: set<string>, more: Members, rest: string,
                                       decode: Decoder) returns (m: Members)
    requires AfterMember(s, seen, decode).Scanned? && WellFormedMembers(more, decode)
    requires UniqueKeysInMembers(more, decode)
    requires AfterMember(s, seen, decode).rest
          == (if more.NoMember? then "}" else "," + PrintMembers(more)) + rest
    ensures m.Member? && WellFormedMembers(m, decode) && UniqueKeysInMembers(m, decode) && m.rest == more
    ensures var k := AfterMember(s, seen, decode).value; decode(Quoted(m.key)).value == k && k !in seen
    ensures s == PrintMembers(m) + rest
    decreases |s|, 2
  {
    m := MemberParts(s, seen, decode);
    m := m.(rest := more);
    var tail := if more.NoMember? then "}" else "," + PrintMembers(more);
    ItemTextAppends(m.gap, Print(m.value), m.after, tail, rest);
    MemberAppends(m.before, Quoted(m.key), m.middle, ItemText(m.gap, Print(m.value), m.after, tail), rest);
  }

  /** One member cut into its parts, with no member behind it. */
  lemma {:induction false} MemberParts(s: string, seen: set<string>, decode: Decoder) returns (m: Members)
    requires AfterMember(s, seen, decode).Scanned?
    ensures m.Member? && m.rest.NoMember? && WellFormedMembers(m, decode) && UniqueKeys(m.value, decode)
    ensures var k := AfterMember(s, seen, decode).value; decode(Quoted(m.key)).value == k && k !in seen
    ensures s == MemberText(m.before, Quoted(m.key), m.middle,
                            ItemText(m.gap, Print(m.value), m.after, AfterMember(s, seen, decode).rest))
    decreases |s|, 1
  {
    var t := AfterSpace(s);
    var key := StringSound(t, decode);
    var r := AfterString(t, decode).rest;
    var c := AfterSpace(r);
    var gap, v := ValueSound(c[1..], decode);
    var end := AfterValue(c[1..], decode).rest;
    assert c == ":" + c[1..];
    m := Member(Leading(s), key, Leading(r), gap, v, Leading(end), NoMember);
  }

  lemma MemberAppends(before: string, key: string, middle: string, item: string, rest: string)
    ensures MemberText(before, key, middle, item) + rest == MemberText(before, key, middle, item + rest)
  {
    var a := middle + (":" + item);
    Associate(":", item, rest);
    Associate(middle, ":" + item, rest);
    Associate(key, a, rest);
    Associate(before, key + a, rest);
  }

  // ---------------------------------------------------------------- the theorems

  /** A text is accepted iff it is a grammar text whose objects never repeat a decoded key. */
  lemma AcceptsExactlyTheGrammar(raw: string, decode: Decoder)
    ensures ScanText(raw, decode).None?
       <==> exists before, v, after :: IsTextOf(raw, before, v, after, decode) && UniqueKeys(v, decode)
  {
    if ScanText(raw, decode).None? {
      var before, v := ValueSound(raw, decode);
      var after := AfterValue(raw, decode).rest;
      assert after == Leading(after);
      assert IsTextOf(raw, before, v, after, decode) && UniqueKeys(v, decode);
    }
    forall before, v, after | IsTextOf(raw, before, v, after, decode)
      ensures ScanText(raw, decode) == if UniqueKeys(v, decode) then None else Some(DuplicateKey)
    {
      RepeatedKeyIsReported(raw, before, v, after, decode);
    }
  }

  /** A grammar text is refused only for a repeated key, and then with the duplicate-key error. */
  lemma {:induction false} RepeatedKeyIsReported(raw: string, before: string, v: Value, after: string, decode: Decoder)
    requires IsTextOf(raw, before, v, after, decode)
    ensures ScanText(raw, decode) == if UniqueKeys(v, decode) then None else Some(DuplicateKey)
  {
    ValueComplete(before, v, after, decode);
    GapIsSkipped(after, "");
    assert after + "" == after;
  }
}
