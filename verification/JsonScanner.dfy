/**
 The recursive-descent duplicate-key scanner of the fixture loader.  The functions say what is
 left of the text after a production, the methods are the loops that move an offset over it,
 and the theorems compare both with the grammar.
 */
module JsonScanner {
  import opened Options
  import opened JsonGrammar

  datatype ScanError = NotJson | DuplicateKey

  datatype Scan<+T> = Scanned(value: T, rest: string) | Rejected(error: ScanError)

  function AfterSpace(s: string): (rest: string)
    ensures |rest| <= |s|
    ensures rest == [] || !IsSpace(rest[0])
  {
    if s != [] && IsSpace(s[0]) then AfterSpace(s[1..]) else s
  }

  /** What follows an escape sequence, `s` starting behind its backslash. */
  function AfterEscape(s: string): (r: Option<string>)
    ensures r.Some? ==> |r.value| < |s|
  {
    if s == [] then None
    else if IsShortEscape(s[0]) then Some(s[1..])
    else if s[0] != 'u' || |s| < 5 || exists i | 1 <= i < 5 :: !IsHex(s[i]) then None
    else Some(s[5..])
  }

  function AfterBody(s: string): (r: Option<string>)
    ensures r.Some? ==> |r.value| < |s|
  {
    if s == [] then None
    else if s[0] == '"' then Some(s[1..])
    else if s[0] < ' ' then None
    else if s[0] != '\\' then AfterBody(s[1..])
    else
      var t := AfterEscape(s[1..]);
      if t.None? then None else AfterBody(t.value)
  }

  function AfterString(s: string, decode: Decoder): (r: Scan<string>)
    ensures r.Scanned? ==> |r.rest| < |s|
  {
    if s == [] || s[0] != '"' then Rejected(NotJson)
    else
      var rest := AfterBody(s[1..]);
      if rest.None? then Rejected(NotJson)
      else
        var key := decode(s[..|s| - |rest.value|]);
        if key.None? then Rejected(NotJson) else Scanned(key.value, rest.value)
  }

  function DigitCount(s: string): (n: nat)
    ensures n <= |s|
  {
    if s != [] && IsDigit(s[0]) then 1 + DigitCount(s[1..]) else 0
  }

  function FractionLength(s: string): (n: nat)
    ensures n <= |s|
  {
    if |s| >= 2 && s[0] == '.' && IsDigit(s[1]) then 1 + DigitCount(s[1..]) else 0
  }

  function ExponentLength(s: string): (n: nat)
    ensures n <= |s|
  {
    if s == [] || (s[0] != 'e' && s[0] != 'E') then 0
    else
      var k := if |s| >= 2 && (s[1] == '+' || s[1] == '-') then 2 else 1;
      if k < |s| && IsDigit(s[k]) then k + DigitCount(s[k..]) else 0
  }

  function TailLength(s: string): (n: nat)
    ensures n <= |s|
  {
    FractionLength(s) + ExponentLength(s[FractionLength(s)..])
  }

  function UnsignedLength(s: string): (n: Option<nat>)
    ensures n.Some? ==> 0 < n.value <= |s|
  {
    if s == [] || !IsDigit(s[0]) then None
    else
      var whole := if s[0] == '0' then 1 else DigitCount(s);
      Some(whole + TailLength(s[whole..]))
  }

  /** The length of the number that the anchored pattern matches at the start of `s`. */
  function NumberLength(s: string): (n: Option<nat>)
    ensures n.Some? ==> 0 < n.value <= |s|
  {
    if s != [] && s[0] == '-' then
      var n := UnsignedLength(s[1..]);
      if n.None? then None else Some(1 + n.value)
    else UnsignedLength(s)
  }

  function WordLength(s: string): (n: Option<nat>)
    ensures n.Some? ==> 0 < n.value <= |s|
  {
    if "true" <= s then Some(4)
    else if "false" <= s then Some(5)
    else if "null" <= s then Some(4)
    else NumberLength(s)
  }

  function AfterValue(s: string, decode: Decoder): (r: Scan<()>)
    ensures r.Scanned? ==> |r.rest| < |s|
    decreases |s|, 1
  {
    AfterToken(AfterSpace(s), decode)
  }

  /** A value whose first byte is already reached. */
  function AfterToken(t: string, decode: Decoder): (r: Scan<()>)
    ensures r.Scanned? ==> |r.rest| < |t|
    decreases |t|, 0
  {
    if t == [] then Rejected(NotJson)
    else if t[0] == '{' then AfterObject(t[1..], decode)
    else if t[0] == '[' then AfterArray(t[1..], decode)
    else if t[0] == '"' then
      var r := AfterString(t, decode);
      if r.Scanned? then Scanned((), r.rest) else Rejected(r.error)
    else
      var n := WordLength(t);
      if n.Some? then Scanned((), t[n.value..]) else Rejected(NotJson)
  }

  function AfterObject(s: string, decode: Decoder): (r: Scan<()>)
    ensures r.Scanned? ==> |r.rest| < |s|
    decreases |s|, 3
  {
    var t := AfterSpace(s);
    if t != [] && t[0] == '}' then Scanned((), t[1..]) else AfterMembers(t, {}, decode)
  }

  function AfterArray(s: string, decode: Decoder): (r: Scan<()>)
    ensures r.Scanned? ==> |r.rest| < |s|
    decreases |s|, 4
  {
    var t := AfterSpace(s);
    if t != [] && t[0] == ']' then Scanned((), t[1..]) else AfterItems(t, decode)
  }

  function AfterMembers(s: string, keys: set<string>, decode: Decoder): (r: Scan<()>)
    ensures r.Scanned? ==> |r.rest| < |s|
    decreases |s|, 2
  {
    var m := AfterMember(s, keys, decode);
    if m.Rejected? then Rejected(m.error)
    else if m.rest != [] && m.rest[0] == '}' then Scanned((), m.rest[1..])
    else if m.rest != [] && m.rest[0] == ',' then AfterMembers(m.rest[1..], keys + {m.value}, decode)
    else Rejected(NotJson)
  }

  /** One member and the gap behind it; the value is the decoded key. */
  function AfterMember(s: string, keys: set<string>, decode: Decoder): (r: Scan<string>)
    ensures r.Scanned? ==> |r.rest| < |s|
    decreases |s|, 1
  {
    var key := AfterString(AfterSpace(s), decode);
    if key.Rejected? then key
    else if key.value in keys then Rejected(DuplicateKey)
    else
      var t := AfterSpace(key.rest);
      if t == [] || t[0] != ':' then Rejected(NotJson)
      else
        var v := AfterValue(t[1..], decode);
        if v.Rejected? then Rejected(v.error) else Scanned(key.value, AfterSpace(v.rest))
  }

  function AfterItems(s: string, decode: Decoder): (r: Scan<()>)
    ensures r.Scanned? ==> |r.rest| < |s|
    decreases |s|, 3
  {
    var i := AfterItem(s, decode);
    if i.Rejected? then i
    else if i.rest != [] && i.rest[0] == ']' then Scanned((), i.rest[1..])
    else if i.rest != [] && i.rest[0] == ',' then AfterItems(i.rest[1..], decode)
    else Rejected(NotJson)
  }

  /** One item and the gap behind it. */
  function AfterItem(s: string, decode: Decoder): (r: Scan<()>)
    ensures r.Scanned? ==> |r.rest| < |s|
    decreases |s|, 2
  {
    var v := AfterValue(s, decode);
    if v.Rejected? then v else Scanned((), AfterSpace(v.rest))
  }

  function ScanText(raw: string, decode: Decoder): (r: Option<ScanError>)
  {
    var v := AfterValue(raw, decode);
    if v.Rejected? then Some(v.error)
    else if AfterSpace(v.rest) != [] then Some(NotJson)
    else None
  }

  // ---------------------------------------------------------------- the loops over an offset

  method SkipSpace(raw: string, start: nat) returns (offset: nat)
    requires start <= |raw|
    ensures start <= offset <= |raw| && raw[offset..] == AfterSpace(raw[start..])
  {
    offset := start;
    while offset < |raw| && IsSpace(raw[offset])
      invariant start <= offset <= |raw|
      invariant AfterSpace(raw[offset..]) == AfterSpace(raw[start..])
    {
      assert raw[offset..][1..] == raw[offset + 1..];
      offset := offset + 1;
    }
  }

  method ScanEscape(raw: string, start: nat) returns (offset: Option<nat>)
    requires start <= |raw|
    ensures offset.Some? <==> AfterEscape(raw[start..]).Some?
    ensures offset.Some? ==>
              start < offset.value <= |raw| && raw[offset.value..] == AfterEscape(raw[start..]).value
  {
    if start >= |raw| {
      return None;
    }
    var s := raw[start..];
    if IsShortEscape(raw[start]) {
      assert s[1..] == raw[start + 1..];
      return Some(start + 1);
    }
    if raw[start] != 'u' || start + 5 > |raw| || exists i | 1 <= i < 5 :: !IsHex(s[i]) {
      return None;
    }
    assert s[5..] == raw[start + 5..];
    offset := Some(start + 5);
  }

  method ScanString(raw: string, start: nat, decode: Decoder) returns (r: Scan<string>, offset: nat)
    requires start <= |raw|
    ensures r == AfterString(raw[start..], decode)
    ensures r.Scanned? ==> start <= offset <= |raw| && raw[offset..] == r.rest
  {
    offset := start;
    if start == |raw| || raw[start] != '"' {
      return Rejected(NotJson), offset;
    }
    offset := start + 1;
    assert raw[start..][1..] == raw[offset..];
    while offset < |raw|
      invariant start + 1 <= offset <= |raw|
      invariant AfterBody(raw[offset..]) == AfterBody(raw[start + 1..])
    {
      ghost var s := raw[offset..];
      var c := raw[offset];
      offset := offset + 1;
      assert s[1..] == raw[offset..];
      if c == '"' {
        assert raw[start..][..offset - start] == raw[start..offset];
        var key := decode(raw[start..offset]);
        if key.None? {
          return Rejected(NotJson), offset;
        }
        return Scanned(key.value, raw[offset..]), offset;
      }
      if c < ' ' {
        return Rejected(NotJson), offset;
      }
      if c == '\\' {
        var after := ScanEscape(raw, offset);
        if after.None? {
          return Rejected(NotJson), offset;
        }
        offset := after.value;
      }
    }
    r := Rejected(NotJson);
  }

  method ScanValue(raw: string, start: nat, decode: Decoder) returns (r: Scan<()>, offset: nat)
    requires start <= |raw|
    ensures r == AfterValue(raw[start..], decode)
    ensures r.Scanned? ==> start < offset <= |raw| && raw[offset..] == r.rest
    decreases |raw| - start, 1
  {
    offset := SkipSpace(raw, start);
    if offset == |raw| {
      return Rejected(NotJson), offset;
    }
    var c := raw[offset];
    if c == '{' {
      assert raw[offset..][1..] == raw[offset + 1..];
      r, offset := ScanObject(raw, offset + 1, decode);
    } else if c == '[' {
      assert raw[offset..][1..] == raw[offset + 1..];
      r, offset := ScanArray(raw, offset + 1, decode);
    } else if c == '"' {
      var s, after := ScanString(raw, offset, decode);
      offset := after;
      r := if s.Scanned? then Scanned((), s.rest) else Rejected(s.error);
    } else {
      var n := WordLength(raw[offset..]);
      if n.None? {
        return Rejected(NotJson), offset;
      }
      assert raw[offset..][n.value..] == raw[offset + n.value..];
      offset := offset + n.value;
      r := Scanned((), raw[offset..]);
    }
  }

  /** Continues after the opening bracket of the object. */
  method ScanObject(raw: string, start: nat, decode: Decoder) returns (r: Scan<()>, offset: nat)
    requires start <= |raw|
    ensures r == AfterObject(raw[start..], decode)
    ensures r.Scanned? ==> start < offset <= |raw| && raw[offset..] == r.rest
    decreases |raw| - start, 3
  {
    offset := SkipSpace(raw, start);
    if offset < |raw| && raw[offset] == '}' {
      assert raw[offset..][1..] == raw[offset + 1..];
      return Scanned((), raw[offset + 1..]), offset + 1;
    }
    r, offset := ScanMembers(raw, offset, decode);
  }

  method ScanMembers(raw: string, start: nat, decode: Decoder) returns (r: Scan<()>, offset: nat)
    requires start <= |raw|
    ensures r == AfterMembers(raw[start..], {}, decode)
    ensures r.Scanned? ==> start < offset <= |raw| && raw[offset..] == r.rest
    decreases |raw| - start, 2
  {
    offset := start;
    var keys: set<string> := {};
    ghost var goal := AfterMembers(raw[start..], {}, decode);
    ghost var rest := raw[start..];
    while true
      invariant start <= offset <= |raw| && rest == raw[offset..]
      invariant AfterMembers(rest, keys, decode) == goal
      decreases |raw| - offset
    {
      var key, after := ScanMember(raw, offset, keys, decode);
      if key.Rejected? {
        return Rejected(key.error), offset;
      }
      offset := after;
      if offset == |raw| || (raw[offset] != '}' && raw[offset] != ',') {
        return Rejected(NotJson), offset;
      }
      assert key.rest[1..] == raw[offset + 1..];
      if raw[offset] == '}' {
        return Scanned((), raw[offset + 1..]), offset + 1;
      }
      rest := key.rest[1..];
      keys := keys + {key.value};
      offset := offset + 1;
    }
  }

  method ScanMember(raw: string, start: nat, keys: set<string>, decode: Decoder)
    returns (r: Scan<string>, offset: nat)
    requires start <= |raw|
    ensures r == AfterMember(raw[start..], keys, decode)
    ensures r.Scanned? ==> start < offset <= |raw| && raw[offset..] == r.rest
    decreases |raw| - start, 1
  {
    offset := SkipSpace(raw, start);
    var key, afterKey := ScanString(raw, offset, decode);
    if key.Rejected? {
      return key, offset;
    }
    if key.value in keys {
      return Rejected(DuplicateKey), offset;
    }
    offset := SkipSpace(raw, afterKey);
    if offset == |raw| || raw[offset] != ':' {
      return Rejected(NotJson), offset;
    }
    assert raw[offset..][1..] == raw[offset + 1..];
    var v, afterValue := ScanValue(raw, offset + 1, decode);
    if v.Rejected? {
      return Rejected(v.error), offset;
    }
    offset := SkipSpace(raw, afterValue);
    r := Scanned(key.value, raw[offset..]);
  }

  /** Continues after the opening bracket of the array. */
  method ScanArray(raw: string, start: nat, decode: Decoder) returns (r: Scan<()>, offset: nat)
    requires start <= |raw|
    ensures r == AfterArray(raw[start..], decode)
    ensures r.Scanned? ==> start < offset <= |raw| && raw[offset..] == r.rest
    decreases |raw| - start, 3
  {
    offset := SkipSpace(raw, start);
    if offset < |raw| && raw[offset] == ']' {
      assert raw[offset..][1..] == raw[offset + 1..];
      return Scanned((), raw[offset + 1..]), offset + 1;
    }
    ghost var rest := raw[offset..];
    ghost var goal := AfterItems(rest, decode);
    while true
      invariant start <= offset <= |raw| && rest == raw[offset..]
      invariant AfterItems(rest, decode) == goal
      decreases |raw| - offset
    {
      var v, after := ScanItem(raw, offset, decode);
      if v.Rejected? {
        return v, offset;
      }
      offset := after;
      if offset == |raw| || (raw[offset] != ']' && raw[offset] != ',') {
        return Rejected(NotJson), offset;
      }
      assert v.rest[1..] == raw[offset + 1..];
      if raw[offset] == ']' {
        return Scanned((), raw[offset + 1..]), offset + 1;
      }
      rest := v.rest[1..];
      offset := offset + 1;
    }
  }

  method ScanItem(raw: string, start: nat, decode: Decoder) returns (r: Scan<()>, offset: nat)
    requires start <= |raw|
    ensures r == AfterItem(raw[start..], decode)
    ensures r.Scanned? ==> start < offset <= |raw| && raw[offset..] == r.rest
    decreases |raw| - start, 2
  {
    r, offset := ScanValue(raw, start, decode);
    if r.Scanned? {
      offset := SkipSpace(raw, offset);
      r := Scanned((), raw[offset..]);
    }
  }

  method RejectDuplicateKeys(raw: string, decode: Decoder) returns (error: Option<ScanError>)
    ensures error == ScanText(raw, decode)
  {
    var v, offset := ScanValue(raw, 0, decode);
    assert raw[0..] == raw;
    if v.Rejected? {
      return Some(v.error);
    }
    offset := SkipSpace(raw, offset);
    error := if offset != |raw| then Some(NotJson) else None;
  }
}
