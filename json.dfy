/** The part of JSON the app writes to device storage (`JSON.stringify`) and
    reads back (`JSON.parse`): null, booleans, non-negative integers, strings
    and objects. `Stringify` prints what `JSON.stringify` prints for these
    values (no white space, the same escapes); `Parse` reads RFC 8259 text of
    this subset, white space included, and rejects everything else. */
module Json {
  import opened Text
  import opened Seqs

  datatype Json = JNull | JBool(b: bool) | JNum(n: nat) | JStr(s: string) | JObj(members: seq<Member>)
  datatype Member = Member(key: string, value: Json)

  // ----- printing ---------------------------------------------------------

  function HexDigit(d: nat): (c: char)
    requires d < 16
  {
    if d < 10 then DigitChar(d) else ('a' as int + d - 10) as char
  }

  /** The escape `JSON.stringify` writes for one character of a string. */
  function EscapeChar(c: char): string {
    if c == '"' then "\\\""
    else if c == '\\' then "\\\\"
    else if c == '\U{0008}' then "\\b"
    else if c == '\U{000C}' then "\\f"
    else if c == '\n' then "\\n"
    else if c == '\r' then "\\r"
    else if c == '\t' then "\\t"
    else if (c as int) < 0x20 then "\\u00" + [HexDigit(c as int / 16), HexDigit(c as int % 16)]
    else [c]
  }

  /** The printer is written in continuation style: `EscapeTo(s, out)` is the
      escaped text of `s` followed by `out`, so no proof has to reassociate
      concatenations. */
  function EscapeTo(s: string, out: string): string {
    if s == [] then out else EscapeChar(s[0]) + EscapeTo(s[1..], out)
  }

  /** The text of `v` followed by `out`. */
  function StringifyTo(v: Json, out: string): string
    decreases v
  {
    match v
    case JNull => "null" + out
    case JBool(b) => (if b then "true" else "false") + out
    case JNum(n) => Decimal(n) + out
    case JStr(s) => "\"" + EscapeTo(s, "\"" + out)
    case JObj(ms) => if ms == [] then "{}" + out else "{" + MembersTo(ms, "}" + out)
  }

  /** `"key":value` pairs separated by commas, followed by `out`. */
  function MembersTo(ms: seq<Member>, out: string): string
    decreases ms
  {
    if ms == [] then out
    else MemberTo(ms[0], if |ms| == 1 then out else "," + MembersTo(ms[1..], out))
  }

  /** One `"key":value` pair followed by `out`. */
  function MemberTo(m: Member, out: string): string
    decreases m
  {
    "\"" + EscapeTo(m.key, "\":" + StringifyTo(m.value, out))
  }

  /** `JSON.stringify(v)`, which `JSON.parse` reads back as `v`. */
  function Stringify(v: Json): (r: string)
    ensures Parse(r) == Some(v)
  {
    ParseStringify(v, "");
    StringifyTo(v, "")
  }

  // ----- reading ----------------------------------------------------------

  predicate IsJsonSpace(c: char) {
    c == ' ' || c == '\t' || c == '\n' || c == '\r'
  }

  function SkipSpace(s: string): (r: string)
    ensures |r| <= |s|
  {
    if s != [] && IsJsonSpace(s[0]) then SkipSpace(s[1..]) else s
  }

  predicate IsHex(c: char) {
    IsDigit(c) || ('a' <= c <= 'f') || ('A' <= c <= 'F')
  }

  function HexValue(c: char): (v: nat)
    requires IsHex(c)
    ensures v < 16
  {
    if IsDigit(c) then DigitValue(c)
    else if 'a' <= c <= 'f' then (c as int - 'a' as int + 10) as nat
    else (c as int - 'A' as int + 10) as nat
  }

  /** The code unit four hex digits spell, most significant first. */
  function UnitCode(a: char, b: char, c: char, d: char): (n: nat)
    requires IsHex(a) && IsHex(b) && IsHex(c) && IsHex(d)
    ensures n < 0x1_0000
  {
    ((HexValue(a) * 16 + HexValue(b)) * 16 + HexValue(c)) * 16 + HexValue(d)
  }

  /** The character an escape letter after a backslash stands for, if it is one of the short escapes. */
  function ShortEscape(e: char): Option<char> {
    if e == '"' then Some('"')
    else if e == '\\' then Some('\\')
    else if e == '/' then Some('/')
    else if e == 'b' then Some('\U{0008}')
    else if e == 'f' then Some('\U{000C}')
    else if e == 'n' then Some('\n')
    else if e == 'r' then Some('\r')
    else if e == 't' then Some('\t')
    else None
  }

  /** Reads the rest of a string literal after its opening quote: the text and what follows the closing quote. */
  function ParseStringBody(s: string): (r: Option<(string, string)>)
    ensures r.Some? ==> |r.value.1| < |s|
  {
    if s == [] then None
    else if s[0] == '"' then Some(("", s[1..]))
    else if s[0] == '\\' then
      if |s| < 2 then None
      else if ShortEscape(s[1]).Some? then
        match ParseStringBody(s[2..])
        case None => None
        case Some((t, rest)) => Some(([ShortEscape(s[1]).value] + t, rest))
      else if s[1] == 'u' && |s| >= 6 && IsHex(s[2]) && IsHex(s[3]) && IsHex(s[4]) && IsHex(s[5]) then
        var code := UnitCode(s[2], s[3], s[4], s[5]);
        if 0xD800 <= code < 0xE000 then None
        else
          match ParseStringBody(s[6..])
          case None => None
          case Some((t, rest)) => Some(([code as char] + t, rest))
      else None
    else if (s[0] as int) < 0x20 then None
    else
      match ParseStringBody(s[1..])
      case None => None
      case Some((t, rest)) => Some(([s[0]] + t, rest))
  }

  /** `word` at the start of `t` stands for `v`. */
  function Literal(t: string, word: string, v: Json): (r: Option<(Json, string)>)
    ensures r.Some? ==> |r.value.1| < |t| || word == []
  {
    if |word| <= |t| && t[..|word|] == word then Some((v, t[|word|..])) else None
  }

  function ParseNumeral(t: string): (r: Option<(Json, string)>)
    requires t != [] && IsDigit(t[0])
    ensures r.Some? ==> |r.value.1| < |t|
  {
    if t[0] == '0' then Some((JNum(0), t[1..]))
    else
      var ds := LeadingDigits(t);
      Some((JNum(Value(ds)), t[|ds|..]))
  }

  /** Reads one value after optional white space; returns it with the text after it. */
  function ParseValue(s: string): (r: Option<(Json, string)>)
    decreases |s|, 2
    ensures r.Some? ==> |r.value.1| < |s|
  {
    var t := SkipSpace(s);
    if t == [] then None
    else if t[0] == 'n' then Literal(t, "null", JNull)
    else if t[0] == 't' then Literal(t, "true", JBool(true))
    else if t[0] == 'f' then Literal(t, "false", JBool(false))
    else if IsDigit(t[0]) then ParseNumeral(t)
    else if t[0] == '"' then
      match ParseStringBody(t[1..])
      case None => None
      case Some((str, rest)) => Some((JStr(str), rest))
    else if t[0] == '{' then ParseObjectBody(t[1..])
    else None
  }

  /** Reads the rest of an object after its opening brace. */
  function ParseObjectBody(s: string): (r: Option<(Json, string)>)
    decreases |s|, 1
    ensures r.Some? ==> |r.value.1| < |s|
  {
    var u := SkipSpace(s);
    if u != [] && u[0] == '}' then Some((JObj([]), u[1..]))
    else
      match ParseMembers(u)
      case None => None
      case Some((ms, rest)) => Some((JObj(ms), rest))
  }

  /** Reads `"key": value` pairs separated by commas up to and including the closing brace. */
  function ParseMembers(s: string): (r: Option<(seq<Member>, string)>)
    decreases |s|, 0
    ensures r.Some? ==> |r.value.1| < |s|
  {
    var t := SkipSpace(s);
    if t == [] || t[0] != '"' then None
    else
      match ParseStringBody(t[1..])
      case None => None
      case Some((key, r1)) =>
        var t2 := SkipSpace(r1);
        if t2 == [] || t2[0] != ':' then None
        else
          match ParseValue(t2[1..])
          case None => None
          case Some((v, r2)) =>
            var t3 := SkipSpace(r2);
            if t3 == [] then None
            else if t3[0] == '}' then Some(([Member(key, v)], t3[1..]))
            else if t3[0] == ',' then
              match ParseMembers(t3[1..])
              case None => None
              case Some((ms, r3)) => Some(([Member(key, v)] + ms, r3))
            else None
  }

  /** `JSON.parse(text)`: `None` where `JSON.parse` would throw, as it does
      on text that is empty or only white space. */
  function Parse(text: string): (r: Option<Json>)
    ensures SkipSpace(text) == [] ==> r.None?
  {
    match ParseValue(text)
    case None => None
    case Some((v, rest)) => if SkipSpace(rest) == [] then Some(v) else None
  }

  /** Property access on a parsed object: JSON.parse keeps the last of repeated keys. */
  function Get(ms: seq<Member>, key: string): Option<Json> {
    if ms == [] then None
    else
      var later := Get(ms[1..], key);
      if later.Some? then later
      else if ms[0].key == key then Some(ms[0].value)
      else None
  }

  /** A key read from the last member that has it. */
  lemma {:induction false} GetFound(ms: seq<Member>, key: string, i: nat)
    requires i < |ms| && ms[i].key == key
    requires forall j :: i < j < |ms| ==> ms[j].key != key
    ensures Get(ms, key) == Some(ms[i].value)
  {
    if i > 0 {
      GetFound(ms[1..], key, i - 1);
    } else {
      GetMissing(ms[1..], key);
    }
  }

  /** A key no member has reads as missing. */
  lemma {:induction false} GetMissing(ms: seq<Member>, key: string)
    requires forall j :: 0 <= j < |ms| ==> ms[j].key != key
    ensures Get(ms, key) == None
  {
    if ms != [] {
      GetMissing(ms[1..], key);
    }
  }

  // ----- round trip -------------------------------------------------------

  lemma HexPairValue(c: char)
    requires (c as int) < 0x20
    ensures IsHex(HexDigit(c as int / 16)) && IsHex(HexDigit(c as int % 16))
    ensures UnitCode('0', '0', HexDigit(c as int / 16), HexDigit(c as int % 16)) == c as int
  {
  }

  /** The characters `JSON.stringify` writes as a backslash and one letter. */
  predicate HasShortEscape(c: char) {
    c == '"' || c == '\\' || c == '\U{0008}' || c == '\U{000C}' || c == '\n' || c == '\r' || c == '\t'
  }

  lemma ShortEscapeOf(c: char)
    requires HasShortEscape(c)
    ensures |EscapeChar(c)| == 2 && EscapeChar(c)[0] == '\\' && ShortEscape(EscapeChar(c)[1]) == Some(c)
  {
  }

  /** Reading an escaped string back gives the string and what follows the closing quote. */
  lemma {:induction false} EscapeRoundTrip(s: string, rest: string)
    ensures ParseStringBody(EscapeTo(s, "\"" + rest)) == Some((s, rest))
  {
    if s == [] {
      assert ("\"" + rest)[1..] == rest;
    } else {
      var c := s[0];
      var tail := EscapeTo(s[1..], "\"" + rest);
      EscapeRoundTrip(s[1..], rest);
      var x := EscapeChar(c) + tail;
      assert s == [c] + s[1..];
      if HasShortEscape(c) {
        ShortEscapeOf(c);
        assert x[0] == '\\' && x[2..] == tail;
        assert ShortEscape(x[1]) == Some(c);
      } else if (c as int) < 0x20 {
        HexPairValue(c);
        assert x[0] == '\\' && x[1] == 'u' && x[2] == '0' && x[3] == '0';
        assert x[4] == HexDigit(c as int / 16) && x[5] == HexDigit(c as int % 16);
        assert x[6..] == tail;
        assert ShortEscape(x[1]) == None;
      } else {
        assert x[0] == c && x[1..] == tail;
      }
    }
  }

  lemma SkipNoSpace(x: string)
    requires x != [] && !IsJsonSpace(x[0])
    ensures SkipSpace(x) == x
  {
  }

  lemma ParseNumber(n: nat, rest: string)
    requires rest == [] || !IsDigit(rest[0])
    ensures ParseValue(Decimal(n) + rest) == Some((JNum(n), rest))
  {
    var x := Decimal(n) + rest;
    SkipNoSpace(x);
    LeadingDigitsAppend(Decimal(n), rest);
    if n == 0 {
      assert x[1..] == rest;
    } else {
      assert x[|Decimal(n)|..] == rest;
    }
  }

  lemma ParseString(s: string, rest: string)
    ensures ParseValue("\"" + EscapeTo(s, "\"" + rest)) == Some((JStr(s), rest))
  {
    var x := "\"" + EscapeTo(s, "\"" + rest);
    SkipNoSpace(x);
    assert x[1..] == EscapeTo(s, "\"" + rest);
    EscapeRoundTrip(s, rest);
  }

  lemma ParseWord(word: string, v: Json, rest: string)
    requires (word == "null" && v == JNull) || (word == "true" && v == JBool(true))
          || (word == "false" && v == JBool(false))
    ensures ParseValue(word + rest) == Some((v, rest))
  {
    var x := word + rest;
    SkipNoSpace(x);
    assert x[..|word|] == word && x[|word|..] == rest;
  }

  lemma ParseEmptyObject(rest: string)
    ensures ParseValue("{}" + rest) == Some((JObj([]), rest))
  {
    var x := "{}" + rest;
    SkipNoSpace(x);
    assert x[1..][1..] == rest;
    SkipNoSpace(x[1..]);
  }

  lemma ParseObject(ms: seq<Member>, rest: string)
    requires ms != []
    requires ParseMembers(MembersTo(ms, "}" + rest)) == Some((ms, rest))
    ensures ParseValue("{" + MembersTo(ms, "}" + rest)) == Some((JObj(ms), rest))
  {
    var body := MembersTo(ms, "}" + rest);
    ParseBrace(body);
    assert body[0] == '"';
    ObjectBody(body, ms, rest);
  }

  lemma ParseBrace(body: string)
    ensures ParseValue("{" + body) == ParseObjectBody(body)
  {
    var x := "{" + body;
    SkipNoSpace(x);
    assert x[1..] == body;
  }

  lemma ObjectBody(body: string, ms: seq<Member>, rest: string)
    requires body != [] && body[0] == '"' && ParseMembers(body) == Some((ms, rest))
    ensures ParseObjectBody(body) == Some((JObj(ms), rest))
  {
    SkipNoSpace(body);
  }

  lemma {:induction false} ParseStringify(v: Json, rest: string)
    requires rest == [] || !IsDigit(rest[0])
    ensures ParseValue(StringifyTo(v, rest)) == Some((v, rest))
    decreases v
  {
    match v
    case JNull => ParseWord("null", v, rest);
    case JBool(b) => ParseWord(if b then "true" else "false", v, rest);
    case JNum(n) => ParseNumber(n, rest);
    case JStr(s) => ParseString(s, rest);
    case JObj(ms) =>
      if ms == [] {
        ParseEmptyObject(rest);
      } else {
        ParseMembersStringify(ms, rest);
        ParseObject(ms, rest);
      }
  }

  /** A quoted key, then `r1`. */
  lemma ParseKey(key: string, r1: string)
    ensures var x := "\"" + EscapeTo(key, "\"" + r1);
      SkipSpace(x) == x && x[0] == '"' && ParseStringBody(x[1..]) == Some((key, r1))
  {
    var x := "\"" + EscapeTo(key, "\"" + r1);
    SkipNoSpace(x);
    assert x[1..] == EscapeTo(key, "\"" + r1);
    EscapeRoundTrip(key, r1);
  }

  /** How `ParseMembers` reads one pair, once the key, the value and what follows are known to parse. */
  lemma ParseMembersStep(x: string, key: string, r1: string, v: Json, after: string, tail: seq<Member>, r3: string)
    requires SkipSpace(x) == x && x != [] && x[0] == '"' && ParseStringBody(x[1..]) == Some((key, r1))
    requires r1 != [] && r1[0] == ':' && ParseValue(r1[1..]) == Some((v, after))
    requires after != [] && SkipSpace(after) == after && (after[0] == '}' || after[0] == ',')
    requires after[0] == '}' ==> tail == [] && r3 == after[1..]
    requires after[0] == ',' ==> ParseMembers(after[1..]) == Some((tail, r3))
    ensures ParseMembers(x) == Some(([Member(key, v)] + tail, r3))
  {
    SkipNoSpace(r1);
    if after[0] == '}' {
      assert [Member(key, v)] + tail == [Member(key, v)];
    }
  }

  /** One printed pair, then a closing brace or a comma and more pairs. */
  lemma {:induction false} ParseMember(m: Member, after: string, tail: seq<Member>, r3: string)
    requires after != [] && (after[0] == '}' || after[0] == ',')
    requires after[0] == '}' ==> tail == [] && r3 == after[1..]
    requires after[0] == ',' ==> ParseMembers(after[1..]) == Some((tail, r3))
    ensures ParseMembers(MemberTo(m, after)) == Some(([m] + tail, r3))
    decreases m
  {
    var r1 := ":" + StringifyTo(m.value, after);
    var x := MemberTo(m, after);
    assert SkipSpace(x) == x && x != [] && x[0] == '"' && ParseStringBody(x[1..]) == Some((m.key, r1)) by {
      assert "\":" + StringifyTo(m.value, after) == "\"" + r1;
      ParseKey(m.key, r1);
    }
    assert r1 != [] && r1[0] == ':' && ParseValue(r1[1..]) == Some((m.value, after)) by {
      assert r1[1..] == StringifyTo(m.value, after);
      ParseStringify(m.value, after);
    }
    SkipNoSpace(after);
    ParseMembersStep(x, m.key, r1, m.value, after, tail, r3);
  }

  lemma {:induction false} ParseMembersStringify(ms: seq<Member>, rest: string)
    requires ms != []
    ensures ParseMembers(MembersTo(ms, "}" + rest)) == Some((ms, rest))
    decreases ms
  {
    var out := "}" + rest;
    if |ms| > 1 {
      var after := "," + MembersTo(ms[1..], out);
      assert MembersTo(ms, out) == MemberTo(ms[0], after);
      assert after[1..] == MembersTo(ms[1..], out);
      ParseMembersStringify(ms[1..], rest);
      ParseMember(ms[0], after, ms[1..], rest);
      assert [ms[0]] + ms[1..] == ms;
    } else {
      assert MembersTo(ms, out) == MemberTo(ms[0], out);
      assert out[1..] == rest;
      ParseMember(ms[0], out, [], rest);
      assert [ms[0]] + [] == ms;
    }
  }
}
