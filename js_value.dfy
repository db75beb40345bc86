/**
 * Parsed JSON values as the client sees them after `response.json()`, with
 * the three JavaScript operations the client applies to them: truthiness,
 * conversion to text (`String(v)`, which `new Error(v)` and template
 * literals use) and `JSON.stringify`.
 */
module JsValue {
  import opened Base
  import opened JsText

  /**
   * A JSON value. Numbers are integers. An object's members are listed in
   * the order `JSON.stringify` visits them, which is their text order only
   * when the value is `WellFormed`; parsed bodies always are.
   */
  datatype Json =
    | JNull
    | JBool(b: bool)
    | JNum(n: int)
    | JStr(s: string)
    | JArr(items: seq<Json>)
    | JObj(members: seq<Member>)

  datatype Member = Member(key: string, value: Json)

  /**
   * An object's keys are distinct and none is a non-empty run of digits, at every
   * depth. For such an object, `JSON.parse` keeps every member once and in
   * text order: a repeated key would keep one member, and digit-only keys
   * (array indices) would be moved to the front in numeric order.
   */
  predicate WellFormed(v: Json)
    decreases v
  {
    match v
    case JArr(items) => forall x | x in items :: WellFormed(x)
    case JObj(ms) => KeysPlain(ms) && forall m | m in ms :: WellFormed(m.value)
    case _ => true
  }

  /** The keys of an object's members are distinct, and none is a non-empty run of digits. */
  predicate KeysPlain(ms: seq<Member>) {
    && (forall i, j :: 0 <= i < j < |ms| ==> ms[i].key != ms[j].key)
    && (forall i :: 0 <= i < |ms| ==> ms[i].key == "" || !AllDigits(ms[i].key))
  }

  /** The values a response body can parse to in this model. */
  type ParsedJson = v: Json | WellFormed(v) witness JNull

  /** In a well-formed object a property read finds the one member with that key. */
  lemma {:induction false} LookupFindsMember(ms: seq<Member>, i: nat)
    requires i < |ms|
    requires forall a, b :: 0 <= a < b < |ms| ==> ms[a].key != ms[b].key
    ensures Lookup(ms, ms[i].key) == Some(ms[i].value)
  {
    if i < |ms| - 1 {
      var front := ms[..|ms| - 1];
      assert front[i] == ms[i];
      LookupFindsMember(front, i);
    }
  }

  /** Reading a property of a parsed object gives the value of the one member with that key. */
  lemma ParsedPropFindsMember(v: ParsedJson, i: nat)
    requires v.JObj? && i < |v.members|
    ensures Prop(v, v.members[i].key) == Some(v.members[i].value)
  {
    LookupFindsMember(v.members, i);
  }

  /** JavaScript truthiness: `null`, `false`, `0` and `""` are falsy, everything else is truthy. */
  predicate Truthy(v: Json) {
    match v
    case JNull => false
    case JBool(b) => b
    case JNum(n) => n != 0
    case JStr(s) => s != ""
    case JArr(_) => true
    case JObj(_) => true
  }

  /** A property read `v[key]`: `None` stands for `undefined`; only objects have properties. */
  function Prop(v: Json, key: string): (r: Option<Json>)
    ensures r.Some? ==> v.JObj? && exists i :: 0 <= i < |v.members| && v.members[i] == Member(key, r.value)
  {
    match v
    case JObj(ms) => Lookup(ms, key)
    case _ => None
  }

  /** The value of the last member named `key` (the one `JSON.parse` keeps when a key repeats). */
  function Lookup(ms: seq<Member>, key: string): (r: Option<Json>)
    ensures r.Some? <==> exists i :: 0 <= i < |ms| && ms[i].key == key
    ensures r.Some? ==> exists i :: 0 <= i < |ms| && ms[i] == Member(key, r.value)
  {
    if ms == [] then None
    else if ms[|ms| - 1].key == key then Some(ms[|ms| - 1].value)
    else
      var r := Lookup(ms[..|ms| - 1], key);
      assert forall i :: 0 <= i < |ms| - 1 ==> ms[..|ms| - 1][i] == ms[i];
      r
  }

  /** `a || b` over possibly-undefined operands: the first operand when it is truthy, else the second. */
  function Or(a: Option<Json>, b: Option<Json>): Option<Json> {
    if a.Some? && Truthy(a.value) then a else b
  }

  /** A possibly-undefined operand is truthy. */
  predicate Present(a: Option<Json>) {
    a.Some? && Truthy(a.value)
  }

  /**
   * `String(v)`: how a value is printed when it becomes an error message or
   * is written to storage. An array prints its elements joined by commas, a
   * `null` element printing as nothing; every object prints the same.
   */
  function ToJsString(v: Json): string {
    match v
    case JNull => "null"
    case JBool(b) => if b then "true" else "false"
    case JNum(n) => IntToString(n)
    case JStr(s) => s
    case JArr(items) =>
      Join(seq(|items|, i requires 0 <= i < |items| => if items[i] == JNull then "" else ToJsString(items[i])), ",")
    case JObj(_) => "[object Object]"
  }

  /** `JSON.stringify(v)`. Never empty. */
  function Stringify(v: Json): (r: string)
    ensures |r| > 0
  {
    match v
    case JNull => "null"
    case JBool(b) => if b then "true" else "false"
    case JNum(n) => IntToString(n)
    case JStr(s) => Quote(s)
    case JArr(items) =>
      "[" + Join(seq(|items|, i requires 0 <= i < |items| => Stringify(items[i])), ",") + "]"
    case JObj(ms) =>
      "{" + Join(seq(|ms|, i requires 0 <= i < |ms| => Quote(ms[i].key) + ":" + Stringify(ms[i].value)), ",") + "}"
  }

  /** A string literal as `JSON.stringify` writes it: quoted, with its specials escaped. */
  function Quote(s: string): (r: string)
    ensures |r| >= 2 && r[0] == '\"' && r[|r| - 1] == '\"'
  {
    "\"" + Escape(s) + "\""
  }

  function Escape(s: string): string {
    if s == [] then [] else EscapeChar(s[0]) + Escape(s[1..])
  }

  function HexDigitLower(d: nat): char
    requires d < 16
  {
    "0123456789abcdef"[d]
  }

  /** One character inside a JSON string literal. */
  function EscapeChar(c: char): string {
    if c == '\"' then "\\\""
    else if c == '\\' then "\\\\"
    else if c == '\U{8}' then "\\b"
    else if c == '\t' then "\\t"
    else if c == '\n' then "\\n"
    else if c == '\U{C}' then "\\f"
    else if c == '\r' then "\\r"
    else if c as int < 0x20 then ['\\', 'u', '0', '0', HexDigitLower(c as int / 16), HexDigitLower(c as int % 16)]
    else [c]
  }

  function HexValue(c: char): Option<nat> {
    if '0' <= c <= '9' then Some(c as int - '0' as int)
    else if 'a' <= c <= 'f' then Some(c as int - 'a' as int + 10)
    else if 'A' <= c <= 'F' then Some(c as int - 'A' as int + 10)
    else None
  }

  /** The value of a single-character escape (`\b`, `\n`, ...) of a JSON string literal. */
  function ShortEscape(c: char): Option<char> {
    if c == '\"' then Some('\"')
    else if c == '\\' then Some('\\')
    else if c == '/' then Some('/')
    else if c == 'b' then Some('\U{8}')
    else if c == 't' then Some('\t')
    else if c == 'n' then Some('\n')
    else if c == 'f' then Some('\U{C}')
    else if c == 'r' then Some('\r')
    else None
  }

  /**
   * Reads the inside of a JSON string literal back to the text it stands for
   * (JSON text, section 7 of RFC 8259), restricted to `\u` escapes of
   * characters below U+D800; `None` when it is not well formed.
   */
  function Unescape(s: string): Option<string> {
    if s == [] then Some([])
    else if s[0] == '\\' then
      if |s| >= 2 && ShortEscape(s[1]).Some? then
        match Unescape(s[2..])
        case Some(t) => Some([ShortEscape(s[1]).value] + t)
        case None => None
      else if |s| >= 6 && s[1] == 'u'
           && HexValue(s[2]).Some? && HexValue(s[3]).Some? && HexValue(s[4]).Some? && HexValue(s[5]).Some? then
        var code := ((HexValue(s[2]).value * 16 + HexValue(s[3]).value) * 16 + HexValue(s[4]).value) * 16 + HexValue(s[5]).value;
        if code < 0xD800 then
          match Unescape(s[6..])
          case Some(t) => Some([code as char] + t)
          case None => None
        else None
      else None
    else if s[0] == '\"' || s[0] as int < 0x20 then None
    else
      match Unescape(s[1..])
      case Some(t) => Some([s[0]] + t)
      case None => None
  }

  /** Reading an escaped character back, ahead of any well-formed rest. */
  lemma UnescapeChar(c: char, rest: string)
    ensures Unescape(EscapeChar(c) + rest) ==
      match Unescape(rest)
      case Some(t) => Some([c] + t)
      case None => None
  {
    var e := EscapeChar(c);
    var s := e + rest;
    if c as int < 0x20 && c != '\U{8}' && c != '\t' && c != '\n' && c != '\U{C}' && c != '\r' {
      var hi, lo := c as int / 16, c as int % 16;
      assert HexValue(HexDigitLower(hi)) == Some(hi);
      assert HexValue(HexDigitLower(lo)) == Some(lo);
      assert s[6..] == rest;
      assert ((0 * 16 + 0) * 16 + hi) * 16 + lo == c as int;
    } else if c == '\"' || c == '\\' || c == '\U{8}' || c == '\t' || c == '\n' || c == '\U{C}' || c == '\r' {
      assert s[2..] == rest;
    } else {
      assert s[1..] == rest;
    }
  }

  /** An object with one member is written as that member between braces. */
  lemma StringifySingleMember(key: string, value: Json)
    ensures Stringify(JObj([Member(key, value)])) == "{" + Quote(key) + ":" + Stringify(value) + "}"
  {
    var ms := [Member(key, value)];
    var parts := seq(|ms|, i requires 0 <= i < |ms| => Quote(ms[i].key) + ":" + Stringify(ms[i].value));
    assert parts == [Quote(key) + ":" + Stringify(value)];
  }

  /** Text with no quote, backslash or control character is written unchanged. */
  lemma {:induction false} EscapePlain(s: string)
    requires forall i :: 0 <= i < |s| ==> s[i] != '\"' && s[i] != '\\' && s[i] as int >= 0x20
    ensures Escape(s) == s
  {
    if s != [] {
      EscapePlain(s[1..]);
      assert [s[0]] + s[1..] == s;
    }
  }

  /** `JSON.stringify`'s escaping loses nothing: the escaped text reads back to the original. */
  lemma {:induction false} EscapeRoundTrip(s: string)
    ensures Unescape(Escape(s)) == Some(s)
  {
    if s != [] {
      EscapeRoundTrip(s[1..]);
      UnescapeChar(s[0], Escape(s[1..]));
      assert [s[0]] + s[1..] == s;
    }
  }
}
