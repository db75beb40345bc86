/**
 * The JavaScript string operations the client relies on, on Dafny strings
 * (one `char` per Unicode scalar value): `startsWith`, `includes`, `trim`,
 * `toLowerCase`, the `\s` character class, number-to-text conversion,
 * `split(' ')[0]`, and the two percent-encodings (`encodeURIComponent` and
 * the form encoding that `URLSearchParams.toString()` applies).
 */
module JsText {

  /** `s.startsWith(p)`. */
  predicate IsPrefix(p: string, s: string) {
    |p| <= |s| && s[..|p|] == p
  }

  /** `s.includes(t)`: `t` occurs in `s`, tried at every start position in turn. */
  predicate Contains(s: string, t: string)
    decreases |s|
  {
    IsPrefix(t, s) || (|s| > 0 && Contains(s[1..], t))
  }

  /** `t` is the slice of `s` that starts at index `i`. */
  predicate OccursAt(s: string, t: string, i: int) {
    0 <= i <= |s| - |t| && s[i..i + |t|] == t
  }

  /** `includes` agrees with the positional reading: `t` is the slice of `s` at some index. */
  lemma {:induction false} ContainsAt(s: string, t: string)
    ensures Contains(s, t) <==> exists i :: OccursAt(s, t, i)
    decreases |s|
  {
    if IsPrefix(t, s) {
      assert OccursAt(s, t, 0);
    } else if |s| > 0 {
      ContainsAt(s[1..], t);
      if Contains(s[1..], t) {
        var i :| OccursAt(s[1..], t, i);
        assert s[i + 1..i + 1 + |t|] == s[1..][i..i + |t|];
        assert OccursAt(s, t, i + 1);
      } else {
        forall i | 0 <= i <= |s| - |t|
          ensures !OccursAt(s, t, i)
        {
          if i > 0 {
            assert s[i..i + |t|] == s[1..][i - 1..i - 1 + |t|];
            assert !OccursAt(s[1..], t, i - 1);
          }
        }
      }
    }
  }

  /** The empty string occurs in every string. */
  lemma ContainsEmpty(s: string)
    ensures Contains(s, "")
  {
    assert IsPrefix("", s);
  }

  /** Nothing non-empty occurs in the empty string. */
  lemma NothingInEmpty(t: string)
    requires t != ""
    ensures !Contains("", t)
  {
  }

  /**
   * The characters JavaScript's `trim` removes and `\s` matches:
   * WhiteSpace (TAB, VT, FF, ZWNBSP and the space separators) and
   * LineTerminator (LF, CR, LS, PS).
   */
  predicate IsSpace(c: char) {
    || c == '\t' || c == '\n' || c == '\U{B}' || c == '\U{C}' || c == '\r'
    || c == ' ' || c == '\U{A0}' || c == '\U{1680}'
    || ('\U{2000}' <= c <= '\U{200A}')
    || c == '\U{2028}' || c == '\U{2029}' || c == '\U{202F}' || c == '\U{205F}'
    || c == '\U{3000}' || c == '\U{FEFF}'
  }

  /** `trimStart`: the suffix of `s` left after every leading space character is dropped. */
  function TrimStart(s: string): (r: string)
    ensures |r| <= |s| && r == s[|s| - |r|..]
    ensures forall i :: 0 <= i < |s| - |r| ==> IsSpace(s[i])
    ensures r == [] || !IsSpace(r[0])
  {
    if s != [] && IsSpace(s[0]) then TrimStart(s[1..]) else s
  }

  /** `trimEnd`: the prefix of `s` left after every trailing space character is dropped. */
  function TrimEnd(s: string): (r: string)
    ensures |r| <= |s| && r == s[..|r|]
    ensures forall i :: |r| <= i < |s| ==> IsSpace(s[i])
    ensures r == [] || !IsSpace(r[|r| - 1])
  {
    if s != [] && IsSpace(s[|s| - 1]) then TrimEnd(s[..|s| - 1]) else s
  }

  /** `trim`. */
  function Trim(s: string): string {
    TrimEnd(TrimStart(s))
  }

  /** A string trims to nothing exactly when all of its characters are spaces. */
  lemma TrimEmptyIff(s: string)
    ensures Trim(s) == "" <==> forall i :: 0 <= i < |s| ==> IsSpace(s[i])
  {
    var a := TrimStart(s);
    if Trim(s) == "" {
      assert a == [];
    } else if a != [] {
      assert !IsSpace(a[0]) && a[0] == s[|s| - |a|];
    }
  }

  /** Text that neither starts nor ends with a space character trims to itself. */
  lemma TrimUnspaced(s: string)
    requires s != [] ==> !IsSpace(s[0]) && !IsSpace(s[|s| - 1])
    ensures Trim(s) == s
  {
  }

  /** Trimming keeps a contiguous slice of the original string. */
  lemma TrimIsSlice(s: string)
    ensures exists i, j :: 0 <= i <= j <= |s| && Trim(s) == s[i..j]
  {
    var a := TrimStart(s);
    var b := TrimEnd(a);
    var i := |s| - |a|;
    assert b == a[..|b|] && a == s[i..];
    assert b == s[i..i + |b|];
  }

  /** `toLowerCase` on one character, for the Basic Latin and Latin-1 letters. */
  function LowerChar(c: char): char {
    if 'A' <= c <= 'Z' || ('\U{C0}' <= c <= '\U{DE}' && c != '\U{D7}') then (c as int + 32) as char else c
  }

  /** `toLowerCase`, character by character. */
  function Lower(s: string): (r: string)
    ensures |r| == |s|
  {
    seq(|s|, i requires 0 <= i < |s| => LowerChar(s[i]))
  }

  /** Lower-casing twice changes nothing more than lower-casing once. */
  lemma LowerIdempotent(s: string)
    ensures Lower(Lower(s)) == Lower(s)
  {
    forall i | 0 <= i < |s| ensures Lower(Lower(s))[i] == Lower(s)[i] {
      var c := s[i];
      assert LowerChar(LowerChar(c)) == LowerChar(c);
    }
  }

  predicate IsDigit(c: char) {
    '0' <= c <= '9'
  }

  function DigitChar(d: nat): (c: char)
    requires d < 10
    ensures IsDigit(c) && c as int - '0' as int == d
  {
    ('0' as int + d) as char
  }

  /** The decimal text of a natural number, as `${n}` prints it. */
  function NatToString(n: nat): (r: string)
    ensures |r| > 0 && forall i :: 0 <= i < |r| ==> IsDigit(r[i])
    ensures r[0] == '0' ==> n == 0
  {
    if n < 10 then [DigitChar(n)] else NatToString(n / 10) + [DigitChar(n % 10)]
  }

  /** The decimal text of an integer, with a leading minus sign when negative. */
  function IntToString(n: int): (r: string)
    ensures |r| > 0
    ensures n < 0 <==> r[0] == '-'
  {
    if n < 0 then "-" + NatToString(-n) else NatToString(n)
  }

  function DigitValue(c: char): nat
    requires IsDigit(c)
  {
    c as int - '0' as int
  }

  predicate AllDigits(s: string) {
    forall i :: 0 <= i < |s| ==> IsDigit(s[i])
  }

  /** The length of the run of decimal digits that starts `s`. */
  function LeadingDigits(s: string): (n: nat)
    ensures n <= |s| && forall i :: 0 <= i < n ==> IsDigit(s[i])
  {
    if s != [] && IsDigit(s[0]) then 1 + LeadingDigits(s[1..]) else 0
  }

  lemma {:induction false} LeadingDigitsOf(x: string, t: string)
    requires AllDigits(x) && (t == [] || !IsDigit(t[0]))
    ensures LeadingDigits(x + t) == |x|
  {
    if x != [] {
      LeadingDigitsOf(x[1..], t);
      assert (x + t)[1..] == x[1..] + t;
    }
  }

  /**
   * Reads the decimal number that starts `s`: its value and the text after
   * it (the value is 0 when `s` does not start with a digit).
   */
  function ReadNumber(s: string): (r: (nat, string))
    ensures r.1 == s[LeadingDigits(s)..]
  {
    var n := LeadingDigits(s);
    (DigitsValue(s[..n]), s[n..])
  }

  /** A printed number followed by text that does not start with a digit reads back as both. */
  lemma ReadPrinted(a: nat, t: string)
    requires t == [] || !IsDigit(t[0])
    ensures LeadingDigits(NatToString(a) + t) == |NatToString(a)|
    ensures ReadNumber(NatToString(a) + t) == (a, t)
  {
    var x := NatToString(a);
    LeadingDigitsOf(x, t);
    assert (x + t)[..|x|] == x;
    NatToStringRoundTrip(a);
  }

  /** The value of a string of decimal digits (the reading `Number(...)` gives it). */
  function DigitsValue(s: string): nat
    requires forall i :: 0 <= i < |s| ==> IsDigit(s[i])
  {
    if s == [] then 0 else DigitsValue(s[..|s| - 1]) * 10 + DigitValue(s[|s| - 1])
  }

  /** Printing a natural number and reading it back gives the number again. */
  lemma {:induction false} NatToStringRoundTrip(n: nat)
    ensures DigitsValue(NatToString(n)) == n
  {
    if n >= 10 {
      NatToStringRoundTrip(n / 10);
      var r := NatToString(n);
      assert r[..|r| - 1] == NatToString(n / 10);
    }
  }

  /** Distinct natural numbers print as distinct texts. */
  lemma NatToStringInjective(m: nat, n: nat)
    requires NatToString(m) == NatToString(n)
    ensures m == n
  {
    NatToStringRoundTrip(m);
    NatToStringRoundTrip(n);
  }

  /** The parts joined with a separator, as `Array.prototype.join` does. */
  function Join(parts: seq<string>, sep: string): string {
    if parts == [] then ""
    else if |parts| == 1 then parts[0]
    else parts[0] + sep + Join(parts[1..], sep)
  }

  /** `s.split(sep)` for a one-character separator: the pieces between separators, in order. */
  function Split(s: string, sep: char): (r: seq<string>)
    ensures |r| >= 1
    decreases |s|
  {
    if sep !in s then [s]
    else
      var i := IndexOf(s, sep);
      [s[..i]] + Split(s[i + 1..], sep)
  }

  /** The position of the first `c` in `s`. */
  function IndexOf(s: string, c: char): (i: nat)
    requires c in s
    ensures i < |s| && s[i] == c && c !in s[..i]
  {
    if s[0] == c then 0 else 1 + IndexOf(s[1..], c)
  }

  /** Splitting text joined with a separator that no part contains gives the parts back. */
  lemma {:induction false} SplitJoin(parts: seq<string>, sep: char)
    requires |parts| >= 1
    requires forall i :: 0 <= i < |parts| ==> sep !in parts[i]
    ensures Split(Join(parts, [sep]), sep) == parts
  {
    if |parts| > 1 {
      var rest := Join(parts[1..], [sep]);
      var s := parts[0] + [sep] + rest;
      assert s[|parts[0]|] == sep;
      assert s[..|parts[0]|] == parts[0];
      assert IndexOf(s, sep) == |parts[0]| by {
        IndexOfAfter(parts[0], sep, [sep] + rest);
      }
      assert s[|parts[0]| + 1..] == rest;
      SplitJoin(parts[1..], sep);
      assert [parts[0]] + parts[1..] == parts;
    }
  }

  /** The first `c` of `x + y` lies in `y` when `x` has none. */
  lemma {:induction false} IndexOfAfter(x: string, c: char, y: string)
    requires c !in x && c in y
    ensures c in x + y && IndexOf(x + y, c) == |x| + IndexOf(y, c)
  {
    if x != [] {
      IndexOfAfter(x[1..], c, y);
      assert (x + y)[1..] == x[1..] + y;
      assert (x + y)[0] == x[0] != c;
    } else {
      assert x + y == y;
    }
  }

  /** `s.split(' ')[0]`: everything before the first U+0020 space, or all of `s`. */
  function BeforeFirstSpace(s: string): (r: string)
    ensures IsPrefix(r, s) && ' ' !in r
    ensures |r| == |s| || s[|r|] == ' '
  {
    if s == [] || s[0] == ' ' then [] else [s[0]] + BeforeFirstSpace(s[1..])
  }

  /** `s.replace(/\s+/g, repl)`: every maximal run of space characters becomes `repl`. */
  function ReplaceSpaceRuns(s: string, repl: string): (r: string)
    decreases |s|
  {
    if s == [] then []
    else if IsSpace(s[0]) then repl + ReplaceSpaceRuns(TrimStart(s), repl)
    else [s[0]] + ReplaceSpaceRuns(s[1..], repl)
  }

  /** No character of `s` is a space character. */
  predicate NoSpace(s: string) {
    forall i :: 0 <= i < |s| ==> !IsSpace(s[i])
  }

  /** With a replacement free of spaces, the result holds no space character at all. */
  lemma {:induction false} ReplaceSpaceRunsNoSpace(s: string, repl: string)
    requires NoSpace(repl)
    ensures NoSpace(ReplaceSpaceRuns(s, repl))
    decreases |s|
  {
    if s == [] {
    } else if IsSpace(s[0]) {
      var rest := ReplaceSpaceRuns(TrimStart(s), repl);
      ReplaceSpaceRunsNoSpace(TrimStart(s), repl);
      var r := ReplaceSpaceRuns(s, repl);
      assert r == repl + rest;
      forall i | 0 <= i < |r| ensures !IsSpace(r[i]) {
        if i < |repl| { assert r[i] == repl[i]; } else { assert r[i] == rest[i - |repl|]; }
      }
    } else {
      var rest := ReplaceSpaceRuns(s[1..], repl);
      ReplaceSpaceRunsNoSpace(s[1..], repl);
      var r := ReplaceSpaceRuns(s, repl);
      assert r == [s[0]] + rest;
      forall i | 0 <= i < |r| ensures !IsSpace(r[i]) {
        if i > 0 { assert r[i] == rest[i - 1]; }
      }
    }
  }

  /** A string without spaces is left as it is. */
  lemma {:induction false} ReplaceSpaceRunsIdentity(s: string, repl: string)
    requires NoSpace(s)
    ensures ReplaceSpaceRuns(s, repl) == s
    decreases |s|
  {
    if s != [] {
      ReplaceSpaceRunsIdentity(s[1..], repl);
    }
  }

  /** The bytes of the UTF-8 encoding of one character. */
  function Utf8(c: char): (bs: seq<nat>)
    ensures 1 <= |bs| <= 4 && forall i :: 0 <= i < |bs| ==> bs[i] < 256
    ensures |bs| == 1 <==> c as int < 0x80
  {
    var v := c as int;
    if v < 0x80 then [v]
    else if v < 0x800 then [0xC0 + v / 0x40, 0x80 + v % 0x40]
    else if v < 0x10000 then [0xE0 + v / 0x1000, 0x80 + (v / 0x40) % 0x40, 0x80 + v % 0x40]
    else [0xF0 + v / 0x40000, 0x80 + (v / 0x1000) % 0x40, 0x80 + (v / 0x40) % 0x40, 0x80 + v % 0x40]
  }

  function HexDigitUpper(d: nat): (c: char)
    requires d < 16
    ensures IsHexUpper(c)
  {
    "0123456789ABCDEF"[d]
  }

  predicate IsHexUpper(c: char) {
    IsDigit(c) || 'A' <= c <= 'F'
  }

  /** `%XY` for one byte, in upper-case hexadecimal. */
  function PercentByte(b: nat): string
    requires b < 256
  {
    ['%', HexDigitUpper(b / 16), HexDigitUpper(b % 16)]
  }

  function PercentBytes(bs: seq<nat>): (r: string)
    requires forall i :: 0 <= i < |bs| ==> bs[i] < 256
    ensures |r| == 3 * |bs|
  {
    if bs == [] then [] else PercentByte(bs[0]) + PercentBytes(bs[1..])
  }

  /** The two percent-encodings in use. */
  datatype Charset =
    | UriComponent     // encodeURIComponent
    | FormUrlEncoded   // URLSearchParams serialisation (application/x-www-form-urlencoded)

  predicate IsAlnum(c: char) {
    IsDigit(c) || 'A' <= c <= 'Z' || 'a' <= c <= 'z'
  }

  /** The characters a charset leaves as they are. */
  predicate Unreserved(cs: Charset, c: char) {
    IsAlnum(c) ||
    match cs
    case UriComponent => c in "-_.!~*'()"
    case FormUrlEncoded => c in "*-._"
  }

  /** One character, encoded. */
  function EncodeChar(cs: Charset, c: char): string {
    if Unreserved(cs, c) then [c]
    else if cs == FormUrlEncoded && c == ' ' then "+"
    else PercentBytes(Utf8(c))
  }

  /** A whole string, encoded character by character. */
  function Encode(cs: Charset, s: string): string {
    if s == [] then [] else EncodeChar(cs, s[0]) + Encode(cs, s[1..])
  }

  /** The characters an encoded string may hold. */
  predicate EncodedChar(cs: Charset, c: char) {
    Unreserved(cs, c) || c == '%' || IsHexUpper(c) || (cs == FormUrlEncoded && c == '+')
  }

  /** Every character of `s` may appear in an encoding under `cs`. */
  predicate AllEncodedChars(cs: Charset, s: string) {
    forall i :: 0 <= i < |s| ==> EncodedChar(cs, s[i])
  }

  lemma {:induction false} PercentBytesChars(bs: seq<nat>, cs: Charset)
    requires forall i :: 0 <= i < |bs| ==> bs[i] < 256
    ensures AllEncodedChars(cs, PercentBytes(bs))
  {
    if bs != [] {
      PercentBytesChars(bs[1..], cs);
      var r := PercentBytes(bs);
      var p := PercentByte(bs[0]);
      assert r == p + PercentBytes(bs[1..]);
      forall i | 0 <= i < |r| ensures EncodedChar(cs, r[i]) {
        if i >= 3 {
          assert r[i] == PercentBytes(bs[1..])[i - 3];
        }
      }
    }
  }

  /** An encoded string is made only of unreserved characters, `%`, hex digits (and `+` in form encoding). */
  lemma {:induction false} EncodeChars(cs: Charset, s: string)
    ensures AllEncodedChars(cs, Encode(cs, s))
  {
    if s != [] {
      EncodeChars(cs, s[1..]);
      var e := EncodeChar(cs, s[0]);
      if Unreserved(cs, s[0]) {
        assert e == [s[0]];
      } else if cs == FormUrlEncoded && s[0] == ' ' {
        assert e == "+";
      } else {
        PercentBytesChars(Utf8(s[0]), cs);
      }
      assert AllEncodedChars(cs, e);
      var r := Encode(cs, s);
      var t := Encode(cs, s[1..]);
      assert r == e + t;
      forall i | 0 <= i < |r| ensures EncodedChar(cs, r[i]) {
        if i >= |e| {
          assert r[i] == t[i - |e|];
        } else {
          assert r[i] == e[i];
        }
      }
    }
  }

  /** So an encoded value can never hold the separators `&`, `=`, `?` or `#` of a query string. */
  lemma EncodedIsQuerySafe(cs: Charset, s: string)
    ensures var r := Encode(cs, s); '&' !in r && '=' !in r && '?' !in r && '#' !in r
  {
    EncodeChars(cs, s);
    var r := Encode(cs, s);
    forall i | 0 <= i < |r|
      ensures r[i] != '&' && r[i] != '=' && r[i] != '?' && r[i] != '#'
    {
      EncodedCharIsQuerySafe(cs, r[i]);
    }
  }

  lemma EncodedCharIsQuerySafe(cs: Charset, c: char)
    requires EncodedChar(cs, c)
    ensures c != '&' && c != '=' && c != '?' && c != '#'
  {
  }

  /** Strings of unreserved characters encode to themselves. */
  lemma {:induction false} EncodeUnreserved(cs: Charset, s: string)
    requires forall i :: 0 <= i < |s| ==> Unreserved(cs, s[i])
    ensures Encode(cs, s) == s
  {
    if s != [] {
      EncodeUnreserved(cs, s[1..]);
    }
  }
}
