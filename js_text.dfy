/** The string operations of the JavaScript runtime the server relies on:
    `String.prototype.trim`, number-to-decimal conversion, `String(v)`,
    `Array.prototype.join` and `encodeURIComponent`. */
module JsText {
  import opened JsValues

  // ---------------------------------------------------------------------
  // trim()
  // ---------------------------------------------------------------------

  /** The characters `trim()` removes: ECMAScript's WhiteSpace (tab,
      vertical tab, form feed, space, no-break space, the byte order mark
      and the Space_Separator category) and LineTerminator (LF, CR, line
      and paragraph separators). */
  predicate IsJsWhitespace(c: char) {
    || c == '\t' || c == '\n' || c == '\U{B}' || c == '\U{C}' || c == '\r'
    || c == ' ' || c == '\U{A0}' || c == '\U{1680}'
    || ('\U{2000}' <= c <= '\U{200A}')
    || c == '\U{2028}' || c == '\U{2029}' || c == '\U{202F}' || c == '\U{205F}'
    || c == '\U{3000}' || c == '\U{FEFF}'
  }

  /** Every character of `s` is whitespace (the empty string included). */
  predicate Blank(s: string) {
    forall i :: 0 <= i < |s| ==> IsJsWhitespace(s[i])
  }

  function TrimStart(s: string): (t: string)
    decreases |s|
  {
    if |s| > 0 && IsJsWhitespace(s[0]) then TrimStart(s[1..]) else s
  }

  function TrimEnd(s: string): (t: string)
    decreases |s|
  {
    if |s| > 0 && IsJsWhitespace(s[|s| - 1]) then TrimEnd(s[..|s| - 1]) else s
  }

  /** `s.trim()` */
  function Trim(s: string): string {
    TrimEnd(TrimStart(s))
  }

  /** Stripping leading whitespace leaves nothing exactly when the string
      is blank, and otherwise stops at a non-whitespace character. */
  lemma {:induction false} TrimStartEmptyIffBlank(s: string)
    ensures TrimStart(s) == [] <==> Blank(s)
    ensures TrimStart(s) != [] ==> !IsJsWhitespace(TrimStart(s)[0])
    decreases |s|
  {
    if |s| > 0 && IsJsWhitespace(s[0]) {
      TrimStartEmptyIffBlank(s[1..]);
      if Blank(s[1..]) {
        forall i | 0 <= i < |s| ensures IsJsWhitespace(s[i]) {
          if i > 0 { assert s[i] == s[1..][i - 1]; }
        }
      }
      if Blank(s) {
        forall i | 0 <= i < |s[1..]| ensures IsJsWhitespace(s[1..][i]) {
          assert s[1..][i] == s[i + 1];
        }
      }
    }
  }

  /** Stripping trailing whitespace leaves nothing exactly when the string
      is blank. */
  lemma {:induction false} TrimEndEmptyIffBlank(s: string)
    ensures TrimEnd(s) == [] <==> Blank(s)
    decreases |s|
  {
    if |s| > 0 && IsJsWhitespace(s[|s| - 1]) {
      var init := s[..|s| - 1];
      TrimEndEmptyIffBlank(init);
      if Blank(init) {
        forall i | 0 <= i < |s| ensures IsJsWhitespace(s[i]) {
          if i < |s| - 1 { assert s[i] == init[i]; }
        }
      }
      if Blank(s) {
        forall i | 0 <= i < |init| ensures IsJsWhitespace(init[i]) {
          assert init[i] == s[i];
        }
      }
    }
  }

  /** `s.trim().length > 0` holds exactly when `s` has a character that is
      not whitespace. */
  lemma TrimNonEmptyIffNotBlank(s: string)
    ensures |Trim(s)| > 0 <==> !Blank(s)
  {
    var t := TrimStart(s);
    TrimStartEmptyIffBlank(s);
    TrimEndEmptyIffBlank(t);
    if t != [] {
      assert !IsJsWhitespace(t[0]);
    }
  }

  // ---------------------------------------------------------------------
  // Integers as decimal text
  // ---------------------------------------------------------------------

  function DigitChar(d: int): (c: char)
    requires 0 <= d < 10
    ensures '0' <= c <= '9'
  {
    "0123456789"[d]
  }

  function DigitValue(c: char): int {
    if '0' <= c <= '9' then (c as int) - ('0' as int) else 0
  }

  /** The decimal digits of `n`, without leading zeros. */
  function NatToString(n: nat): (s: string)
    decreases n
  {
    if n < 10 then [DigitChar(n)] else NatToString(n / 10) + [DigitChar(n % 10)]
  }

  /** An integer in a template literal or `String(n)`: `-` then the digits. */
  function IntToString(n: int): string {
    if n < 0 then "-" + NatToString(-n) else NatToString(n)
  }

  /** Reads back a string of decimal digits. */
  function ParseNat(s: string): nat
    decreases |s|
  {
    if |s| == 0 then 0 else ParseNat(s[..|s| - 1]) * 10 + (if '0' <= s[|s| - 1] <= '9' then DigitValue(s[|s| - 1]) else 0)
  }

  /** Reads back an optionally signed decimal integer. */
  function ParseInt(s: string): int {
    if |s| > 0 && s[0] == '-' then -(ParseNat(s[1..]) as int) else ParseNat(s)
  }

  lemma {:induction false} NatToStringRoundTrip(n: nat)
    ensures |NatToString(n)| > 0 && NatToString(n)[0] != '-'
    ensures ParseNat(NatToString(n)) == n
    decreases n
  {
    if n >= 10 {
      NatToStringRoundTrip(n / 10);
      var init := NatToString(n / 10);
      var s := init + [DigitChar(n % 10)];
      assert s[..|s| - 1] == init;
      assert DigitValue(DigitChar(n % 10)) == n % 10;
    }
  }

  /** The decimal text of an integer determines it, so messages such as
      "HTTP <status>" name the status unambiguously. */
  lemma IntToStringRoundTrip(n: int)
    ensures ParseInt(IntToString(n)) == n
  {
    var m: nat := if n < 0 then -n else n;
    var digits := NatToString(m);
    NatToStringRoundTrip(m);
    if n < 0 {
      var s := "-" + digits;
      assert IntToString(n) == s;
      assert s[0] == '-' && s[1..] == digits;
    } else {
      assert IntToString(n) == digits;
    }
  }

  lemma IntToStringInjective(a: int, b: int)
    ensures IntToString(a) == IntToString(b) ==> a == b
  {
    IntToStringRoundTrip(a);
    IntToStringRoundTrip(b);
  }

  // ---------------------------------------------------------------------
  // String(v) and Array.prototype.join
  // ---------------------------------------------------------------------

  /** A measure that decreases from an array to its elements. */
  function Size(v: Json): nat {
    match v
    case Arr(items) => 1 + SizeOfAll(items)
    case _ => 1
  }

  function SizeOfAll(xs: seq<Json>): nat
    decreases xs
  {
    if |xs| == 0 then 0 else 1 + Size(xs[0]) + SizeOfAll(xs[1..])
  }

  /** `String(v)` for a JSON value. An object becomes "[object Object]";
      an array becomes its elements joined with ",". */
  function ToString(v: Json): string
    decreases Size(v), 1
  {
    match v
    case Undefined => "undefined"
    case Null => "null"
    case Bool(b) => if b then "true" else "false"
    case Num(n) => IntToString(n)
    case Str(s) => s
    case Arr(items) => Join(items, ",")
    case Obj(_) => "[object Object]"
  }

  /** `xs.join(sep)`: each element as `String(x)`, except that `null` and
      `undefined` elements become the empty string. */
  function Join(xs: seq<Json>, sep: string): string
    decreases SizeOfAll(xs), 0
  {
    if |xs| == 0 then ""
    else
      var first := if Nullish(xs[0]) then "" else ToString(xs[0]);
      if |xs| == 1 then first else first + sep + Join(xs[1..], sep)
  }

  /** `join("")` is in-order concatenation: joining two runs of elements is
      joining each and concatenating the results. */
  lemma {:induction false} JoinEmptySepAppend(xs: seq<Json>, ys: seq<Json>)
    ensures Join(xs + ys, "") == Join(xs, "") + Join(ys, "")
    decreases |xs|
  {
    if |xs| == 0 {
      assert xs + ys == ys;
    } else if |xs| == 1 {
      if |ys| > 0 {
        assert (xs + ys)[1..] == ys;
      } else {
        assert xs + ys == xs;
      }
    } else {
      assert (xs + ys)[1..] == xs[1..] + ys;
      JoinEmptySepAppend(xs[1..], ys);
    }
  }

  /** `join("")` over string elements is the concatenation of the strings. */
  lemma {:induction false} JoinOfStrings(xs: seq<Json>, ss: seq<string>)
    requires |xs| == |ss|
    requires forall i :: 0 <= i < |xs| ==> xs[i] == Str(ss[i])
    ensures Join(xs, "") == Concat(ss)
    decreases |xs|
  {
    if |xs| > 1 {
      JoinOfStrings(xs[1..], ss[1..]);
    }
  }

  /** The strings of `ss` one after another. */
  function Concat(ss: seq<string>): (r: string)
    decreases |ss|
  {
    if |ss| == 0 then "" else ss[0] + Concat(ss[1..])
  }

  // ---------------------------------------------------------------------
  // encodeURIComponent
  // ---------------------------------------------------------------------

  /** The characters `encodeURIComponent` leaves as they are. */
  predicate Unreserved(c: char) {
    || 'A' <= c <= 'Z' || 'a' <= c <= 'z' || '0' <= c <= '9'
    || c == '-' || c == '_' || c == '.' || c == '!' || c == '~'
    || c == '*' || c == '\'' || c == '(' || c == ')'
  }

  predicate IsUpperHexDigit(c: char) {
    '0' <= c <= '9' || 'A' <= c <= 'F'
  }

  /** The characters that can occur in the output of `encodeURIComponent`. */
  predicate UriSafe(c: char) {
    Unreserved(c) || c == '%'
  }

  function HexDigit(d: int): (c: char)
    requires 0 <= d < 16
    ensures IsUpperHexDigit(c)
  {
    "0123456789ABCDEF"[d]
  }

  /** The UTF-8 encoding of a code point, as byte values. */
  function Utf8(cp: nat): (bytes: seq<int>)
    ensures 1 <= |bytes| <= 4
    ensures forall i :: 0 <= i < |bytes| ==> 0 <= bytes[i] < 256
  {
    if cp < 0x80 then [cp]
    else if cp < 0x800 then [0xC0 + cp / 0x40, 0x80 + cp % 0x40]
    else if cp < 0x1_0000 then [0xE0 + cp / 0x1000, 0x80 + (cp / 0x40) % 0x40, 0x80 + cp % 0x40]
    else [0xF0 + (cp / 0x4_0000) % 8, 0x80 + (cp / 0x1000) % 0x40, 0x80 + (cp / 0x40) % 0x40, 0x80 + cp % 0x40]
  }

  /** Each byte as `%XX` with upper-case hexadecimal digits. */
  function PercentEncode(bytes: seq<int>): (s: string)
    requires forall i :: 0 <= i < |bytes| ==> 0 <= bytes[i] < 256
    ensures |s| == 3 * |bytes|
    ensures forall i :: 0 <= i < |s| ==> s[i] == '%' || IsUpperHexDigit(s[i])
    decreases |bytes|
  {
    if |bytes| == 0 then ""
    else ['%', HexDigit(bytes[0] / 16), HexDigit(bytes[0] % 16)] + PercentEncode(bytes[1..])
  }

  function EncodeChar(c: char): string {
    if Unreserved(c) then [c] else PercentEncode(Utf8(c as int))
  }

  /** `encodeURIComponent(s)`. A Dafny string holds Unicode scalar values,
      so the lone-surrogate `URIError` cannot arise. */
  function EncodeURIComponent(s: string): string
    decreases |s|
  {
    if |s| == 0 then "" else EncodeChar(s[0]) + EncodeURIComponent(s[1..])
  }

  /** Every character of `s` is URI-safe. */
  predicate AllUriSafe(s: string) {
    forall i :: 0 <= i < |s| ==> UriSafe(s[i])
  }

  lemma AllUriSafeConcat(a: string, b: string)
    requires AllUriSafe(a) && AllUriSafe(b)
    ensures AllUriSafe(a + b)
  {
    forall i | 0 <= i < |a + b| ensures UriSafe((a + b)[i]) {
      if i < |a| { assert (a + b)[i] == a[i]; }
      else { assert (a + b)[i] == b[i - |a|]; }
    }
  }

  /** The output consists of unreserved characters and `%XX` escapes only,
      so it can hold none of `/ ? # & = :` that delimit URL parts. */
  lemma {:induction false} EncodedIsUriSafe(s: string)
    ensures AllUriSafe(EncodeURIComponent(s))
    decreases |s|
  {
    if |s| > 0 {
      EncodedIsUriSafe(s[1..]);
      assert AllUriSafe(EncodeChar(s[0]));
      AllUriSafeConcat(EncodeChar(s[0]), EncodeURIComponent(s[1..]));
    }
  }

  /** A string of unreserved characters is passed through unchanged. */
  lemma {:induction false} EncodeUnreservedIsIdentity(s: string)
    requires forall i :: 0 <= i < |s| ==> Unreserved(s[i])
    ensures EncodeURIComponent(s) == s
    decreases |s|
  {
    if |s| > 0 {
      EncodeUnreservedIsIdentity(s[1..]);
      assert [s[0]] + s[1..] == s;
    }
  }

  /** The part of `s` after the first occurrence of `c` (empty if none). */
  function AfterFirst(s: string, c: char): string
    decreases |s|
  {
    if |s| == 0 then "" else if s[0] == c then s[1..] else AfterFirst(s[1..], c)
  }

  lemma {:induction false} AfterFirstOfJoin(a: string, c: char, b: string)
    requires c !in a
    ensures AfterFirst(a + [c] + b, c) == b
    decreases |a|
  {
    if |a| == 0 {
      assert a + [c] + b == [c] + b;
    } else {
      assert (a + [c] + b)[1..] == a[1..] + [c] + b;
      AfterFirstOfJoin(a[1..], c, b);
    }
  }
}
