/**
 * `JSON.stringify` applied to an array of strings, as the chat route uses it
 * to serialise the retrieved document texts, together with a decoder for the
 * same shape of JSON text. The decoder is the partner that pins the encoding
 * down: every encoded array decodes to exactly the strings it was made from.
 *
 * The escapes follow QuoteJSONString of ECMAScript (section 25.5.2.3 of
 * ECMA-262), which produces the string grammar of section 7 of RFC 8259.
 * Dafny characters are Unicode scalar values, so the lone-surrogate escape of
 * ECMAScript never applies.
 */
module Json {
  import opened Results

  const Backspace: char := 8 as char
  const FormFeed: char := 12 as char

  /** The lower-case hexadecimal digit of `n`. */
  function HexDigit(n: nat): (c: char)
    requires n < 16
  {
    if n < 10 then ('0' as int + n) as char else ('a' as int + n - 10) as char
  }

  /** The value of a hexadecimal digit of either case. */
  function HexValue(c: char): (r: Option<nat>)
    ensures r.Some? ==> r.value < 16
  {
    if '0' <= c <= '9' then Some(c as int - '0' as int)
    else if 'a' <= c <= 'f' then Some(c as int - 'a' as int + 10)
    else if 'A' <= c <= 'F' then Some(c as int - 'A' as int + 10)
    else None
  }

  /** The value of four hexadecimal digits. */
  function Hex4(d: string): (r: Option<nat>)
    requires |d| == 4
    ensures r.Some? ==> r.value < 0x1_0000
  {
    var h0, h1, h2, h3 := HexValue(d[0]), HexValue(d[1]), HexValue(d[2]), HexValue(d[3]);
    if h0.Some? && h1.Some? && h2.Some? && h3.Some?
    then Some(((h0.value * 16 + h1.value) * 16 + h2.value) * 16 + h3.value)
    else None
  }

  /** How one character appears inside a JSON string literal. */
  function EscapeChar(c: char): string {
    if c == '"' then "\\\""
    else if c == '\\' then "\\\\"
    else if c == Backspace then "\\b"
    else if c == '\t' then "\\t"
    else if c == '\n' then "\\n"
    else if c == FormFeed then "\\f"
    else if c == '\r' then "\\r"
    else if (c as int) < 0x20 then "\\u00" + [HexDigit(c as int / 16), HexDigit(c as int % 16)]
    else [c]
  }

  /** The body of the JSON string literal for `s`, without its quotes. */
  function Escape(s: string): string {
    if s == [] then [] else EscapeChar(s[0]) + Escape(s[1..])
  }

  function Quote(s: string): string {
    "\"" + Escape(s) + "\""
  }

  /** The array elements, separated by commas and no white space. */
  function Elements(xs: seq<string>): string {
    if xs == [] then ""
    else if |xs| == 1 then Quote(xs[0])
    else Quote(xs[0]) + "," + Elements(xs[1..])
  }

  /** `JSON.stringify(xs)` for an array of strings. */
  function StringifyArray(xs: seq<string>): (r: string)
    ensures |r| >= 2 && r[0] == '[' && r[|r| - 1] == ']'
  {
    "[" + Elements(xs) + "]"
  }

  // ----- decoder -----

  datatype Parsed<T> = Parsed(value: T, rest: string)

  /** Decodes the escape sequence that follows a backslash. */
  function ParseEscape(s: string): (r: Option<Parsed<char>>)
    ensures r.Some? ==> |r.value.rest| < |s|
  {
    if s == [] then None
    else if s[0] == '"' then Some(Parsed('"', s[1..]))
    else if s[0] == '\\' then Some(Parsed('\\', s[1..]))
    else if s[0] == '/' then Some(Parsed('/', s[1..]))
    else if s[0] == 'b' then Some(Parsed(Backspace, s[1..]))
    else if s[0] == 't' then Some(Parsed('\t', s[1..]))
    else if s[0] == 'n' then Some(Parsed('\n', s[1..]))
    else if s[0] == 'f' then Some(Parsed(FormFeed, s[1..]))
    else if s[0] == 'r' then Some(Parsed('\r', s[1..]))
    else if s[0] == 'u' && |s| >= 5 then
      var h := Hex4(s[1..5]);
      if h.Some? && (h.value < 0xD800 || 0xE000 <= h.value) then Some(Parsed(h.value as char, s[5..]))
      else None
    else None
  }

  /** Decodes the characters of a string literal up to and including its closing quote. */
  function ParseChars(s: string): (r: Option<Parsed<string>>)
    ensures r.Some? ==> |r.value.rest| < |s|
    decreases |s|
  {
    if s == [] then None
    else if s[0] == '"' then Some(Parsed([], s[1..]))
    else if s[0] == '\\' then
      var e := ParseEscape(s[1..]);
      if e.None? then None
      else
        var tail := ParseChars(e.value.rest);
        if tail.None? then None
        else Some(Parsed([e.value.value] + tail.value.value, tail.value.rest))
    else if (s[0] as int) < 0x20 then None
    else
      var tail := ParseChars(s[1..]);
      if tail.None? then None
      else Some(Parsed([s[0]] + tail.value.value, tail.value.rest))
  }

  /** Decodes one or more comma-separated string literals and the closing bracket. */
  function ParseElements(s: string): (r: Option<Parsed<seq<string>>>)
    ensures r.Some? ==> |r.value.rest| < |s|
    decreases |s|
  {
    if s == [] || s[0] != '"' then None
    else
      var str := ParseChars(s[1..]);
      if str.None? then None
      else
        var t := str.value.rest;
        if t != [] && t[0] == ']' then Some(Parsed([str.value.value], t[1..]))
        else if t != [] && t[0] == ',' then
          var more := ParseElements(t[1..]);
          if more.None? then None
          else Some(Parsed([str.value.value] + more.value.value, more.value.rest))
        else None
  }

  /** Decodes a JSON text that is an array of strings written without white space. */
  function ParseStringArray(s: string): Option<seq<string>> {
    if s == "[]" then Some([])
    else if s != [] && s[0] == '[' then
      var e := ParseElements(s[1..]);
      if e.Some? && e.value.rest == [] then Some(e.value.value) else None
    else None
  }

  // ----- properties -----

  lemma HexDigitValue(n: nat)
    requires n < 16
    ensures HexValue(HexDigit(n)) == Some(n)
  {
  }

  lemma Hex4OfTwoDigits(hi: nat, lo: nat)
    requires hi < 16 && lo < 16
    ensures Hex4(['0', '0', HexDigit(hi), HexDigit(lo)]) == Some(hi * 16 + lo)
  {
    HexDigitValue(0);
    HexDigitValue(hi);
    HexDigitValue(lo);
    assert HexDigit(0) == '0';
  }

  /** Decoding the escape of one character gives back that character. */
  lemma ParseEscapedChar(c: char, tail: string)
    ensures ParseChars(EscapeChar(c) + tail)
         == (var t := ParseChars(tail);
             if t.None? then None else Some(Parsed([c] + t.value.value, t.value.rest)))
  {
    var s := EscapeChar(c) + tail;
    if c == '"' || c == '\\' || c == Backspace || c == '\t' || c == '\n' || c == FormFeed || c == '\r' {
      assert s[0] == '\\' && s[2..] == tail;
      assert ParseEscape(s[1..]) == Some(Parsed(c, tail));
    } else if (c as int) < 0x20 {
      ParseUnicodeEscape(c, tail);
      assert s == ['\\'] + (EscapeChar(c)[1..] + tail);
      assert s[0] == '\\' && s[1..] == EscapeChar(c)[1..] + tail;
    } else {
      assert s[0] == c && s[1..] == tail;
    }
  }

  /** A `\u00XY` escape of a control character decodes to that character. */
  lemma ParseUnicodeEscape(c: char, tail: string)
    requires (c as int) < 0x20
    requires c != Backspace && c != '\t' && c != '\n' && c != FormFeed && c != '\r'
    ensures EscapeChar(c)[0] == '\\' && ParseEscape(EscapeChar(c)[1..] + tail) == Some(Parsed(c, tail))
  {
    var n := c as int;
    var u := EscapeChar(c)[1..] + tail;
    assert EscapeChar(c) == ['\\', 'u', '0', '0', HexDigit(n / 16), HexDigit(n % 16)];
    assert u[0] == 'u' && |u| >= 5;
    assert u[1..5] == ['0', '0', HexDigit(n / 16), HexDigit(n % 16)];
    Hex4OfTwoDigits(n / 16, n % 16);
    assert n / 16 * 16 + n % 16 == n;
    assert Hex4(u[1..5]) == Some(n);
    assert u[5..] == tail;
  }

  /** The body of a string literal followed by its closing quote decodes to the original string. */
  lemma {:induction false} ParseEscaped(s: string, rest: string)
    ensures ParseChars(Escape(s) + "\"" + rest) == Some(Parsed(s, rest))
    decreases |s|
  {
    if s == [] {
      assert Escape(s) + "\"" + rest == "\"" + rest;
    } else {
      var tail := Escape(s[1..]) + "\"" + rest;
      assert Escape(s) + "\"" + rest == EscapeChar(s[0]) + tail;
      ParseEscaped(s[1..], rest);
      ParseEscapedChar(s[0], tail);
      assert [s[0]] + s[1..] == s;
    }
  }

  /** A last string literal, then the closing bracket, decodes to a one-element array. */
  lemma ParseLastElement(x: string, rest: string)
    ensures ParseElements(Quote(x) + "]" + rest) == Some(Parsed([x], rest))
  {
    var s := Quote(x) + "]" + rest;
    assert s[0] == '"' && s[1..] == Escape(x) + "\"" + ("]" + rest);
    ParseEscaped(x, "]" + rest);
    assert ("]" + rest)[1..] == rest;
  }

  /** A string literal, then a comma, decodes as the first element of what follows. */
  lemma ParseNextElement(x: string, more: string)
    ensures ParseElements(Quote(x) + "," + more)
         == (var m := ParseElements(more);
             if m.None? then None else Some(Parsed([x] + m.value.value, m.value.rest)))
  {
    var s := Quote(x) + "," + more;
    assert s[0] == '"' && s[1..] == Escape(x) + "\"" + ("," + more);
    ParseEscaped(x, "," + more);
    assert ("," + more)[1..] == more;
  }

  /** The elements of a non-empty array, then the closing bracket, decode to the array. */
  lemma {:induction false} ParseElementsRoundTrip(xs: seq<string>, rest: string)
    requires xs != []
    ensures ParseElements(Elements(xs) + "]" + rest) == Some(Parsed(xs, rest))
    decreases |xs|
  {
    if |xs| == 1 {
      assert Elements(xs) == Quote(xs[0]);
      ParseLastElement(xs[0], rest);
      assert [xs[0]] == xs;
    } else {
      var more := Elements(xs[1..]) + "]" + rest;
      assert Elements(xs) == Quote(xs[0]) + "," + Elements(xs[1..]);
      assert Elements(xs) + "]" + rest == Quote(xs[0]) + "," + more;
      ParseNextElement(xs[0], more);
      ParseElementsRoundTrip(xs[1..], rest);
      assert [xs[0]] + xs[1..] == xs;
    }
  }

  /** Every array of strings is recovered from its serialisation, in order. */
  lemma StringifyRoundTrip(xs: seq<string>)
    ensures ParseStringArray(StringifyArray(xs)) == Some(xs)
  {
    if xs == [] {
      assert StringifyArray(xs) == "[]";
    } else {
      var s := StringifyArray(xs);
      var e := Elements(xs);
      assert s == "[" + e + "]";
      assert s[1..] == e + "]" + "";
      ParseElementsRoundTrip(xs, "");
      assert |Quote(xs[0])| >= 2;
      assert |e| >= 2;
      assert s != "[]";
    }
  }

  /** Distinct arrays have distinct serialisations. */
  lemma StringifyInjective(xs: seq<string>, ys: seq<string>)
    requires StringifyArray(xs) == StringifyArray(ys)
    ensures xs == ys
  {
    StringifyRoundTrip(xs);
    StringifyRoundTrip(ys);
  }

  /** The serialisation of an empty array is the two characters `[]`. */
  lemma StringifyEmpty()
    ensures StringifyArray([]) == "[]"
  {
  }

  /** No control character, in particular no line break, survives escaping. */
  lemma {:induction false} EscapeHasNoControl(s: string)
    ensures forall i :: 0 <= i < |Escape(s)| ==> Escape(s)[i] as int >= 0x20
    decreases |s|
  {
    if s != [] {
      EscapeHasNoControl(s[1..]);
    }
  }

  /**
   * A serialised array contains no control character, so in particular no
   * `\n` or `\r`. (U+2028 and U+2029 are left as they are, as
   * `JSON.stringify` leaves them.)
   */
  lemma {:induction false} StringifyHasNoControl(xs: seq<string>)
    ensures forall i :: 0 <= i < |StringifyArray(xs)| ==> StringifyArray(xs)[i] as int >= 0x20
  {
    ElementsHaveNoControl(xs);
  }

  lemma {:induction false} ElementsHaveNoControl(xs: seq<string>)
    ensures forall i :: 0 <= i < |Elements(xs)| ==> Elements(xs)[i] as int >= 0x20
    decreases |xs|
  {
    if xs != [] {
      EscapeHasNoControl(xs[0]);
      ElementsHaveNoControl(xs[1..]);
    }
  }
}
