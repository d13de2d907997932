/**
 * The few pieces of Python string formatting the notification texts rely on:
 * `sep.join(parts)`, `str(n)` for integers and the `repr` of strings and of a list of strings.
 */
module Text {

  /** Python's `sep.join(parts)`. */
  function Join(parts: seq<string>, sep: string): string
  {
    if parts == [] then ""
    else if |parts| == 1 then parts[0]
    else parts[0] + sep + Join(parts[1..], sep)
  }

  predicate IsDigit(c: char) {
    '0' <= c <= '9'
  }

  /** The number a string of decimal digits denotes (most significant digit first). */
  function DecimalValue(s: string): nat
    requires forall i :: 0 <= i < |s| ==> IsDigit(s[i])
  {
    if s == [] then 0
    else
      assert IsDigit(s[|s| - 1]);
      DecimalValue(s[..|s| - 1]) * 10 + (s[|s| - 1] as int - '0' as int)
  }

  function DigitChar(d: nat): (c: char)
    requires d < 10
    ensures IsDigit(c) && c as int - '0' as int == d
  {
    "0123456789"[d]
  }

  /** Python's `str(n)` for `n >= 0`: canonical decimal digits, read back by `DecimalValue`. */
  function NatToString(n: nat): (s: string)
    ensures |s| >= 1 && forall i :: 0 <= i < |s| ==> IsDigit(s[i])
    ensures |s| > 1 ==> s[0] != '0'
    ensures DecimalValue(s) == n
  {
    if n < 10 then [DigitChar(n)]
    else
      var prefix := NatToString(n / 10);
      var s := prefix + [DigitChar(n % 10)];
      assert s[..|s| - 1] == prefix;
      s
  }

  /** Python's `str(n)` for any integer: a minus sign exactly for negative `n`, then the digits of `|n|`. */
  function IntToString(n: int): (s: string)
    ensures |s| >= 1 && (s[0] == '-' <==> n < 0)
    ensures var digits := if n < 0 then s[1..] else s;
      && |digits| >= 1 && (forall i :: 0 <= i < |digits| ==> IsDigit(digits[i]))
      && DecimalValue(digits) == if n < 0 then -n else n
  {
    if n < 0 then "-" + NatToString(-n) else NatToString(n)
  }

  /**
   * The quote Python's `repr` puts around a string: `'` by preference, and `"` only to
   * avoid escaping a `'`, so the chosen quote occurs in the text only when both do.
   */
  function QuoteOf(s: string): (q: char)
    ensures q == '\'' || q == '"'
    ensures q in s ==> '\'' in s && '"' in s
    ensures '\'' !in s || '"' in s ==> q == '\''
  {
    if '\'' in s && '"' !in s then '"' else '\''
  }

  function HexDigit(d: nat): (c: char)
    requires d < 16
    ensures IsHex(c) && HexValue(c) == d
  {
    "0123456789abcdef"[d]
  }

  predicate IsHex(c: char) {
    '0' <= c <= '9' || 'a' <= c <= 'f'
  }

  function HexValue(c: char): (v: nat)
    requires IsHex(c)
    ensures v < 16
  {
    if c <= '9' then c as int - '0' as int else c as int - 'a' as int + 10
  }

  /**
   * One character as `repr` writes it between the quotes `q`: the quote and the backslash
   * get a backslash, tab, newline and carriage return their letters, the other ASCII
   * control characters `\xNN`; every other character stands for itself.
   */
  function EscapeChar(c: char, q: char): (e: string)
    ensures 1 <= |e| <= 4
    ensures e == [c] || e[0] == '\\'
  {
    if c == q || c == '\\' then ['\\', c]
    else if c == '\t' then "\\t"
    else if c == '\n' then "\\n"
    else if c == '\r' then "\\r"
    else if c < ' ' || c == '\U{7F}' then ['\\', 'x', HexDigit(c as int / 16), HexDigit(c as int % 16)]
    else [c]
  }

  /** The characters of `s` as `repr` writes them between the quotes `q`. */
  function Escape(s: string, q: char): string
  {
    if s == [] then [] else EscapeChar(s[0], q) + Escape(s[1..], q)
  }

  /** Reads the escapes of `Escape` back: the inverse that states what the escaping keeps. */
  function Unescape(e: string): string
    decreases |e|
  {
    if e == [] then []
    else if e[0] == '\\' && |e| >= 2 then
      if e[1] == 't' then "\t" + Unescape(e[2..])
      else if e[1] == 'n' then "\n" + Unescape(e[2..])
      else if e[1] == 'r' then "\r" + Unescape(e[2..])
      else if e[1] == 'x' && |e| >= 4 && IsHex(e[2]) && IsHex(e[3]) then
        [(HexValue(e[2]) * 16 + HexValue(e[3])) as char] + Unescape(e[4..])
      else [e[1]] + Unescape(e[2..])
    else [e[0]] + Unescape(e[1..])
  }

  /** Python's `repr` of a string. */
  function StrRepr(s: string): (r: string)
    ensures |r| >= 2 && r[0] == QuoteOf(s) && r[|r| - 1] == QuoteOf(s)
  {
    [QuoteOf(s)] + Escape(s, QuoteOf(s)) + [QuoteOf(s)]
  }

  /** Python's `repr` of a list of strings, as an f-string renders it: `['a', "b'c"]`. */
  function ListRepr(items: seq<string>): (r: string)
    ensures |r| >= 2 && r[0] == '[' && r[|r| - 1] == ']'
  {
    "[" + Join(seq(|items|, i requires 0 <= i < |items| => StrRepr(items[i])), ", ") + "]"
  }

  /** Unescaping one escaped character followed by anything gives the character back first. */
  lemma UnescapeChar(c: char, q: char, rest: string)
    requires q == '\'' || q == '"'
    ensures Unescape(EscapeChar(c, q) + rest) == [c] + Unescape(rest)
  {
    var e := EscapeChar(c, q) + rest;
    if c == q || c == '\\' {
      assert e[2..] == rest;
    } else if c == '\t' || c == '\n' || c == '\r' {
      assert e[2..] == rest;
    } else if c < ' ' || c == '\U{7F}' {
      assert e[4..] == rest;
      assert (c as int / 16) * 16 + c as int % 16 == c as int;
    } else {
      assert e[1..] == rest;
    }
  }

  /** `repr` loses nothing: unescaping the text between the quotes gives the string back. */
  lemma {:induction false} UnescapeEscape(s: string, q: char)
    requires q == '\'' || q == '"'
    ensures Unescape(Escape(s, q)) == s
  {
    if s != [] {
      UnescapeChar(s[0], q, Escape(s[1..], q));
      UnescapeEscape(s[1..], q);
    }
  }

  /** A character `repr` writes as itself between the quotes `q`. */
  predicate Plain(c: char, q: char) {
    c != q && c != '\\' && ' ' <= c && c != '\U{7F}'
  }

  /** A string of plain characters is written unchanged between the quotes. */
  lemma {:induction false} EscapePlain(s: string, q: char)
    requires forall i :: 0 <= i < |s| ==> Plain(s[i], q)
    ensures Escape(s, q) == s
  {
    if s != [] {
      EscapePlain(s[1..], q);
    }
  }

  /** The `repr` of a one-element list is the element's `repr` in brackets. */
  lemma ListReprSingle(x: string)
    ensures ListRepr([x]) == "[" + StrRepr(x) + "]"
  {
    var items := [x];
    assert seq(|items|, i requires 0 <= i < |items| => StrRepr(items[i])) == [StrRepr(x)];
  }

  /** A name holding an apostrophe is quoted with `"`, as Python does: `["O'Brien"]`. */
  lemma ApostropheQuotedWithDouble()
    ensures ListRepr(["O'Brien"]) == "[" + ("\"" + "O'Brien" + "\"") + "]"
  {
    var s := "O'Brien";
    assert QuoteOf(s) == '"' by { assert s[1] == '\''; }
    EscapePlain(s, '"');
    ListReprSingle(s);
  }
}
