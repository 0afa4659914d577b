/**
 * The few JavaScript string and number primitives that the dashboard's colour
 * handling and its slice labels rely on, with the semantics the ECMAScript
 * language specification gives them: `startsWith`, `indexOf`, `lastIndexOf`,
 * `substring` (clamping and swapping its arguments), `split` at commas,
 * `parseInt(s, 10)`, `Number.prototype.toString` in bases 10 and 16, and
 * `padStart(2, '0')`.
 *
 * Numbers are unbounded integers here: values beyond 2^53, where a double
 * loses precision, are not modelled.
 */
module JsText {
  import opened Wrappers

  /** White space as both `parseInt` and the regular-expression class `\s`
      see it: ECMAScript's WhiteSpace and LineTerminator characters. */
  predicate IsWhiteSpace(c: char) {
    || c == '\t' || c == '\n' || c == '\U{000B}' || c == '\U{000C}' || c == '\r'
    || c == ' ' || c == '\U{00A0}' || c == '\U{1680}' || ('\U{2000}' <= c <= '\U{200A}')
    || c == '\U{2028}' || c == '\U{2029}' || c == '\U{202F}' || c == '\U{205F}'
    || c == '\U{3000}' || c == '\U{FEFF}'
  }

  predicate IsDigit(c: char) {
    '0' <= c <= '9'
  }

  predicate AllWhiteSpace(s: string) {
    forall i :: 0 <= i < |s| ==> IsWhiteSpace(s[i])
  }

  lemma WhiteSpaceNoComma(ws: string)
    requires AllWhiteSpace(ws)
    ensures ',' !in ws
  {
    forall i | 0 <= i < |ws|
      ensures ws[i] != ','
    {
      assert IsWhiteSpace(ws[i]);
    }
  }

  predicate AllDigits(s: string) {
    forall i :: 0 <= i < |s| ==> IsDigit(s[i])
  }

  function DigitValue(c: char): (d: nat)
    requires IsDigit(c)
    ensures d < 10
  {
    c as int - '0' as int
  }

  function DigitChar(d: nat): (c: char)
    requires d < 10
    ensures IsDigit(c) && DigitValue(c) == d
  {
    (d + '0' as int) as char
  }

  /** A lower-case hexadecimal digit, as `toString(16)` writes it. */
  function HexDigit(d: nat): (c: char)
    requires d < 16
    ensures c in "0123456789abcdef"
  {
    if d < 10 then DigitChar(d) else (d - 10 + 'a' as int) as char
  }

  /** `s.startsWith(prefix)` */
  predicate StartsWith(s: string, prefix: string) {
    |prefix| <= |s| && s[..|prefix|] == prefix
  }

  /** `s.indexOf(c)`: the first position of `c`, or -1. */
  function IndexOf(s: string, c: char): (r: int)
    ensures -1 <= r < |s|
    ensures 0 <= r ==> s[r] == c && c !in s[..r]
    ensures r == -1 <==> c !in s
  {
    if s == [] then -1
    else if s[0] == c then 0
    else
      var k := IndexOf(s[1..], c);
      if k < 0 then -1
      else
        assert s[..k + 1] == [s[0]] + s[1..][..k];
        k + 1
  }

  /** `s.lastIndexOf(c)`: the last position of `c`, or -1. */
  function LastIndexOf(s: string, c: char): (r: int)
    ensures -1 <= r < |s|
    ensures 0 <= r ==> s[r] == c && c !in s[r + 1..]
    ensures r == -1 <==> c !in s
  {
    if s == [] then -1
    else if s[|s| - 1] == c then |s| - 1
    else
      var k := LastIndexOf(s[..|s| - 1], c);
      assert s == s[..|s| - 1] + [s[|s| - 1]];
      k
  }

  /** The index `substring` uses for an argument: clamped to `[0, n]`. */
  function Clamp(i: int, n: nat): (r: nat)
    ensures r <= n
    ensures 0 <= i <= n ==> r == i
  {
    if i < 0 then 0 else if i > n then n else i
  }

  /** `s.substring(start, end)`: both arguments clamped to the string, and
      swapped when `start` exceeds `end`. */
  function Substring(s: string, start: int, end: int): (r: string)
    ensures 0 <= start <= end <= |s| ==> r == s[start..end]
    ensures |r| <= |s|
  {
    var a, b := Clamp(start, |s|), Clamp(end, |s|);
    if a <= b then s[a..b] else s[b..a]
  }
  /** `substring` clamps both bounds to the text and swaps them when they
      are out of order; so `lastIndexOf` returning -1 reads from the start. */
  lemma SubstringClampsAndSwaps(s: string, start: int, end: int)
    ensures Substring(s, start, end) == Substring(s, end, start)
    ensures Substring(s, start, end) == Substring(s, Clamp(start, |s|), Clamp(end, |s|))
    ensures end < 0 <= start <= |s| ==> Substring(s, start, end) == s[..start]
  {
  }


  /** `s.split(',')`: the pieces between commas, in order. */
  function SplitOnComma(s: string): (parts: seq<string>)
    ensures |parts| >= 1
    ensures forall k :: 0 <= k < |parts| ==> ',' !in parts[k]
  {
    if s == [] then [""]
    else
      var rest := SplitOnComma(s[1..]);
      if s[0] == ',' then [""] + rest
      else [[s[0]] + rest[0]] + rest[1..]
  }

  /** `parts.join(',')`, the inverse of `SplitOnComma`. */
  function JoinWithComma(parts: seq<string>): string
    requires |parts| >= 1
  {
    if |parts| == 1 then parts[0] else parts[0] + "," + JoinWithComma(parts[1..])
  }

  /** Splitting and joining again gives back the string. */
  lemma {:induction false} JoinSplit(s: string)
    ensures JoinWithComma(SplitOnComma(s)) == s
  {
    if s != [] {
      JoinSplit(s[1..]);
      var rest := SplitOnComma(s[1..]);
      if s[0] != ',' {
        if |rest| == 1 {
          assert [s[0]] + rest[0] == s;
        } else {
          assert JoinWithComma([[s[0]] + rest[0]] + rest[1..])
              == [s[0]] + rest[0] + "," + JoinWithComma(rest[1..]);
          assert JoinWithComma(rest) == rest[0] + "," + JoinWithComma(rest[1..]);
          assert s == [s[0]] + s[1..];
        }
      } else {
        assert JoinWithComma([""] + rest) == "" + "," + JoinWithComma(rest);
        assert s == [','] + s[1..];
      }
    }
  }

  /** A comma-free head splits off as the first piece. */
  lemma {:induction false} SplitAfterHead(a: string, b: string)
    requires ',' !in a
    ensures SplitOnComma(a + "," + b) == [a] + SplitOnComma(b)
  {
    if a == [] {
      assert a + "," + b == [','] + b;
      assert (a + "," + b)[1..] == b;
    } else {
      SplitAfterHead(a[1..], b);
      assert (a + "," + b)[1..] == a[1..] + "," + b;
      assert [a[0]] + a[1..] == a;
    }
  }

  /** A comma-free string is a single piece. */
  lemma {:induction false} SplitNoComma(s: string)
    requires ',' !in s
    ensures SplitOnComma(s) == [s]
  {
    if s != [] {
      SplitNoComma(s[1..]);
      assert [s[0]] + s[1..] == s;
    }
  }

  lemma NoCommaInDigits(d: string)
    requires AllDigits(d)
    ensures ',' !in d
  {
    forall i | 0 <= i < |d|
      ensures d[i] != ','
    {
      assert IsDigit(d[i]);
    }
  }

  /** `s` with its leading white space removed, as `parseInt` first does. */
  function TrimStart(s: string): (r: string)
    ensures r == [] || !IsWhiteSpace(r[0])
    ensures |r| <= |s| && r == s[|s| - |r|..]
  {
    if s != [] && IsWhiteSpace(s[0]) then TrimStart(s[1..]) else s
  }

  /** The longest prefix of `s` made of decimal digits. */
  function DigitPrefix(s: string): (d: string)
    ensures |d| <= |s| && d == s[..|d|] && AllDigits(d)
    ensures |d| == |s| || !IsDigit(s[|d|])
  {
    if s != [] && IsDigit(s[0]) then [s[0]] + DigitPrefix(s[1..]) else ""
  }

  /** The value of a string of decimal digits. */
  function DigitsValue(d: string): nat
    requires AllDigits(d)
  {
    if d == [] then 0 else DigitsValue(d[..|d| - 1]) * 10 + DigitValue(d[|d| - 1])
  }

  /** `parseInt(s, 10)`; `None` stands for `NaN`. Leading white space is
      skipped, one sign is accepted, and the longest run of digits that
      follows is read; anything after it is ignored. */
  function ParseInt(s: string): (r: Option<int>)
    ensures r.None? <==> DigitPrefix(Unsigned(TrimStart(s))) == []
    ensures r.Some? && r.value < 0 ==> TrimStart(s)[0] == '-'
    ensures r.Some? && (TrimStart(s) == [] || TrimStart(s)[0] != '-') ==> r.value >= 0
  {
    var t := TrimStart(s);
    var negative := t != [] && t[0] == '-';
    var u := Unsigned(t);
    var d := DigitPrefix(u);
    var v: int := if d == [] then 0 else DigitsValue(d);
    if d == [] then None
    else if negative then Some(-v)
    else Some(v)
  }

  /** The text after one leading sign, if there is one. */
  function Unsigned(t: string): (u: string)
    ensures |u| <= |t|
  {
    if t != [] && (t[0] == '-' || t[0] == '+') then t[1..] else t
  }

  /** `String(n)` for a natural number: its decimal digits. */
  function DecimalString(n: nat): (r: string)
    ensures |r| >= 1 && AllDigits(r)
    ensures n < 10 <==> |r| == 1
  {
    if n < 10 then [DigitChar(n)] else DecimalString(n / 10) + [DigitChar(n % 10)]
  }

  /** Reading the decimal digits of `n` gives back `n`. */
  lemma {:induction false} DecimalValue(n: nat)
    ensures DigitsValue(DecimalString(n)) == n
  {
    if n >= 10 {
      DecimalValue(n / 10);
      var d := DecimalString(n);
      assert d[..|d| - 1] == DecimalString(n / 10);
    }
  }

  /** A digit run followed by a non-digit is exactly the digit prefix. */
  lemma {:induction false} DigitPrefixOf(d: string, rest: string)
    requires AllDigits(d)
    requires rest == [] || !IsDigit(rest[0])
    ensures DigitPrefix(d + rest) == d
  {
    if d != [] {
      DigitPrefixOf(d[1..], rest);
      assert (d + rest)[1..] == d[1..] + rest;
      assert [d[0]] + d[1..] == d;
    } else {
      assert d + rest == rest;
    }
  }

  /** `parseInt` reads back what `String(n)` wrote, after any white space
      and before any text that does not start with a digit. */
  /** With no white space in front. */
  lemma ParseLeadingDecimal(n: nat, rest: string)
    requires rest == [] || !IsDigit(rest[0])
    ensures ParseInt(DecimalString(n) + rest) == Some(n)
  {
    var d := DecimalString(n);
    var t := d + rest;
    assert t[0] == d[0];
    DigitNotWhiteSpace(t[0]);
    assert TrimStart(t) == t;
    DigitPrefixOf(d, rest);
    DecimalValue(n);
    ParseUnsigned(t, t, d);
  }

  lemma ParseDecimal(ws: string, n: nat, rest: string)
    requires AllWhiteSpace(ws)
    requires rest == [] || !IsDigit(rest[0])
    ensures ParseInt(ws + DecimalString(n) + rest) == Some(n)
  {
    var d := DecimalString(n);
    var t := d + rest;
    assert t[0] == d[0];
    DigitNotWhiteSpace(t[0]);
    TrimWhiteSpace(ws, t);
    assert ws + d + rest == ws + t;
    DigitPrefixOf(d, rest);
    DecimalValue(n);
    ParseUnsigned(ws + t, t, d);
  }

  lemma DigitNotWhiteSpace(c: char)
    requires IsDigit(c)
    ensures !IsWhiteSpace(c) && c != '-' && c != '+'
  {
  }

  /** `parseInt` of text whose white space is followed by a digit run. */
  lemma ParseUnsigned(s: string, t: string, d: string)
    requires TrimStart(s) == t && t != [] && IsDigit(t[0])
    requires DigitPrefix(t) == d && d != []
    ensures ParseInt(s) == Some(DigitsValue(d))
  {
    DigitNotWhiteSpace(t[0]);
  }

  lemma {:induction false} TrimWhiteSpace(ws: string, s: string)
    requires forall i :: 0 <= i < |ws| ==> IsWhiteSpace(ws[i])
    requires s == [] || !IsWhiteSpace(s[0])
    ensures TrimStart(ws + s) == s
  {
    if ws != [] {
      assert (ws + s)[1..] == ws[1..] + s;
      TrimWhiteSpace(ws[1..], s);
    } else {
      assert ws + s == s;
    }
  }

  /** The lower-case hexadecimal digits of a natural number. */
  function HexNat(n: nat): (r: string)
    ensures |r| >= 1
    ensures n < 16 <==> |r| == 1
  {
    if n < 16 then [HexDigit(n)] else HexNat(n / 16) + [HexDigit(n % 16)]
  }

  /** `n.toString(16)` for an integer `n`, with a minus sign when negative. */
  function HexString(n: int): (r: string)
    ensures |r| >= 1
  {
    if n < 0 then "-" + HexNat(-n) else HexNat(n)
  }

  /** `s.padStart(2, '0')` */
  function PadStart2(s: string): (r: string)
    ensures |r| == if |s| >= 2 then |s| else 2
    ensures r[|r| - |s|..] == s
  {
    if |s| >= 2 then s else seq(2 - |s|, _ => '0') + s
  }

  /** A channel value below 256 prints as exactly two hexadecimal digits,
      high nibble first. */
  lemma TwoHexDigits(n: nat)
    requires n < 256
    ensures PadStart2(HexString(n)) == [HexDigit(n / 16), HexDigit(n % 16)]
  {
    assert HexString(n) == HexNat(n);
    if n >= 16 {
      assert HexNat(n / 16) == [HexDigit(n / 16)];
      assert HexNat(n) == [HexDigit(n / 16)] + [HexDigit(n % 16)];
    } else {
      assert HexNat(n) == [HexDigit(n)];
      assert n / 16 == 0 && n % 16 == n;
      assert HexDigit(0) == '0';
    }
  }

  /** Three-digit decimal numbers print as their three digits. */
  lemma DecimalThreeDigits(n: nat)
    requires 100 <= n < 1000
    ensures DecimalString(n) == [DigitChar(n / 100), DigitChar(n / 10 % 10), DigitChar(n % 10)]
  {
    assert DecimalString(n / 100) == [DigitChar(n / 100)];
    assert DecimalString(n / 10) == [DigitChar(n / 100)] + [DigitChar(n / 10 % 10)];
  }

  /** Two-digit decimal numbers print as their two digits. */
  lemma DecimalTwoDigits(n: nat)
    requires 10 <= n < 100
    ensures DecimalString(n) == [DigitChar(n / 10), DigitChar(n % 10)]
  {
    assert DecimalString(n / 10) == [DigitChar(n / 10)];
  }
}
