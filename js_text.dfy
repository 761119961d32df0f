/** The slice of JavaScript's text and number conversions that the tier store
    relies on: `String(n)` for integers, `parseInt(s)`, `Number(s)` and
    `s.split(c)` for a one-character separator. */
module JsText {

  /** A JavaScript number as far as chart keys need one: an integer or NaN. */
  datatype JsNumber = Finite(n: int) | NaN

  /** Value of a character read as a digit in any radix up to 36. */
  function CharDigit(c: char): (d: int)
    ensures -1 <= d < 36
  {
    if '0' <= c <= '9' then c as int - '0' as int
    else if 'a' <= c <= 'z' then c as int - 'a' as int + 10
    else if 'A' <= c <= 'Z' then c as int - 'A' as int + 10
    else -1
  }

  predicate IsRadixDigit(c: char, radix: nat)
  {
    0 <= CharDigit(c) < radix
  }

  predicate AllRadixDigits(s: string, radix: nat)
  {
    forall i :: 0 <= i < |s| ==> IsRadixDigit(s[i], radix)
  }

  /** The value of a digit string, most significant digit first. */
  function RadixValue(s: string, radix: nat): nat
    requires AllRadixDigits(s, radix)
  {
    if s == [] then 0
    else RadixValue(s[..|s| - 1], radix) * radix + CharDigit(s[|s| - 1])
  }

  function DigitChar(d: nat): (c: char)
    requires d < 10
    ensures IsRadixDigit(c, 10) && CharDigit(c) == d
  {
    ('0' as int + d) as char
  }

  /** `String(n)` for a non-negative integer: its decimal digits. */
  function NatToString(n: nat): (s: string)
    ensures |s| >= 1 && AllRadixDigits(s, 10)
  {
    if n < 10 then [DigitChar(n)] else NatToString(n / 10) + [DigitChar(n % 10)]
  }

  /** `String(n)` for any integer. */
  function IntToString(n: int): (s: string)
    ensures |s| >= 1
    ensures n >= 0 <==> '-' !in s
  {
    if n < 0 then "-" + NatToString(-n) else NatToString(n)
  }

  /** `String(x)` for a number. */
  function NumberText(x: JsNumber): (s: string)
    ensures |s| >= 1
    ensures x.NaN? || x.n >= 0 <==> '-' !in s
  {
    match x
    case Finite(n) => IntToString(n)
    case NaN => "NaN"
  }

  lemma {:induction false} NatToStringValue(n: nat)
    ensures RadixValue(NatToString(n), 10) == n
  {
    if n >= 10 {
      NatToStringValue(n / 10);
      var s := NatToString(n);
      assert s[..|s| - 1] == NatToString(n / 10);
    }
  }

  /** The characters JavaScript strips as white space or line terminators
      (the Unicode space separators, tab, vertical tab, form feed, the byte
      order mark and the four line terminators). */
  predicate IsJsSpace(c: char)
  {
    || c == '\t' || c == '\n' || c == '\U{000B}' || c == '\U{000C}' || c == '\r'
    || c == ' ' || c == '\U{00A0}' || c == '\U{1680}'
    || ('\U{2000}' <= c <= '\U{200A}')
    || c == '\U{2028}' || c == '\U{2029}' || c == '\U{202F}' || c == '\U{205F}'
    || c == '\U{3000}' || c == '\U{FEFF}'
  }

  function TrimStart(s: string): (r: string)
    ensures |r| <= |s| && r == s[|s| - |r|..]
    ensures r == [] || !IsJsSpace(r[0])
    ensures forall i :: 0 <= i < |s| - |r| ==> IsJsSpace(s[i])
  {
    if s != [] && IsJsSpace(s[0]) then TrimStart(s[1..]) else s
  }

  function TrimEnd(s: string): (r: string)
    ensures |r| <= |s| && r == s[..|r|]
    ensures r == [] || !IsJsSpace(r[|r| - 1])
    ensures forall i :: |r| <= i < |s| ==> IsJsSpace(s[i])
  {
    if s != [] && IsJsSpace(s[|s| - 1]) then TrimEnd(s[..|s| - 1]) else s
  }

  /** The longest prefix of `s` made of digits of the radix. */
  function LeadingDigits(s: string, radix: nat): (r: string)
    ensures |r| <= |s| && r == s[..|r|] && AllRadixDigits(r, radix)
    ensures |r| < |s| ==> !IsRadixDigit(s[|r|], radix)
  {
    if s != [] && IsRadixDigit(s[0], radix) then [s[0]] + LeadingDigits(s[1..], radix) else []
  }

  predicate HasHexPrefix(s: string)
  {
    |s| >= 2 && s[0] == '0' && (s[1] == 'x' || s[1] == 'X')
  }

  /** `parseInt(s)` with no radix: leading white space, an optional sign, an
      optional `0x` prefix selecting radix 16, then the longest run of digits;
      NaN when that run is empty. */
  function ParseInt(s: string): (r: JsNumber)
  {
    ParseSigned(TrimStart(s))
  }

  /** The optional sign, after the white space. */
  function ParseSigned(t: string): (r: JsNumber)
  {
    if t != [] && t[0] == '-' then Negate(ParseUnsigned(t[1..]))
    else if t != [] && t[0] == '+' then ParseUnsigned(t[1..])
    else ParseUnsigned(t)
  }

  function Negate(x: JsNumber): (r: JsNumber)
    ensures r.NaN? <==> x.NaN?
    ensures x.Finite? ==> r.n == -x.n
  {
    match x
    case Finite(n) => Finite(-n)
    case NaN => NaN
  }

  /** The optional `0x` prefix, after the sign. */
  function ParseUnsigned(u: string): (r: JsNumber)
  {
    if HasHexPrefix(u) then LeadingValue(u[2..], 16) else LeadingValue(u, 10)
  }

  /** The value of the leading run of digits; NaN when there is none. */
  function LeadingValue(v: string, radix: nat): (r: JsNumber)
    ensures r.NaN? <==> v == [] || !IsRadixDigit(v[0], radix)
  {
    var digits := LeadingDigits(v, radix);
    if digits == [] then NaN else Finite(RadixValue(digits, radix))
  }

  /** `parseInt` reads back what `String` prints for a non-negative integer. */
  lemma {:induction false} ParseIntOfNat(n: nat)
    ensures ParseInt(NatToString(n)) == Finite(n)
  {
    var s := NatToString(n);
    DigitsArePlain(s);
    NatToStringValue(n);
    assert ParseSigned(s) == ParseUnsigned(s) == LeadingValue(s, 10);
  }

  /** A decimal digit string has no white space, sign or `0x` prefix in
      front and is its own run of leading digits. */
  lemma DigitsArePlain(s: string)
    requires |s| >= 1 && AllRadixDigits(s, 10)
    ensures TrimStart(s) == s && s[0] != '-' && s[0] != '+' && !HasHexPrefix(s)
    ensures LeadingDigits(s, 10) == s
  {
    DecimalDigit(s[0]);
    assert !IsJsSpace(s[0]);
    if |s| >= 2 {
      DecimalDigit(s[1]);
    }
    AllDigitsLead(s);
  }

  /** The decimal digits are the characters `0` to `9`. */
  lemma DecimalDigit(c: char)
    requires IsRadixDigit(c, 10)
    ensures '0' <= c <= '9'
  {
  }

  lemma {:induction false} AllDigitsLead(s: string)
    requires AllRadixDigits(s, 10)
    ensures LeadingDigits(s, 10) == s
  {
    if s != [] {
      assert AllRadixDigits(s[1..], 10) by {
        forall i | 0 <= i < |s| - 1 ensures IsRadixDigit(s[1..][i], 10) {
          assert s[1..][i] == s[i + 1];
        }
      }
      AllDigitsLead(s[1..]);
      assert s == [s[0]] + s[1..];
    }
  }

  /** The radix selected by a `0x`, `0o` or `0b` prefix (either case), or 10. */
  function PrefixRadix(s: string): (radix: nat)
    ensures radix in {2, 8, 10, 16}
  {
    if |s| >= 2 && s[0] == '0' && (s[1] == 'x' || s[1] == 'X') then 16
    else if |s| >= 2 && s[0] == '0' && (s[1] == 'o' || s[1] == 'O') then 8
    else if |s| >= 2 && s[0] == '0' && (s[1] == 'b' || s[1] == 'B') then 2
    else 10
  }

  /** `Number(s)` on the integer-shaped strings: after trimming, the empty
      string is 0; a signed run of decimal digits, or an unsigned `0x`, `0o`
      or `0b` literal, is its value; anything else is NaN. */
  function StringToNumber(s: string): (r: JsNumber)
    ensures TrimEnd(TrimStart(s)) == [] ==> r == Finite(0)
  {
    TrimmedNumber(TrimEnd(TrimStart(s)))
  }

  /** `Number` of trimmed text: a radix prefix, else an optional sign. */
  function TrimmedNumber(t: string): (r: JsNumber)
  {
    if t == [] then Finite(0)
    else if PrefixRadix(t) != 10 then DigitsValue(t[2..], PrefixRadix(t))
    else if t[0] == '-' then Negate(DigitsValue(t[1..], 10))
    else if t[0] == '+' then DigitsValue(t[1..], 10)
    else DigitsValue(t, 10)
  }

  /** The value of text made only of digits of the radix, else NaN. */
  function DigitsValue(body: string, radix: nat): (r: JsNumber)
    ensures r.Finite? <==> body != [] && AllRadixDigits(body, radix)
  {
    if body != [] && AllRadixDigits(body, radix) then Finite(RadixValue(body, radix)) else NaN
  }

  /** `Number` reads back what `String` prints for any integer. */
  lemma StringToNumberOfInt(n: int)
    ensures StringToNumber(IntToString(n)) == Finite(n)
  {
    var digits := NatToString(if n < 0 then -n else n);
    NatToStringValue(if n < 0 then -n else n);
    if n < 0 {
      var s := IntToString(n);
      assert s[1..] == digits;
      NegativeDigitsNumber(s);
    } else {
      DigitsNumber(digits);
    }
  }

  /** `Number` of a run of decimal digits is its value. */
  lemma DigitsNumber(d: string)
    requires |d| >= 1 && AllRadixDigits(d, 10)
    ensures StringToNumber(d) == Finite(RadixValue(d, 10))
  {
    DigitsTrimmed(d);
    DigitsUnsigned(d);
  }

  lemma DigitsTrimmed(d: string)
    requires |d| >= 1 && AllRadixDigits(d, 10)
    ensures TrimEnd(TrimStart(d)) == d
  {
    DecimalDigit(d[0]);
    DecimalDigit(d[|d| - 1]);
    NoSpaceAround(d);
  }

  lemma DigitsUnsigned(d: string)
    requires |d| >= 1 && AllRadixDigits(d, 10)
    ensures TrimmedNumber(d) == DigitsValue(d, 10)
  {
    DecimalDigit(d[0]);
    if |d| >= 2 {
      DecimalDigit(d[1]);
      DecimalPrefix(d);
    }
  }

  /** A digit in second place leaves no room for a radix prefix. */
  lemma DecimalPrefix(t: string)
    requires |t| >= 2 && '0' <= t[1] <= '9'
    ensures PrefixRadix(t) == 10
  {
  }

  /** `Number` of a minus sign before a run of decimal digits is minus its
      value. */
  lemma NegativeDigitsNumber(s: string)
    requires |s| >= 2 && s[0] == '-' && AllRadixDigits(s[1..], 10)
    ensures StringToNumber(s) == Finite(-(RadixValue(s[1..], 10) as int))
  {
    assert IsRadixDigit(s[1..][|s| - 2], 10);
    DecimalDigit(s[|s| - 1]);
    NoSpaceAround(s);
  }

  /** Text that neither starts nor ends with white space is its own trim. */
  lemma NoSpaceAround(s: string)
    requires s != [] && !IsJsSpace(s[0]) && !IsJsSpace(s[|s| - 1])
    ensures TrimEnd(TrimStart(s)) == s
  {
  }

  /** Text that is neither blank nor begins, after its white space, with a
      sign or a digit is not a number. */
  lemma StringToNumberOfWord(s: string)
    requires s != [] && !IsJsSpace(s[0]) && s[0] != '-' && s[0] != '+' && !IsRadixDigit(s[0], 10)
    ensures StringToNumber(s) == NaN
  {
    assert TrimStart(s) == s;
    var t := TrimEnd(s);
    assert t != [] && t[0] == s[0];
  }

  /** Index of the first occurrence of `c` in `s`. */
  function IndexOf(s: string, c: char): (i: nat)
    requires c in s
    ensures i < |s| && s[i] == c && c !in s[..i]
  {
    if s[0] == c then 0 else 1 + IndexOf(s[1..], c)
  }

  /** `s.split(sep)`: the pieces between the occurrences of `sep`. */
  function Split(s: string, sep: char): (pieces: seq<string>)
    ensures |pieces| >= 1
    ensures forall k :: 0 <= k < |pieces| ==> sep !in pieces[k]
    ensures Join(pieces, sep) == s
    decreases |s|
  {
    if sep !in s then [s]
    else
      var i := IndexOf(s, sep);
      var rest := Split(s[i + 1..], sep);
      assert s == s[..i] + [sep] + s[i + 1..];
      [s[..i]] + rest
  }

  /** `pieces.join(sep)`. */
  function Join(pieces: seq<string>, sep: char): string
    requires |pieces| >= 1
  {
    if |pieces| == 1 then pieces[0] else pieces[0] + [sep] + Join(pieces[1..], sep)
  }

  /** Splitting text that holds no separator, joined by one separator to
      arbitrary text, gives back that text as the first piece. */
  lemma {:induction false} SplitAfterPlain(a: string, sep: char, b: string)
    requires sep !in a
    ensures Split(a + [sep] + b, sep) == [a] + Split(b, sep)
  {
    var s := a + [sep] + b;
    assert s[..|a|] == a && s[|a|] == sep;
    assert IndexOf(s, sep) == |a|;
    assert s[|a| + 1..] == b;
  }
}
