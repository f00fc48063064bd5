/** Decimal text of integers, as produced by `std::to_string`, C++ stream
    insertion and JavaScript's `String(n)`, and read back by JavaScript's
    `parseInt(s, 10)` and `parseInt(s)`; plus C++ integer division, which truncates toward zero. */
module NumericText {
  import opened Wrappers

  predicate IsDigit(c: char) { '0' <= c <= '9' }

  predicate AllDigits(s: string) { forall i :: 0 <= i < |s| ==> IsDigit(s[i]) }

  function DigitChar(d: nat): (c: char)
    requires d < 10
    ensures IsDigit(c) && c as int - '0' as int == d
  {
    "0123456789"[d]
  }

  function DigitValue(c: char): nat
    requires IsDigit(c)
  {
    c as int - '0' as int
  }

  /** Decimal digits of a natural number, most significant first, no leading zeros. */
  function NatToString(n: nat): (s: string)
    ensures |s| >= 1 && AllDigits(s)
    ensures |s| > 1 ==> s[0] != '0'
  {
    if n < 10 then [DigitChar(n)] else NatToString(n / 10) + [DigitChar(n % 10)]
  }

  /** `std::to_string(n)` / `String(n)` for an integer value. */
  function IntToString(n: int): (s: string)
  {
    if n < 0 then "-" + NatToString(-n) else NatToString(n)
  }

  /** The value of a run of decimal digits, read most significant first. */
  function DigitsValue(s: string): nat
    requires AllDigits(s)
  {
    if s == [] then 0 else 10 * DigitsValue(s[..|s| - 1]) + DigitValue(s[|s| - 1])
  }

  /** The white space `parseInt` skips at the front: the WhiteSpace and
      LineTerminator code points of ECMA-262 (sections 12.2 and 12.3), the
      Unicode space separators being those of category Zs. */
  predicate IsSpace(c: char)
  {
    || c == '\t' || c == '\U{0B}' || c == '\U{0C}' || c == ' ' || c == '\U{A0}' || c == '\U{FEFF}'
    || c == '\U{1680}' || '\U{2000}' <= c <= '\U{200A}' || c == '\U{202F}' || c == '\U{205F}' || c == '\U{3000}'
    || c == '\n' || c == '\r' || c == '\U{2028}' || c == '\U{2029}'
  }

  function TrimStart(s: string): (t: string)
    ensures |t| <= |s|
  {
    if s != [] && IsSpace(s[0]) then TrimStart(s[1..]) else s
  }

  /** The longest run of digits at the front of `s`. */
  function DigitPrefix(s: string): (p: string)
    ensures AllDigits(p) && |p| <= |s|
  {
    if s != [] && IsDigit(s[0]) then [s[0]] + DigitPrefix(s[1..]) else []
  }

  /** JavaScript's `parseInt(s, 10)`: skip leading white space, read an optional
      sign and the longest digit prefix; `None` is `NaN` (no digit at all). */
  function ParseInt(s: string): (r: Option<int>)
    ensures r.None? <==> DigitPrefix(SignFree(TrimStart(s))) == []
  {
    var t := TrimStart(s);
    var digits := DigitPrefix(SignFree(t));
    var value: int := DigitsValue(digits);
    if digits == [] then None
    else if t[0] == '-' then Some(-value)
    else Some(value)
  }

  function SignFree(t: string): string
  {
    if t != [] && (t[0] == '-' || t[0] == '+') then t[1..] else t
  }

  lemma {:induction false} DigitPrefixOfDigits(s: string)
    requires AllDigits(s)
    ensures DigitPrefix(s) == s
  {
    if s != [] {
      DigitPrefixOfDigits(s[1..]);
    }
  }

  lemma {:induction false} NatToStringValue(n: nat)
    ensures DigitsValue(NatToString(n)) == n
  {
    if n >= 10 {
      var a := NatToString(n / 10);
      var s := a + [DigitChar(n % 10)];
      assert s[..|s| - 1] == a;
      NatToStringValue(n / 10);
    }
  }

  lemma TrimStartNoSpace(s: string)
    requires s != [] && !IsSpace(s[0])
    ensures TrimStart(s) == s
  {
  }

  /** The digits of `m`, with or without a minus sign, read back by value. */
  lemma {:induction false} ParseIntSignedDigits(m: nat, negative: bool)
    ensures ParseInt((if negative then "-" else "") + NatToString(m)) == Some(if negative then -(m as int) else m as int)
  {
    var d := NatToString(m);
    var s := (if negative then "-" else "") + d;
    TrimStartNoSpace(s);
    assert SignFree(s) == d;
    DigitPrefixOfDigits(d);
    NatToStringValue(m);
    assert s[0] == '-' <==> negative;
  }

  /** Reading back the text of any integer gives that integer: `parseInt(String(n))
      == n`, so a line number written as an object key is found again. */
  lemma ParseIntToString(n: int)
    ensures ParseInt(IntToString(n)) == Some(n)
  {
    if n < 0 {
      ParseIntSignedDigits(-n, true);
    } else {
      ParseIntSignedDigits(n, false);
      assert "" + NatToString(n) == NatToString(n);
    }
  }

  /** Distinct integers have distinct decimal texts. */
  lemma IntToStringInjective(a: int, b: int)
    requires IntToString(a) == IntToString(b)
    ensures a == b
  {
    ParseIntToString(a);
    ParseIntToString(b);
  }

  predicate IsHexDigit(c: char)
  {
    IsDigit(c) || 'a' <= c <= 'f' || 'A' <= c <= 'F'
  }

  function HexDigitValue(c: char): (d: nat)
    requires IsHexDigit(c)
    ensures d < 16
  {
    if IsDigit(c) then DigitValue(c)
    else if 'a' <= c <= 'f' then c as int - 'a' as int + 10
    else c as int - 'A' as int + 10
  }

  /** The longest run of hexadecimal digits at the front of `s`. */
  function HexPrefix(s: string): (p: string)
    ensures |p| <= |s| && forall i :: 0 <= i < |p| ==> IsHexDigit(p[i])
  {
    if s != [] && IsHexDigit(s[0]) then [s[0]] + HexPrefix(s[1..]) else []
  }

  function HexDigitsValue(s: string): nat
    requires forall i :: 0 <= i < |s| ==> IsHexDigit(s[i])
  {
    if s == [] then 0 else 16 * HexDigitsValue(s[..|s| - 1]) + HexDigitValue(s[|s| - 1])
  }

  predicate HasHexPrefix(t: string)
  {
    |t| >= 2 && t[0] == '0' && (t[1] == 'x' || t[1] == 'X')
  }

  /** JavaScript's `parseInt(s)` without a radix: as `ParseInt`, except that a
      `0x`/`0X` after the sign switches to hexadecimal digits. */
  function ParseIntAnyRadix(s: string): (r: Option<int>)
    ensures !HasHexPrefix(SignFree(TrimStart(s))) ==> r == ParseInt(s)
    ensures HasHexPrefix(SignFree(TrimStart(s))) ==> (r.None? <==> HexPrefix(SignFree(TrimStart(s))[2..]) == [])
  {
    var t := TrimStart(s);
    var body := SignFree(t);
    if !HasHexPrefix(body) then ParseInt(s)
    else
      var digits := HexPrefix(body[2..]);
      var value: int := HexDigitsValue(digits);
      if digits == [] then None
      else if t[0] == '-' then Some(-value)
      else Some(value)
  }

  /** The text of an integer has no hexadecimal prefix, so both readings give
      the integer back. */
  lemma ParseIntAnyRadixToString(n: int)
    ensures ParseIntAnyRadix(IntToString(n)) == Some(n)
  {
    ParseIntToString(n);
    var s := IntToString(n);
    assert TrimStart(s) == s by {
      assert !IsSpace(s[0]);
    }
    var m: nat := if n < 0 then -n else n;
    assert SignFree(s) == NatToString(m);
    assert !HasHexPrefix(SignFree(s));
  }

  lemma HexDigitsOfOneA()
    ensures HexPrefix("1A") == "1A" && HexDigitsValue("1A") == 26
  {
    assert "1A"[1..] == "A" && "A"[1..] == "";
    assert "1A"[..1] == "1" && "1"[..0] == "";
  }

  /** A hexadecimal text is read by value: `parseInt("0x1A") == 26`. */
  lemma ParseIntAnyRadixReadsHex()
    ensures ParseIntAnyRadix("0x1A") == Some(26)
    ensures ParseInt("0x1A") == Some(0)
  {
    var s := "0x1A";
    TrimStartNoSpace(s);
    assert SignFree(s) == s;
    assert HasHexPrefix(s) && s[2..] == "1A";
    HexDigitsOfOneA();
    assert s[1..] == "x1A" && !IsDigit(s[1]);
    assert DigitPrefix(s) == "0";
    assert "0"[..0] == "";
  }

  /** C++ `a / b` for `b > 0`: the quotient truncated toward zero. */
  function TruncDiv(a: int, b: int): (q: int)
    requires b > 0
    ensures a >= 0 ==> 0 <= a - q * b < b
    ensures a < 0 ==> -b < a - q * b <= 0
  {
    if a >= 0 then a / b else -((-a) / b)
  }
}
