/** The two conversions between text and integers that the device registry
    relies on: `Number.parseInt(text, 10)` for the port a user types, and the
    decimal rendering of an integer in a template string. */
module JsNumbers {

  /** What `Number.parseInt` returns: an integer value or NaN. */
  datatype ParsedInt = Int(n: int) | NaN

  predicate IsDigit(c: char)
  {
    '0' <= c <= '9'
  }

  predicate AllDigits(s: string)
  {
    forall i :: 0 <= i < |s| ==> IsDigit(s[i])
  }

  function DigitValue(c: char): (d: nat)
    requires IsDigit(c)
    ensures d < 10
  {
    c as int - '0' as int
  }

  function DigitChar(d: nat): (c: char)
    requires d < 10
    ensures IsDigit(c) && DigitValue(c) == d
  {
    ('0' as int + d) as char
  }

  /** The characters `parseInt` skips before the number: ECMAScript's
      WhiteSpace and LineTerminator code points. */
  predicate IsWhiteSpace(c: char)
  {
    var k := c as int;
    k == 0x09 || k == 0x0A || k == 0x0B || k == 0x0C || k == 0x0D || k == 0x20 ||
    k == 0xA0 || k == 0x1680 || (0x2000 <= k <= 0x200A) || k == 0x2028 ||
    k == 0x2029 || k == 0x202F || k == 0x205F || k == 0x3000 || k == 0xFEFF
  }

  /** `s` without its leading white space. */
  function TrimStart(s: string): (t: string)
    ensures |t| <= |s| && t == s[|s| - |t|..]
    ensures t == [] || !IsWhiteSpace(t[0])
    ensures forall i :: 0 <= i < |s| - |t| ==> IsWhiteSpace(s[i])
  {
    if s != [] && IsWhiteSpace(s[0]) then TrimStart(s[1..]) else s
  }

  /** The longest prefix of `s` made of decimal digits. */
  function DigitPrefix(s: string): (p: string)
    ensures |p| <= |s| && p == s[..|p|] && AllDigits(p)
    ensures |p| < |s| ==> !IsDigit(s[|p|])
  {
    if s != [] && IsDigit(s[0]) then [s[0]] + DigitPrefix(s[1..]) else []
  }

  /** The value of a string of decimal digits, most significant first. */
  function DigitsValue(s: string): nat
    requires AllDigits(s)
  {
    if s == [] then 0 else DigitsValue(s[..|s| - 1]) * 10 + DigitValue(s[|s| - 1])
  }

  /** The text after an optional leading sign. */
  function Unsigned(t: string): (u: string)
    ensures |u| <= |t| && u == t[|t| - |u|..]
  {
    if t != [] && (t[0] == '-' || t[0] == '+') then t[1..] else t
  }

  /** `Number.parseInt(s, 10)`: skip white space, accept one sign, read the
      longest run of digits; no digit at all gives NaN. */
  function ParseInt(s: string): (r: ParsedInt)
    ensures (forall i :: 0 <= i < |s| ==> !IsDigit(s[i])) ==> r == NaN
    ensures s != [] && AllDigits(s) ==> r == Int(DigitsValue(s))
    ensures |s| > 1 && s[0] == '-' && AllDigits(s[1..]) ==> r == Int(-(DigitsValue(s[1..]) as int))
  {
    var t := TrimStart(s);
    var negative := t != [] && t[0] == '-';
    var digits := DigitPrefix(Unsigned(t));
    var magnitude: int := if digits == [] then 0 else DigitsValue(digits);
    ParseIntShape(s);
    if digits == [] then NaN
    else if negative then Int(-magnitude)
    else Int(magnitude)
  }

  /** The facts behind `ParseInt`'s contract: a text without digits yields no
      digit prefix, and a plain or negated digit string is read whole. */
  lemma ParseIntShape(s: string)
    ensures (forall i :: 0 <= i < |s| ==> !IsDigit(s[i])) ==> DigitPrefix(Unsigned(TrimStart(s))) == []
    ensures s != [] && AllDigits(s) ==>
      TrimStart(s) == s && s[0] != '-' && DigitPrefix(Unsigned(TrimStart(s))) == s
    ensures |s| > 1 && s[0] == '-' && AllDigits(s[1..]) ==>
      TrimStart(s) == s && DigitPrefix(Unsigned(TrimStart(s))) == s[1..]
  {
    if forall i :: 0 <= i < |s| ==> !IsDigit(s[i]) {
      NoDigitsNoPrefix(s);
    }
    if s != [] && AllDigits(s) {
      DigitsReadWhole(s);
    }
    if |s| > 1 && s[0] == '-' && AllDigits(s[1..]) {
      NegatedDigitsReadWhole(s);
    }
  }

  /** A digit string is neither trimmed nor signed, and all of it is read. */
  lemma DigitsReadWhole(s: string)
    requires s != [] && AllDigits(s)
    ensures TrimStart(s) == s && s[0] != '-' && DigitPrefix(Unsigned(TrimStart(s))) == s
  {
    StartsWithoutWhiteSpace(s);
    assert Unsigned(s) == s;
    AllDigitsPrefix(s);
  }

  /** A minus sign followed by digits is not trimmed, and all the digits are read. */
  lemma NegatedDigitsReadWhole(s: string)
    requires |s| > 1 && s[0] == '-' && AllDigits(s[1..])
    ensures TrimStart(s) == s && DigitPrefix(Unsigned(TrimStart(s))) == s[1..]
  {
    StartsWithoutWhiteSpace(s);
    assert Unsigned(s) == s[1..];
    AllDigitsPrefix(s[1..]);
  }

  /** A text with no digit at all has no digit after its white space and sign. */
  lemma NoDigitsNoPrefix(s: string)
    requires forall i :: 0 <= i < |s| ==> !IsDigit(s[i])
    ensures DigitPrefix(Unsigned(TrimStart(s))) == []
  {
    var t := TrimStart(s);
    var u := Unsigned(t);
    if u != [] {
      var k := |s| - |t| + (|t| - |u|);
      assert 0 <= k < |s|;
      assert u[0] == t[|t| - |u|] == s[k];
      assert !IsDigit(s[k]);
    }
  }

  /** Nothing is trimmed from a text that starts with a digit or a minus sign. */
  lemma StartsWithoutWhiteSpace(s: string)
    requires s != [] && (IsDigit(s[0]) || s[0] == '-')
    ensures TrimStart(s) == s
  {
    assert !IsWhiteSpace(s[0]);
  }

  /** The decimal text of a natural number, without leading zeros. */
  function NatText(n: nat): (s: string)
    ensures s != [] && AllDigits(s)
    ensures |s| > 1 ==> s[0] != '0'
  {
    if n < 10 then [DigitChar(n)] else NatText(n / 10) + [DigitChar(n % 10)]
  }

  /** `${n}` for an integer number. */
  function IntText(n: int): string
  {
    if n < 0 then "-" + NatText(-n) else NatText(n)
  }

  /** `${p}` for what `parseInt` returned. */
  function ParsedText(p: ParsedInt): string
  {
    match p
    case Int(n) => IntText(n)
    case NaN => "NaN"
  }

  lemma {:induction false} NatTextValue(n: nat)
    ensures DigitsValue(NatText(n)) == n
  {
    if n >= 10 {
      NatTextValue(n / 10);
      var s := NatText(n);
      assert s[..|s| - 1] == NatText(n / 10);
    }
  }

  lemma AllDigitsPrefix(s: string)
    requires AllDigits(s)
    ensures DigitPrefix(s) == s
  {
  }

  /** Typing the decimal text of an integer into the port prompt gives that
      integer back: the number shown in a serial is the number parsed. */
  lemma ParseIntText(n: int)
    ensures ParseInt(IntText(n)) == Int(n)
  {
    var m: nat := if n < 0 then -n else n;
    var digits := NatText(m);
    NatTextValue(m);
    var t := IntText(n);
    if n < 0 {
      assert t[1..] == digits;
      ParseIntShape(t);
    } else {
      ParseIntShape(t);
    }
  }
}
