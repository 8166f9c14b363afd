/** The JavaScript string operations the client relies on: `trim`, `toLowerCase`, `includes`,
    `String(n)` for integers and the global `parseInt` without a radix argument. */
module JsString {

  import opened Common

  /** WhiteSpace and LineTerminator code points: the characters `trim` removes
      (sections 12.2 and 12.3 of ECMA-262). */
  predicate IsWhiteSpace(c: char)
  {
    || c == '\t' || c == '\n' || c == '\U{000B}' || c == '\U{000C}' || c == '\r' || c == ' '
    || c == '\U{00A0}' || c == '\U{1680}' || ('\U{2000}' <= c <= '\U{200A}')
    || c == '\U{2028}' || c == '\U{2029}' || c == '\U{202F}' || c == '\U{205F}'
    || c == '\U{3000}' || c == '\U{FEFF}'
  }

  /** Every character of `s` is white space (the empty string included). */
  predicate IsBlank(s: string)
  {
    forall i :: 0 <= i < |s| ==> IsWhiteSpace(s[i])
  }

  function TrimStart(s: string): (r: string)
    ensures r == [] || !IsWhiteSpace(r[0])
    ensures |r| <= |s| && r == s[|s| - |r|..]
    ensures IsBlank(s[..|s| - |r|])
  {
    if s != [] && IsWhiteSpace(s[0]) then TrimStart(s[1..]) else s
  }

  function TrimEnd(s: string): (r: string)
    ensures r == [] || !IsWhiteSpace(r[|r| - 1])
    ensures |r| <= |s| && r == s[..|r|]
    ensures IsBlank(s[|r|..])
  {
    if s != [] && IsWhiteSpace(s[|s| - 1]) then TrimEnd(s[..|s| - 1]) else s
  }

  /** `s.trim()` */
  function Trim(s: string): string
  {
    TrimEnd(TrimStart(s))
  }

  /** `!s.trim()`: trimming leaves nothing exactly when every character is white space. */
  lemma TrimEmptyIffBlank(s: string)
    ensures Trim(s) == [] <==> IsBlank(s)
  {
    var t := TrimStart(s);
    var k := |s| - |t|;
    if t == [] {
      assert s[..k] == s;
    } else {
      assert s[k] == t[0];
    }
  }

  /** `toLowerCase` on the ASCII letters. */
  function ToLowerChar(c: char): char
  {
    if 'A' <= c <= 'Z' then (c as int + 32) as char else c
  }

  function ToLower(s: string): (r: string)
    ensures |r| == |s|
    ensures forall i :: 0 <= i < |s| ==> r[i] == ToLowerChar(s[i])
  {
    if s == [] then [] else [ToLowerChar(s[0])] + ToLower(s[1..])
  }

  /** `s.includes(t)`: `t` occurs in `s` as a contiguous block. */
  predicate Contains(s: string, t: string)
  {
    t <= s || (s != [] && Contains(s[1..], t))
  }

  /** `includes` finds a block wherever it stands. */
  lemma {:induction false} ContainsInside(a: string, t: string, b: string)
    ensures Contains(a + t + b, t)
  {
    if a == [] {
      assert a + t + b == t + b;
    } else {
      ContainsInside(a[1..], t, b);
      assert (a + t + b)[1..] == a[1..] + t + b;
    }
  }

  /** `t` stands in `s` at position `i`. */
  predicate OccursAt(s: string, t: string, i: int)
  {
    0 <= i <= |s| - |t| && s[i..i + |t|] == t
  }

  /** `includes` finds a block only where it stands. */
  lemma {:induction false} ContainsWitness(s: string, t: string)
    requires Contains(s, t)
    ensures exists i :: OccursAt(s, t, i)
  {
    if t <= s {
      assert OccursAt(s, t, 0);
    } else {
      ContainsWitness(s[1..], t);
      var i :| OccursAt(s[1..], t, i);
      assert s[i + 1..i + 1 + |t|] == s[1..][i..i + |t|];
      assert OccursAt(s, t, i + 1);
    }
  }

  // ---- integers as decimal text ----

  const Digits := "0123456789"

  function NatToString(n: nat): (r: string)
    ensures |r| >= 1
    ensures forall i :: 0 <= i < |r| ==> '0' <= r[i] <= '9'
  {
    if n < 10 then [Digits[n]] else NatToString(n / 10) + [Digits[n % 10]]
  }

  /** `String(n)` / template interpolation `${n}` of an integer. */
  function IntToString(n: int): string
  {
    if n < 0 then "-" + NatToString(-n) else NatToString(n)
  }

  /** The value of one digit character in the given radix (10 or 16 here). */
  function DigitValue(c: char, radix: nat): Option<nat>
  {
    var v: int :=
      if '0' <= c <= '9' then c as int - '0' as int
      else if 'a' <= c <= 'z' then c as int - 'a' as int + 10
      else if 'A' <= c <= 'Z' then c as int - 'A' as int + 10
      else -1;
    if 0 <= v < radix then Some(v) else None
  }

  /** The length of the longest prefix of `s` made of digits of the radix. */
  function DigitPrefixLength(s: string, radix: nat): (k: nat)
    ensures k <= |s|
    ensures forall i :: 0 <= i < k ==> DigitValue(s[i], radix).Some?
    ensures k < |s| ==> DigitValue(s[k], radix).None?
  {
    if s == [] || DigitValue(s[0], radix).None? then 0 else 1 + DigitPrefixLength(s[1..], radix)
  }

  /** The number a digit string denotes, most significant digit first. */
  function DigitsValue(z: string, radix: nat): nat
    requires forall i :: 0 <= i < |z| ==> DigitValue(z[i], radix).Some?
  {
    if z == [] then 0
    else Shift(DigitsValue(z[..|z| - 1], radix), radix) + DigitValue(z[|z| - 1], radix).value
  }

  /** A number with one more digit of the radix appended to it, before that digit is added. */
  function Shift(high: nat, radix: nat): nat
  {
    high * radix
  }

  /** The unsigned part of `parseInt`: a `0x`/`0X` prefix selects radix 16, otherwise radix 10,
      and the longest run of digits that follows is read. None when no digit follows. */
  function ParseUnsigned(u: string): Option<nat>
  {
    var hex := |u| >= 2 && u[0] == '0' && (u[1] == 'x' || u[1] == 'X');
    var radix := if hex then 16 else 10;
    var v := if hex then u[2..] else u;
    var z := v[..DigitPrefixLength(v, radix)];
    if z == [] then None else Some(DigitsValue(z, radix))
  }

  /** `parseInt(s)` with no radix (section 19.2.5 of ECMA-262): leading white space is skipped,
      one sign is taken, then the unsigned part is read. None stands for NaN. */
  function ParseInt(s: string): Option<int>
  {
    var t := TrimStart(s);
    var negative := t != [] && t[0] == '-';
    var u := if t != [] && (t[0] == '-' || t[0] == '+') then t[1..] else t;
    match ParseUnsigned(u)
    case None => None
    case Some(n) => var v: int := n; Some(if negative then -v else v)
  }

  /** `parseInt(value) || 0`: NaN (and zero) fall back to 0. */
  function ParseIntOrZero(s: string): int
  {
    match ParseInt(s)
    case Some(n) => n
    case None => 0
  }

  lemma {:induction false} NatToStringValue(n: nat)
    ensures DigitsValue(NatToString(n), 10) == n
  {
    var r := NatToString(n);
    if n >= 10 {
      NatToStringValue(n / 10);
      assert r[..|r| - 1] == NatToString(n / 10);
    }
  }

  /** Only zero is written with a leading `0`. */
  lemma NatToStringLeadingZero(n: nat)
    ensures NatToString(n)[0] == '0' ==> n == 0
  {
    if n >= 10 {
      NatToStringLeadingZero(n / 10);
      assert NatToString(n)[0] == NatToString(n / 10)[0];
    }
  }

  lemma DigitPrefixOfDecimal(n: nat)
    ensures DigitPrefixLength(NatToString(n), 10) == |NatToString(n)|
  {
    var r := NatToString(n);
  }

  lemma ParseUnsignedOfNatToString(n: nat)
    ensures ParseUnsigned(NatToString(n)) == Some(n)
  {
    var d := NatToString(n);
    NatToStringValue(n);
    NatToStringLeadingZero(n);
    DigitPrefixOfDecimal(n);
    assert d[..|d|] == d;
  }

  /** Reading back the decimal text of an integer gives the integer. */
  lemma ParseIntOfIntToString(n: int)
    ensures ParseInt(IntToString(n)) == Some(n)
  {
    var s := IntToString(n);
    var m: nat := if n < 0 then -n else n;
    ParseUnsignedOfNatToString(m);
    assert !IsWhiteSpace(s[0]);
    assert TrimStart(s) == s;
    var u := if s[0] == '-' || s[0] == '+' then s[1..] else s;
    assert u == NatToString(m);
    assert ParseUnsigned(u) == Some(m);
  }
}
