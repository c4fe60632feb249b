/**
 * The JavaScript string and number built-ins the BR Code builder relies on:
 * `String.prototype.trim`, `Number.prototype.toString(radix)` on non-negative
 * integers, `String.prototype.padStart`, `Number.prototype.toFixed(2)` on an
 * amount held as whole cents, and `String.prototype.toUpperCase` on ASCII.
 */
module JsStrings {

  // ---------------------------------------------------------------------------
  // trim
  // ---------------------------------------------------------------------------

  /** The code points `trim` removes: ECMAScript WhiteSpace and LineTerminator. */
  predicate IsJsWhitespace(c: char) {
    || c == '\t' || c == '\n' || c == '\U{000B}' || c == '\U{000C}' || c == '\r'
    || c == ' ' || c == '\U{00A0}' || c == '\U{1680}'
    || ('\U{2000}' <= c <= '\U{200A}')
    || c == '\U{2028}' || c == '\U{2029}' || c == '\U{202F}' || c == '\U{205F}'
    || c == '\U{3000}' || c == '\U{FEFF}'
  }

  /** Drops the longest whitespace prefix. */
  function TrimStart(s: string): (r: string)
    ensures |r| <= |s|
    decreases |s|
  {
    if s != [] && IsJsWhitespace(s[0]) then TrimStart(s[1..]) else s
  }

  /** Drops the longest whitespace suffix. */
  function TrimEnd(s: string): (r: string)
    ensures |r| <= |s|
    decreases |s|
  {
    if s != [] && IsJsWhitespace(s[|s| - 1]) then TrimEnd(s[..|s| - 1]) else s
  }

  /** `s.trim()`: the result neither starts nor ends with whitespace, and a
      string that already does not is returned unchanged. */
  function Trim(s: string): (r: string)
    ensures |r| <= |s|
    ensures r != [] ==> !IsJsWhitespace(r[0]) && !IsJsWhitespace(r[|r| - 1])
    ensures s == [] || (!IsJsWhitespace(s[0]) && !IsJsWhitespace(s[|s| - 1])) ==> r == s
  {
    TrimStartIsCleanSuffix(s);
    TrimEndIsCleanPrefix(TrimStart(s));
    var r := TrimEnd(TrimStart(s));
    assert r != [] ==> r[0] == TrimStart(s)[0];
    r
  }

  /** What `TrimStart` leaves is a suffix of `s` that does not start with
      whitespace, and everything it dropped was whitespace. */
  lemma {:induction false} TrimStartIsCleanSuffix(s: string)
    ensures var r := TrimStart(s);
      && |r| <= |s| && r == s[|s| - |r|..]
      && (forall k :: 0 <= k < |s| - |r| ==> IsJsWhitespace(s[k]))
      && (r != [] ==> !IsJsWhitespace(r[0]))
    decreases |s|
  {
    if s != [] && IsJsWhitespace(s[0]) {
      TrimStartIsCleanSuffix(s[1..]);
      var r := TrimStart(s);
      forall k | 0 <= k < |s| - |r| ensures IsJsWhitespace(s[k]) {
        if k > 0 { assert s[k] == s[1..][k - 1]; }
      }
    }
  }

  /** What `TrimEnd` leaves is a prefix of `s` that does not end with
      whitespace, and everything it dropped was whitespace. */
  lemma {:induction false} TrimEndIsCleanPrefix(s: string)
    ensures var r := TrimEnd(s);
      && |r| <= |s| && r == s[..|r|]
      && (forall k :: |r| <= k < |s| ==> IsJsWhitespace(s[k]))
      && (r != [] ==> !IsJsWhitespace(r[|r| - 1]))
    decreases |s|
  {
    if s != [] && IsJsWhitespace(s[|s| - 1]) {
      var t := s[..|s| - 1];
      TrimEndIsCleanPrefix(t);
      var r := TrimEnd(s);
      forall k | |r| <= k < |s| ensures IsJsWhitespace(s[k]) {
        if k < |s| - 1 { assert s[k] == t[k]; }
      }
      assert r == t[..|r|];
    }
  }

  /** `trim` returns the infix of `s` left after removing whitespace on both sides,
      and that infix neither starts nor ends with whitespace. */
  lemma TrimIsCleanInfix(s: string)
    ensures var i, r := |s| - |TrimStart(s)|, Trim(s);
      && i + |r| <= |s|
      && r == s[i..i + |r|]
      && (forall k :: 0 <= k < i ==> IsJsWhitespace(s[k]))
      && (forall k :: i + |r| <= k < |s| ==> IsJsWhitespace(s[k]))
      && (r != [] ==> !IsJsWhitespace(r[0]) && !IsJsWhitespace(r[|r| - 1]))
  {
    TrimStartIsCleanSuffix(s);
    TrimIsInfix(s);
    TrimDropsTrailingWhitespace(s);
  }

  lemma TrimIsInfix(s: string)
    ensures var i, r := |s| - |TrimStart(s)|, Trim(s);
      i + |r| <= |s| && r == s[i..i + |r|]
  {
    var t := TrimStart(s);
    TrimStartIsCleanSuffix(s);
    TrimEndIsCleanPrefix(t);
    var i, r := |s| - |t|, TrimEnd(t);
    assert Trim(s) == r;
    assert t == s[i..] && r == t[..|r|];
    assert r == s[i..i + |r|];
  }

  lemma TrimDropsTrailingWhitespace(s: string)
    ensures var i, r := |s| - |TrimStart(s)|, Trim(s);
      forall k :: i + |r| <= k < |s| ==> IsJsWhitespace(s[k])
  {
    var t := TrimStart(s);
    TrimStartIsCleanSuffix(s);
    TrimEndIsCleanPrefix(t);
    var i, r := |s| - |t|, TrimEnd(t);
    assert Trim(s) == r;
    forall k | i + |r| <= k < |s| ensures IsJsWhitespace(s[k]) {
      assert s[k] == t[k - i];
    }
  }

  /** A string that neither starts nor ends with whitespace is its own trim;
      in particular `trim` is idempotent. */
  lemma TrimIdempotent(s: string)
    ensures Trim(Trim(s)) == Trim(s)
  {
  }

  // ---------------------------------------------------------------------------
  // toString(radix)
  // ---------------------------------------------------------------------------

  /** The bases the builder converts with: 10 (`String(n)`, `toString()`) and 16 (`toString(16)`).
      Quotient, remainder and scaling are written per base so that the arithmetic stays linear. */
  type Radix = r: nat | r == 10 || r == 16 witness 10

  function Quot(n: nat, radix: Radix): nat { if radix == 10 then n / 10 else n / 16 }

  function Rem(n: nat, radix: Radix): (d: nat)
    ensures d < radix
  {
    if radix == 10 then n % 10 else n % 16
  }

  function Scale(v: nat, radix: Radix): nat { if radix == 10 then v * 10 else v * 16 }

  /** The digit `Number.prototype.toString` writes for `d`: 0-9, then lower-case letters. */
  function DigitChar(d: nat): (c: char)
    requires d < 16
  {
    if d < 10 then (48 + d) as char else (97 + d - 10) as char
  }

  /** The value of a digit character, letters in either case; 36 for a non-digit. */
  function DigitValue(c: char): (d: nat)
    ensures d <= 36
  {
    if '0' <= c <= '9' then c as int - 48
    else if 'a' <= c <= 'z' then c as int - 97 + 10
    else if 'A' <= c <= 'Z' then c as int - 65 + 10
    else 36
  }

  lemma DigitValueOfDigitChar(d: nat)
    requires d < 16
    ensures DigitValue(DigitChar(d)) == d
  {
  }

  /** Every character is a digit of `radix`, and none is an upper-case letter. */
  predicate IsLowerDigits(s: string, radix: Radix) {
    forall i :: 0 <= i < |s| ==> DigitValue(s[i]) < radix && !('A' <= s[i] <= 'Z')
  }

  /** The number a string of digits in `radix` denotes, most significant first
      (a non-digit counts as 0). */
  function ValueOf(s: string, radix: Radix): nat
    decreases |s|
  {
    if s == [] then 0
    else
      var d := DigitValue(s[|s| - 1]);
      Scale(ValueOf(s[..|s| - 1], radix), radix) + (if d < radix then d else 0)
  }

  /** `n.toString(radix)` for a non-negative integer `n`, most significant digit first. */
  function NatToString(n: nat, radix: Radix): (r: string)
    ensures |r| >= 1
    decreases n
  {
    if n < radix then [DigitChar(n)] else NatToString(Quot(n, radix), radix) + [DigitChar(Rem(n, radix))]
  }

  /** `toString` writes only digits of `radix`, in lower case, with no leading zero. */
  lemma {:induction false} NatToStringDigits(n: nat, radix: Radix)
    ensures IsLowerDigits(NatToString(n, radix), radix)
    ensures var r := NatToString(n, radix); |r| > 1 || n > 0 ==> DigitValue(r[0]) != 0
    decreases n
  {
    if n < radix {
      DigitValueOfDigitChar(n);
    } else {
      var t, c := NatToString(Quot(n, radix), radix), DigitChar(Rem(n, radix));
      NatToStringDigits(Quot(n, radix), radix);
      DigitValueOfDigitChar(Rem(n, radix));
      assert (t + [c])[0] == t[0];
      assert forall i :: 0 <= i < |t| ==> (t + [c])[i] == t[i];
    }
  }

  /** Reading the digits back gives the number: `toString` loses nothing. */
  lemma {:induction false} ValueOfNatToString(n: nat, radix: Radix)
    ensures ValueOf(NatToString(n, radix), radix) == n
    decreases n
  {
    var s := NatToString(n, radix);
    if n < radix {
      assert s[..0] == [];
      DigitValueOfDigitChar(n);
    } else {
      var t := NatToString(Quot(n, radix), radix);
      ValueOfNatToString(Quot(n, radix), radix);
      assert s[..|t|] == t;
      DigitValueOfDigitChar(Rem(n, radix));
    }
  }

  /** A leading zero does not change the number a digit string denotes. */
  lemma {:induction false} ValueOfZeroPrefix(s: string, radix: Radix)
    ensures ValueOf(['0'] + s, radix) == ValueOf(s, radix)
    decreases |s|
  {
    var t := ['0'] + s;
    if s == [] {
      assert t[..0] == [];
    } else {
      assert t[..|t| - 1] == ['0'] + s[..|s| - 1];
      assert t[|t| - 1] == s[|s| - 1];
      ValueOfZeroPrefix(s[..|s| - 1], radix);
    }
  }

  /** Any number of leading zeros leaves the number unchanged. */
  lemma {:induction false} ValueOfZerosPrefix(k: nat, s: string, radix: Radix)
    ensures ValueOf(Repeat('0', k) + s, radix) == ValueOf(s, radix)
    decreases k
  {
    if k > 0 {
      assert Repeat('0', k) + s == ['0'] + (Repeat('0', k - 1) + s);
      ValueOfZeroPrefix(Repeat('0', k - 1) + s, radix);
      ValueOfZerosPrefix(k - 1, s, radix);
    } else {
      assert Repeat('0', k) + s == s;
    }
  }

  function Pow(radix: Radix, k: nat): (p: nat)
    ensures p >= 1
  {
    if k == 0 then 1 else Scale(Pow(radix, k - 1), radix)
  }

  /** `toString` takes at most `k` digits exactly when the number is below `radix^k`. */
  lemma {:induction false} NatToStringLength(n: nat, radix: Radix, k: nat)
    requires 1 <= k
    ensures |NatToString(n, radix)| <= k <==> n < Pow(radix, k)
    decreases k
  {
    if k == 1 {
      if n >= radix {
        assert |NatToString(Quot(n, radix), radix)| >= 1;
      }
    } else if n >= radix {
      NatToStringLength(Quot(n, radix), radix, k - 1);
    }
  }

  // ---------------------------------------------------------------------------
  // padStart, toFixed(2), toUpperCase
  // ---------------------------------------------------------------------------

  function Repeat(c: char, n: nat): (r: string)
    ensures |r| == n && forall k :: 0 <= k < n ==> r[k] == c
  {
    if n == 0 then [] else [c] + Repeat(c, n - 1)
  }

  /** `s.padStart(targetLength, fill)` with a one-character `fill`: never truncates;
      adds `fill` in front until `targetLength` is reached. */
  function PadStart(s: string, targetLength: nat, fill: char): (r: string)
    ensures |r| == if |s| >= targetLength then |s| else targetLength
    ensures r[|r| - |s|..] == s
    ensures forall k :: 0 <= k < |r| - |s| ==> r[k] == fill
  {
    if |s| >= targetLength then s else Repeat(fill, targetLength - |s|) + s
  }

  /** `(cents / 100).toFixed(2)` for an amount that is a whole number of cents:
      the integer part without leading zeros, a point, and exactly two fraction
      digits that together denote the amount; a negative amount is its magnitude
      behind a minus sign. */
  function ToFixed2(cents: int): (r: string)
    ensures |r| >= 4
    ensures cents >= 0 ==>
      && r[|r| - 3] == '.'
      && IsLowerDigits(r[..|r| - 3], 10) && IsLowerDigits(r[|r| - 2..], 10)
      && ValueOf(r[..|r| - 3], 10) * 100 + ValueOf(r[|r| - 2..], 10) == cents
    ensures cents >= 0 && |r| > 4 ==> r[0] != '0'
    ensures cents < 0 ==> r[0] == '-' && r[1..] == ToFixed2(-cents)
    decreases if cents < 0 then 1 else 0
  {
    if cents < 0 then "-" + ToFixed2(-cents)
    else
      var whole, fraction := NatToString(cents / 100, 10), CentsDigits(cents % 100);
      ValueOfNatToString(cents / 100, 10);
      NatToStringDigits(cents / 100, 10);
      var r := whole + "." + fraction;
      assert r[..|r| - 3] == whole;
      assert whole != [] ==> r[0] == whole[0];
      assert r[|r| - 2..] == fraction;
      r
  }

  /** A whole number of reais is written with the fraction `.00`. */
  lemma ToFixed2OfWhole(cents: nat)
    requires cents % 100 == 0
    ensures ToFixed2(cents) == NatToString(cents / 100, 10) + ".00"
  {
    assert CentsDigits(0) == "00";
  }

  /** The two fraction digits `toFixed(2)` writes for `m` cents. */
  function CentsDigits(m: nat): (r: string)
    requires m < 100
    ensures |r| == 2 && IsLowerDigits(r, 10) && ValueOf(r, 10) == m
  {
    var r := [DigitChar(m / 10), DigitChar(m % 10)];
    DigitValueOfDigitChar(m / 10);
    DigitValueOfDigitChar(m % 10);
    assert r[..1][..0] == [];
    assert r[..1] == [DigitChar(m / 10)];
    assert ValueOf(r[..1], 10) == m / 10;
    assert ValueOf(r, 10) == Scale(m / 10, 10) + m % 10;
    r
  }

  function UpperChar(c: char): char {
    if 'a' <= c <= 'z' then (c as int - 32) as char else c
  }

  /** `s.toUpperCase()` on the ASCII letters (the only letters it meets here, hex digits). */
  function ToUpperCase(s: string): (r: string)
    ensures |r| == |s|
    ensures forall i :: 0 <= i < |s| ==> !('a' <= r[i] <= 'z')
    ensures forall i :: 0 <= i < |s| ==> DigitValue(r[i]) == DigitValue(s[i])
  {
    seq(|s|, i requires 0 <= i < |s| => UpperChar(s[i]))
  }

  /** Upper-casing keeps the denoted number. */
  lemma {:induction false} ValueOfToUpperCase(s: string, radix: Radix)
    ensures ValueOf(ToUpperCase(s), radix) == ValueOf(s, radix)
    decreases |s|
  {
    if s != [] {
      var u := ToUpperCase(s);
      assert u[..|u| - 1] == ToUpperCase(s[..|s| - 1]);
      ValueOfToUpperCase(s[..|s| - 1], radix);
    }
  }
}
