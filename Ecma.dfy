/** The pieces of the JavaScript runtime (ECMA-262, 10th edition) that the components rely on:
    numbers with NaN and Infinity, truthiness, the relational comparison, `parseInt`
    (section 18.2.5), `String.prototype.trim`, `toLowerCase`/`toUpperCase` (ASCII letters only),
    `includes`, `startsWith`, `split(c)[0]` and the decimal rendering of an integral number. */
module Ecma {

  /** A JavaScript number as the components produce them. Integral values are unbounded here
      (the 2^53 precision limit is not modelled); -0 and +0 are both `Finite(0)`. */
  datatype Num = NaN | Finite(v: int) | PosInfinity

  /** ToBoolean on a number: 0 and NaN are falsy, everything else is truthy. */
  predicate Falsy(n: Num) {
    n.NaN? || (n.Finite? && n.v == 0)
  }

  /** `a >= b` under the abstract relational comparison: any NaN operand gives false. */
  predicate AtLeast(a: Num, b: Num) {
    match a
    case NaN => false
    case PosInfinity => !b.NaN?
    case Finite(x) => b.Finite? && x >= b.v
  }

  /** `a <= b`. */
  predicate AtMost(a: Num, b: Num) {
    AtLeast(b, a)
  }

  // ---------------------------------------------------------------------------
  // Characters

  predicate IsDigit(c: char) {
    '0' <= c <= '9'
  }

  predicate IsHexDigit(c: char) {
    IsDigit(c) || 'a' <= c <= 'f' || 'A' <= c <= 'F'
  }

  /** A digit of radix 10 or 16 (the only radixes `parseInt` uses here). */
  predicate IsRadixDigit(c: char, radix: nat) {
    if radix == 16 then IsHexDigit(c) else IsDigit(c)
  }

  predicate AllRadixDigits(z: string, radix: nat) {
    forall i :: 0 <= i < |z| ==> IsRadixDigit(z[i], radix)
  }

  function DigitValue(c: char): (d: nat)
    requires IsHexDigit(c)
    ensures d < 16
    ensures IsDigit(c) <==> d < 10
  {
    if IsDigit(c) then c as int - '0' as int
    else if 'a' <= c <= 'f' then c as int - 'a' as int + 10
    else c as int - 'A' as int + 10
  }

  function DigitChar(d: nat): (c: char)
    requires d < 10
    ensures IsDigit(c) && DigitValue(c) == d
  {
    ('0' as int + d) as char
  }

  /** StrWhiteSpaceChar: WhiteSpace (section 11.2, including every Space_Separator) and
      LineTerminator (section 11.3). */
  predicate IsWhiteSpace(c: char) {
    c == '\t' || c == '\U{B}' || c == '\U{C}' || c == ' ' || c == '\U{A0}' || c == '\U{FEFF}'
    || c == '\U{1680}' || ('\U{2000}' <= c <= '\U{200A}') || c == '\U{202F}' || c == '\U{205F}'
    || c == '\U{3000}' || c == '\n' || c == '\r' || c == '\U{2028}' || c == '\U{2029}'
  }

  function LowerChar(c: char): (r: char)
    ensures 'A' <= c <= 'Z' ==> 'a' <= r <= 'z' && r as int - c as int == 32
    ensures !('A' <= c <= 'Z') ==> r == c
  {
    if 'A' <= c <= 'Z' then (c as int + 32) as char else c
  }

  function UpperChar(c: char): (r: char)
    ensures 'a' <= c <= 'z' ==> 'A' <= r <= 'Z' && c as int - r as int == 32
    ensures !('a' <= c <= 'z') ==> r == c
  {
    if 'a' <= c <= 'z' then (c as int - 32) as char else c
  }

  // ---------------------------------------------------------------------------
  // Strings

  /** `s.toLowerCase()` on ASCII letters; every other character is kept. */
  function ToLowerCase(s: string): (r: string)
    ensures |r| == |s|
    ensures forall i :: 0 <= i < |s| ==> r[i] == LowerChar(s[i])
  {
    if s == [] then [] else [LowerChar(s[0])] + ToLowerCase(s[1..])
  }

  /** `s.startsWith(p)`. */
  predicate StartsWith(s: string, p: string) {
    p <= s
  }

  /** `pat` occurs in `s` starting at index `i`. */
  predicate OccursAt(s: string, pat: string, i: int) {
    0 <= i <= |s| - |pat| && s[i..i + |pat|] == pat
  }

  /** `s.includes(pat)`. */
  predicate Includes(s: string, pat: string)
    decreases |s|
  {
    pat <= s || (s != [] && Includes(s[1..], pat))
  }

  /** `Includes` holds exactly when `pat` occurs at some index of `s`. */
  lemma IncludesIff(s: string, pat: string)
    ensures Includes(s, pat) <==> exists i :: OccursAt(s, pat, i)
  {
    if Includes(s, pat) {
      var i := IncludesWitness(s, pat);
    }
    forall i | OccursAt(s, pat, i)
      ensures Includes(s, pat)
    {
      OccursAtIncludes(s, pat, i);
    }
  }

  /** An index at which an included pattern occurs. */
  lemma {:induction false} IncludesWitness(s: string, pat: string) returns (i: int)
    requires Includes(s, pat)
    ensures OccursAt(s, pat, i)
    decreases |s|
  {
    if pat <= s {
      i := 0;
      assert s[..|pat|] == pat;
    } else {
      var j := IncludesWitness(s[1..], pat);
      i := j + 1;
      assert s[i..i + |pat|] == s[1..][j..j + |pat|];
    }
  }

  lemma {:induction false} OccursAtIncludes(s: string, pat: string, i: int)
    requires OccursAt(s, pat, i)
    ensures Includes(s, pat)
    decreases i
  {
    if i == 0 {
      assert s[..|pat|] == pat;
    } else {
      assert s[1..][i - 1..i - 1 + |pat|] == s[i..i + |pat|];
      OccursAtIncludes(s[1..], pat, i - 1);
    }
  }

  /** `s.replace(/[^0-9]/g, '')`: the decimal digits of `s`, in order. */
  function DigitsOnly(s: string): (ds: string)
    ensures AllRadixDigits(ds, 10)
    ensures |ds| <= |s|
    ensures ds == [] <==> forall i :: 0 <= i < |s| ==> !IsDigit(s[i])
  {
    if s == [] then []
    else
      var rest := DigitsOnly(s[1..]);
      assert forall i :: 1 <= i < |s| ==> s[i] == s[1..][i - 1];
      (if IsDigit(s[0]) then [s[0]] else []) + rest
  }

  lemma {:induction false} DigitsOnlyAppend(a: string, b: string)
    ensures DigitsOnly(a + b) == DigitsOnly(a) + DigitsOnly(b)
    decreases |a|
  {
    if a == [] {
      assert a + b == b;
    } else {
      assert (a + b)[1..] == a[1..] + b;
      DigitsOnlyAppend(a[1..], b);
    }
  }

  /** The longest prefix of `s` made of radix digits. */
  function LeadingDigits(s: string, radix: nat): (z: string)
    ensures z <= s
    ensures AllRadixDigits(z, radix)
    ensures |z| < |s| ==> !IsRadixDigit(s[|z|], radix)
  {
    if s == [] || !IsRadixDigit(s[0], radix) then []
    else [s[0]] + LeadingDigits(s[1..], radix)
  }

  /** The mathematical value of a digit string in the given radix. */
  function RadixValue(z: string, radix: nat): (v: nat)
    requires radix == 10 || radix == 16
    requires AllRadixDigits(z, radix)
  {
    if z == [] then 0
    else RadixValue(z[..|z| - 1], radix) * radix + DigitValue(z[|z| - 1])
  }

  /** Whitespace that `trim` and `parseInt` strip from the front. */
  function TrimStart(s: string): (t: string)
    ensures |t| <= |s| && t == s[|s| - |t|..]
    ensures t != [] ==> !IsWhiteSpace(t[0])
    ensures forall i :: 0 <= i < |s| - |t| ==> IsWhiteSpace(s[i])
  {
    if s != [] && IsWhiteSpace(s[0]) then TrimStart(s[1..]) else s
  }

  function TrimEnd(s: string): (t: string)
    ensures t <= s
    ensures t != [] ==> !IsWhiteSpace(t[|t| - 1])
    ensures forall i :: |t| <= i < |s| ==> IsWhiteSpace(s[i])
  {
    if s != [] && IsWhiteSpace(s[|s| - 1]) then TrimEnd(s[..|s| - 1]) else s
  }

  /** `s.trim()`. */
  function Trim(s: string): (t: string) {
    TrimEnd(TrimStart(s))
  }

  predicate IsBlank(s: string) {
    forall i :: 0 <= i < |s| ==> IsWhiteSpace(s[i])
  }

  /** `s.trim() === ''` exactly when every character of `s` is whitespace. */
  lemma TrimEmptyIffBlank(s: string)
    ensures Trim(s) == "" <==> IsBlank(s)
  {
    var t := TrimStart(s);
    if t != [] {
      assert TrimEnd(t) != [] by {
        assert !IsWhiteSpace(t[0]);
      }
      assert !IsWhiteSpace(s[|s| - |t|]);
    }
  }

  /** `s.split(c)[0]`: the part of `s` before the first `c` (all of `s` when there is none). */
  function BeforeFirst(s: string, c: char): (r: string)
    ensures r <= s
    ensures c !in r
    ensures |r| < |s| ==> s[|r|] == c
  {
    if s == [] || s[0] == c then [] else [s[0]] + BeforeFirst(s[1..], c)
  }

  /** Splitting `a + c + b` at the first `c` gives back `a` when `a` has no `c`. */
  lemma {:induction false} BeforeFirstOfJoin(a: string, c: char, b: string)
    requires c !in a
    ensures BeforeFirst(a + [c] + b, c) == a
  {
    if a != [] {
      assert (a + [c] + b)[1..] == a[1..] + [c] + b;
      BeforeFirstOfJoin(a[1..], c, b);
    }
  }

  // ---------------------------------------------------------------------------
  // Numbers to text and back

  /** The decimal numeral of a natural number, without leading zeros. */
  function ShowNat(n: nat): (s: string)
    ensures |s| > 0 && AllRadixDigits(s, 10)
    ensures n > 0 ==> s[0] != '0'
  {
    if n < 10 then [DigitChar(n)] else ShowNat(n / 10) + [DigitChar(n % 10)]
  }

  /** Number::toString of an integral number (section 7.1.12.1), below 10^21 in magnitude. */
  function ShowInt(i: int): (s: string)
    ensures |s| > 0
  {
    if i < 0 then "-" + ShowNat(-i) else ShowNat(i)
  }

  lemma {:induction false} RadixValueShowNat(n: nat)
    ensures RadixValue(ShowNat(n), 10) == n
  {
    if n >= 10 {
      RadixValueShowNat(n / 10);
      var s := ShowNat(n);
      assert s[..|s| - 1] == ShowNat(n / 10);
    }
  }

  lemma {:induction false} LeadingDigitsOfDigits(z: string, radix: nat)
    requires AllRadixDigits(z, radix)
    ensures LeadingDigits(z, radix) == z
  {
    if z != [] {
      LeadingDigitsOfDigits(z[1..], radix);
    }
  }

  /** Which radix `parseInt` was called with: none (`parseInt(s)`) or 10 (`parseInt(s, 10)`). */
  datatype Radix = Unspecified | Decimal

  /** `parseInt(s)` / `parseInt(s, 10)`, section 18.2.5: strip leading whitespace, take one
      optional sign, with no radix given strip a `0x`/`0X` prefix and read hexadecimal, then read
      the longest run of digits; no digits gives NaN. */
  function ParseInt(s: string, radix: Radix): (n: Num)
    ensures !n.PosInfinity?
  {
    ParseSigned(TrimStart(s), radix)
  }

  /** Steps 4 to 6: one optional sign. */
  function ParseSigned(t: string, radix: Radix): (n: Num)
    ensures !n.PosInfinity?
  {
    if t != [] && t[0] == '-' then Negate(ParseMagnitude(t[1..], radix))
    else if t != [] && t[0] == '+' then ParseMagnitude(t[1..], radix)
    else ParseMagnitude(t, radix)
  }

  /** Unary minus on a NaN or finite number (`Num` has no negative infinity). */
  function Negate(n: Num): (r: Num)
    requires !n.PosInfinity?
    ensures n.NaN? <==> r.NaN?
    ensures n.Finite? ==> r == Finite(0 - n.v)
  {
    if n.NaN? then NaN else Finite(0 - n.v)
  }

  /** Steps 8 to 16: the radix prefix and the longest run of digits. */
  function ParseMagnitude(u: string, radix: Radix): (n: Num)
    ensures !n.PosInfinity?
  {
    var hex := radix == Unspecified && |u| >= 2 && u[0] == '0' && (u[1] == 'x' || u[1] == 'X');
    var r := if hex then 16 else 10;
    var z := LeadingDigits(if hex then u[2..] else u, r);
    if z == [] then NaN else Finite(RadixValue(z, r))
  }

  /** A run of decimal digits reads as its value, whatever the radix argument (no `0x` prefix
      can occur in it, and leading zeros are harmless: "007" reads as 7); an empty run reads
      as NaN. */
  lemma MagnitudeOfDigits(z: string, radix: Radix)
    requires AllRadixDigits(z, 10)
    ensures ParseMagnitude(z, radix) == if z == [] then NaN else Finite(RadixValue(z, 10))
  {
    LeadingDigitsOfDigits(z, 10);
  }

  /** A run of decimal digits parses to its value, whatever the radix argument; the empty run
      parses to NaN. */
  lemma ParseIntOfDigits(z: string, radix: Radix)
    requires AllRadixDigits(z, 10)
    ensures ParseInt(z, radix) == if z == [] then NaN else Finite(RadixValue(z, 10))
  {
    if z != [] {
      assert !IsWhiteSpace(z[0]) && z[0] != '-' && z[0] != '+';
      assert TrimStart(z) == z;
    }
    MagnitudeOfDigits(z, radix);
  }

  /** The leading digits of a run of digits followed by a non-digit are that run. */
  lemma {:induction false} LeadingDigitsOfJoin(z: string, rest: string, radix: nat)
    requires AllRadixDigits(z, radix)
    requires rest == [] || !IsRadixDigit(rest[0], radix)
    ensures LeadingDigits(z + rest, radix) == z
  {
    if z != [] {
      assert (z + rest)[1..] == z[1..] + rest;
      LeadingDigitsOfJoin(z[1..], rest, radix);
    } else {
      assert z + rest == rest;
    }
  }

  /** `parseInt(z + rest, 10)` reads the digits `z` and stops at the first non-digit of
      `rest`. */
  lemma ParseDecimalPrefix(z: string, rest: string)
    requires z != [] && AllRadixDigits(z, 10)
    requires rest == [] || !IsDigit(rest[0])
    ensures ParseInt(z + rest, Decimal) == Finite(RadixValue(z, 10))
  {
    var s := z + rest;
    assert s[0] == z[0] && IsDigit(s[0]);
    assert !IsWhiteSpace(s[0]) && s[0] != '-' && s[0] != '+';
    assert TrimStart(s) == s;
    assert ParseInt(s, Decimal) == ParseMagnitude(s, Decimal);
    LeadingDigitsOfJoin(z, rest, 10);
    assert LeadingDigits(s, 10) == z;
  }

  /** A minus sign followed by a non-empty run of decimal digits parses to minus its value. */
  lemma ParseIntOfNegatedDigits(z: string, radix: Radix)
    requires z != [] && AllRadixDigits(z, 10)
    ensures ParseInt("-" + z, radix) == Finite(0 - RadixValue(z, 10))
  {
    var s := "-" + z;
    assert s[0] == '-' && !IsWhiteSpace(s[0]);
    assert TrimStart(s) == s;
    assert s[1..] == z;
    assert ParseInt(s, radix) == Negate(ParseMagnitude(z, radix));
    MagnitudeOfDigits(z, radix);
  }

  /** Rendering an integer and parsing it back gives the integer again. */
  lemma ParseIntShowInt(i: int, radix: Radix)
    ensures ParseInt(ShowInt(i), radix) == Finite(i)
  {
    if i < 0 {
      RadixValueShowNat(-i);
      ParseIntOfNegatedDigits(ShowNat(-i), radix);
    } else {
      RadixValueShowNat(i);
      ParseIntOfDigits(ShowNat(i), radix);
    }
  }

  /** `ShowInt` is injective: distinct ids render as distinct strings. */
  lemma ShowIntInjective(i: int, j: int)
    requires ShowInt(i) == ShowInt(j)
    ensures i == j
  {
    ParseIntShowInt(i, Decimal);
    ParseIntShowInt(j, Decimal);
  }
}
