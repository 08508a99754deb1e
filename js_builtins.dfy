/**
 * The JavaScript built-ins the invoice form leans on, written out over
 * mathematical values: `String(n)` for integers, `String.prototype.padStart`,
 * `parseInt` (no radix argument), `parseFloat`, `Array.prototype.reduce`
 * and `Array.prototype.filter`.  Numbers are unbounded integers and reals,
 * so there is no NaN and no Infinity: a parse that yields NaN is `None`.
 */
module JsBuiltins {
  import opened Wrappers

  // ---------------------------------------------------------------- digits

  predicate IsDecimalDigit(c: char) { '0' <= c <= '9' }

  predicate AllDecimalDigits(s: string)
  {
    forall i :: 0 <= i < |s| ==> IsDecimalDigit(s[i])
  }

  /** The value of `c` as a digit of a radix up to 36 ('0'-'9', then 'a'-'z'
      or 'A'-'Z' for 10-35); 36 for a character that is a digit in no radix. */
  function DigitValue(c: char): nat
  {
    if '0' <= c <= '9' then (c as int) - ('0' as int)
    else if 'a' <= c <= 'z' then (c as int) - ('a' as int) + 10
    else if 'A' <= c <= 'Z' then (c as int) - ('A' as int) + 10
    else 36
  }

  predicate IsRadixDigit(c: char, radix: nat) { DigitValue(c) < radix }

  predicate AllRadixDigits(s: string, radix: nat)
  {
    forall i :: 0 <= i < |s| ==> IsRadixDigit(s[i], radix)
  }

  function DigitChar(d: nat): (c: char)
    requires d < 10
    ensures IsDecimalDigit(c) && DigitValue(c) == d
  {
    ('0' as int + d) as char
  }

  /** The number a string of digits denotes in `radix`, most significant first. */
  function RadixValue(d: string, radix: nat): nat
    requires AllRadixDigits(d, radix)
  {
    if d == [] then 0 else RadixValue(d[..|d| - 1], radix) * radix + DigitValue(d[|d| - 1])
  }

  /** The longest prefix of `s` made of digits of `radix`. */
  function LeadingDigits(s: string, radix: nat): (r: string)
    ensures |r| <= |s| && AllRadixDigits(r, radix)
  {
    if s != [] && IsRadixDigit(s[0], radix) then [s[0]] + LeadingDigits(s[1..], radix) else []
  }

  /** `LeadingDigits` is the longest prefix of digits: a prefix of `s`,
      followed by the end of `s` or by a character that is not a digit. */
  lemma {:induction false} LeadingDigitsIsLongest(s: string, radix: nat)
    ensures var r := LeadingDigits(s, radix);
            r <= s && (|r| < |s| ==> !IsRadixDigit(s[|r|], radix))
  {
    if s != [] && IsRadixDigit(s[0], radix) {
      LeadingDigitsIsLongest(s[1..], radix);
    }
  }

  lemma {:induction false} LeadingDigitsOfDigits(s: string, rest: string, radix: nat)
    requires AllRadixDigits(s, radix)
    requires rest == [] || !IsRadixDigit(rest[0], radix)
    ensures LeadingDigits(s + rest, radix) == s
  {
    if s != [] {
      assert (s + rest)[1..] == s[1..] + rest;
      LeadingDigitsOfDigits(s[1..], rest, radix);
    } else {
      assert s + rest == rest;
    }
  }

  // ------------------------------------------------------ String(n) for integers

  /** `String(n)` for a non-negative integer: its decimal digits, without leading zeros. */
  function NatToString(n: nat): (r: string)
    ensures |r| >= 1 && AllDecimalDigits(r)
    ensures AllRadixDigits(r, 10) && RadixValue(r, 10) == n
    ensures r[0] == '0' ==> n == 0 && |r| == 1
  {
    if n < 10 then [DigitChar(n)]
    else
      var prefix := NatToString(n / 10);
      var r := prefix + [DigitChar(n % 10)];
      assert r[..|r| - 1] == prefix;
      r
  }

  /** `String(i)` for an integer: a '-' sign before the digits of a negative number. */
  function IntToString(i: int): (r: string)
    ensures |r| >= 1
    ensures i >= 0 ==> r == NatToString(i)
    ensures i < 0 ==> r == "-" + NatToString(-i)
  {
    if i < 0 then "-" + NatToString(-i) else NatToString(i)
  }

  // ------------------------------------------------------------- padStart

  /** `s.padStart(targetLength, padString)`: when `s` is shorter than
      `targetLength` and `padString` is not empty, the missing length is
      filled from the front with copies of `padString`, the last one cut
      short; otherwise `s` itself. */
  function PadStart(s: string, targetLength: int, padString: string): (r: string)
    ensures |r| == if padString == [] || targetLength <= |s| then |s| else targetLength
    ensures |s| <= |r| && r[|r| - |s|..] == s
    ensures forall i :: 0 <= i < |r| - |s| ==> r[i] == padString[i % |padString|]
  {
    if targetLength <= |s| || padString == [] then s
    else
      var fill := seq(targetLength - |s|, i requires 0 <= i => padString[i % |padString|]);
      fill + s
  }

  lemma ZeroPadValue(d: string, width: int)
    requires AllDecimalDigits(d)
    ensures AllDecimalDigits(PadStart(d, width, "0"))
    ensures AllRadixDigits(d, 10) && AllRadixDigits(PadStart(d, width, "0"), 10)
    ensures RadixValue(PadStart(d, width, "0"), 10) == RadixValue(d, 10)
  {
    var p := PadStart(d, width, "0");
    assert forall i :: 0 <= i < |p| - |d| ==> p[i] == '0';
    ZeroPrefixValue(p[..|p| - |d|], d);
    assert p[..|p| - |d|] + d == p;
  }

  lemma {:induction false} ZeroPrefixValue(zeros: string, d: string)
    requires forall i :: 0 <= i < |zeros| ==> zeros[i] == '0'
    requires AllDecimalDigits(d)
    ensures AllRadixDigits(zeros + d, 10) && AllRadixDigits(d, 10)
    ensures RadixValue(zeros + d, 10) == RadixValue(d, 10)
  {
    var s := zeros + d;
    assert forall i :: 0 <= i < |s| ==> IsDecimalDigit(s[i]);
    if d == [] {
      assert s == zeros;
      ZerosValue(zeros);
    } else {
      assert s[..|s| - 1] == zeros + d[..|d| - 1];
      ZeroPrefixValue(zeros, d[..|d| - 1]);
    }
  }

  lemma {:induction false} ZerosValue(zeros: string)
    requires forall i :: 0 <= i < |zeros| ==> zeros[i] == '0'
    ensures AllRadixDigits(zeros, 10) && RadixValue(zeros, 10) == 0
  {
    if zeros != [] {
      ZerosValue(zeros[..|zeros| - 1]);
    }
  }

  // --------------------------------------------------------- white space

  /** The characters ECMAScript's StrWhiteSpaceChar accepts: WhiteSpace
      (tab, vertical tab, form feed, space, no-break space, byte order mark
      and the Zs space separators) and LineTerminator. */
  predicate IsJsWhiteSpace(c: char)
  {
    var k := c as int;
    k == 0x09 || k == 0x0A || k == 0x0B || k == 0x0C || k == 0x0D || k == 0x20 ||
    k == 0xA0 || k == 0x1680 || (0x2000 <= k <= 0x200A) || k == 0x2028 || k == 0x2029 ||
    k == 0x202F || k == 0x205F || k == 0x3000 || k == 0xFEFF
  }

  /** `s` without its leading white space. */
  function TrimStart(s: string): string
  {
    if s != [] && IsJsWhiteSpace(s[0]) then TrimStart(s[1..]) else s
  }

  /** `TrimStart` drops a run of white space from the front of `s` and
      nothing else: what it keeps is a suffix of `s` that does not start
      with white space. */
  lemma {:induction false} TrimStartStrips(s: string)
    ensures var r := TrimStart(s);
            |r| <= |s| && r == s[|s| - |r|..] &&
            (forall i :: 0 <= i < |s| - |r| ==> IsJsWhiteSpace(s[i])) &&
            (r != [] ==> !IsJsWhiteSpace(r[0]))
  {
    if s != [] && IsJsWhiteSpace(s[0]) {
      TrimStartStrips(s[1..]);
      var r := TrimStart(s);
      assert s[1..][|s| - 1 - |r|..] == s[|s| - |r|..];
      assert forall i :: 1 <= i < |s| - |r| ==> s[i] == s[1..][i - 1];
    }
  }

  // ------------------------------------------------------- parseInt, parseFloat

  /** -1 when `t` starts with '-', 1 otherwise. */
  function SignOf(t: string): int
  {
    if t != [] && t[0] == '-' then -1 else 1
  }

  /** `t` without one leading '+' or '-'. */
  function Unsigned(t: string): string
  {
    if t != [] && (t[0] == '-' || t[0] == '+') then t[1..] else t
  }

  /** The unsigned part of `parseInt`: a "0x" or "0X" prefix selects radix 16,
      otherwise radix 10; the longest run of digits that follows is the value,
      and no digit at all is NaN (`None`). */
  function ParseIntMagnitude(u: string): Option<nat>
  {
    var hex := |u| >= 2 && u[0] == '0' && (u[1] == 'x' || u[1] == 'X');
    var radix := if hex then 16 else 10;
    var digits := LeadingDigits(if hex then u[2..] else u, radix);
    if digits == [] then None else Some(RadixValue(digits, radix))
  }

  /** `parseInt(s)` with no radix: leading white space, one optional sign,
      then the magnitude. */
  function ParseInt(s: string): Option<int>
  {
    var t := TrimStart(s);
    match ParseIntMagnitude(Unsigned(t))
    case None => None
    case Some(v) => Some(SignOf(t) * v)
  }

  /** 10 to the power `e`, for any integer `e`. */
  function Pow10(e: int): (r: real)
    ensures r > 0.0
    decreases if e < 0 then -e else e
  {
    if e == 0 then 1.0
    else if e > 0 then 10.0 * Pow10(e - 1)
    else Pow10(e + 1) / 10.0
  }

  /** `m` with its decimal point moved `e` places to the right, one factor
      of ten at a time: m * 10^e. */
  function Shift10(m: real, e: int): real
    decreases if e < 0 then -e else e
  {
    if e == 0 then m
    else if e > 0 then 10.0 * Shift10(m, e - 1)
    else Shift10(m, e + 1) / 10.0
  }

  /** Moving the point `k` places left divides by 10^k. */
  lemma {:induction false} Shift10Left(m: real, k: nat)
    ensures Shift10(m, -(k as int)) == m / Pow10(k)
  {
    if k > 0 {
      Shift10Left(m, k - 1);
      var p := Pow10(k - 1);
      assert Pow10(k) == 10.0 * p;
      assert (m / p) / 10.0 == m / (10.0 * p);
    }
  }

  /** The value of a leading exponent part "e[+|-]digits" (or with 'E'), or 0
      when `s` does not begin with one. */
  function ExponentPart(s: string): int
  {
    if s != [] && (s[0] == 'e' || s[0] == 'E') then
      var d := LeadingDigits(Unsigned(s[1..]), 10);
      if d == [] then 0 else SignOf(s[1..]) * RadixValue(d, 10)
    else 0
  }

  /** The pieces of a decimal literal at the start of `u`: the digits before
      the point, the digits after it (empty when there is no point) and what
      follows them. */
  function SplitMantissa(u: string): (r: (string, string, string))
    ensures AllDecimalDigits(r.0) && AllDecimalDigits(r.1)
  {
    var whole := LeadingDigits(u, 10);
    var afterWhole := u[|whole|..];
    if afterWhole != [] && afterWhole[0] == '.' then
      var frac := LeadingDigits(afterWhole[1..], 10);
      (whole, frac, afterWhole[1 + |frac|..])
    else (whole, [], afterWhole)
  }

  /** The unsigned part of `parseFloat`: the longest prefix of the form
      digits [ "." digits ] [ exponent ] with at least one digit before the
      exponent; none is NaN (`None`). */
  function ParseFloatMagnitude(u: string): Option<real>
  {
    var (whole, frac, rest) := SplitMantissa(u);
    if whole == [] && frac == [] then None
    else
      var mantissa := RadixValue(whole, 10) as real + Shift10(RadixValue(frac, 10) as real, -(|frac| as int));
      Some(Shift10(mantissa, ExponentPart(rest)))
  }

  /** `parseFloat(s)`: leading white space, one optional sign, then the magnitude. */
  function ParseFloat(s: string): Option<real>
  {
    var t := TrimStart(s);
    match ParseFloatMagnitude(Unsigned(t))
    case None => None
    case Some(v) => Some(if SignOf(t) < 0 then -v else v)
  }

  /** A string that, after white space and an optional sign, does not start
      with a digit (nor, for `parseFloat`, with '.') parses to NaN. */
  lemma ParseOfNonNumeric(s: string)
    requires var u := Unsigned(TrimStart(s)); u == [] || (!IsDecimalDigit(u[0]) && u[0] != '.')
    ensures ParseInt(s) == None
    ensures ParseFloat(s) == None
  {
    var u := Unsigned(TrimStart(s));
    assert LeadingDigits(u, 10) == [];
    if |u| >= 2 && u[0] == '0' {
      assert false;
    }
  }

  /** The sign and the digits of `String(i)`. */
  lemma IntToStringParts(i: int)
    ensures var t := IntToString(i);
            TrimStart(t) == t && SignOf(t) * (if i < 0 then -i else i) == i &&
            Unsigned(t) == NatToString(if i < 0 then -i else i)
  {
    var t := IntToString(i);
    var digits := NatToString(if i < 0 then -i else i);
    assert t[0] == '-' || IsDecimalDigit(t[0]);
    assert !IsJsWhiteSpace(t[0]);
    if i < 0 {
      assert t == "-" + digits;
      assert t[1..] == digits;
      assert Unsigned(t) == digits;
    } else {
      assert t == digits;
      assert Unsigned(t) == digits;
    }
  }

  /** `parseInt` reads back what `String` printed. */
  lemma ParseIntOfIntToString(i: int)
    ensures ParseInt(IntToString(i)) == Some(i)
  {
    var digits := NatToString(if i < 0 then -i else i);
    IntToStringParts(i);
    LeadingDigitsOfDigits(digits, [], 10);
    assert digits + [] == digits;
    assert ParseIntMagnitude(digits) == Some(if i < 0 then -i else i);
  }

  /** A plain run of digits, as `parseFloat` sees it, is its value. */
  lemma DigitsMagnitude(u: string)
    requires AllDecimalDigits(u) && u != []
    ensures AllRadixDigits(u, 10)
    ensures ParseFloatMagnitude(u) == Some(RadixValue(u, 10) as real)
  {
    LeadingDigitsOfDigits(u, [], 10);
    assert u + [] == u;
    assert u[|u|..] == [];
    assert SplitMantissa(u) == (u, [], []);
    PlainDecimalMagnitude(u, u, []);
  }

  /** `parseFloat` of a run of digits is the number it denotes. */
  lemma ParseFloatOfDigits(u: string)
    requires AllDecimalDigits(u) && u != []
    ensures AllRadixDigits(u, 10)
    ensures ParseFloat(u) == Some(RadixValue(u, 10) as real)
  {
    DigitsMagnitude(u);
    UnsignedNumeral(u);
  }

  /** `parseFloat` of '-' and a run of digits is the negated number. */
  lemma ParseFloatOfNegativeDigits(u: string)
    requires AllDecimalDigits(u) && u != []
    ensures AllRadixDigits(u, 10)
    ensures ParseFloat("-" + u) == Some(-(RadixValue(u, 10) as real))
  {
    DigitsMagnitude(u);
    NegativeNumeral(u, RadixValue(u, 10) as real);
  }

  /** '-' before a numeral that starts with a digit negates its value. */
  lemma NegativeNumeral(u: string, v: real)
    requires u != [] && IsDecimalDigit(u[0]) && ParseFloatMagnitude(u) == Some(v)
    ensures ParseFloat("-" + u) == Some(-v)
  {
    MinusIsNotWhiteSpace(u);
    MinusSign(u);
    SignedMagnitude("-" + u, u, v);
  }

  lemma MinusIsNotWhiteSpace(u: string)
    ensures TrimStart("-" + u) == "-" + u
  {
    var s := "-" + u;
    assert !IsJsWhiteSpace(s[0]);
  }

  lemma MinusSign(u: string)
    ensures Unsigned("-" + u) == u && SignOf("-" + u) == -1
  {
    var s := "-" + u;
    assert s[1..] == u;
  }

  /** `parseFloat` of trimmed text with a '-' sign negates the magnitude. */
  lemma SignedMagnitude(s: string, u: string, v: real)
    requires TrimStart(s) == s && Unsigned(s) == u && SignOf(s) == -1
    requires ParseFloatMagnitude(u) == Some(v)
    ensures ParseFloat(s) == Some(-v)
  {
  }

  /** `parseFloat` of "whole.frac" is whole + frac / 10^|frac|. */
  lemma ParseFloatOfDecimal(whole: string, frac: string)
    requires whole != [] && AllDecimalDigits(whole) && AllDecimalDigits(frac)
    ensures AllRadixDigits(whole, 10) && AllRadixDigits(frac, 10)
    ensures ParseFloat(whole + "." + frac)
         == Some(RadixValue(whole, 10) as real + RadixValue(frac, 10) as real / Pow10(|frac|))
  {
    var s := whole + "." + frac;
    UnsignedNumeral(s);
    SplitDecimal(whole, frac);
    PlainDecimalMagnitude(s, whole, frac);
  }

  /** A numeral that starts with a digit is read without white space or sign. */
  lemma UnsignedNumeral(s: string)
    requires s != [] && IsDecimalDigit(s[0])
    ensures ParseFloat(s) == ParseFloatMagnitude(s)
    ensures ParseInt(s) == ParseIntMagnitude(s)
  {
    assert !IsJsWhiteSpace(s[0]);
    assert TrimStart(s) == s && Unsigned(s) == s && SignOf(s) == 1;
  }

  /** A literal with no exponent denotes its mantissa. */
  lemma PlainDecimalMagnitude(u: string, whole: string, frac: string)
    requires whole != [] && AllDecimalDigits(whole) && AllDecimalDigits(frac)
    requires SplitMantissa(u) == (whole, frac, [])
    ensures AllRadixDigits(whole, 10) && AllRadixDigits(frac, 10)
    ensures ParseFloatMagnitude(u)
         == Some(RadixValue(whole, 10) as real + RadixValue(frac, 10) as real / Pow10(|frac|))
  {
    assert ExponentPart([]) == 0;
    Shift10Left(RadixValue(frac, 10) as real, |frac|);
  }

  lemma SplitDecimal(whole: string, frac: string)
    requires AllDecimalDigits(whole) && AllDecimalDigits(frac)
    ensures SplitMantissa(whole + "." + frac) == (whole, frac, [])
  {
    var s := whole + "." + frac;
    assert s == whole + ("." + frac);
    LeadingDigitsOfDigits(whole, "." + frac, 10);
    var afterWhole := s[|whole|..];
    assert afterWhole == "." + frac;
    assert afterWhole[1..] == frac + [];
    LeadingDigitsOfDigits(frac, [], 10);
    assert afterWhole[1 + |frac|..] == [];
  }

  // ------------------------------------------------------ reduce and filter

  /** `s.reduce(f, acc)`: `f` applied from the left, starting from `acc`. */
  function Reduce<T, A>(s: seq<T>, f: (A, T) -> A, acc: A): A
  {
    if s == [] then acc else Reduce(s[1..], f, f(acc, s[0]))
  }

  /** `s.filter(keep)`, where `keep` sees each element with its index. */
  function Filter<T>(s: seq<T>, keep: (T, nat) -> bool): seq<T>
  {
    FilterFrom(s, keep, 0)
  }

  /** The filtered elements of `s[k..]`, indices counted from the start of `s`. */
  function FilterFrom<T>(s: seq<T>, keep: (T, nat) -> bool, k: nat): seq<T>
    decreases |s| - k
  {
    if k >= |s| then [] else (if keep(s[k], k) then [s[k]] else []) + FilterFrom(s, keep, k + 1)
  }

  /** Filtering on an index predicate that rejects exactly `index` removes
      that one element, keeping the others in order. */
  lemma FilterDropsIndex<T>(s: seq<T>, keep: (T, nat) -> bool, index: int)
    requires forall x, i :: keep(x, i) == (i != index)
    ensures Filter(s, keep) == if 0 <= index < |s| then s[..index] + s[index + 1..] else s
  {
    if 0 <= index < |s| {
      FilterFromDropsIndex(s, keep, index, 0);
    } else {
      FilterFromKeepsRest(s, keep, index, 0);
    }
  }

  lemma {:induction false} FilterFromDropsIndex<T>(s: seq<T>, keep: (T, nat) -> bool, index: int, k: nat)
    requires forall x, i :: keep(x, i) == (i != index)
    requires k <= index < |s|
    ensures FilterFrom(s, keep, k) == s[k..index] + s[index + 1..]
    decreases |s| - k
  {
    if k == index {
      FilterFromAtIndex(s, keep, index);
    } else {
      FilterFromDropsIndex(s, keep, index, k + 1);
      FilterFromKeeps(s, keep, k);
      ConsSlices(s, k, index);
    }
  }

  lemma FilterFromAtIndex<T>(s: seq<T>, keep: (T, nat) -> bool, index: nat)
    requires forall x, i :: keep(x, i) == (i != index)
    requires index < |s|
    ensures FilterFrom(s, keep, index) == s[index..index] + s[index + 1..]
  {
    assert !keep(s[index], index);
    FilterFromKeepsRest(s, keep, index, index + 1);
  }

  lemma FilterFromKeeps<T>(s: seq<T>, keep: (T, nat) -> bool, k: nat)
    requires k < |s| && keep(s[k], k)
    ensures FilterFrom(s, keep, k) == [s[k]] + FilterFrom(s, keep, k + 1)
  {
  }

  lemma ConsSlices<T>(s: seq<T>, k: nat, index: nat)
    requires k < index < |s|
    ensures [s[k]] + (s[k + 1..index] + s[index + 1..]) == s[k..index] + s[index + 1..]
  {
    assert s[k..index] == [s[k]] + s[k + 1..index];
  }

  /** Past the rejected index (or when it is out of range) every element is kept. */
  lemma {:induction false} FilterFromKeepsRest<T>(s: seq<T>, keep: (T, nat) -> bool, index: int, k: nat)
    requires forall x, i :: keep(x, i) == (i != index)
    requires k <= |s| && !(k <= index < |s|)
    ensures FilterFrom(s, keep, k) == s[k..]
    decreases |s| - k
  {
    if k < |s| {
      assert keep(s[k], k);
      FilterFromKeepsRest(s, keep, index, k + 1);
      assert s[k..] == [s[k]] + s[k + 1..];
    }
  }
}
