/** Withdrawal amounts. The bot works in TRX with eight decimal places
    (`toFixed(8)`, `Math.floor(amount * 1e8)`); here an amount is an integer
    number of 1e-8 units, so 0.001 TRX is 100000 units. */
module Amount {
  import opened Wrappers
  import opened Decimal

  /** Decimal places of an amount, as in `toFixed(8)`. */
  const FractionDigits: nat := 8

  /** Units per TRX: the `1e8` of `Math.floor(amount * 1e8)`. */
  const Scale: nat := 100_000_000

  /** The minimum withdrawal, 0.001 TRX. */
  const MinUnits: nat := 100_000

  lemma ScaleIsPow10()
    ensures Pow10(FractionDigits) == Scale
  {
  }

  /** The white space and line terminators `String.prototype.trim` removes. */
  predicate IsSpace(c: char) {
    var k := c as int;
    || k == 0x20 || 0x09 <= k <= 0x0D || k == 0xA0 || k == 0x1680
    || 0x2000 <= k <= 0x200A || k == 0x2028 || k == 0x2029 || k == 0x202F
    || k == 0x205F || k == 0x3000 || k == 0xFEFF
  }

  function TrimStart(s: string): (r: string)
    ensures |r| <= |s| && r == s[|s| - |r|..]
    ensures forall i :: 0 <= i < |s| - |r| ==> IsSpace(s[i])
    ensures r == [] || !IsSpace(r[0])
  {
    if s != [] && IsSpace(s[0]) then TrimStart(s[1..]) else s
  }

  function TrimEnd(s: string): (r: string)
    ensures |r| <= |s| && r == s[..|r|]
    ensures forall i :: |r| <= i < |s| ==> IsSpace(s[i])
    ensures r == [] || !IsSpace(r[|r| - 1])
  {
    if s != [] && IsSpace(s[|s| - 1]) then TrimEnd(s[..|s| - 1]) else s
  }

  /** `s.trim()`: what is left of `s` once the white space on both sides is
      cut off (TrimStart and TrimEnd say what is cut). */
  function Trim(s: string): (r: string)
    ensures |r| <= |s|
    ensures r == [] || (!IsSpace(r[0]) && !IsSpace(r[|r| - 1]))
  {
    TrimEnd(TrimStart(s))
  }

  /** `trim()` keeps a stretch of the input whole and cuts nothing but
      white space around it. */
  lemma TrimCutsOnlySpace(s: string)
    ensures exists a, b :: 0 <= a <= b <= |s| && Trim(s) == s[a..b]
                           && forall k :: 0 <= k < a || b <= k < |s| ==> IsSpace(s[k])
  {
    var t := TrimStart(s);
    var a := |s| - |t|;
    var b := a + |TrimEnd(t)|;
    assert Trim(s) == s[a..b] by {
      assert t == s[a..];
    }
    forall k | b <= k < |s|
      ensures IsSpace(s[k])
    {
      assert s[k] == t[k - a];
    }
  }

  /** A string without white space at either end is left as it is. */
  lemma TrimKeeps(s: string)
    requires s != [] && !IsSpace(s[0]) && !IsSpace(s[|s| - 1])
    ensures Trim(s) == s
  {
  }

  /** The number of decimal digits `s` starts with. */
  function LeadingDigits(s: string): (n: nat)
    ensures n <= |s| && AllDigits(s[..n])
    ensures n < |s| ==> !IsDigit(s[n])
  {
    if s == [] || !IsDigit(s[0]) then 0
    else
      var n := 1 + LeadingDigits(s[1..]);
      assert s[..n] == [s[0]] + s[1..][..n - 1];
      n
  }

  /** `parseFloat` of an unsigned amount in plain decimal notation: digits,
      optionally a point and at most eight fraction digits, at least one digit
      in all ("5", "5.", ".5", "0.00100000"). */
  function ParseUnsigned(s: string): Option<nat>
  {
    var n := LeadingDigits(s);
    var whole := DigitsValue(s[..n]);
    if n == |s| then
      if n == 0 then None else Some(whole * Scale)
    else if s[n] != '.' then None
    else
      var frac := s[n + 1..];
      if !AllDigits(frac) || |frac| > FractionDigits || n + |frac| == 0 then None
      else Some(FixedPoint(whole, DigitsValue(frac), |frac|))
  }

  /** The units denoted by a whole part and `digits` fraction digits of
      value `fraction`. */
  function FixedPoint(whole: nat, fraction: nat, digits: nat): nat
    requires digits <= FractionDigits
  {
    whole * Scale + fraction * Pow10(FractionDigits - digits)
  }

  /** `parseFloat` of text that does not start with white space, in units
      of 1e-8, with an optional sign; `None` stands for a result that is not
      a finite number. */
  function ParseSigned(s: string): Option<int>
  {
    if s != [] && (s[0] == '+' || s[0] == '-') then
      match ParseUnsigned(s[1..])
      case None => None
      case Some(u) =>
        var v: int := if s[0] == '-' then -(u as int) else u;
        Some(v)
    else
      match ParseUnsigned(s)
      case None => None
      case Some(u) => Some(u)
  }

  /** `parseFloat(s)` in units of 1e-8: leading white space is skipped
      and the rest is read as a signed number. */
  function ParseAmount(s: string): Option<int>
  {
    if s != [] && IsSpace(s[0]) then ParseAmount(s[1..]) else ParseSigned(s)
  }

  /** `parseFloat` reads what follows the leading white space. */
  lemma {:induction false} ParseAmountSkipsSpace(s: string)
    ensures ParseAmount(s) == ParseSigned(TrimStart(s))
  {
    if s != [] && IsSpace(s[0]) {
      ParseAmountSkipsSpace(s[1..]);
    }
  }

  /** A number starts, after the white space, with a digit, a sign or a
      point, and only a leading minus makes it negative. */
  lemma NumberStart(s: string)
    ensures var t := TrimStart(s);
            ParseAmount(s).Some? ==>
              && t != []
              && (IsDigit(t[0]) || t[0] == '+' || t[0] == '-' || t[0] == '.')
              && (ParseAmount(s).value < 0 ==> t[0] == '-')
  {
  }

  /** Leading white space changes nothing about what `parseFloat` reads. */
  lemma {:induction false} LeadingSpaceIgnored(w: string, s: string)
    requires forall i :: 0 <= i < |w| ==> IsSpace(w[i])
    ensures ParseAmount(w + s) == ParseAmount(s)
  {
    if w == [] {
      assert w + s == s;
    } else {
      assert (w + s)[0] == w[0] && (w + s)[1..] == w[1..] + s;
      LeadingSpaceIgnored(w[1..], s);
    }
  }

  /** `amount.toFixed(8)`: whole part, a point, eight fraction digits. */
  function FormatAmount(units: nat): string
  {
    ScaleIsPow10();
    NatToString(units / Scale) + "." + FixedDigits(units % Scale, FractionDigits)
  }

  /** What `toFixed(8)` prints: digits, a point and exactly eight digits,
      which together denote the amount, with no leading zero in the whole
      part. */
  lemma FormatAmountShape(units: nat)
    ensures var s := FormatAmount(units);
            && |s| >= FractionDigits + 2 && s[|s| - FractionDigits - 1] == '.'
            && AllDigits(s[..|s| - FractionDigits - 1]) && AllDigits(s[|s| - FractionDigits..])
            && DigitsValue(s[..|s| - FractionDigits - 1]) * Scale
               + DigitsValue(s[|s| - FractionDigits..]) == units
            && (|s| > FractionDigits + 2 ==> s[0] != '0')
  {
    ScaleIsPow10();
    PointSplits(NatToString(units / Scale), FixedDigits(units % Scale, FractionDigits));
  }

  /** Where the point sits in whole digits, a point and eight fraction digits. */
  lemma PointSplits(whole: string, frac: string)
    requires whole != [] && |frac| == FractionDigits
    ensures var s := whole + "." + frac;
            && |s| >= FractionDigits + 2 && s[|s| - FractionDigits - 1] == '.'
            && s[..|s| - FractionDigits - 1] == whole && s[|s| - FractionDigits..] == frac
            && s[0] == whole[0]
  {
  }

  /** The negation of `!Number.isFinite(amount) || amount < 0.001`: a valid
      amount is a finite, strictly positive number, and a positive amount
      under 0.001 TRX is not valid. */
  predicate ValidAmount(a: Option<int>): (b: bool)
    ensures b ==> a.Some? && a.value > 0
    ensures a.Some? && 0 < a.value < MinUnits ==> !b
  {
    a.Some? && a.value >= MinUnits
  }

  lemma {:induction false} LeadingDigitsOf(a: string, rest: string)
    requires AllDigits(a)
    requires rest == [] || !IsDigit(rest[0])
    ensures LeadingDigits(a + rest) == |a|
  {
    if a != [] {
      assert (a + rest)[1..] == a[1..] + rest;
      LeadingDigitsOf(a[1..], rest);
    }
  }

  /** Whole digits, a point and eight fraction digits read as fixed point. */
  lemma ReadsFixedPoint(whole: string, frac: string)
    requires whole != [] && AllDigits(whole) && AllDigits(frac) && |frac| == FractionDigits
    ensures ParseUnsigned(whole + ("." + frac))
         == Some(FixedPoint(DigitsValue(whole), DigitsValue(frac), FractionDigits))
  {
    var s := whole + ("." + frac);
    var n := |whole|;
    assert LeadingDigits(s) == n by {
      LeadingDigitsOf(whole, "." + frac);
    }
    assert s[..n] == whole && s[n] == '.' && s[n + 1..] == frac;
  }

  /** Text starting with a digit is read without a sign. */
  lemma UnsignedAmount(s: string, u: nat)
    requires s != [] && IsDigit(s[0]) && ParseUnsigned(s) == Some(u)
    ensures ParseAmount(s) == Some(u)
  {
  }

  /** Whole digits, a point and eight fraction digits are read as the
      amount they denote. */
  lemma ParsesPointed(whole: string, frac: string)
    requires whole != [] && AllDigits(whole) && AllDigits(frac) && |frac| == FractionDigits
    ensures ParseAmount(whole + ("." + frac))
         == Some(FixedPoint(DigitsValue(whole), DigitsValue(frac), FractionDigits))
  {
    var s := whole + ("." + frac);
    ReadsFixedPoint(whole, frac);
    assert s[0] == whole[0];
    UnsignedAmount(s, FixedPoint(DigitsValue(whole), DigitsValue(frac), FractionDigits));
  }

  /** Parsing what `toFixed(8)` printed gives back the same amount: the
      amount in a confirmation token survives the round trip exactly. */
  lemma FormatAmountRoundTrip(units: nat)
    ensures ParseAmount(FormatAmount(units)) == Some(units)
  {
    ScaleIsPow10();
    var whole := NatToString(units / Scale);
    var frac := FixedDigits(units % Scale, FractionDigits);
    assert FormatAmount(units) == whole + ("." + frac);
    ParsesPointed(whole, frac);
    FormattedValue(units);
  }

  /** The whole and fraction digits `FormatAmount` prints denote the amount. */
  lemma FormattedValue(units: nat)
    ensures FixedPoint(DigitsValue(NatToString(units / Scale)),
                       DigitsValue(FixedDigits(units % Scale, FractionDigits)),
                       FractionDigits) == units
  {
  }

  /** A printed amount starts and ends with a digit. */
  lemma FormatAmountEnds(units: nat)
    ensures var s := FormatAmount(units); s != [] && IsDigit(s[0]) && IsDigit(s[|s| - 1])
  {
  }

  /** A reply typed exactly as `toFixed(8)` prints an amount is read as
      that amount. */
  lemma ReadsFormattedReply(units: nat)
    ensures ParseAmount(Trim(FormatAmount(units))) == Some(units)
  {
    FormatAmountEnds(units);
    TrimKeeps(FormatAmount(units));
    FormatAmountRoundTrip(units);
  }
}
