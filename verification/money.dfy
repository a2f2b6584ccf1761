/**
 * Exact conversion between decimal strings and integer base units, for any number of
 * decimals. Nothing here rounds: what cannot be represented is refused.
 */
module Money {
  import opened Wrappers
  import opened DecimalStrings

  // ---------------------------------------------------------------------- trimming

  /** The characters `trim` removes. */
  predicate IsSpace(c: char) {
    || '\U{0009}' <= c <= '\U{000d}' || c == ' ' || c == '\U{00a0}' || c == '\U{1680}'
    || '\U{2000}' <= c <= '\U{200a}' || c == '\U{2028}' || c == '\U{2029}' || c == '\U{202f}'
    || c == '\U{205f}' || c == '\U{3000}' || c == '\U{feff}'
  }

  const SPACES :=
    ['\t', '\n', '\U{000b}', '\U{000c}', '\r', ' ', '\U{00a0}', '\U{1680}', '\U{2000}', '\U{2001}', '\U{2002}', '\U{2003}', '\U{2004}',
     '\U{2005}', '\U{2006}', '\U{2007}', '\U{2008}', '\U{2009}', '\U{200a}', '\U{2028}', '\U{2029}', '\U{202f}', '\U{205f}', '\U{3000}', '\U{feff}']

  /** White space and line ends, and no other character. */
  lemma SpaceIsListed(c: char)
    ensures IsSpace(c) <==> c in SPACES
  {
  }

  function TrimStart(s: string): string {
    if s != "" && IsSpace(s[0]) then TrimStart(s[1..]) else s
  }

  function TrimEnd(s: string): string {
    if s != "" && IsSpace(s[|s| - 1]) then TrimEnd(s[..|s| - 1]) else s
  }

  function Trim(s: string): string {
    TrimEnd(TrimStart(s))
  }

  // -------------------------------------------------------------- the two codecs

  /** Drop leading zeros while a digit follows. */
  function DropLeadingZeros(s: string): string {
    if |s| > 1 && s[0] == '0' then DropLeadingZeros(s[1..]) else s
  }

  function DropTrailingZeros(s: string): string {
    if s != "" && s[|s| - 1] == '0' then DropTrailingZeros(s[..|s| - 1]) else s
  }

  lemma {:induction false} DropLeadingZerosKeepsValue(s: string)
    requires AllDigits(s)
    ensures AllDigits(DropLeadingZeros(s)) && Value(DropLeadingZeros(s)) == Value(s)
    decreases |s|
  {
    if |s| > 1 && s[0] == '0' {
      DropLeadingZerosKeepsValue(s[1..]);
      ValueConcat([s[0]], s[1..]);
      assert s == [s[0]] + s[1..];
    }
  }

  /** Trailing zeros are what is dropped, and all of them. */
  lemma {:induction false} DropTrailingZerosShape(s: string)
    ensures |DropTrailingZeros(s)| <= |s|
    ensures s == DropTrailingZeros(s) + Zeros(|s| - |DropTrailingZeros(s)|)
    ensures DropTrailingZeros(s) != "" ==> DropTrailingZeros(s)[|DropTrailingZeros(s)| - 1] != '0'
    decreases |s|
  {
    if s != "" && s[|s| - 1] == '0' {
      var t := s[..|s| - 1];
      DropTrailingZerosShape(t);
      var k := |t| - |DropTrailingZeros(t)|;
      assert Zeros(k + 1) == Zeros(k) + "0";
      assert s == t + "0";
    } else {
      assert Zeros(0) == "";
    }
  }

  lemma {:induction false} DropTrailingZerosUndoes(s: string, n: nat)
    requires s != "" ==> s[|s| - 1] != '0'
    ensures DropTrailingZeros(s + Zeros(n)) == s
    decreases n
  {
    if n > 0 {
      DropTrailingZerosUndoes(s, n - 1);
      assert (s + Zeros(n))[..|s| + n - 1] == s + Zeros(n - 1);
    } else {
      assert s + Zeros(0) == s;
    }
  }

  lemma MatchedDigits(s: string)
    ensures MatchDecimal(s).Some? ==>
      AllDigits(MatchDecimal(s).value.whole) && AllDigits(MatchDecimal(s).value.frac)
  {
    if MatchDecimal(s).Some? {
      MatchIsTheGrammar(s, MatchDecimal(s).value.whole, MatchDecimal(s).value.frac);
    }
  }

  function ToBaseUnits(amount: string, decimals: nat): Result<nat> {
    if Trim(amount) == "" then Err(BUILD_ERROR)
    else
      match MatchDecimal(Trim(amount))
      case None => Err(BUILD_ERROR)
      case Some(Parts(whole, frac)) =>
        if |frac| > decimals then Err(BUILD_ERROR)
        else
          MatchedDigits(Trim(amount));
          ValueOfZeros(decimals - |frac|);
          var combined := whole + (frac + Zeros(decimals - |frac|));
          DropLeadingZerosKeepsValue(combined);
          Ok(Value(DropLeadingZeros(combined)))
  }

  function PadStart(s: string, n: nat): string {
    if |s| >= n then s else Zeros(n - |s|) + s
  }

  function FromBaseUnits(units: int, decimals: nat): Result<string> {
    if units < 0 then Err(BUILD_ERROR)
    else if decimals == 0 then Ok(Digits(units))
    else
      Ok(Printed(PadStart(Digits(units), decimals + 1), decimals))
  }

  /** The point goes before the last `decimals` digits; trailing zeros of the fraction go. */
  function Printed(s: string, decimals: nat): string
    requires |s| >= decimals
  {
    var whole := s[..|s| - decimals];
    var frac := DropTrailingZeros(s[|s| - decimals..]);
    if frac == "" then whole else whole + "." + frac
  }

  function AmountsEqual(a: string, b: string, decimals: nat): Result<bool> {
    match ToBaseUnits(a, decimals)
    case Err(e) => Err(e)
    case Ok(x) =>
      match ToBaseUnits(b, decimals)
      case Err(e) => Err(e)
      case Ok(y) => Ok(x == y)
  }

  // ------------------------------------------------------------------- meanings

  /** What a decimal `w.f` is worth in units of 10^-decimals. */
  function UnitsOf(w: string, f: string, decimals: nat): nat
    requires AllDigits(w) && AllDigits(f) && |f| <= decimals
  {
    Value(w) * Pow10(decimals) + Value(f) * Pow10(decimals - |f|)
  }

  /** A decimal string is accepted exactly when its fraction fits, and means w*10^d + f*10^(d-|f|). */
  lemma ToBaseUnitsMeaning(amount: string, decimals: nat, w: string, f: string)
    requires IsDecimal(Trim(amount), w, f)
    ensures ToBaseUnits(amount, decimals) == if |f| <= decimals then Ok(UnitsOf(w, f, decimals)) else Err(BUILD_ERROR)
  {
    MatchIsTheGrammar(Trim(amount), w, f);
    if |f| <= decimals {
      CombinedValue(w, f, decimals);
    }
  }

  /** The digits put together are worth w*10^d + f*10^(d-|f|). */
  lemma CombinedValue(w: string, f: string, decimals: nat)
    requires AllDigits(w) && AllDigits(f) && |f| <= decimals
    ensures var combined := w + (f + Zeros(decimals - |f|));
      && AllDigits(combined) && AllDigits(DropLeadingZeros(combined))
      && Value(DropLeadingZeros(combined)) == UnitsOf(w, f, decimals)
  {
    var pad := Zeros(decimals - |f|);
    ValueOfZeros(decimals - |f|);
    ValueConcat(f, pad);
    ValueConcat(w, f + pad);
    DropLeadingZerosKeepsValue(w + (f + pad));
  }

  /** Nothing outside the grammar is accepted. */
  lemma AcceptedIsDecimal(amount: string, decimals: nat)
    ensures ToBaseUnits(amount, decimals).Ok? <==>
      exists w, f :: IsDecimal(Trim(amount), w, f) && |f| <= decimals
  {
    match MatchDecimal(Trim(amount))
    case Some(Parts(w, f)) =>
      MatchIsTheGrammar(Trim(amount), w, f);
      forall w', f' | IsDecimal(Trim(amount), w', f') ensures w' == w && f' == f {
        MatchIsTheGrammar(Trim(amount), w', f');
      }
    case None =>
      forall w, f ensures !IsDecimal(Trim(amount), w, f) {
        MatchIsTheGrammar(Trim(amount), w, f);
      }
  }

  /** No spare leading zero, no trailing zero in the fraction, no bare point. */
  predicate CanonicalDecimal(s: string, w: string, f: string) {
    IsDecimal(s, w, f) && Plain(w) && (f != "" ==> f[|f| - 1] != '0')
  }

  lemma {:induction false} DecimalIsTrimmed(s: string, w: string, f: string)
    requires IsDecimal(s, w, f)
    ensures Trim(s) == s
  {
    assert !IsSpace(s[0]) by { assert s[0] == w[0]; }
    assert !IsSpace(s[|s| - 1]) by { assert s[|s| - 1] == if f == "" then w[|w| - 1] else f[|f| - 1]; }
  }

  lemma PaddedDigits(units: nat, n: nat) returns (s: string)
    requires n > 0
    ensures s == PadStart(Digits(units), n) && AllDigits(s) && Value(s) == units && |s| >= n
    ensures |s| > n ==> s[0] != '0'
  {
    s := PadStart(Digits(units), n);
    DigitsIsPlain(units);
    if |Digits(units)| < n {
      ValueOfZeros(n - |Digits(units)|);
      ValueConcat(Zeros(n - |Digits(units)|), Digits(units));
    }
  }

  /** The printer yields a canonical decimal worth exactly the units. */
  lemma FromBaseUnitsIsCanonical(units: nat, decimals: nat) returns (w: string, f: string)
    ensures FromBaseUnits(units, decimals).Ok? && CanonicalDecimal(FromBaseUnits(units, decimals).value, w, f)
    ensures |f| <= decimals && UnitsOf(w, f, decimals) == units
  {
    if decimals == 0 {
      w, f := Digits(units), "";
      DigitsIsPlain(units);
    } else {
      var s := PaddedDigits(units, decimals + 1);
      w, f := SplitPrinted(s, decimals);
    }
  }

  lemma SplitPrinted(s: string, decimals: nat) returns (w: string, f: string)
    requires AllDigits(s) && |s| > decimals && (|s| > decimals + 1 ==> s[0] != '0')
    ensures CanonicalDecimal(Printed(s, decimals), w, f)
    ensures |f| <= decimals && UnitsOf(w, f, decimals) == Value(s)
  {
    var n := |s| - decimals;
    w, f := s[..n], DropTrailingZeros(s[n..]);
    assert s == w + s[n..];
    DroppedZeros(s[n..]);
    ValueConcat(w, s[n..]);
  }

  /** Trailing zeros carry no value but their places. */
  lemma {:induction false} DroppedZeros(t: string)
    requires AllDigits(t)
    ensures var f := DropTrailingZeros(t);
      && |f| <= |t| && AllDigits(f) && (f != "" ==> f[|f| - 1] != '0')
      && Value(t) == Value(f) * Pow10(|t| - |f|)
  {
    var f := DropTrailingZeros(t);
    DropTrailingZerosShape(t);
    assert f == t[..|f|];
    ValueOfZeros(|t| - |f|);
    ValueConcat(f, Zeros(|t| - |f|));
  }

  /** Reading back what was printed gives the same units. */
  lemma RoundTrip(units: nat, decimals: nat)
    ensures FromBaseUnits(units, decimals).Ok?
    ensures ToBaseUnits(FromBaseUnits(units, decimals).value, decimals) == Ok(units)
  {
    var w, f := FromBaseUnitsIsCanonical(units, decimals);
    DecimalIsTrimmed(FromBaseUnits(units, decimals).value, w, f);
    ToBaseUnitsMeaning(FromBaseUnits(units, decimals).value, decimals, w, f);
  }

  /** Two canonical decimals worth the same are the same string. */
  lemma CanonicalIsUnique(w: string, f: string, w': string, f': string, decimals: nat)
    requires Plain(w) && AllDigits(f) && (f != "" ==> f[|f| - 1] != '0') && |f| <= decimals
    requires Plain(w') && AllDigits(f') && (f' != "" ==> f'[|f'| - 1] != '0') && |f'| <= decimals
    requires UnitsOf(w, f, decimals) == UnitsOf(w', f', decimals)
    ensures w == w' && f == f'
  {
    var F := PaddedFraction(w, f, decimals);
    var F' := PaddedFraction(w', f', decimals);
    SplitValue(w, F);
    SplitValue(w', F');
    PlainIsUnique(w, w');
    ValueIsInjective(F, F');
  }

  lemma PaddedFraction(w: string, f: string, decimals: nat) returns (F: string)
    requires AllDigits(w) && AllDigits(f) && (f != "" ==> f[|f| - 1] != '0') && |f| <= decimals
    ensures AllDigits(F) && |F| == decimals && DropTrailingZeros(F) == f
    ensures AllDigits(w + F) && Value(w + F) == UnitsOf(w, f, decimals)
  {
    F := f + Zeros(decimals - |f|);
    DropTrailingZerosUndoes(f, decimals - |f|);
    ValueOfZeros(decimals - |f|);
    ValueConcat(f, Zeros(decimals - |f|));
    ValueConcat(w, F);
  }

  /** Printing what was read gives the string back exactly when it was canonical. */
  lemma ReprintIsIdentityIffCanonical(s: string, decimals: nat)
    requires ToBaseUnits(s, decimals).Ok?
    ensures FromBaseUnits(ToBaseUnits(s, decimals).value, decimals) == Ok(s)
       <==> exists w, f :: CanonicalDecimal(s, w, f)
  {
    var units := ToBaseUnits(s, decimals).value;
    var w, f := FromBaseUnitsIsCanonical(units, decimals);
    if w', f' :| CanonicalDecimal(s, w', f') {
      DecimalIsTrimmed(s, w', f');
      ToBaseUnitsMeaning(s, decimals, w', f');
      CanonicalIsUnique(w, f, w', f', decimals);
    }
  }

  /** The decimals `w.f` and `w'.f'` denote the same rational number. */
  predicate SameRational(w: string, f: string, w': string, f': string)
    requires AllDigits(w + f) && AllDigits(w' + f')
  {
    Value(w + f) * Pow10(|f'|) == Value(w' + f') * Pow10(|f|)
  }

  lemma {:induction false} UnitsAreScaledDigits(w: string, f: string, decimals: nat)
    requires AllDigits(w) && AllDigits(f) && |f| <= decimals
    ensures AllDigits(w + f) && UnitsOf(w, f, decimals) == Value(w + f) * Pow10(decimals - |f|)
  {
    ValueConcat(w, f);
    Pow10Add(|f|, decimals - |f|);
    Distribute(Value(w), Pow10(|f|), Value(f), Pow10(decimals - |f|));
  }

  lemma Distribute(a: nat, p: nat, b: nat, q: nat)
    ensures (a * p + b) * q == a * (p * q) + b * q
  {
  }

  lemma Cancel(a: nat, b: nat, p: nat)
    requires p > 0
    ensures a * p == b * p <==> a == b
  {
    if a < b {
      assert (b - a) * p > 0;
    } else if a > b {
      assert (a - b) * p > 0;
    }
  }

  lemma ScaledEqual(x: nat, y: nat, m: nat, n: nat, d: nat)
    requires m <= n <= d
    ensures x * Pow10(d - m) == y * Pow10(d - n) <==> x * Pow10(n) == y * Pow10(m)
  {
    var k, p, q := Pow10(n - m), Pow10(d - n), Pow10(m);
    Pow10Add(n - m, d - n);
    Pow10Add(n - m, m);
    Associate(x, k, p);
    Associate(x, k, q);
    Cancel(x * k, y, p);
    Cancel(x * k, y, q);
  }

  lemma Associate(x: nat, y: nat, z: nat)
    ensures x * (y * z) == (x * y) * z
  {
  }

  lemma SameUnitsIffSameNumber(w: string, f: string, w': string, f': string, decimals: nat)
    requires AllDigits(w) && AllDigits(f) && |f| <= decimals
    requires AllDigits(w') && AllDigits(f') && |f'| <= decimals
    ensures AllDigits(w + f) && AllDigits(w' + f')
    ensures UnitsOf(w, f, decimals) == UnitsOf(w', f', decimals) <==> SameRational(w, f, w', f')
  {
    UnitsAreScaledDigits(w, f, decimals);
    UnitsAreScaledDigits(w', f', decimals);
    if |f| <= |f'| {
      ScaledEqual(Value(w + f), Value(w' + f'), |f|, |f'|, decimals);
    } else {
      ScaledEqual(Value(w' + f'), Value(w + f), |f'|, |f|, decimals);
    }
  }

  /** Two accepted amounts compare equal exactly when they are the same number. */
  lemma AmountsEqualIffSameNumber(a: string, b: string, decimals: nat, w: string, f: string, w': string, f': string)
    requires IsDecimal(Trim(a), w, f) && IsDecimal(Trim(b), w', f')
    ensures AmountsEqual(a, b, decimals).Ok? <==> |f| <= decimals && |f'| <= decimals
    ensures AllDigits(w + f) && AllDigits(w' + f')
    ensures AmountsEqual(a, b, decimals).Ok? ==>
      (AmountsEqual(a, b, decimals).value <==> SameRational(w, f, w', f'))
  {
    ToBaseUnitsMeaning(a, decimals, w, f);
    ToBaseUnitsMeaning(b, decimals, w', f');
    ValueConcat(w, f);
    ValueConcat(w', f');
    if |f| <= decimals && |f'| <= decimals {
      SameUnitsIffSameNumber(w, f, w', f', decimals);
    }
  }

  /** Whatever is refused is refused as a build error; printing refuses negative units only. */
  lemma RefusalsAreBuildErrors(amount: string, other: string, units: int, decimals: nat)
    ensures ToBaseUnits(amount, decimals).Err? ==> ToBaseUnits(amount, decimals).error == BUILD_ERROR
    ensures FromBaseUnits(units, decimals).Err? <==> units < 0
    ensures units < 0 ==> FromBaseUnits(units, decimals).error == BUILD_ERROR
    ensures AmountsEqual(amount, other, decimals).Ok? <==> ToBaseUnits(amount, decimals).Ok? && ToBaseUnits(other, decimals).Ok?
    ensures AmountsEqual(amount, other, decimals).Err? ==> AmountsEqual(amount, other, decimals).error == BUILD_ERROR
  {
  }
}
