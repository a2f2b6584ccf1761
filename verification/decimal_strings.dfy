/** Strings of decimal digits and the naturals they denote. */
module DecimalStrings {
  import opened Wrappers

  predicate IsDigit(c: char) { '0' <= c <= '9' }

  predicate AllDigits(s: string) {
    forall i :: 0 <= i < |s| ==> IsDigit(s[i])
  }

  function DigitOf(c: char): nat
    requires IsDigit(c)
  {
    c as int - '0' as int
  }

  function CharOf(n: nat): (c: char)
    requires n < 10
    ensures IsDigit(c) && DigitOf(c) == n
  {
    ('0' as int + n) as char
  }

  function Value(s: string): nat
    requires AllDigits(s)
  {
    if s == "" then 0 else 10 * Value(s[..|s| - 1]) + DigitOf(s[|s| - 1])
  }

  /** The decimal numeral of a natural, as a `toString` prints it. */
  function Digits(n: nat): string {
    if n < 10 then [CharOf(n)] else Digits(n / 10) + [CharOf(n % 10)]
  }

  /** The same for an integer. */
  function Numeral(n: int): string {
    if n < 0 then "-" + Digits(-n) else Digits(n)
  }

  lemma NumeralIsInjective(m: int, n: int)
    requires Numeral(m) == Numeral(n)
    ensures m == n
  {
    DigitsIsPlain(if m < 0 then -m else m);
    DigitsIsPlain(if n < 0 then -n else n);
    if m < 0 && n < 0 {
      assert Numeral(m)[1..] == Digits(-m) && Numeral(n)[1..] == Digits(-n);
    } else if m < 0 || n < 0 {
      assert false;
    }
  }

  function Pow10(n: nat): (p: nat)
    ensures p > 0
  {
    if n == 0 then 1 else 10 * Pow10(n - 1)
  }

  function Zeros(n: nat): string {
    seq(n, _ => '0')
  }

  /** A numeral without spare leading zeros. */
  predicate Plain(s: string) {
    AllDigits(s) && |s| > 0 && (|s| > 1 ==> s[0] != '0')
  }

  lemma {:induction false} DigitsIsPlain(n: nat)
    ensures Plain(Digits(n)) && Value(Digits(n)) == n
    ensures n > 0 ==> Digits(n)[0] != '0'
    decreases n
  {
    if n >= 10 {
      DigitsIsPlain(n / 10);
      var s := Digits(n / 10) + [CharOf(n % 10)];
      assert s[..|s| - 1] == Digits(n / 10);
    }
  }

  lemma {:induction false} PlainIsDigits(s: string)
    requires Plain(s)
    ensures Digits(Value(s)) == s
    ensures s[0] != '0' ==> Value(s) > 0
    decreases |s|
  {
    var t := s[..|s| - 1];
    assert s == t + [s[|s| - 1]];
    if |s| == 1 {
      assert t == "";
    } else {
      PlainIsDigits(t);
      assert Value(s) / 10 == Value(t) && Value(s) % 10 == DigitOf(s[|s| - 1]);
    }
  }

  /** A natural has one plain numeral. */
  lemma {:induction false} PlainIsUnique(s: string, t: string)
    requires Plain(s) && Plain(t) && Value(s) == Value(t)
    ensures s == t
  {
    PlainIsDigits(s);
    PlainIsDigits(t);
  }

  lemma {:induction false} Pow10Add(m: nat, n: nat)
    ensures Pow10(m + n) == Pow10(m) * Pow10(n)
    decreases m
  {
    if m > 0 {
      Pow10Add(m - 1, n);
    }
  }

  lemma {:induction false} ValueConcat(s: string, t: string)
    requires AllDigits(s) && AllDigits(t)
    ensures AllDigits(s + t)
    ensures Value(s + t) == Value(s) * Pow10(|t|) + Value(t)
    decreases |t|
  {
    if t == "" {
      assert s + t == s;
    } else {
      var t' := t[..|t| - 1];
      assert (s + t)[..|s + t| - 1] == s + t';
      ValueConcat(s, t');
      var d := DigitOf(t[|t| - 1]);
      assert Value(s + t) == 10 * Value(s + t') + d && Value(t) == 10 * Value(t') + d;
      ShiftDigit(Value(s), Pow10(|t'|), Value(t'), d);
    }
  }

  lemma ShiftDigit(a: nat, p: nat, b: nat, d: nat)
    ensures 10 * (a * p + b) + d == a * (10 * p) + (10 * b + d)
  {
  }

  lemma {:induction false} ValueBelow(s: string)
    requires AllDigits(s)
    ensures Value(s) < Pow10(|s|)
    decreases |s|
  {
    if s != "" {
      ValueBelow(s[..|s| - 1]);
    }
  }

  lemma {:induction false} ValueOfZeros(n: nat)
    ensures AllDigits(Zeros(n)) && Value(Zeros(n)) == 0
    decreases n
  {
    if n > 0 {
      ValueOfZeros(n - 1);
      assert Zeros(n)[..n - 1] == Zeros(n - 1);
    }
  }

  /** Digit strings of one length are equal when their values are. */
  lemma {:induction false} ValueIsInjective(s: string, t: string)
    requires AllDigits(s) && AllDigits(t) && |s| == |t| && Value(s) == Value(t)
    ensures s == t
    decreases |s|
  {
    if s != "" {
      var n := |s| - 1;
      assert Value(s) / 10 == Value(s[..n]) && Value(t) / 10 == Value(t[..n]);
      ValueIsInjective(s[..n], t[..n]);
      assert s == s[..n] + [s[n]] && t == t[..n] + [t[n]];
    }
  }

  /** The quotient and remainder of a value split at a digit position. */
  lemma {:induction false} SplitValue(s: string, t: string)
    requires AllDigits(s) && AllDigits(t)
    ensures AllDigits(s + t)
    ensures Value(s + t) / Pow10(|t|) == Value(s) && Value(s + t) % Pow10(|t|) == Value(t)
  {
    ValueConcat(s, t);
    ValueBelow(t);
    DivMod(Value(s), Value(t), Pow10(|t|));
  }

  lemma DivMod(q: nat, r: nat, m: nat)
    requires r < m
    ensures (q * m + r) / m == q && (q * m + r) % m == r
  {
    var x := q * m + r;
    assert x == (x / m) * m + x % m;
    NonzeroMultiple(q - x / m, m);
  }

  lemma NonzeroMultiple(d: int, m: nat)
    ensures d != 0 ==> d * m >= m || d * m <= -(m as int)
  {
  }

  // ----------------------------------------------------------------- the grammar

  /** `s` is digits `w`, or digits `w`, a point and digits `f`. */
  predicate IsDecimal(s: string, w: string, f: string) {
    && AllDigits(w) && w != "" && AllDigits(f)
    && s == (if f == "" then w else w + "." + f)
  }

  datatype Parts = Parts(whole: string, frac: string)

  function LeadingDigits(s: string): (n: nat)
    ensures n <= |s| && AllDigits(s[..n])
    ensures n < |s| ==> !IsDigit(s[n])
  {
    if s == "" || !IsDigit(s[0]) then 0
    else
      var n := LeadingDigits(s[1..]);
      assert s[..n + 1] == [s[0]] + s[1..][..n];
      n + 1
  }

  /** The regular expression of digits, and optionally a point and digits. */
  function MatchDecimal(s: string): Option<Parts> {
    var n := LeadingDigits(s);
    if n == 0 then None
    else if n == |s| then Some(Parts(s, ""))
    else if s[n] == '.' && n + 1 < |s| && AllDigits(s[n + 1..]) then Some(Parts(s[..n], s[n + 1..]))
    else None
  }

  lemma {:induction false} LeadingDigitsEnd(s: string, k: nat)
    requires k <= |s| && AllDigits(s[..k]) && (k < |s| ==> !IsDigit(s[k]))
    ensures LeadingDigits(s) == k
    decreases |s|
  {
    if k > 0 {
      assert s[..k][0] == s[0];
      assert s[1..][..k - 1] == s[..k][1..];
      LeadingDigitsEnd(s[1..], k - 1);
    }
  }

  lemma MatchIsTheGrammar(s: string, w: string, f: string)
    ensures MatchDecimal(s) == Some(Parts(w, f)) <==> IsDecimal(s, w, f)
  {
    var n := LeadingDigits(s);
    if IsDecimal(s, w, f) {
      assert w == s[..|w|];
      assert f != "" ==> s[|w|] == '.';
      LeadingDigitsEnd(s, |w|);
      if f != "" {
        assert s[|w| + 1..] == f;
      } else {
        assert s == s[..|w|];
      }
    } else if n == |s| {
      assert s[..n] == s;
    } else if MatchDecimal(s).Some? {
      assert s == s[..n] + "." + s[n + 1..];
    }
  }
}
