/**
 The amount accepted by the expense form: the regular expression
 ^\d{1,15}(\.\d+)?$ (in JavaScript's regex dialect `\d` is an ASCII digit and
 `$` is the end of the input), and the decimal value of an accepted amount in
 thousandths of a currency unit.
 */
module AmountPattern {

  predicate IsDigit(c: char) {
    '0' <= c <= '9'
  }

  predicate AllDigits(s: string) {
    forall i :: 0 <= i < |s| ==> IsDigit(s[i])
  }

  /** `s` reads as an integer part of `k` digits, then either nothing or a
      dot followed by at least one digit. */
  predicate SplitsAt(s: string, k: nat)
    requires k <= |s|
  {
    AllDigits(s[..k]) && (k == |s| || (s[k] == '.' && k + 1 < |s| && AllDigits(s[k + 1..])))
  }

  /** The language of ^\d{1,15}(\.\d+)?$, stated as the regular expression
      reads: some split into 1 to 15 integer digits and an optional fraction. */
  ghost predicate InAmountLanguage(s: string) {
    exists k: nat :: 1 <= k <= 15 && k <= |s| && SplitsAt(s, k)
  }

  /** The length of the longest prefix of `s` made of digits. */
  function LeadingDigits(s: string): (n: nat)
    ensures n <= |s| && AllDigits(s[..n])
    ensures n < |s| ==> !IsDigit(s[n])
  {
    if s == [] || !IsDigit(s[0]) then 0
    else
      var m := LeadingDigits(s[1..]);
      assert s[..1 + m] == [s[0]] + s[1..][..m];
      1 + m
  }

  /** The recogniser: one scan over the leading digits, then a check of
      what follows them. It accepts exactly the language of the regular
      expression: since a dot is not a digit, the integer part of any
      accepted split is the whole run of leading digits. */
  predicate MatchesAmount(s: string): (ok: bool)
    ensures ok <==> InAmountLanguage(s)
  {
    var n := LeadingDigits(s);
    assert (1 <= n <= 15 && SplitsAt(s, n)) <==> InAmountLanguage(s) by {
      if InAmountLanguage(s) {
        var k: nat :| 1 <= k <= 15 && k <= |s| && SplitsAt(s, k);
        assert n == k;
      }
    }
    1 <= n <= 15 && SplitsAt(s, n)
  }

  /** A string of digits alone is one run of leading digits. */
  lemma {:induction false} DigitsRunIsWhole(s: string)
    requires AllDigits(s)
    ensures LeadingDigits(s) == |s|
  {
    if s != [] {
      DigitsRunIsWhole(s[1..]);
    }
  }

  /** Sample strings the recogniser accepts: one digit and a decimal. */
  lemma AcceptedSamples()
    ensures MatchesAmount("0") && MatchesAmount("12.5")
  {
  }

  /** Fifteen integer digits are the most allowed. */
  lemma FifteenDigitsAccepted()
    ensures MatchesAmount("123456789012345")
  {
    var longest := "123456789012345";
    assert AllDigits(longest);
    DigitsRunIsWhole(longest);
  }

  /** Sample strings the recogniser rejects: empty, not a number, no integer
      part, no fraction digits after the dot, and two dots. */
  lemma RejectedSamples()
    ensures !MatchesAmount("") && !MatchesAmount("abc") && !MatchesAmount(".5")
    ensures !MatchesAmount("12.") && !MatchesAmount("1.2.3")
  {
    var twoDots := "1.2.3";
    assert LeadingDigits(twoDots) == 1;
    assert twoDots[2..][1] == '.';
  }

  /** Sixteen integer digits are one too many. */
  lemma SixteenDigitsRejected()
    ensures !MatchesAmount("1234567890123456")
  {
    var tooLong := "1234567890123456";
    assert AllDigits(tooLong);
    DigitsRunIsWhole(tooLong);
  }

  /** Ten to the power `n`. */
  function Pow10(n: nat): (p: nat)
    ensures p >= 1
  {
    if n == 0 then 1 else 10 * Pow10(n - 1)
  }

  /** The decimal value of a run of digits. */
  function DigitsValue(s: string): (v: nat)
    requires AllDigits(s)
    ensures v < Pow10(|s|)
  {
    if s == [] then 0
    else
      var init := s[..|s| - 1];
      assert AllDigits(init) by {
        forall i | 0 <= i < |init| ensures IsDigit(init[i]) { assert init[i] == s[i]; }
      }
      DigitsValue(init) * 10 + (s[|s| - 1] as int - '0' as int)
  }

  /** The proper fraction d / p in thousandths, rounded half up. */
  function RoundToMillis(d: nat, p: nat): (m: nat)
    requires d < p
    ensures m <= 1000
    ensures (2 * p) * m <= d * 2000 + p < (2 * p) * (m + 1)
  {
    var a := d * 2000 + p;
    var b := 2 * p;
    assert a < b * 1001;
    QuotientBound(a, b, 1000);
    FloorDivision(a, b);
    a / b
  }

  /** A decimal fraction .f in thousandths, rounded half up. */
  function FractionMillis(f: string): (m: nat)
    requires AllDigits(f)
    ensures m <= 1000
  {
    RoundToMillis(DigitsValue(f), Pow10(|f|))
  }

  /** Division helper: a / b is the floor of the quotient. */
  lemma FloorDivision(a: nat, b: nat)
    requires b > 0
    ensures b * (a / b) <= a < b * (a / b + 1)
  {
    assert a == b * (a / b) + a % b;
  }

  /** Division helper: a dividend below b * (q + 1) gives a quotient of at
      most q. */
  lemma QuotientBound(a: nat, b: nat, q: nat)
    requires b > 0 && a < b * (q + 1)
    ensures a / b <= q
  {
    var r := a / b;
    assert a == b * r + a % b;
  }

  /** The value of an accepted amount in thousandths, in exact decimal
      arithmetic: an integer is taken exactly, and an amount with a
      fraction is rounded half up to the nearest thousandth. */
  function AmountMillis(s: string): (v: nat)
    requires MatchesAmount(s)
    ensures LeadingDigits(s) == |s| ==> AllDigits(s) && v == DigitsValue(s) * 1000
    ensures LeadingDigits(s) < |s| ==>
      var n := LeadingDigits(s);
      var f := s[n + 1..];
      var p := Pow10(|f|);
      var exact := DigitsValue(s[..n]) * p + DigitsValue(f);
      (2 * p) * v <= exact * 2000 + p < (2 * p) * (v + 1)
  {
    var n := LeadingDigits(s);
    var ip := DigitsValue(s[..n]);
    if n == |s| then
      assert s[..n] == s;
      ip * 1000
    else
      var f := s[n + 1..];
      var p := Pow10(|f|);
      var d := DigitsValue(f);
      var m := FractionMillis(f);
      assert (2 * p) * m <= d * 2000 + p < (2 * p) * (m + 1);
      ScaledBracket(ip, d, p, m);
      ip * 1000 + m
  }

  /** Arithmetic helper: shifting a rounding bracket by whole units. */
  lemma ScaledBracket(ip: nat, d: nat, p: nat, m: nat)
    requires (2 * p) * m <= d * 2000 + p < (2 * p) * (m + 1)
    ensures (2 * p) * (ip * 1000 + m) <= (ip * p + d) * 2000 + p
    ensures (ip * p + d) * 2000 + p < (2 * p) * (ip * 1000 + m + 1)
  {
    assert (2 * p) * (ip * 1000 + m) == (ip * p) * 2000 + (2 * p) * m;
    assert (2 * p) * (ip * 1000 + m + 1) == (ip * p) * 2000 + (2 * p) * (m + 1);
    assert (ip * p + d) * 2000 == (ip * p) * 2000 + d * 2000;
  }

  /** A fraction of at most three digits is taken exactly, with no rounding. */
  lemma ShortFractionIsExact(f: string)
    requires AllDigits(f) && |f| <= 3
    ensures FractionMillis(f) * Pow10(|f|) == DigitsValue(f) * 1000
  {
    var d := DigitsValue(f);
    if |f| == 0 {
    } else if |f| == 1 {
      assert (d * 2000 + 10) / 20 == d * 100;
    } else if |f| == 2 {
      assert Pow10(2) == 100;
      assert (d * 2000 + 100) / 200 == d * 10;
    } else {
      assert Pow10(3) == 1000;
      assert (d * 2000 + 1000) / 2000 == d;
    }
  }

  /** The integer part contributes whole units and the fraction at most one
      more, so an amount of `n` integer digits stays below 10^n units. */
  lemma AmountMillisBound(s: string)
    requires MatchesAmount(s)
    ensures DigitsValue(s[..LeadingDigits(s)]) * 1000 <= AmountMillis(s)
    ensures AmountMillis(s) <= Pow10(LeadingDigits(s)) * 1000
  {
    var n := LeadingDigits(s);
    var ip := DigitsValue(s[..n]);
    assert ip + 1 <= Pow10(n);
    assert (ip + 1) * 1000 <= Pow10(n) * 1000;
  }

  /** Sample values: "12.5" is 12.500, "0" is 0, and "0.0005" rounds up
      to one thousandth. */
  lemma MillisSamples()
    ensures MatchesAmount("12.5") && AmountMillis("12.5") == 12500
    ensures MatchesAmount("0") && AmountMillis("0") == 0
  {
    AcceptedSamples();
    var s := "12.5";
    assert LeadingDigits(s) == 2;
    assert s[..2] == "12" && s[3..] == "5";
    assert DigitsValue("12") == 12;
    ShortFractionIsExact("5");
  }

  lemma HalfThousandthRoundsUp()
    ensures MatchesAmount("0.0005") && AmountMillis("0.0005") == 1
  {
    var s := "0.0005";
    assert LeadingDigits(s) == 1;
    assert s[..1] == "0" && s[2..] == "0005";
    assert "0005"[..3] == "000" && "000"[..2] == "00" && "00"[..1] == "0";
    assert DigitsValue("000") == 0;
    assert DigitsValue("0005") == 5;
    assert Pow10(4) == 10000;
  }
}
