/** Checking the range of an integer token by comparing its text with the text of the bound. */
module IntegerTokens {
  import opened Wrappers
  import opened CanonicalText
  import opened CanonicalJson

  function Pow10(n: nat): nat { if n == 0 then 1 else 10 * Pow10(n - 1) }

  lemma {:induction false} Pow10Positive(n: nat)
    ensures Pow10(n) >= 1
  {
    if n > 0 {
      Pow10Positive(n - 1);
    }
  }

  lemma {:induction false} Pow10Monotone(n: nat, m: nat)
    requires n <= m
    ensures Pow10(n) <= Pow10(m)
    decreases m
  {
    if n < m {
      Pow10Monotone(n, m - 1);
      Pow10Positive(m - 1);
    }
  }

  /** What the first digit contributes. */
  lemma {:induction false} ValueFront(t: Text)
    requires AllDigits(t) && t != []
    ensures Value(t) == (t[0] - 48) * Pow10(|t| - 1) + Value(t[1..])
    decreases |t|
  {
    var n := |t| - 1;
    if n == 0 {
      assert t[..0] == [];
    } else {
      var front, last := t[..n], t[n] - 48;
      ValueFront(front);
      assert t[1..][..n - 1] == front[1..];
      var d, p, v := t[0] - 48, Pow10(n - 1), Value(front[1..]);
      assert Value(t[1..]) == 10 * v + last;
      assert Value(t) == 10 * (d * p + v) + last;
      Distribute(d, p, v);
    }
  }

  lemma Distribute(d: int, p: int, v: int)
    ensures 10 * (d * p + v) == d * (10 * p) + 10 * v
  {}

  lemma {:induction false} ValueBound(t: Text)
    requires AllDigits(t)
    ensures Value(t) < Pow10(|t|)
    decreases |t|
  {
    if t != [] {
      ValueBound(t[..|t| - 1]);
    }
  }

  /** Written without a superfluous zero in front. */
  predicate Magnitude(t: Text) { t != [] && AllDigits(t) && (t[0] == 48 ==> |t| == 1) }

  lemma MagnitudeIsLarge(t: Text)
    requires Magnitude(t) && |t| > 1
    ensures Value(t) >= Pow10(|t| - 1)
  {
    hide Value;
    ValueFront(t);
    AtLeast(t[0] - 48, Pow10(|t| - 1));
  }

  lemma AtLeast(d: int, p: nat)
    requires d >= 1
    ensures d * p >= p
  {}

  lemma LeadingDigitDecides(a: Text, b: Text)
    requires AllDigits(a) && AllDigits(b) && |a| == |b| > 0 && b[0] < a[0]
    ensures Value(a) > Value(b)
  {
    hide Value, Pow10;
    ValueFront(a);
    ValueFront(b);
    ValueBound(b[1..]);
    LargerFactor(a[0] - 48, b[0] - 48, Pow10(|a| - 1));
  }

  lemma LargerFactor(d: int, e: int, p: nat)
    requires d > e
    ensures d * p >= e * p + p
  {
    AtLeast(d - e, p);
    assert d * p == e * p + (d - e) * p;
  }

  /** Between texts of equal length, text order is numeric order. */
  lemma {:induction false} TextOrderIsNumeric(a: Text, b: Text)
    requires AllDigits(a) && AllDigits(b) && |a| == |b|
    ensures Before(b, a) <==> Value(a) > Value(b)
    decreases |a|
  {
    hide Value;
    if a != [] {
      if b[0] < a[0] {
        LeadingDigitDecides(a, b);
      } else if a[0] < b[0] {
        LeadingDigitDecides(b, a);
      } else {
        TextOrderIsNumeric(a[1..], b[1..]);
        ValueFront(a);
        ValueFront(b);
      }
    } else {
      assert a == b;
    }
  }

  /** Longer, or as long and later in text order: exactly the larger number. */
  lemma ComparisonIsNumeric(a: Text, b: Text)
    requires Magnitude(a) && Magnitude(b)
    ensures |a| > |b| || (|a| == |b| && Before(b, a)) <==> Value(a) > Value(b)
  {
    hide Value, Before;
    if |a| == |b| {
      TextOrderIsNumeric(a, b);
    } else if |a| > |b| {
      LongerIsLarger(a, b);
    } else {
      LongerIsLarger(b, a);
    }
  }

  lemma LongerIsLarger(a: Text, b: Text)
    requires Magnitude(a) && Magnitude(b) && |a| > |b|
    ensures Value(a) > Value(b)
  {
    hide Value;
    MagnitudeIsLarge(a);
    ValueBound(b);
    Pow10Monotone(|b|, |a| - 1);
  }

  // ---------------------------------------------------------------------------------------
  // The token check
  // ---------------------------------------------------------------------------------------

  /** An integer as the JSON grammar spells it. */
  predicate IntegerToken(t: Text) { t != [] && Magnitude(if t[0] == MINUS then t[1..] else t) }

  function TokenValue(t: Text): int
    requires IntegerToken(t)
  {
    var m: int := Value(if t[0] == MINUS then t[1..] else t);
    if t[0] == MINUS then -m else m
  }

  function ParseInteger(token: Text): Option<int>
    requires IntegerToken(token)
  {
    if token == [MINUS, 48] then None
    else
      var magnitude := if token[0] == MINUS then token[1..] else token;
      var limit := if token[0] == MINUS then Digits(-MIN_INTEGER) else Digits(MAX_INTEGER);
      if |magnitude| > |limit| || (|magnitude| == |limit| && Before(limit, magnitude)) then None
      else Some(TokenValue(token))
  }

  lemma {:induction false} DigitsAreMagnitudes(n: nat)
    ensures Magnitude(Digits(n)) && (n > 0 ==> Digits(n)[0] != 48)
    decreases n
  {
    if n >= 10 {
      DigitsAreMagnitudes(n / 10);
    }
  }

  /** Apart from the spelling -0, a token is accepted exactly when its value is in range. */
  lemma ParseIntegerIsExact(token: Text)
    requires IntegerToken(token)
    ensures ParseInteger(token)
            == if token != [MINUS, 48] && MIN_INTEGER <= TokenValue(token) <= MAX_INTEGER then Some(TokenValue(token)) else None
  {
    hide Value, Digits, Before;
    var negative := token[0] == MINUS;
    var magnitude := if negative then token[1..] else token;
    var bound: nat := if negative then -MIN_INTEGER else MAX_INTEGER;
    DigitsAreMagnitudes(bound);
    ValueOfDigits(bound);
    ComparisonIsNumeric(magnitude, Digits(bound));
  }

  /** Parsing undoes printing. */
  lemma ParseIntegerRoundTrip(n: int)
    requires MIN_INTEGER <= n <= MAX_INTEGER
    ensures IntegerToken(Decimal(n)) && ParseInteger(Decimal(n)) == Some(n)
  {
    hide Value, Digits, Before, ParseInteger, Decimal;
    var m: nat := if n < 0 then -n else n;
    DigitsAreMagnitudes(m);
    ValueOfDigits(m);
    DecimalSign(n);
    if n >= 0 {
      NonNegative(n);
    }
    ParseIntegerIsExact(Decimal(n));
  }
}
