/**
 The leaves of canonical JSON: quoted strings, decimal integers, and the order in which object
 keys are printed. Text is a sequence of code points.
 */
module CanonicalText {
  import opened Wrappers

  type Code = c: int | 0 <= c < 0x11_0000
  type Text = seq<Code>

  const QUOTE: Code := 34
  const BACKSLASH: Code := 92
  const MINUS: Code := 45

  predicate Surrogate(c: Code) { 0xD800 <= c <= 0xDFFF }

  // ---------------------------------------------------------------------------------------
  // Strings
  // ---------------------------------------------------------------------------------------

  function HexDigit(n: nat): Code
    requires n < 16
  {
    if n < 10 then 48 + n else 87 + n
  }

  /** One character as it appears between the quotes. */
  function Escape(c: Code): (t: Text)
    ensures 1 <= |t|
  {
    if c == 8 then [92, 98]
    else if c == 12 then [92, 102]
    else if c == 10 then [92, 110]
    else if c == 13 then [92, 114]
    else if c == 9 then [92, 116]
    else if c == 34 then [92, 34]
    else if c == 92 then [92, 92]
    else if c < 32 then [92, 117, 48, 48, HexDigit(c / 16), HexDigit(c % 16)]
    else [c]
  }

  /** The characters from position `i` on, escaped, and the closing quote. */
  function Escaped(s: Text, i: nat): Text
    requires i <= |s|
    decreases |s| - i
  {
    if i == |s| then [QUOTE] else Escape(s[i]) + Escaped(s, i + 1)
  }

  function Quote(s: Text): Option<Text> {
    if exists i :: 0 <= i < |s| && Surrogate(s[i]) then None else Some([QUOTE] + Escaped(s, 0))
  }

  /** The printing loop. */
  method QuoteLoop(s: Text) returns (r: Option<Text>)
    ensures r == Quote(s)
  {
    for i := 0 to |s|
      invariant forall j :: 0 <= j < i ==> !Surrogate(s[j])
    {
      if Surrogate(s[i]) {
        return None;
      }
    }
    var out := [QUOTE];
    for i := 0 to |s|
      invariant [QUOTE] + Escaped(s, 0) == out + Escaped(s, i)
    {
      out := out + Escape(s[i]);
    }
    return Some(out + [QUOTE]);
  }

  /** No escape is a beginning of another one, and none begins with a quote. */
  lemma EscapeIsPrefixFree(c: Code, d: Code, x: Text, y: Text)
    requires Escape(c) + x == Escape(d) + y
    ensures c == d && x == y
  {
    var t := Escape(c) + x;
    assert t[0] == Escape(c)[0] == Escape(d)[0];
    if t[0] == BACKSLASH {
      assert t[1] == Escape(c)[1] == Escape(d)[1];
      if t[1] == 117 {
        assert t[4] == Escape(c)[4] == Escape(d)[4];
        assert t[5] == Escape(c)[5] == Escape(d)[5];
      }
    }
    assert x == t[|Escape(c)|..];
    assert y == t[|Escape(d)|..];
  }

  lemma EscapeIsNoQuote(c: Code)
    ensures Escape(c)[0] != QUOTE
  {}

  lemma {:induction false} EscapedIsUnique(s: Text, i: nat, s': Text, i': nat, x: Text, y: Text)
    requires i <= |s| && i' <= |s'| && Escaped(s, i) + x == Escaped(s', i') + y
    ensures s[i..] == s'[i'..] && x == y
    decreases |s| - i
  {
    hide Escape;
    var t := Escaped(s, i) + x;
    if i < |s| {
      EscapeIsNoQuote(s[i]);
      assert t[0] == Escape(s[i])[0];
    }
    if i' < |s'| {
      EscapeIsNoQuote(s'[i']);
      assert t[0] == Escape(s'[i'])[0];
    }
    if i < |s| && i' < |s'| {
      assert t == Escape(s[i]) + (Escaped(s, i + 1) + x);
      assert t == Escape(s'[i']) + (Escaped(s', i' + 1) + y);
      EscapeIsPrefixFree(s[i], s'[i'], Escaped(s, i + 1) + x, Escaped(s', i' + 1) + y);
      EscapedIsUnique(s, i + 1, s', i' + 1, x, y);
      assert s[i..] == [s[i]] + s[i + 1..] && s'[i'..] == [s'[i']] + s'[i' + 1..];
    } else {
      assert x == t[1..] && y == t[1..];
    }
  }

  /** A quoted string can be read back, wherever it ends. */
  lemma QuoteIsUnique(s: Text, s': Text, x: Text, y: Text)
    requires Quote(s).Some? && Quote(s').Some? && Quote(s).value + x == Quote(s').value + y
    ensures s == s' && x == y
  {
    hide Escaped, Surrogate;
    var t := Quote(s).value + x;
    assert t[1..] == Escaped(s, 0) + x;
    assert t[1..] == Escaped(s', 0) + y;
    EscapedIsUnique(s, 0, s', 0, x, y);
    assert s[0..] == s && s'[0..] == s';
  }

  // ---------------------------------------------------------------------------------------
  // Integers
  // ---------------------------------------------------------------------------------------

  predicate Digit(c: Code) { 48 <= c <= 57 }
  predicate AllDigits(t: Text) { forall i :: 0 <= i < |t| ==> Digit(t[i]) }

  function Digits(n: nat): (t: Text)
    ensures AllDigits(t) && |t| >= 1
  {
    if n < 10 then [48 + n] else Digits(n / 10) + [48 + n % 10]
  }

  function Decimal(n: int): Text { if n < 0 then [MINUS] + Digits(-n) else Digits(n) }

  function Value(t: Text): nat
    requires AllDigits(t)
  {
    if t == [] then 0 else 10 * Value(t[..|t| - 1]) + (t[|t| - 1] - 48)
  }

  lemma {:induction false} ValueOfDigits(n: nat)
    ensures Value(Digits(n)) == n
    decreases n
  {
    var t := Digits(n);
    if n >= 10 {
      ValueOfDigits(n / 10);
      assert t[..|t| - 1] == Digits(n / 10);
    } else {
      assert t[..0] == [];
    }
  }

  predicate NoDigitFirst(t: Text) { t != [] ==> !Digit(t[0]) }

  /** How many digits a text begins with. */
  function DigitRun(t: Text): nat { if t == [] || !Digit(t[0]) then 0 else 1 + DigitRun(t[1..]) }

  lemma {:induction false} DigitRunOf(a: Text, x: Text)
    requires AllDigits(a) && NoDigitFirst(x)
    ensures DigitRun(a + x) == |a|
    decreases |a|
  {
    if a == [] {
      assert a + x == x;
    } else {
      assert (a + x)[1..] == a[1..] + x;
      DigitRunOf(a[1..], x);
    }
  }

  lemma DigitRunsAreUnique(a: Text, b: Text, x: Text, y: Text)
    requires AllDigits(a) && AllDigits(b) && NoDigitFirst(x) && NoDigitFirst(y) && a + x == b + y
    ensures a == b && x == y
  {
    hide DigitRun;
    DigitRunOf(a, x);
    DigitRunOf(b, y);
    var t := a + x;
    assert a == t[..|a|] && b == t[..|b|] && x == t[|a|..] && y == t[|b|..];
  }

  lemma DecimalSign(n: int)
    ensures Decimal(n) != [] && (Decimal(n)[0] == MINUS <==> n < 0) && (Digit(Decimal(n)[0]) <==> n >= 0)
    ensures n < 0 ==> Decimal(n)[1..] == Digits(-n)
  {}

  /** A printed integer can be read back, provided no digit follows it. */
  lemma DecimalIsUnique(n: int, m: int, x: Text, y: Text)
    requires NoDigitFirst(x) && NoDigitFirst(y) && Decimal(n) + x == Decimal(m) + y
    ensures n == m && x == y
  {
    hide Digits, Value, Decimal;
    DecimalSign(n);
    DecimalSign(m);
    var t := Decimal(n) + x;
    assert t[0] == Decimal(n)[0] && t[0] == Decimal(m)[0];
    if n < 0 {
      assert t[1..] == Decimal(n)[1..] + x && t[1..] == Decimal(m)[1..] + y;
      SameDigits(-n, -m, x, y);
    } else {
      NonNegative(n);
      NonNegative(m);
      SameDigits(n, m, x, y);
    }
  }

  lemma NonNegative(n: nat)
    ensures Decimal(n) == Digits(n)
  {}

  lemma SameDigits(n: nat, m: nat, x: Text, y: Text)
    requires NoDigitFirst(x) && NoDigitFirst(y) && Digits(n) + x == Digits(m) + y
    ensures n == m && x == y
  {
    hide Digits, Value;
    DigitRunsAreUnique(Digits(n), Digits(m), x, y);
    ValueOfDigits(n);
    ValueOfDigits(m);
  }

  // ---------------------------------------------------------------------------------------
  // The order of keys
  // ---------------------------------------------------------------------------------------

  /** Code-point order, as strings compare. */
  predicate Before(a: Text, b: Text) {
    if b == [] then false
    else if a == [] then true
    else a[0] < b[0] || (a[0] == b[0] && Before(a[1..], b[1..]))
  }

  lemma {:induction false} BeforeIsTotal(a: Text, b: Text)
    ensures a == b || Before(a, b) || Before(b, a)
    ensures !(Before(a, b) && Before(b, a))
    decreases |a| + |b|
  {
    if a != [] && b != [] {
      BeforeIsTotal(a[1..], b[1..]);
      assert a == [a[0]] + a[1..] && b == [b[0]] + b[1..];
    }
  }

  lemma {:induction false} BeforeIsTransitive(a: Text, b: Text, c: Text)
    requires Before(a, b) && Before(b, c)
    ensures Before(a, c)
    decreases |a|
  {
    if a != [] && a[0] == b[0] == c[0] {
      BeforeIsTransitive(a[1..], b[1..], c[1..]);
    }
  }

  ghost predicate Least(k: Text, keys: set<Text>) { k in keys && forall j :: j in keys && j != k ==> Before(k, j) }

  lemma {:induction false} LeastExists(keys: set<Text>) returns (k: Text)
    requires keys != {}
    ensures Least(k, keys)
    decreases |keys|
  {
    var a :| a in keys;
    if keys == {a} {
      k := a;
    } else {
      assert keys - {a} != {};
      var b := LeastExists(keys - {a});
      BeforeIsTotal(a, b);
      k := if Before(a, b) then a else b;
      forall j | j in keys && j != k ensures Before(k, j) {
        if k == a && j != b {
          assert j in keys - {a};
          BeforeIsTransitive(a, b, j);
        }
      }
    }
  }

  ghost predicate Ascending(ks: seq<Text>) { forall i, j :: 0 <= i < j < |ks| ==> Before(ks[i], ks[j]) }

  /** The keys in the order they are printed. */
  ghost function SortedKeys(keys: set<Text>): (ks: seq<Text>)
    ensures Ascending(ks)
    ensures forall k :: k in ks <==> k in keys
    decreases |keys|
  {
    if keys == {} then []
    else
      assert exists k :: Least(k, keys) by { var l := LeastExists(keys); }
      var k :| Least(k, keys);
      var rest := SortedKeys(keys - {k});
      AscendingExtends(k, keys, rest);
      [k] + rest
  }

  lemma AscendingExtends(k: Text, keys: set<Text>, rest: seq<Text>)
    requires Least(k, keys) && Ascending(rest) && forall j :: j in rest <==> j in keys - {k}
    ensures Ascending([k] + rest) && forall j :: j in [k] + rest <==> j in keys
  {
    var ks := [k] + rest;
    forall i, j | 0 <= i < j < |ks| ensures Before(ks[i], ks[j]) {
      assert ks[j] == rest[j - 1];
      assert rest[j - 1] in rest;
    }
  }
}
