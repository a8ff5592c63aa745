/**
 The guards in front of the JSON parser: a character scanner that bounds the nesting depth
 without parsing, and a check of integer tokens that compares text instead of numbers.
 */
module CanonicalGuards {
  import opened Wrappers
  import opened CanonicalText
  import opened CanonicalJson

  function Max(a: int, b: int): int { if a < b then b else a }

  // ---------------------------------------------------------------------------------------
  // Nesting, and which values can be printed at all
  // ---------------------------------------------------------------------------------------

  /** How deeply containers are nested in a value. */
  ghost function Nesting(v: Json): nat
    decreases v, 1, 0
  {
    match v
    case Arr(_) => 1 + NestingItems(v, 0)
    case Obj(_) => 1 + NestingFields(v, SortedKeys(v.fields.Keys), 0)
    case _ => 0
  }

  ghost function NestingItems(v: Json, i: nat): nat
    requires v.Arr? && i <= |v.items|
    decreases v, 0, |v.items| - i
  {
    if i == |v.items| then 0 else Max(Nesting(v.items[i]), NestingItems(v, i + 1))
  }

  ghost function NestingFields(v: Json, ks: seq<Text>, i: nat): nat
    requires v.Obj? && i <= |ks| && forall k :: k in ks ==> k in v.fields
    decreases v, 0, |ks| - i
  {
    if i == |ks| then 0 else Max(Nesting(v.fields[ks[i]]), NestingFields(v, ks, i + 1))
  }

  ghost predicate SurrogateFree(s: Text) { forall i :: 0 <= i < |s| ==> !Surrogate(s[i]) }

  /** Integers in range, no surrogates, nothing unsupported, at any depth. */
  ghost predicate Clean(v: Json)
    decreases v
  {
    match v
    case Int(n) => MIN_INTEGER <= n <= MAX_INTEGER
    case Unsupported => false
    case Str(s) => SurrogateFree(s)
    case Arr(items) => forall i :: 0 <= i < |items| ==> Clean(items[i])
    case Obj(fields) => forall k :: k in fields ==> SurrogateFree(k) && Clean(fields[k])
    case _ => true
  }

  /** Exactly which values the printer accepts inside `depth` containers. */
  lemma {:induction false} EncodeIsDefined(v: Json, depth: nat)
    requires depth <= MAX_DEPTH
    ensures Encode(v, depth).Some? <==> Clean(v) && depth + Nesting(v) <= MAX_DEPTH
    decreases v, 1, 0
  {
    hide EncodeItems, EncodeFields, NestingItems, NestingFields, Decimal;
    match v
    case Arr(items) =>
      if depth < MAX_DEPTH {
        ItemsDefined(v, 0, depth + 1);
      }
    case Obj(fields) =>
      if depth < MAX_DEPTH {
        FieldsDefined(v, SortedKeys(fields.Keys), 0, depth + 1);
        CleanFields(v, SortedKeys(fields.Keys));
      }
    case _ =>
  }

  lemma CleanFields(v: Json, ks: seq<Text>)
    requires v.Obj? && forall k :: k in ks <==> k in v.fields.Keys
    ensures Clean(v) <==> forall j :: 0 <= j < |ks| ==> SurrogateFree(ks[j]) && Clean(v.fields[ks[j]])
  {
    hide SurrogateFree;
    if forall j :: 0 <= j < |ks| ==> SurrogateFree(ks[j]) && Clean(v.fields[ks[j]]) {
      forall k | k in v.fields ensures SurrogateFree(k) && Clean(v.fields[k]) {
        assert k in ks;
        var j :| 0 <= j < |ks| && ks[j] == k;
      }
    }
  }

  lemma {:induction false} ItemsDefined(v: Json, i: nat, depth: nat)
    requires v.Arr? && i <= |v.items| && depth <= MAX_DEPTH
    ensures EncodeItems(v, i, depth).Some? <==>
            (forall j :: i <= j < |v.items| ==> Clean(v.items[j])) && depth + NestingItems(v, i) <= MAX_DEPTH
    decreases v, 0, |v.items| - i
  {
    hide Encode, Nesting, Clean;
    if i < |v.items| {
      EncodeIsDefined(v.items[i], depth);
      ItemsDefined(v, i + 1, depth);
    }
  }

  lemma {:induction false} FieldsDefined(v: Json, ks: seq<Text>, i: nat, depth: nat)
    requires v.Obj? && i <= |ks| && (forall k :: k in ks ==> k in v.fields) && depth <= MAX_DEPTH
    ensures EncodeFields(v, ks, i, depth).Some? <==>
            && (forall j :: i <= j < |ks| ==> SurrogateFree(ks[j]) && Clean(v.fields[ks[j]]))
            && depth + NestingFields(v, ks, i) <= MAX_DEPTH
    decreases v, 0, |ks| - i
  {
    hide Encode, Nesting, Clean;
    if i < |ks| {
      EncodeIsDefined(v.fields[ks[i]], depth);
      FieldsDefined(v, ks, i + 1, depth);
    }
  }

  // ---------------------------------------------------------------------------------------
  // The scanner
  // ---------------------------------------------------------------------------------------

  datatype Scanner = Scanner(depth: int, peak: int, inString: bool, escaped: bool)

  const START := Scanner(0, 0, false, false)

  function Step(s: Scanner, c: Code): Scanner {
    if s.inString then
      if s.escaped then s.(escaped := false)
      else if c == BACKSLASH then s.(escaped := true)
      else if c == QUOTE then s.(inString := false)
      else s
    else if c == QUOTE then s.(inString := true)
    else if c == OPEN_ARRAY || c == OPEN_OBJECT then s.(depth := s.depth + 1, peak := Max(s.peak, s.depth + 1))
    else if c == CLOSE_ARRAY || c == CLOSE_OBJECT then s.(depth := s.depth - 1)
    else s
  }

  function Run(s: Scanner, t: Text): Scanner
    decreases |t|
  {
    if t == [] then s else Run(Step(s, t[0]), t[1..])
  }

  lemma {:induction false} RunAppend(s: Scanner, a: Text, b: Text)
    ensures Run(s, a + b) == Run(Run(s, a), b)
    decreases |a|
  {
    if a == [] {
      assert a + b == b;
    } else {
      assert (a + b)[1..] == a[1..] + b;
      RunAppend(Step(s, a[0]), a[1..], b);
    }
  }

  lemma {:induction false} PeakGrows(s: Scanner, t: Text)
    ensures Run(s, t).peak >= s.peak
    decreases |t|
  {
    if t != [] {
      PeakGrows(Step(s, t[0]), t[1..]);
    }
  }

  /** The scanning loop. */
  method ValidateDepth(text: Text) returns (ok: bool)
    ensures ok <==> Run(START, text).peak <= MAX_DEPTH
  {
    var depth, inString, escaped := 0, false, false;
    ghost var peak := 0;
    assert text[..0] == [];
    for i := 0 to |text|
      invariant Run(START, text[..i]) == Scanner(depth, peak, inString, escaped) && peak <= MAX_DEPTH
    {
      var ch := text[i];
      ghost var before := Scanner(depth, peak, inString, escaped);
      assert text[..i + 1] == text[..i] + [ch];
      assert text == text[..i + 1] + text[i + 1..];
      RunAppend(START, text[..i], [ch]);
      RunAppend(START, text[..i + 1], text[i + 1..]);
      PeakGrows(Run(START, text[..i + 1]), text[i + 1..]);
      assert Run(before, [ch]) == Step(before, ch);
      if inString {
        if escaped {
          escaped := false;
        } else if ch == BACKSLASH {
          escaped := true;
        } else if ch == QUOTE {
          inString := false;
        }
      } else if ch == QUOTE {
        inString := true;
      } else if ch == OPEN_ARRAY || ch == OPEN_OBJECT {
        depth := depth + 1;
        peak := Max(peak, depth);
        if depth > MAX_DEPTH {
          return false;
        }
      } else if ch == CLOSE_ARRAY || ch == CLOSE_OBJECT {
        depth := depth - 1;
      }
    }
    assert text[..|text|] == text;
    return true;
  }

  // ---------------------------------------------------------------------------------------
  // The scanner on printed text
  // ---------------------------------------------------------------------------------------

  predicate Plain(t: Text) { forall i :: 0 <= i < |t| ==> t[i] !in {34, 91, 93, 123, 125} }

  lemma {:induction false} PlainRun(s: Scanner, t: Text)
    requires Plain(t) && !s.inString
    ensures Run(s, t) == s
    decreases |t|
  {
    if t != [] {
      PlainRun(s, t[1..]);
    }
  }

  lemma OneRun(s: Scanner, c: Code, t: Text)
    ensures Run(s, [c] + t) == Run(Step(s, c), t)
  {
    assert ([c] + t)[1..] == t;
  }

  /** Inside a string an escaped character leaves the scanner where it was. */
  lemma EscapeRun(s: Scanner, c: Code)
    requires s.inString && !s.escaped
    ensures Run(s, Escape(c)) == s
  {
    var t := Escape(c);
    if |t| == 1 {
      assert t[1..] == [];
    } else {
      assert t == [BACKSLASH, t[1]] + t[2..];
      RunAppend(s, [BACKSLASH, t[1]], t[2..]);
      PairRun(s, t[1]);
      if |t| == 6 {
        HexRun(s, t[4], t[5]);
        assert t[2..] == [48, 48, t[4], t[5]];
      } else {
        assert t[2..] == [];
      }
    }
  }

  lemma PairRun(s: Scanner, c: Code)
    requires s.inString && !s.escaped
    ensures Run(s, [BACKSLASH, c]) == s
  {
    OneRun(s, BACKSLASH, [c]);
    OneRun(Step(s, BACKSLASH), c, []);
    assert [BACKSLASH] + [c] == [BACKSLASH, c] && [c] + [] == [c];
  }

  lemma HexRun(s: Scanner, a: Code, b: Code)
    requires s.inString && !s.escaped && a !in {34, 92} && b !in {34, 92}
    ensures Run(s, [48, 48, a, b]) == s
  {
    assert [48, 48, a, b][1..] == [48, a, b] && [48, a, b][1..] == [a, b] && [a, b][1..] == [b] && [b][1..] == [];
    assert Run(s, [b]) == s;
    assert Run(s, [a, b]) == s;
    assert Run(s, [48, a, b]) == s;
  }

  lemma {:induction false} EscapedRun(s: Scanner, t: Text, i: nat)
    requires s.inString && !s.escaped && i <= |t|
    ensures Run(s, Escaped(t, i)) == s.(inString := false)
    decreases |t| - i
  {
    hide Escape;
    if i == |t| {
      assert [QUOTE][1..] == [];
    } else {
      RunAppend(s, Escape(t[i]), Escaped(t, i + 1));
      EscapeRun(s, t[i]);
      EscapedRun(s, t, i + 1);
    }
  }

  lemma QuoteRun(s: Scanner, t: Text)
    requires !s.inString && !s.escaped && Quote(t).Some?
    ensures Run(s, Quote(t).value) == s
  {
    hide Run, Escaped;
    OneRun(s, QUOTE, Escaped(t, 0));
    EscapedRun(Step(s, QUOTE), t, 0);
  }

  lemma CommaRun(s: Scanner, i: nat, t: Text)
    requires !s.inString
    ensures Run(s, Comma(i) + t) == Run(s, t)
  {
    RunAppend(s, Comma(i), t);
    PlainRun(s, Comma(i));
  }

  /** Raises the peak to what a value of this nesting, starting here, reaches. */
  function Reached(s: Scanner, nesting: nat): Scanner { s.(peak := Max(s.peak, s.depth + nesting)) }

  /** The scanner passes over a printed value and has seen exactly its nesting, whatever its strings contain. */
  lemma {:induction false} EncodeRun(v: Json, d: nat, s: Scanner)
    requires Encode(v, d).Some? && !s.inString && !s.escaped && s.depth <= s.peak
    ensures Run(s, Encode(v, d).value) == Reached(s, Nesting(v))
    decreases v, 1, 0
  {
    hide Run, Decimal, Quote, EncodeItems, EncodeFields;
    match v
    case Null => PlainRun(s, NULL);
    case Bool(b) => PlainRun(s, if b then TRUE else FALSE);
    case Int(n) =>
      DecimalIsPlain(n);
      PlainRun(s, Decimal(n));
    case Str(t) => QuoteRun(s, t);
    case Arr(_) =>
      OneRun(s, OPEN_ARRAY, EncodeItems(v, 0, d + 1).value);
      ItemsRun(v, 0, d + 1, Step(s, OPEN_ARRAY));
    case Obj(_) =>
      var ks := SortedKeys(v.fields.Keys);
      OneRun(s, OPEN_OBJECT, EncodeFields(v, ks, 0, d + 1).value);
      FieldsRun(v, ks, 0, d + 1, Step(s, OPEN_OBJECT));
  }

  lemma DecimalIsPlain(n: int)
    ensures Plain(Decimal(n))
  {
    hide Digits;
  }

  lemma {:induction false} ItemsRun(v: Json, i: nat, d: nat, s: Scanner)
    requires v.Arr? && i <= |v.items| && EncodeItems(v, i, d).Some? && !s.inString && !s.escaped && s.depth <= s.peak
    ensures Run(s, EncodeItems(v, i, d).value) == Reached(s, NestingItems(v, i)).(depth := s.depth - 1)
    decreases v, 0, |v.items| - i
  {
    hide Run, Encode, Nesting;
    if i == |v.items| {
      OneRun(s, CLOSE_ARRAY, []);
      NothingRun(Step(s, CLOSE_ARRAY));
      assert [CLOSE_ARRAY] + [] == [CLOSE_ARRAY];
    } else {
      var h, u := Encode(v.items[i], d).value, EncodeItems(v, i + 1, d).value;
      CommaRun(s, i, h + u);
      RunAppend(s, h, u);
      EncodeRun(v.items[i], d, s);
      ItemsRun(v, i + 1, d, Reached(s, Nesting(v.items[i])));
    }
  }

  lemma NothingRun(s: Scanner)
    ensures Run(s, []) == s
  {}

  lemma {:induction false} FieldsRun(v: Json, ks: seq<Text>, i: nat, d: nat, s: Scanner)
    requires v.Obj? && i <= |ks| && (forall k :: k in ks ==> k in v.fields) && EncodeFields(v, ks, i, d).Some?
    requires !s.inString && !s.escaped && s.depth <= s.peak
    ensures Run(s, EncodeFields(v, ks, i, d).value) == Reached(s, NestingFields(v, ks, i)).(depth := s.depth - 1)
    decreases v, 0, |ks| - i
  {
    hide Run, Encode, Nesting, Quote;
    if i == |ks| {
      OneRun(s, CLOSE_OBJECT, []);
      NothingRun(Step(s, CLOSE_OBJECT));
      assert [CLOSE_OBJECT] + [] == [CLOSE_OBJECT];
    } else {
      var q, h, u := Quote(ks[i]).value, Encode(v.fields[ks[i]], d).value, EncodeFields(v, ks, i + 1, d).value;
      CommaRun(s, i, q + ([COLON] + (h + u)));
      RunAppend(s, q, [COLON] + (h + u));
      QuoteRun(s, ks[i]);
      OneRun(s, COLON, h + u);
      RunAppend(s, h, u);
      EncodeRun(v.fields[ks[i]], d, s);
      FieldsRun(v, ks, i + 1, d, Reached(s, Nesting(v.fields[ks[i]])));
    }
  }

  /** On printed text the scanner measures the nesting exactly, so it lets everything printed pass. */
  lemma ScannerIsExact(v: Json)
    requires Encode(v, 0).Some?
    ensures Run(START, Encode(v, 0).value) == Scanner(0, Nesting(v), false, false)
    ensures Nesting(v) <= MAX_DEPTH
  {
    hide Encode, Nesting;
    EncodeRun(v, 0, START);
    EncodeIsDefined(v, 0);
  }
}
