/** The bytes of canonical JSON: the printed text in UTF-8, from which the document can be told. */
module CanonicalBytes {
  import opened Wrappers
  import opened CanonicalText
  import opened CanonicalJson
  import opened CanonicalGuards
  import opened JsonReader
  import DurableFrames

  type Bytes = DurableFrames.Bytes

  // ---------------------------------------------------------------------------------------
  // UTF-8
  // ---------------------------------------------------------------------------------------

  /** Six bits of a code point, in a continuation byte. */
  function Continuation(n: nat): DurableFrames.Byte { 0x80 + n % 64 }

  function Utf8(c: Code): (b: Bytes)
    ensures 1 <= |b|
  {
    if c < 0x80 then [c]
    else if c < 0x800 then [0xC0 + c / 64, Continuation(c)]
    else if c < 0x1_0000 then [0xE0 + c / 64 / 64, Continuation(c / 64), Continuation(c)]
    else [0xF0 + c / 64 / 64 / 64, Continuation(c / 64 / 64), Continuation(c / 64), Continuation(c)]
  }

  /** The text from position `i` on; None is the error raised for a surrogate. */
  function Utf8From(t: Text, i: nat): Option<Bytes>
    requires i <= |t|
    decreases |t| - i
  {
    if i == |t| then Some([])
    else if Surrogate(t[i]) then None
    else
      var rest := Utf8From(t, i + 1);
      if rest.None? then None else Some(Utf8(t[i]) + rest.value)
  }

  lemma ContinuationTells(a: nat, b: nat)
    requires a / 64 == b / 64 && Continuation(a) == Continuation(b)
    ensures a == b
  {}

  /** The first byte tells the length. */
  lemma LeadByte(c: Code)
    ensures var b := Utf8(c);
            && (b[0] < 0x80 <==> |b| == 1) && (0x80 <= b[0] < 0xE0 <==> |b| == 2)
            && (0xE0 <= b[0] < 0xF0 <==> |b| == 3) && (0xF0 <= b[0] <==> |b| == 4)
  {}

  lemma Utf8Tells(c: Code, d: Code)
    requires Utf8(c) == Utf8(d)
    ensures c == d
  {
    hide Continuation;
    var n := |Utf8(c)|;
    if n == 4 {
      ContinuationTells(c / 64 / 64, d / 64 / 64);
    }
    if n >= 3 {
      ContinuationTells(c / 64, d / 64);
    }
    if n >= 2 {
      ContinuationTells(c, d);
    }
  }

  /** No code point's bytes begin another's. */
  lemma Utf8IsPrefixFree(c: Code, d: Code, x: Bytes, y: Bytes)
    requires Utf8(c) + x == Utf8(d) + y
    ensures c == d && x == y
  {
    hide Utf8;
    var t := Utf8(c) + x;
    assert t[0] == Utf8(c)[0] == Utf8(d)[0];
    LeadByte(c);
    LeadByte(d);
    assert t[..|Utf8(c)|] == Utf8(c) && t[..|Utf8(d)|] == Utf8(d);
    assert t[|Utf8(c)|..] == x && t[|Utf8(d)|..] == y;
    Utf8Tells(c, d);
  }

  lemma {:induction false} Utf8IsDefined(t: Text, i: nat)
    requires i <= |t|
    ensures Utf8From(t, i).Some? <==> SurrogateFree(t[i..])
    decreases |t| - i
  {
    hide Utf8, Surrogate, SurrogateFree;
    if i < |t| {
      Utf8IsDefined(t, i + 1);
      assert t[i..] == [t[i]] + t[i + 1..];
      OneMoreCharacter(t[i], t[i + 1..]);
    } else {
      assert t[i..] == [];
      OneMoreCharacter(0, []);
    }
  }

  lemma OneMoreCharacter(c: Code, t: Text)
    ensures SurrogateFree([c] + t) <==> !Surrogate(c) && SurrogateFree(t)
    ensures SurrogateFree([])
  {
    if SurrogateFree([c] + t) {
      assert ([c] + t)[0] == c;
      forall i | 0 <= i < |t| ensures !Surrogate(t[i]) {
        assert ([c] + t)[i + 1] == t[i];
      }
    }
  }

  /** Different texts have different bytes. */
  lemma {:induction false} Utf8IsInjective(s: Text, i: nat, t: Text, j: nat)
    requires i <= |s| && j <= |t| && Utf8From(s, i).Some? && Utf8From(s, i) == Utf8From(t, j)
    ensures s[i..] == t[j..]
    decreases |s| - i
  {
    hide Utf8;
    if i < |s| && j < |t| {
      Utf8IsPrefixFree(s[i], t[j], Utf8From(s, i + 1).value, Utf8From(t, j + 1).value);
      Utf8IsInjective(s, i + 1, t, j + 1);
      assert s[i..] == [s[i]] + s[i + 1..] && t[j..] == [t[j]] + t[j + 1..];
    }
  }

  // ---------------------------------------------------------------------------------------
  // Canonical bytes
  // ---------------------------------------------------------------------------------------

  ghost function CanonicalJsonBytes(v: Json): Option<Bytes> {
    var t := Encode(v, 0);
    if t.None? then None else Utf8From(t.value, 0)
  }

  lemma EscapeIsClean(c: Code)
    requires !Surrogate(c)
    ensures SurrogateFree(Escape(c))
  {}

  lemma {:induction false} EscapedIsClean(s: Text, i: nat)
    requires i <= |s| && SurrogateFree(s)
    ensures SurrogateFree(Escaped(s, i))
    decreases |s| - i
  {
    hide Escape;
    if i < |s| {
      EscapeIsClean(s[i]);
      EscapedIsClean(s, i + 1);
    }
  }

  lemma QuoteIsClean(s: Text)
    requires Quote(s).Some?
    ensures SurrogateFree(Quote(s).value)
  {
    hide Escaped;
    EscapedIsClean(s, 0);
  }

  lemma {:induction false} EncodeIsClean(v: Json, depth: nat)
    requires Encode(v, depth).Some?
    ensures SurrogateFree(Encode(v, depth).value)
    decreases v, 1, 0
  {
    hide EncodeItems, EncodeFields, Quote, Decimal;
    match v
    case Int(n) => DecimalIsClean(n);
    case Str(s) => QuoteIsClean(s);
    case Arr(_) => ItemsAreClean(v, 0, depth + 1);
    case Obj(_) => FieldsAreClean(v, SortedKeys(v.fields.Keys), 0, depth + 1);
    case _ =>
  }

  lemma {:induction false} ItemsAreClean(v: Json, i: nat, depth: nat)
    requires v.Arr? && i <= |v.items| && EncodeItems(v, i, depth).Some?
    ensures SurrogateFree(EncodeItems(v, i, depth).value)
    decreases v, 0, |v.items| - i
  {
    hide Encode;
    if i < |v.items| {
      EncodeIsClean(v.items[i], depth);
      ItemsAreClean(v, i + 1, depth);
    }
  }

  lemma {:induction false} FieldsAreClean(v: Json, ks: seq<Text>, i: nat, depth: nat)
    requires v.Obj? && i <= |ks| && (forall k :: k in ks ==> k in v.fields) && EncodeFields(v, ks, i, depth).Some?
    ensures SurrogateFree(EncodeFields(v, ks, i, depth).value)
    decreases v, 0, |ks| - i
  {
    hide Encode, Quote;
    if i < |ks| {
      QuoteIsClean(ks[i]);
      EncodeIsClean(v.fields[ks[i]], depth);
      FieldsAreClean(v, ks, i + 1, depth);
    }
  }

  lemma DecimalIsClean(n: int)
    ensures SurrogateFree(Decimal(n))
  {
    hide Digits;
  }

  /** The bytes exist exactly when the text does, and they determine the document. */
  lemma BytesDetermineTheDocument(v: Json, w: Json)
    ensures CanonicalJsonBytes(v).Some? <==> Encode(v, 0).Some?
    ensures CanonicalJsonBytes(v).Some? && CanonicalJsonBytes(v) == CanonicalJsonBytes(w) ==> v == w
  {
    hide Encode, Utf8From;
    BytesExist(v);
    BytesExist(w);
    if CanonicalJsonBytes(v).Some? && CanonicalJsonBytes(v) == CanonicalJsonBytes(w) {
      var s, t := Encode(v, 0).value, Encode(w, 0).value;
      Utf8IsInjective(s, 0, t, 0);
      assert s[0..] == s && t[0..] == t;
      EncodeIsInjective(v, w);
    }
  }

  lemma BytesExist(v: Json)
    ensures CanonicalJsonBytes(v).Some? <==> Encode(v, 0).Some?
  {
    hide Encode, Utf8From;
    if Encode(v, 0).Some? {
      var t := Encode(v, 0).value;
      EncodeIsClean(v, 0);
      Utf8IsDefined(t, 0);
      assert t[0..] == t;
    }
  }

  // ---------------------------------------------------------------------------------------
  // Reading the bytes (RFC 3629, section 3)
  // ---------------------------------------------------------------------------------------

  predicate Continues(b: DurableFrames.Byte) { 0x80 <= b <= 0xBF }

  /** What a byte holds besides its mark. */
  function Bits(b: DurableFrames.Byte, mark: nat): int { b - mark }

  /** One code point and what follows it; overlong forms and surrogates are refused. */
  function ReadUtf8(b: Bytes): (r: Option<(Code, Bytes)>)
    ensures r.Some? ==> |r.value.1| < |b|
  {
    if b == [] then None
    else if b[0] <= 0x7F then Some((b[0], b[1..]))
    else if b[0] <= 0xC1 || b[0] >= 0xF5 then None
    else if |b| < 2 || !Continues(b[1]) then None
    else if b[0] <= 0xDF then Some((64 * Bits(b[0], 0xC0) + Bits(b[1], 0x80), b[2..]))
    else if |b| < 3 || !Continues(b[2]) then None
    else if b[0] <= 0xEF then
      var c := 4096 * Bits(b[0], 0xE0) + 64 * Bits(b[1], 0x80) + Bits(b[2], 0x80);
      if c < 0x800 || 0xD800 <= c <= 0xDFFF then None else Some((c, b[3..]))
    else if |b| < 4 || !Continues(b[3]) then None
    else
      var c := 262144 * Bits(b[0], 0xF0) + 4096 * Bits(b[1], 0x80) + 64 * Bits(b[2], 0x80) + Bits(b[3], 0x80);
      if c < 0x1_0000 || c > 0x10_FFFF then None else Some((c, b[4..]))
  }

  function ReadAllUtf8(b: Bytes): Option<Text>
    decreases |b|
  {
    if b == [] then Some([])
    else
      var first := ReadUtf8(b);
      if first.None? then None
      else
        var rest := ReadAllUtf8(first.value.1);
        if rest.None? then None else Some([first.value.0] + rest.value)
  }

  lemma SixBits(n: nat)
    ensures n == 64 * (n / 64) + Bits(Continuation(n), 0x80) && Continues(Continuation(n))
  {}

  lemma ReadCodePoint(c: Code, x: Bytes)
    requires !Surrogate(c)
    ensures ReadUtf8(Utf8(c) + x) == Some((c, x))
  {
    hide Continuation;
    var b := Utf8(c) + x;
    SixBits(c);
    SixBits(c / 64);
    SixBits(c / 64 / 64);
    assert b[..|Utf8(c)|] == Utf8(c) && b[|Utf8(c)|..] == x;
    assert forall i :: 0 <= i < |Utf8(c)| ==> b[i] == Utf8(c)[i];
  }

  lemma {:induction false} ReadText(t: Text, i: nat)
    requires i <= |t| && Utf8From(t, i).Some?
    ensures ReadAllUtf8(Utf8From(t, i).value) == Some(t[i..])
    decreases |t| - i
  {
    hide Utf8, ReadUtf8;
    if i < |t| {
      ReadCodePoint(t[i], Utf8From(t, i + 1).value);
      ReadText(t, i + 1);
      assert t[i..] == [t[i]] + t[i + 1..];
    } else {
      assert t[i..] == [];
    }
  }

  /** The canonical bytes are UTF-8 of JSON text that denotes the document. */
  lemma BytesDenoteTheDocument(v: Json)
    requires CanonicalJsonBytes(v).Some?
    ensures var t := ReadAllUtf8(CanonicalJsonBytes(v).value);
            t.Some? && ReadValue(t.value) == Some((v, []))
  {
    hide Encode, Utf8From, ReadAllUtf8, ReadValue;
    var t := Encode(v, 0).value;
    ReadText(t, 0);
    assert t[0..] == t;
    CanonicalTextDenotes(v);
  }
}
