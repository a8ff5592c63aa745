/**
 A reader of JSON written down from the grammar of RFC 8259, for text without insignificant white
 space and numbers that are integers. It knows nothing of the printer; that it reads back whatever
 the printer prints shows that the printed text denotes the value.
 */
module JsonReader {
  import opened Wrappers
  import opened CanonicalText
  import opened CanonicalJson

  // ---------------------------------------------------------------------------------------
  // Strings (RFC 8259, section 7)
  // ---------------------------------------------------------------------------------------

  function HexValue(c: Code): (v: Option<nat>)
    ensures v.Some? ==> v.value < 16
  {
    if 48 <= c <= 57 then Some(c - 48)
    else if 65 <= c <= 70 then Some(c - 55)
    else if 97 <= c <= 102 then Some(c - 87)
    else None
  }

  /** The character that a two-character escape stands for. */
  function ShortEscape(c: Code): Option<Code> {
    if c == 34 then Some(34)
    else if c == 92 then Some(92)
    else if c == 47 then Some(47)
    else if c == 98 then Some(8)
    else if c == 102 then Some(12)
    else if c == 110 then Some(10)
    else if c == 114 then Some(13)
    else if c == 116 then Some(9)
    else None
  }

  function FourHex(a: Code, b: Code, c: Code, d: Code): Option<Code> {
    var x, y, z, w := HexValue(a), HexValue(b), HexValue(c), HexValue(d);
    if x.None? || y.None? || z.None? || w.None? then None
    else Some(4096 * x.value + 256 * y.value + 16 * z.value + w.value)
  }

  /** One character between the quotes, and what follows it. */
  function ReadChar(t: Text): (r: Option<(Code, Text)>)
    requires t != []
    ensures r.Some? ==> |r.value.1| < |t|
  {
    if t[0] < 32 || t[0] == 34 then None
    else if t[0] != 92 then Some((t[0], t[1..]))
    else if |t| < 2 then None
    else if t[1] != 117 then
      var c := ShortEscape(t[1]);
      if c.None? then None else Some((c.value, t[2..]))
    else if |t| < 6 then None
    else
      var c := FourHex(t[2], t[3], t[4], t[5]);
      if c.None? then None else Some((c.value, t[6..]))
  }

  /** The characters up to the closing quote, and what follows it. */
  function ReadChars(t: Text): (r: Option<(Text, Text)>)
    ensures r.Some? ==> |r.value.1| < |t|
    decreases |t|
  {
    if t == [] then None
    else if t[0] == 34 then Some(([], t[1..]))
    else
      var first := ReadChar(t);
      if first.None? then None
      else
        var rest := ReadChars(first.value.1);
        if rest.None? then None else Some(([first.value.0] + rest.value.0, rest.value.1))
  }

  function ReadString(t: Text): (r: Option<(Text, Text)>)
    ensures r.Some? ==> |r.value.1| < |t|
  {
    if t == [] || t[0] != 34 then None else ReadChars(t[1..])
  }

  // ---------------------------------------------------------------------------------------
  // Numbers (section 6) and values (sections 3 to 5)
  // ---------------------------------------------------------------------------------------

  /** An integer: no superfluous zero in front, and neither fraction nor exponent behind. */
  function ReadInteger(t: Text): (r: Option<(int, Text)>)
    ensures r.Some? ==> |r.value.1| < |t|
  {
    var negative := t != [] && t[0] == 45;
    var u := if negative then t[1..] else t;
    RunIsDigits(u);
    var n := DigitRun(u);
    if n == 0 || (u[0] == 48 && n > 1) then None
    else if n < |u| && (u[n] == 46 || u[n] == 69 || u[n] == 101) then None
    else
      var magnitude: int := Value(u[..n]);
      Some((if negative then -magnitude else magnitude, u[n..]))
  }

  function ReadValue(t: Text): (r: Option<(Json, Text)>)
    ensures r.Some? ==> |r.value.1| < |t|
    decreases |t|, 0
  {
    if t == [] then None
    else if t[0] == 34 then
      var s := ReadString(t);
      if s.None? then None else Some((Str(s.value.0), s.value.1))
    else if t[0] == 91 then
      var items := ReadItems(t[1..], true);
      if items.None? then None else Some((Arr(items.value.0), items.value.1))
    else if t[0] == 123 then
      var fields := ReadFields(t[1..], true);
      if fields.None? then None else Some((Obj(fields.value.0), fields.value.1))
    else if |t| >= 4 && t[..4] == [110, 117, 108, 108] then Some((Null, t[4..]))
    else if |t| >= 4 && t[..4] == [116, 114, 117, 101] then Some((Bool(true), t[4..]))
    else if |t| >= 5 && t[..5] == [102, 97, 108, 115, 101] then Some((Bool(false), t[5..]))
    else
      var n := ReadInteger(t);
      if n.None? then None else Some((Int(n.value.0), n.value.1))
  }

  /** The rest of an array. */
  function ReadItems(t: Text, first: bool): (r: Option<(seq<Json>, Text)>)
    ensures r.Some? ==> |r.value.1| < |t|
    decreases |t|, 1
  {
    if t == [] then None
    else if t[0] == 93 then Some(([], t[1..]))
    else if !first && t[0] != 44 then None
    else
      var item := ReadValue(if first then t else t[1..]);
      if item.None? then None
      else
        var rest := ReadItems(item.value.1, false);
        if rest.None? then None else Some(([item.value.0] + rest.value.0, rest.value.1))
  }

  /** The rest of an object; no name may come twice. */
  function ReadFields(t: Text, first: bool): (r: Option<(map<Text, Json>, Text)>)
    ensures r.Some? ==> |r.value.1| < |t|
    decreases |t|, 1
  {
    if t == [] then None
    else if t[0] == 125 then Some((map[], t[1..]))
    else if !first && t[0] != 44 then None
    else
      var name := ReadString(if first then t else t[1..]);
      if name.None? || name.value.1 == [] || name.value.1[0] != 58 then None
      else
        var value := ReadValue(name.value.1[1..]);
        if value.None? then None
        else
          var rest := ReadFields(value.value.1, false);
          if rest.None? || name.value.0 in rest.value.0 then None
          else Some((rest.value.0[name.value.0 := value.value.0], rest.value.1))
  }

  lemma {:induction false} RunIsDigits(t: Text)
    ensures DigitRun(t) <= |t| && AllDigits(t[..DigitRun(t)])
    decreases |t|
  {
    if t != [] && Digit(t[0]) {
      RunIsDigits(t[1..]);
      assert t[..DigitRun(t)] == [t[0]] + t[1..][..DigitRun(t[1..])];
    }
  }

  // ---------------------------------------------------------------------------------------
  // What was printed is read back
  // ---------------------------------------------------------------------------------------

  /** Exactly control characters, quote and backslash are escaped; the short form is used where there is one. */
  lemma EscapeForm(c: Code)
    ensures |Escape(c)| == 1 <==> c >= 32 && c != 34 && c != 92
    ensures |Escape(c)| == 1 ==> Escape(c) == [c]
    ensures |Escape(c)| == 2 <==> c in {8, 9, 10, 12, 13, 34, 92}
    ensures |Escape(c)| == 2 ==> ShortEscape(Escape(c)[1]) == Some(c)
    ensures |Escape(c)| != 1 && |Escape(c)| != 2 ==>
              && |Escape(c)| == 6 && Escape(c)[..4] == [92, 117, 48, 48]
              && (48 <= Escape(c)[4] <= 57) && (48 <= Escape(c)[5] <= 57 || 97 <= Escape(c)[5] <= 102)
  {}

  lemma ReadEscape(c: Code, x: Text)
    ensures Escape(c) + x != [] && (Escape(c) + x)[0] != 34 && ReadChar(Escape(c) + x) == Some((c, x))
  {
    var t := Escape(c) + x;
    EscapeForm(c);
    assert t[|Escape(c)|..] == x;
  }

  lemma {:induction false} ReadEscaped(s: Text, i: nat, x: Text)
    requires i <= |s|
    ensures ReadChars(Escaped(s, i) + x) == Some((s[i..], x))
    decreases |s| - i
  {
    hide Escape, ReadChar;
    var t := Escaped(s, i) + x;
    if i < |s| {
      ReadEscape(s[i], Escaped(s, i + 1) + x);
      assert t == Escape(s[i]) + (Escaped(s, i + 1) + x);
      ReadEscaped(s, i + 1, x);
      assert s[i..] == [s[i]] + s[i + 1..];
    } else {
      assert Escaped(s, i) == [34] && s[i..] == [];
      assert t[0] == 34 && t[1..] == x;
    }
  }

  /** A quoted string reads as the text it was made from. */
  lemma ReadQuoted(s: Text, x: Text)
    requires Quote(s).Some?
    ensures ReadString(Quote(s).value + x) == Some((s, x))
  {
    hide Escaped, ReadChars, Surrogate;
    var t := Quote(s).value + x;
    assert t[0] == QUOTE && t[1..] == Escaped(s, 0) + x;
    ReadEscaped(s, 0, x);
    assert s[0..] == s;
  }

  lemma {:induction false} NoZeroInFront(n: nat)
    ensures Digits(n)[0] == 48 ==> |Digits(n)| == 1
    decreases n
  {
    if n >= 10 {
      NoZeroInFront(n / 10);
      PositiveFront(n / 10);
    }
  }

  lemma {:induction false} PositiveFront(n: nat)
    requires n > 0
    ensures Digits(n)[0] != 48
    decreases n
  {
    if n >= 10 {
      PositiveFront(n / 10);
    }
  }

  lemma ReadDigits(n: nat, x: Text)
    requires Delimited(x)
    ensures var u := Digits(n) + x;
            && DigitRun(u) == |Digits(n)| && u[..|Digits(n)|] == Digits(n) && u[|Digits(n)|..] == x
            && Value(Digits(n)) == n && (u[0] == 48 ==> |Digits(n)| == 1)
  {
    hide Digits, Value;
    DigitRunOf(Digits(n), x);
    ValueOfDigits(n);
    NoZeroInFront(n);
  }

  /** An integer reads as its sign and the value of its digits. */
  lemma ReadSigned(t: Text, u: Text, n: nat)
    requires t != [] && u == (if t[0] == 45 then t[1..] else t)
    requires 0 < n <= |u| && DigitRun(u) == n && AllDigits(u[..n]) && (u[0] == 48 ==> n == 1) && Delimited(u[n..])
    ensures var magnitude: int := Value(u[..n]);
            ReadInteger(t) == Some((if t[0] == 45 then -magnitude else magnitude, u[n..]))
  {
    hide Value, DigitRun, AllDigits;
    RunIsDigits(u);
    assert n < |u| ==> u[n..][0] == u[n];
  }

  lemma ReadDecimal(n: int, x: Text)
    requires Delimited(x)
    ensures ReadInteger(Decimal(n) + x) == Some((n, x))
  {
    hide Digits, Value, DigitRun, ReadInteger, Delimited;
    var m := if n < 0 then -n else n;
    var t, u := Decimal(n) + x, Digits(m) + x;
    ReadDigits(m, x);
    if n < 0 {
      assert t[0] == 45 && t[1..] == u;
    } else {
      assert t == u && Digit(t[0]);
    }
    ReadSigned(t, u, |Digits(m)|);
  }

  /** Whatever the printer prints, wherever in a document it stands, reads as the value that was printed. */
  lemma {:induction false} ReadEncoded(v: Json, d: nat, x: Text)
    requires Encode(v, d).Some? && Delimited(x)
    ensures ReadValue(Encode(v, d).value + x) == Some((v, x))
    decreases v, 1, 0
  {
    hide EncodeItems, EncodeFields, ReadItems, ReadFields, ReadString, ReadInteger, Quote, Decimal;
    var t := Encode(v, d).value + x;
    match v
    case Null => assert t[..4] == NULL && t[4..] == x;
    case Bool(b) =>
      var n := if b then 4 else 5;
      assert t[..n] == (if b then TRUE else FALSE) && t[n..] == x;
    case Int(n) =>
      DecimalSign(n);
      assert t[0] == Decimal(n)[0];
      ReadDecimal(n, x);
    case Str(s) =>
      ReadQuoted(s, x);
      QuoteStarts(s);
      assert t[0] == 34;
    case Arr(items) =>
      ItemsRead(v, 0, d + 1, x);
      assert t[0] == 91 && t[1..] == EncodeItems(v, 0, d + 1).value + x;
      assert items[0..] == items;
    case Obj(fields) =>
      var ks := SortedKeys(fields.Keys);
      FieldsRead(v, ks, 0, d + 1, x);
      assert t[0] == 123 && t[1..] == EncodeFields(v, ks, 0, d + 1).value + x;
      AllFields(fields, ks);
  }

  lemma QuoteStarts(s: Text)
    requires Quote(s).Some?
    ensures Quote(s).value != [] && Quote(s).value[0] == 34
  {}

  /** One item more in front, after its comma. */
  lemma ReadOneItem(t: Text, first: bool, item: Json, u: Text, rest: seq<Json>, x: Text)
    requires t != [] && t[0] != 93 && (first || t[0] == 44)
    requires ReadValue(if first then t else t[1..]) == Some((item, u)) && ReadItems(u, false) == Some((rest, x))
    ensures ReadItems(t, first) == Some(([item] + rest, x))
  {
    hide ReadValue;
  }

  lemma ReadNoItem(x: Text, first: bool)
    ensures ReadItems([93] + x, first) == Some(([], x))
  {
    assert ([93] + x)[1..] == x;
  }

  /** How the text of the items from the `i`th on begins. */
  lemma ItemsLayout(v: Json, i: nat, d: nat, x: Text)
    requires v.Arr? && i < |v.items| && EncodeItems(v, i, d).Some?
    ensures Encode(v.items[i], d).Some? && EncodeItems(v, i + 1, d).Some?
    ensures var t, u := EncodeItems(v, i, d).value + x, EncodeItems(v, i + 1, d).value + x;
            && t != [] && t[0] != 93 && (i == 0 || t[0] == 44) && Delimited(u)
            && (if i == 0 then t else t[1..]) == Encode(v.items[i], d).value + u
  {
    hide Encode, StartsAs;
    ItemsStart(v, i, d);
    ItemsStart(v, i + 1, d);
  }

  lemma {:induction false} ItemsRead(v: Json, i: nat, d: nat, x: Text)
    requires v.Arr? && i <= |v.items| && EncodeItems(v, i, d).Some?
    ensures ReadItems(EncodeItems(v, i, d).value + x, i == 0) == Some((v.items[i..], x))
    decreases v, 0, |v.items| - i
  {
    hide Encode, ReadValue, StartsAs, ReadItems, Delimited;
    if i == |v.items| {
      ReadNoItem(x, i == 0);
      assert v.items[i..] == [];
    } else {
      var u := EncodeItems(v, i + 1, d).value + x;
      ItemsLayout(v, i, d, x);
      ReadEncoded(v.items[i], d, u);
      ItemsRead(v, i + 1, d, x);
      ReadOneItem(EncodeItems(v, i, d).value + x, i == 0, v.items[i], u, v.items[i + 1..], x);
      assert v.items[i..] == [v.items[i]] + v.items[i + 1..];
    }
  }

  ghost function FieldsFrom(fields: map<Text, Json>, ks: seq<Text>, i: nat): map<Text, Json>
    requires i <= |ks| && forall k :: k in ks ==> k in fields
  {
    map k | k in ks[i..] :: fields[k]
  }

  lemma AllFields(fields: map<Text, Json>, ks: seq<Text>)
    requires forall k :: k in ks <==> k in fields.Keys
    ensures FieldsFrom(fields, ks, 0) == fields
  {
    assert ks[0..] == ks;
  }

  lemma OneMoreField(fields: map<Text, Json>, ks: seq<Text>, i: nat)
    requires i < |ks| && (forall k :: k in ks ==> k in fields) && Ascending(ks)
    ensures ks[i] !in FieldsFrom(fields, ks, i + 1)
    ensures FieldsFrom(fields, ks, i) == FieldsFrom(fields, ks, i + 1)[ks[i] := fields[ks[i]]]
  {
    assert ks[i..] == [ks[i]] + ks[i + 1..];
    if ks[i] in ks[i + 1..] {
      var j :| 0 <= j < |ks[i + 1..]| && ks[i + 1..][j] == ks[i];
      assert Before(ks[i], ks[i + 1 + j]);
      BeforeIsTotal(ks[i], ks[i]);
    }
  }

  /** One field more in front, after its comma. */
  lemma ReadOneField(t: Text, first: bool, name: Text, u: Text, value: Json, w: Text, rest: map<Text, Json>, x: Text)
    requires t != [] && t[0] != 125 && (first || t[0] == 44) && u != [] && u[0] == 58
    requires ReadString(if first then t else t[1..]) == Some((name, u)) && ReadValue(u[1..]) == Some((value, w))
    requires ReadFields(w, false) == Some((rest, x)) && name !in rest
    ensures ReadFields(t, first) == Some((rest[name := value], x))
  {
    hide ReadValue, ReadString;
  }

  lemma ReadNoField(x: Text, first: bool)
    ensures ReadFields([125] + x, first) == Some((map[], x))
  {
    assert ([125] + x)[1..] == x;
  }

  /** How the text of the fields from the `i`th on begins. */
  lemma FieldsLayout(v: Json, ks: seq<Text>, i: nat, d: nat, x: Text)
    requires v.Obj? && i < |ks| && (forall k :: k in ks ==> k in v.fields) && EncodeFields(v, ks, i, d).Some?
    ensures Quote(ks[i]).Some? && Encode(v.fields[ks[i]], d).Some? && EncodeFields(v, ks, i + 1, d).Some?
    ensures var t, w := EncodeFields(v, ks, i, d).value + x, EncodeFields(v, ks, i + 1, d).value + x;
            && t != [] && t[0] != 125 && (i == 0 || t[0] == 44) && Delimited(w)
            && (if i == 0 then t else t[1..]) == Quote(ks[i]).value + ([58] + (Encode(v.fields[ks[i]], d).value + w))
  {
    hide Encode, Quote;
    FieldsStart(v, ks, i, d);
    FieldsStart(v, ks, i + 1, d);
  }

  lemma {:induction false} FieldsRead(v: Json, ks: seq<Text>, i: nat, d: nat, x: Text)
    requires v.Obj? && i <= |ks| && (forall k :: k in ks ==> k in v.fields) && Ascending(ks) && EncodeFields(v, ks, i, d).Some?
    ensures ReadFields(EncodeFields(v, ks, i, d).value + x, i == 0) == Some((FieldsFrom(v.fields, ks, i), x))
    decreases v, 0, |ks| - i
  {
    hide Encode, ReadValue, ReadString, ReadFields, Quote, Ascending, Delimited;
    if i == |ks| {
      ReadNoField(x, i == 0);
      assert FieldsFrom(v.fields, ks, i) == map[];
    } else {
      var w := EncodeFields(v, ks, i + 1, d).value + x;
      FieldsLayout(v, ks, i, d, x);
      var u := [58] + (Encode(v.fields[ks[i]], d).value + w);
      ReadQuoted(ks[i], u);
      assert u[1..] == Encode(v.fields[ks[i]], d).value + w;
      ReadEncoded(v.fields[ks[i]], d, w);
      FieldsRead(v, ks, i + 1, d, x);
      OneMoreField(v.fields, ks, i);
      ReadOneField(EncodeFields(v, ks, i, d).value + x, i == 0, ks[i], u, v.fields[ks[i]], w,
                   FieldsFrom(v.fields, ks, i + 1), x);
    }
  }

  /** The canonical text of a document is JSON for that very document. */
  lemma CanonicalTextDenotes(v: Json)
    requires Encode(v, 0).Some?
    ensures ReadValue(Encode(v, 0).value) == Some((v, []))
  {
    hide Encode, ReadValue;
    ReadEncoded(v, 0, []);
    assert Encode(v, 0).value + [] == Encode(v, 0).value;
  }
}
