/**
 The canonical JSON printer, and that its output determines the value: what is hashed cannot
 stand for two documents.
 */
module CanonicalJson {
  import opened Wrappers
  import opened CanonicalText

  const MIN_INTEGER: int := -0x8000_0000_0000_0000
  const MAX_INTEGER: int := 0xFFFF_FFFF_FFFF_FFFF
  const MAX_DEPTH: nat := 64

  // `Unsupported` stands for floats and for any value that is not JSON at all.
  datatype Json =
    | Null | Bool(b: bool) | Int(n: int) | Unsupported | Str(s: Text) | Arr(items: seq<Json>) | Obj(fields: map<Text, Json>)

  const NULL: Text := [110, 117, 108, 108]
  const TRUE: Text := [116, 114, 117, 101]
  const FALSE: Text := [102, 97, 108, 115, 101]
  const COMMA: Code := 44
  const COLON: Code := 58
  const OPEN_ARRAY: Code := 91
  const CLOSE_ARRAY: Code := 93
  const OPEN_OBJECT: Code := 123
  const CLOSE_OBJECT: Code := 125

  function Comma(i: nat): Text { if i == 0 then [] else [COMMA] }

  /** The printer; None is the error that the code raises. */
  ghost function Encode(v: Json, depth: nat): Option<Text>
    decreases v, 1, 0
  {
    match v
    case Null => Some(NULL)
    case Bool(b) => Some(if b then TRUE else FALSE)
    case Int(n) => if MIN_INTEGER <= n <= MAX_INTEGER then Some(Decimal(n)) else None
    case Unsupported => None
    case Str(s) => Quote(s)
    case Arr(_) =>
      if depth + 1 > MAX_DEPTH then None
      else
        var t := EncodeItems(v, 0, depth + 1);
        if t.None? then None else Some([OPEN_ARRAY] + t.value)
    case Obj(_) =>
      if depth + 1 > MAX_DEPTH then None
      else
        var t := EncodeFields(v, SortedKeys(v.fields.Keys), 0, depth + 1);
        if t.None? then None else Some([OPEN_OBJECT] + t.value)
  }

  /** The items from position `i` on, comma-separated, and the closing bracket. */
  ghost function EncodeItems(v: Json, i: nat, depth: nat): Option<Text>
    requires v.Arr? && i <= |v.items|
    decreases v, 0, |v.items| - i
  {
    if i == |v.items| then Some([CLOSE_ARRAY])
    else
      var head, tail := Encode(v.items[i], depth), EncodeItems(v, i + 1, depth);
      if head.None? || tail.None? then None else Some(Comma(i) + (head.value + tail.value))
  }

  /** The fields of the keys from position `i` on, and the closing brace. */
  ghost function EncodeFields(v: Json, ks: seq<Text>, i: nat, depth: nat): Option<Text>
    requires v.Obj? && i <= |ks| && forall k :: k in ks ==> k in v.fields
    decreases v, 0, |ks| - i
  {
    if i == |ks| then Some([CLOSE_OBJECT])
    else
      var key, head, tail := Quote(ks[i]), Encode(v.fields[ks[i]], depth), EncodeFields(v, ks, i + 1, depth);
      if key.None? || head.None? || tail.None? then None
      else Some(Comma(i) + (key.value + ([COLON] + (head.value + tail.value))))
  }

  // ---------------------------------------------------------------------------------------
  // Reading a printed value back
  // ---------------------------------------------------------------------------------------

  /** What may follow a value: nothing, a comma, or a closing bracket. */
  predicate Delimited(t: Text) { t == [] || t[0] == COMMA || t[0] == CLOSE_ARRAY || t[0] == CLOSE_OBJECT }

  /** The first character of a printed value tells its kind. */
  predicate StartsAs(v: Json, c: Code) {
    match v
    case Null => c == 110
    case Bool(b) => c == if b then 116 else 102
    case Int(_) => c == MINUS || Digit(c)
    case Unsupported => false
    case Str(_) => c == QUOTE
    case Arr(_) => c == OPEN_ARRAY
    case Obj(_) => c == OPEN_OBJECT
  }

  lemma FirstCharacter(v: Json, depth: nat)
    requires Encode(v, depth).Some?
    ensures Encode(v, depth).value != [] && StartsAs(v, Encode(v, depth).value[0])
  {
    hide EncodeItems, EncodeFields, Decimal;
    if v.Int? {
      DecimalSign(v.n);
    }
  }

  lemma SameKind(v: Json, w: Json, c: Code)
    requires StartsAs(v, c) && StartsAs(w, c)
    ensures match v case Null => w == v case Bool(_) => w == v case Int(_) => w.Int? case Unsupported => false
                    case Str(_) => w.Str? case Arr(_) => w.Arr? case Obj(_) => w.Obj?
    ensures !StartsAs(v, COMMA) && !StartsAs(v, CLOSE_ARRAY) && !StartsAs(v, CLOSE_OBJECT)
  {}

  lemma ItemsStart(v: Json, i: nat, depth: nat)
    requires v.Arr? && i <= |v.items| && EncodeItems(v, i, depth).Some?
    ensures var t := EncodeItems(v, i, depth).value;
            t != [] && (t[0] == CLOSE_ARRAY <==> i == |v.items|) && (i > 0 ==> Delimited(t))
  {
    if i < |v.items| {
      FirstCharacter(v.items[i], depth);
      if i == 0 {
        SameKind(v.items[i], v.items[i], Encode(v.items[i], depth).value[0]);
        assert EncodeItems(v, i, depth).value[0] == Encode(v.items[i], depth).value[0];
      }
    }
  }

  lemma FieldsStart(v: Json, ks: seq<Text>, i: nat, depth: nat)
    requires v.Obj? && i <= |ks| && (forall k :: k in ks ==> k in v.fields) && EncodeFields(v, ks, i, depth).Some?
    ensures var t := EncodeFields(v, ks, i, depth).value;
            t != [] && (t[0] == CLOSE_OBJECT <==> i == |ks|) && (i > 0 ==> Delimited(t))
  {
    if i == 0 && i < |ks| {
      assert EncodeFields(v, ks, i, depth).value[0] == Quote(ks[i]).value[0];
    }
  }

  lemma DropFront(front: Text, a: Text, x: Text, b: Text, y: Text)
    requires (front + a) + x == (front + b) + y
    ensures a + x == b + y
  {
    assert ((front + a) + x)[|front|..] == a + x;
    assert ((front + b) + y)[|front|..] == b + y;
  }

  lemma Reassociate(a: Text, b: Text, x: Text)
    ensures (a + b) + x == a + (b + x)
  {}

  lemma {:induction false} ItemsAreUnique(v: Json, w: Json, i: nat, d: nat, e: nat, x: Text, y: Text)
    requires v.Arr? && w.Arr? && i <= |v.items| && i <= |w.items|
    requires EncodeItems(v, i, d).Some? && EncodeItems(w, i, e).Some?
    requires EncodeItems(v, i, d).value + x == EncodeItems(w, i, e).value + y
    ensures v.items[i..] == w.items[i..] && x == y
    decreases v, 0, |v.items| - i
  {
    hide Encode, Delimited;
    var t := EncodeItems(v, i, d).value + x;
    ItemsStart(v, i, d);
    ItemsStart(w, i, e);
    assert t[0] == EncodeItems(v, i, d).value[0] && t[0] == EncodeItems(w, i, e).value[0];
    if i == |v.items| {
      assert x == t[1..] && y == t[1..];
    } else {
      var h, h' := Encode(v.items[i], d).value, Encode(w.items[i], e).value;
      var u, u' := EncodeItems(v, i + 1, d).value, EncodeItems(w, i + 1, e).value;
      DropFront(Comma(i), h + u, x, h' + u', y);
      Reassociate(h, u, x);
      Reassociate(h', u', y);
      ItemsStart(v, i + 1, d);
      ItemsStart(w, i + 1, e);
      StillDelimited(u, x);
      StillDelimited(u', y);
      EncodeIsUnique(v.items[i], w.items[i], d, e, u + x, u' + y);
      ItemsAreUnique(v, w, i + 1, d, e, x, y);
      assert v.items[i..] == [v.items[i]] + v.items[i + 1..] && w.items[i..] == [w.items[i]] + w.items[i + 1..];
    }
  }

  lemma StillDelimited(u: Text, x: Text)
    requires u != [] && Delimited(u)
    ensures Delimited(u + x)
  {}

  lemma {:induction false} FieldsAreUnique(v: Json, w: Json, ks: seq<Text>, ls: seq<Text>, i: nat, d: nat, e: nat, x: Text, y: Text)
    requires v.Obj? && w.Obj? && i <= |ks| && i <= |ls|
    requires (forall k :: k in ks ==> k in v.fields) && (forall k :: k in ls ==> k in w.fields)
    requires EncodeFields(v, ks, i, d).Some? && EncodeFields(w, ls, i, e).Some?
    requires EncodeFields(v, ks, i, d).value + x == EncodeFields(w, ls, i, e).value + y
    ensures ks[i..] == ls[i..] && x == y
    ensures forall j :: i <= j < |ks| && j < |ls| ==> v.fields[ks[j]] == w.fields[ls[j]]
    decreases v, 0, |ks| - i
  {
    hide Encode, Delimited, Quote;
    var t := EncodeFields(v, ks, i, d).value + x;
    FieldsStart(v, ks, i, d);
    FieldsStart(w, ls, i, e);
    assert t[0] == EncodeFields(v, ks, i, d).value[0] && t[0] == EncodeFields(w, ls, i, e).value[0];
    if i == |ks| {
      assert x == t[1..] && y == t[1..];
    } else {
      var q, q' := Quote(ks[i]).value, Quote(ls[i]).value;
      var h, h' := Encode(v.fields[ks[i]], d).value, Encode(w.fields[ls[i]], e).value;
      var u, u' := EncodeFields(v, ks, i + 1, d).value, EncodeFields(w, ls, i + 1, e).value;
      DropFront(Comma(i), q + ([COLON] + (h + u)), x, q' + ([COLON] + (h' + u')), y);
      Reassociate(q, [COLON] + (h + u), x);
      Reassociate(q', [COLON] + (h' + u'), y);
      QuoteIsUnique(ks[i], ls[i], [COLON] + (h + u) + x, [COLON] + (h' + u') + y);
      DropFront([COLON], h + u, x, h' + u', y);
      Reassociate(h, u, x);
      Reassociate(h', u', y);
      FieldsStart(v, ks, i + 1, d);
      FieldsStart(w, ls, i + 1, e);
      StillDelimited(u, x);
      StillDelimited(u', y);
      EncodeIsUnique(v.fields[ks[i]], w.fields[ls[i]], d, e, u + x, u' + y);
      FieldsAreUnique(v, w, ks, ls, i + 1, d, e, x, y);
      assert ks[i..] == [ks[i]] + ks[i + 1..] && ls[i..] == [ls[i]] + ls[i + 1..];
    }
  }

  /** A printed value can be read back, wherever in a document it stands. */
  lemma {:induction false} EncodeIsUnique(v: Json, w: Json, d: nat, e: nat, x: Text, y: Text)
    requires Encode(v, d).Some? && Encode(w, e).Some? && Delimited(x) && Delimited(y)
    requires Encode(v, d).value + x == Encode(w, e).value + y
    ensures v == w && x == y
    decreases v, 1, 0
  {
    hide Decimal, Quote, EncodeItems, EncodeFields;
    var t := Encode(v, d).value + x;
    FirstCharacter(v, d);
    FirstCharacter(w, e);
    assert t[0] == Encode(v, d).value[0] && t[0] == Encode(w, e).value[0];
    SameKind(v, w, t[0]);
    match v
    case Null => assert x == t[4..] && y == t[4..];
    case Bool(b) => assert x == t[if b then 4 else 5..] && y == t[if b then 4 else 5..];
    case Int(n) => DecimalIsUnique(n, w.n, x, y);
    case Str(s) => QuoteIsUnique(s, w.s, x, y);
    case Arr(_) =>
      DropFront([OPEN_ARRAY], EncodeItems(v, 0, d + 1).value, x, EncodeItems(w, 0, e + 1).value, y);
      ItemsAreUnique(v, w, 0, d + 1, e + 1, x, y);
      assert v.items[0..] == v.items && w.items[0..] == w.items;
    case Obj(_) =>
      var ks, ls := SortedKeys(v.fields.Keys), SortedKeys(w.fields.Keys);
      DropFront([OPEN_OBJECT], EncodeFields(v, ks, 0, d + 1).value, x, EncodeFields(w, ls, 0, e + 1).value, y);
      FieldsAreUnique(v, w, ks, ls, 0, d + 1, e + 1, x, y);
      assert ks[0..] == ks && ls[0..] == ls;
      SameFields(v.fields, w.fields, ks, ls);
  }

  lemma SameFields(f: map<Text, Json>, g: map<Text, Json>, ks: seq<Text>, ls: seq<Text>)
    requires (forall k :: k in ks <==> k in f.Keys) && (forall k :: k in ls <==> k in g.Keys) && ks == ls
    requires forall j :: 0 <= j < |ks| ==> f[ks[j]] == g[ls[j]]
    ensures f == g
  {
    forall k | k in f ensures k in g && f[k] == g[k] {
      assert k in ks;
    }
    assert forall k :: k in g <==> k in ks;
  }

  /** Two documents with the same canonical text are the same document. */
  lemma EncodeIsInjective(v: Json, w: Json)
    requires Encode(v, 0).Some? && Encode(v, 0) == Encode(w, 0)
    ensures v == w
  {
    hide Encode;
    EncodeIsUnique(v, w, 0, 0, [], []);
  }
}
