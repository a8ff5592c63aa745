/**
 What a journal file means: the history its whole frames spell out, and the torn rest, if any.
 From this the inspection result is defined, and every crash point of an append is classified.
 */
module ControlReceiptParsing {
  import opened Wrappers
  import opened DurableFrames
  import opened ControlReceipts
  import opened ControlReceiptInspection

  /** Advancing the anchor by one frame: quotas and the chain link are checked, in this order. */
  function Advance(anchor: Anchor, record: Record): Option<Anchor> {
    if !anchor.Valid() then None
    else if anchor.count >= MAX_COUNT || record.Size() > MAX_BYTES - anchor.bytes then None
    else if record.previous != (if anchor.count > 0 then anchor.head else ZERO_HASH) then None
    else Some(Anchor(anchor.count + 1, anchor.bytes + record.Size(), record.hash))
  }

  predicate WithinQuota(c: Codec, rs: seq<Receipt>, r: Receipt)
    requires AllFit(c, rs)
  {
    |rs| < MAX_COUNT && |Encoded(c, rs)| + OVERHEAD + |c.encode(r)| <= MAX_BYTES
  }

  lemma AdvanceAgrees(c: Codec, rs: seq<Receipt>, r: Receipt)
    requires Lawful(c) && GoodHistory(c, rs) && Fits(c, r)
    ensures AllFit(c, rs + [r])
    ensures var record := Record(FrameHash(c.frames, c.encode(r), HeadOf(c, rs)), HeadOf(c, rs), c.encode(r));
            Advance(AnchorOf(c, rs), record) == if WithinQuota(c, rs, r) then Some(AnchorOf(c, rs + [r])) else None
  {
    hide Lawful, GoodHistory, FrameHash, HeadOf, Encoded, FrameOf;
    GoodFits(c, rs);
    GoodAnchor(c, rs);
    ExtendEncoded(c, rs, r);
  }

  // ---------------------------------------------------------------------------------------
  // Parsing
  // ---------------------------------------------------------------------------------------

  datatype Parsed = Bad | Parsed(history: seq<Receipt>, tail: Bytes)

  /** The size a frame claims for itself. */
  function ClaimedSize(raw: Bytes): nat
    requires |raw| >= 8
  {
    OVERHEAD + Uint32(raw[4..8])
  }

  /** The rest of a frame has not been written yet. */
  predicate Unfinished(raw: Bytes) {
    |raw| < 8 || (raw[..4] == MAGIC && ClaimedSize(raw) <= OVERHEAD + MAX_PAYLOAD && |raw| < ClaimedSize(raw))
  }

  /** The receipt in the frame that follows `rs`, if that frame is sound and the receipt may follow. */
  ghost function NextReceipt(c: Codec, rs: seq<Receipt>, frame: Bytes): Option<Receipt>
    requires AllFit(c, rs)
  {
    match DecodeFrame(c.frames, frame, MAX_PAYLOAD, HeadOf(c, rs))
    case Whole(record) =>
      var r := Replayed(c, rs, record.payload);
      if r.Some? && WithinQuota(c, rs, r.value) then r else None
    case _ => None
  }

  ghost function Parse(c: Codec, rs: seq<Receipt>, raw: Bytes): Parsed
    requires AllFit(c, rs)
    decreases |raw|
  {
    if raw == [] || Unfinished(raw) then Parsed(rs, raw)
    else if raw[..4] != MAGIC || ClaimedSize(raw) > OVERHEAD + MAX_PAYLOAD then Bad
    else
      var r := NextReceipt(c, rs, raw[..ClaimedSize(raw)]);
      if r.None? || !Fits(c, r.value) then Bad else Parse(c, rs + [r.value], raw[ClaimedSize(raw)..])
  }

  lemma ParseTail(c: Codec, rs: seq<Receipt>, tail: Bytes)
    requires AllFit(c, rs) && (tail == [] || Unfinished(tail))
    ensures Parse(c, rs, tail) == Parsed(rs, tail)
  {
    hide Unfinished, NextReceipt;
  }

  lemma ParseNothing(c: Codec, rs: seq<Receipt>)
    requires AllFit(c, rs)
    ensures Parse(c, rs, []) == Parsed(rs, [])
  {}

  lemma NextReceiptSound(c: Codec, rs: seq<Receipt>, frame: Bytes)
    requires GoodHistory(c, rs) && NextReceipt(c, rs, frame).Some?
    ensures var r := NextReceipt(c, rs, frame).value;
            Fits(c, r) && frame == FrameOf(c, rs, r) && GoodHistory(c, rs + [r])
  {
    DecodedIsEncoded(c.frames, frame, MAX_PAYLOAD, HeadOf(c, rs));
    GoodExtends(c, rs, NextReceipt(c, rs, frame).value);
  }

  /** What parses is a good history followed by nothing or by an unfinished frame. */
  lemma {:induction false} ParseSound(c: Codec, rs: seq<Receipt>, raw: Bytes)
    requires GoodHistory(c, rs) && Parse(c, rs, raw).Parsed?
    ensures var p := Parse(c, rs, raw);
            && GoodHistory(c, p.history) && rs <= p.history
            && Encoded(c, rs) + raw == Encoded(c, p.history) + p.tail
            && (p.tail == [] || Unfinished(p.tail))
    decreases |raw|
  {
    hide GoodHistory, NextReceipt, Encoded, FrameOf, HeadOf, AllFit;
    GoodFits(c, rs);
    if raw != [] && !Unfinished(raw) {
      var size := ClaimedSize(raw);
      NextReceiptSound(c, rs, raw[..size]);
      var r := NextReceipt(c, rs, raw[..size]).value;
      ParseSound(c, rs + [r], raw[size..]);
      ExtendEncoded(c, rs, r);
      JoinPieces(Encoded(c, rs), raw, size);
    }
  }

  lemma JoinPieces(front: Bytes, raw: Bytes, size: nat)
    requires size <= |raw|
    ensures front + raw == (front + raw[..size]) + raw[size..]
  {}

  /** One whole frame with the right link: its receipt decides how the parse goes on. */
  lemma ParseWhole(c: Codec, rs: seq<Receipt>, payload: Bytes, rest: Bytes)
    requires AllFit(c, rs) && |payload| <= MAX_PAYLOAD
    ensures var r := Replayed(c, rs, payload);
            Parse(c, rs, EncodeFrame(c.frames, payload, HeadOf(c, rs)) + rest)
            == if r.Some? && WithinQuota(c, rs, r.value) then Parse(c, rs + [r.value], rest) else Bad
  {
    hide HeadOf, Encoded, Admissible, EncodeFrame, FrameHash;
    var frame := EncodeFrame(c.frames, payload, HeadOf(c, rs));
    var raw := frame + rest;
    EncodedParts(c.frames, payload, HeadOf(c, rs));
    Uint32RoundTrip(|payload|);
    assert raw[..4] == frame[..4] && raw[4..8] == frame[4..8];
    assert raw[..|frame|] == frame && raw[|frame|..] == rest;
    DecodeEncoded(c.frames, payload, HeadOf(c, rs), MAX_PAYLOAD);
  }

  lemma GoodLast(c: Codec, rs: seq<Receipt>, r: Receipt)
    requires GoodHistory(c, rs + [r])
    ensures GoodHistory(c, rs) && AllFit(c, rs) && Fits(c, r)
    ensures ValidReceipt(c, r) && Admissible(c, rs, r) && WithinQuota(c, rs, r)
  {
    hide Admissible;
    assert (rs + [r])[..|rs|] == rs && (rs + [r])[|rs|] == r;
    assert Fits(c, (rs + [r])[|rs|]);
    ExtendEncoded(c, rs, r);
    AdmissibleIsValid(c, rs, r);
  }

  lemma AdmissibleIsValid(c: Codec, rs: seq<Receipt>, r: Receipt)
    requires Admissible(c, rs, r)
    ensures ValidReceipt(c, r)
  {}

  lemma FrameParses(c: Codec, rs: seq<Receipt>, r: Receipt, rest: Bytes)
    requires Lawful(c) && GoodHistory(c, rs + [r]) && GoodHistory(c, rs)
    ensures Parse(c, rs, FrameOf(c, rs, r) + rest) == Parse(c, rs + [r], rest)
  {
    hide Parse, Lawful, GoodHistory, Admissible, HeadOf, Replayed, ValidReceipt;
    GoodLast(c, rs, r);
    ParseWhole(c, rs, c.encode(r), rest);
    CanonicalReplays(c, rs, r);
  }

  /** Both sides of the journal check the same thing: a canonical payload is accepted exactly when appending it was. */
  lemma CanonicalReplays(c: Codec, rs: seq<Receipt>, r: Receipt)
    requires Lawful(c) && ValidReceipt(c, r)
    ensures Replayed(c, rs, c.encode(r)) == if Admissible(c, rs, r) then Some(r) else None
  {}

  /** Parsing a good history's bytes recovers that history and goes on with the rest. */
  lemma {:induction false} ParseComplete(c: Codec, rs: seq<Receipt>, rest: Bytes)
    requires Lawful(c) && GoodHistory(c, rs)
    ensures Parse(c, [], Encoded(c, rs) + rest) == Parse(c, rs, rest)
    decreases |rs|
  {
    hide Lawful, Parse, Admissible, FrameOf;
    if rs == [] {
      assert Encoded(c, rs) + rest == rest;
    } else {
      var before, last := rs[..|rs| - 1], rs[|rs| - 1];
      assert before + [last] == rs;
      ParseComplete(c, before, FrameOf(c, before, last) + rest);
      assert Encoded(c, rs) + rest == Encoded(c, before) + (FrameOf(c, before, last) + rest);
      FrameParses(c, before, last, rest);
    }
  }

  /** Every proper, non-empty piece of a frame is unfinished. */
  lemma FramePieceIsUnfinished(c: Codec, rs: seq<Receipt>, r: Receipt, k: nat)
    requires AllFit(c, rs) && Fits(c, r) && 0 < k < |FrameOf(c, rs, r)|
    ensures Unfinished(FrameOf(c, rs, r)[..k])
  {
    var frame := FrameOf(c, rs, r);
    EncodedParts(c.frames, c.encode(r), HeadOf(c, rs));
    Uint32RoundTrip(|c.encode(r)|);
    assert k >= 8 ==> frame[..k][..4] == frame[..4] && frame[..k][4..8] == frame[4..8];
  }

  // ---------------------------------------------------------------------------------------
  // Inspection
  // ---------------------------------------------------------------------------------------

  datatype Inspection =
    | Corrupt
    | Exact(anchor: Anchor, receipts: map<Key, Receipt>)
    | CompleteTail(anchor: Anchor, receipts: map<Key, Receipt>, candidate: Receipt)
    | IncompleteTail(anchor: Anchor, receipts: map<Key, Receipt>, unanchored: nat)

  /** The first `a.count` receipts are the ones the anchor was taken of. */
  predicate Anchored(c: Codec, rs: seq<Receipt>, a: Anchor)
    requires AllFit(c, rs)
  {
    |rs| >= a.count && AnchorOf(c, rs[..a.count]) == a
  }

  ghost function Classify(c: Codec, rs: seq<Receipt>, tail: Bytes, a: Anchor): Inspection
    requires AllFit(c, rs)
  {
    if |rs| > a.count + 1 || !Anchored(c, rs, a) then Corrupt
    else if |rs| == a.count then
      if tail == [] then Exact(a, Lookup(rs)) else IncompleteTail(a, Lookup(rs), |tail|)
    else if tail == [] then CompleteTail(AnchorOf(c, rs), Lookup(rs), rs[a.count])
    else Corrupt
  }

  ghost function Inspect(c: Codec, raw: Bytes, a: Anchor): Inspection {
    if !a.Valid() then Corrupt
    else
      match Parse(c, [], raw)
      case Bad => Corrupt
      case Parsed(rs, tail) => if AllFit(c, rs) then Classify(c, rs, tail, a) else Corrupt
  }

  lemma ClassifyOwn(c: Codec, rs: seq<Receipt>, tail: Bytes)
    requires Lawful(c) && GoodHistory(c, rs)
    requires tail == [] || Unfinished(tail)
    ensures Inspect(c, Encoded(c, rs) + tail, AnchorOf(c, rs))
            == if tail == [] then Exact(AnchorOf(c, rs), Lookup(rs)) else IncompleteTail(AnchorOf(c, rs), Lookup(rs), |tail|)
  {
    hide Lawful, GoodHistory, Parse, HeadOf, Encoded, Lookup, Unfinished;
    GoodFits(c, rs);
    ParseComplete(c, rs, tail);
    ParseTail(c, rs, tail);
    GoodAnchor(c, rs);
    assert rs[..|rs|] == rs;
  }

  lemma ClassifyNext(c: Codec, rs: seq<Receipt>, r: Receipt)
    requires Lawful(c) && GoodHistory(c, rs) && GoodHistory(c, rs + [r])
    ensures Inspect(c, Encoded(c, rs + [r]), AnchorOf(c, rs)) == CompleteTail(AnchorOf(c, rs + [r]), Lookup(rs + [r]), r)
  {
    hide Lawful, Parse, Admissible, HeadOf, Encoded, Lookup;
    assert Encoded(c, rs + [r]) + [] == Encoded(c, rs + [r]);
    ParseComplete(c, rs + [r], []);
    ParseNothing(c, rs + [r]);
    GoodAnchor(c, rs);
    assert (rs + [r])[..|rs|] == rs;
  }

  /**
   Every crash point of storing one more receipt. With the anchor not yet committed, the file
   ends after `k` bytes of the new frame; with it committed, the file is whole.
   */
  lemma CrashPointsAreClassified(c: Codec, rs: seq<Receipt>, r: Receipt, k: nat)
    requires Lawful(c) && GoodHistory(c, rs) && GoodHistory(c, rs + [r]) && Fits(c, r) && k <= |FrameOf(c, rs, r)|
    ensures Inspect(c, Encoded(c, rs) + FrameOf(c, rs, r)[..k], AnchorOf(c, rs))
            == if k == 0 then Exact(AnchorOf(c, rs), Lookup(rs))
               else if k < |FrameOf(c, rs, r)| then IncompleteTail(AnchorOf(c, rs), Lookup(rs), k)
               else CompleteTail(AnchorOf(c, rs + [r]), Lookup(rs + [r]), r)
    ensures Inspect(c, Encoded(c, rs + [r]), AnchorOf(c, rs + [r])) == Exact(AnchorOf(c, rs + [r]), Lookup(rs + [r]))
  {
    hide Lawful, GoodHistory, Inspect, FrameOf, HeadOf, Encoded, Lookup, AnchorOf, Unfinished;
    GoodFits(c, rs);
    GoodFits(c, rs + [r]);
    var frame := FrameOf(c, rs, r);
    ClassifyOwn(c, rs + [r], []);
    assert Encoded(c, rs + [r]) + [] == Encoded(c, rs + [r]);
    if k < |frame| {
      if k > 0 {
        FramePieceIsUnfinished(c, rs, r, k);
      }
      ClassifyOwn(c, rs, frame[..k]);
    } else {
      assert frame[..k] == frame;
      ExtendEncoded(c, rs, r);
      ClassifyNext(c, rs, r);
    }
  }

  /** The converse: a result other than corruption says exactly which history is on disk and which part is anchored. */
  lemma InspectionIsSound(c: Codec, raw: Bytes, a: Anchor) returns (rs: seq<Receipt>, tail: Bytes)
    requires Inspect(c, raw, a) != Corrupt
    ensures a.Valid() && GoodHistory(c, rs) && raw == Encoded(c, rs) + tail && (tail == [] || Unfinished(tail))
    ensures Inspect(c, raw, a).Exact? ==> tail == [] && AnchorOf(c, rs) == a
    ensures Inspect(c, raw, a).IncompleteTail? ==> tail != [] && AnchorOf(c, rs) == a
    ensures Inspect(c, raw, a).CompleteTail? ==>
              && tail == [] && rs != [] && AllFit(c, rs[..|rs| - 1]) && AnchorOf(c, rs[..|rs| - 1]) == a
              && Inspect(c, raw, a).candidate == rs[|rs| - 1]
    ensures Inspect(c, raw, a).receipts == Lookup(rs)
  {
    hide Parse, Admissible, Unfinished, HeadOf;
    ParseSound(c, [], raw);
    var p := Parse(c, [], raw);
    rs, tail := p.history, p.tail;
    assert Encoded(c, []) + raw == raw;
    assert rs[..|rs|] == rs;
  }
}
