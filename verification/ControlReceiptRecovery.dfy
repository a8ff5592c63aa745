/** The storage layer's own recovery: whole frames, and a torn tail that only a caller may have cut off. */
module ControlReceiptRecovery {
  import opened DurableFrames
  import opened ControlReceipts
  import opened ControlReceiptInspection
  import opened ControlReceiptParsing
  import opened ControlReceiptInspectors

  datatype FrameRecovery = Broken | Recovered(records: seq<Record>, verified: nat)

  /** A tail the storage layer takes for the beginning of a frame. */
  predicate TornTail(raw: Bytes) {
    && raw != []
    && (|raw| >= 4 ==> raw[..4] == MAGIC)
    && (|raw| >= HEADER ==> ClaimedSize(raw) <= OVERHEAD + MAX_PAYLOAD && |raw| < ClaimedSize(raw))
  }

  /**
   The two layers disagree about a tail in exactly two cases: four to seven bytes that are not a
   magic, and a header cut short behind an oversized length.
   */
  lemma LayersAgreeOnTails(raw: Bytes)
    requires raw != []
    ensures (TornTail(raw) <==> Unfinished(raw)) <==>
            && !(4 <= |raw| < 8 && raw[..4] != MAGIC)
            && !(8 <= |raw| < HEADER && raw[..4] == MAGIC && ClaimedSize(raw) > OVERHEAD + MAX_PAYLOAD)
  {}

  function RecoverFrom(d: Digests, records: seq<Record>, verified: nat, raw: Bytes, expected: Hash): FrameRecovery
    decreases |raw|
  {
    if raw == [] || TornTail(raw) then Recovered(records, verified)
    else if |raw| < HEADER || raw[..4] != MAGIC || ClaimedSize(raw) > OVERHEAD + MAX_PAYLOAD then Broken
    else
      var size := ClaimedSize(raw);
      match DecodeFrame(d, raw[..size], MAX_PAYLOAD, expected)
      case Whole(record) => RecoverFrom(d, records + [record], verified + size, raw[size..], record.hash)
      case _ => Broken
  }

  /** Recovery in the order in which the loop decides. */
  lemma RecoveryStep(d: Digests, records: seq<Record>, verified: nat, rest: Bytes, expected: Hash)
    requires rest != []
    ensures RecoverFrom(d, records, verified, rest, expected)
            == if |rest| >= 4 && rest[..4] != MAGIC then Broken
               else if |rest| < HEADER then Recovered(records, verified)
               else if ClaimedSize(rest) > OVERHEAD + MAX_PAYLOAD then Broken
               else if |rest| < ClaimedSize(rest) then Recovered(records, verified)
               else
                 match DecodeFrame(d, rest[..ClaimedSize(rest)], MAX_PAYLOAD, expected)
                 case Whole(record) =>
                   RecoverFrom(d, records + [record], verified + ClaimedSize(rest), rest[ClaimedSize(rest)..], record.hash)
                 case _ => Broken
  {
    hide DecodeFrame, ClaimedSize;
  }

  lemma NothingToRecover(d: Digests, records: seq<Record>, verified: nat, expected: Hash)
    ensures RecoverFrom(d, records, verified, [], expected) == Recovered(records, verified)
  {}

  /** The storage layer's loop over the file. */
  method RecoverLocked(d: Digests, raw: Bytes) returns (r: FrameRecovery)
    ensures r == RecoverFrom(d, [], 0, raw, ZERO_HASH)
  {
    hide RecoverFrom, TornTail, DecodeFrame;
    var records: seq<Record>, offset, expected := [], 0, ZERO_HASH;
    assert raw[0..] == raw;
    while offset < |raw|
      invariant offset <= |raw|
      invariant RecoverFrom(d, [], 0, raw, ZERO_HASH) == RecoverFrom(d, records, offset, raw[offset..], expected)
      decreases |raw| - offset
    {
      var rest := raw[offset..];
      RecoveryStep(d, records, offset, rest, expected);
      if |rest| >= 4 && rest[..4] != MAGIC {
        return Broken;
      }
      if |rest| < HEADER {
        return Recovered(records, offset);
      }
      var total := ClaimedSize(rest);
      if total > OVERHEAD + MAX_PAYLOAD {
        return Broken;
      }
      if |rest| < total {
        return Recovered(records, offset);
      }
      var decoded := DecodeFrame(d, rest[..total], MAX_PAYLOAD, expected);
      if !decoded.Whole? {
        return Broken;
      }
      assert rest[total..] == raw[offset + total..];
      records, offset, expected := records + [decoded.record], offset + total, decoded.record.hash;
    }
    assert raw[offset..] == [];
    NothingToRecover(d, records, offset, expected);
    return Recovered(records, offset);
  }

  // ---------------------------------------------------------------------------------------
  // What recovery makes of a history's file
  // ---------------------------------------------------------------------------------------

  function RecordOf(c: Codec, rs: seq<Receipt>, r: Receipt): Record
    requires AllFit(c, rs) && Fits(c, r)
  {
    Record(FrameHash(c.frames, c.encode(r), HeadOf(c, rs)), HeadOf(c, rs), c.encode(r))
  }

  function RecordsOf(c: Codec, rs: seq<Receipt>): seq<Record>
    requires AllFit(c, rs)
  {
    if rs == [] then [] else RecordsOf(c, rs[..|rs| - 1]) + [RecordOf(c, rs[..|rs| - 1], rs[|rs| - 1])]
  }

  lemma WholeFrameLeads(d: Digests, payload: Bytes, previous: Hash, rest: Bytes)
    requires |payload| <= MAX_PAYLOAD
    ensures var frame := EncodeFrame(d, payload, previous);
            var raw := frame + rest;
            && |raw| >= HEADER && raw[..4] == MAGIC && ClaimedSize(raw) == |frame| && !TornTail(raw)
            && raw[..|frame|] == frame && raw[|frame|..] == rest
  {
    hide EncodeFrame;
    var frame := EncodeFrame(d, payload, previous);
    var raw := frame + rest;
    EncodedParts(d, payload, previous);
    Uint32RoundTrip(|payload|);
    assert raw[..4] == frame[..4] && raw[4..8] == frame[4..8];
  }

  lemma FrameRecovers(c: Codec, rs: seq<Receipt>, r: Receipt, records: seq<Record>, verified: nat, rest: Bytes)
    requires AllFit(c, rs) && Fits(c, r)
    ensures RecoverFrom(c.frames, records, verified, FrameOf(c, rs, r) + rest, HeadOf(c, rs))
            == RecoverFrom(c.frames, records + [RecordOf(c, rs, r)], verified + |FrameOf(c, rs, r)|, rest,
                           RecordOf(c, rs, r).hash)
  {
    hide HeadOf, EncodeFrame, FrameHash, TornTail, ClaimedSize, DecodeFrame;
    WholeFrameLeads(c.frames, c.encode(r), HeadOf(c, rs), rest);
    DecodeEncoded(c.frames, c.encode(r), HeadOf(c, rs), MAX_PAYLOAD);
  }

  lemma {:induction false} EncodedRecovers(c: Codec, rs: seq<Receipt>, rest: Bytes)
    requires AllFit(c, rs)
    ensures RecoverFrom(c.frames, [], 0, Encoded(c, rs) + rest, ZERO_HASH)
            == RecoverFrom(c.frames, RecordsOf(c, rs), |Encoded(c, rs)|, rest, HeadOf(c, rs))
    decreases |rs|
  {
    hide RecoverFrom, FrameHash;
    if rs == [] {
      assert Encoded(c, rs) + rest == rest;
    } else {
      var before, last := rs[..|rs| - 1], rs[|rs| - 1];
      EncodedRecovers(c, before, FrameOf(c, before, last) + rest);
      assert Encoded(c, rs) + rest == Encoded(c, before) + (FrameOf(c, before, last) + rest);
      FrameRecovers(c, before, last, RecordsOf(c, before), |Encoded(c, before)|, rest);
    }
  }

  lemma PieceIsTorn(c: Codec, rs: seq<Receipt>, r: Receipt, k: nat)
    requires AllFit(c, rs) && Fits(c, r) && 0 < k < |FrameOf(c, rs, r)|
    ensures TornTail(FrameOf(c, rs, r)[..k])
  {
    var frame := FrameOf(c, rs, r);
    EncodedParts(c.frames, c.encode(r), HeadOf(c, rs));
    Uint32RoundTrip(|c.encode(r)|);
    assert k >= 4 ==> frame[..k][..4] == frame[..4];
    assert k >= 8 ==> frame[..k][4..8] == frame[4..8];
  }

  /** The storage layer recovers exactly the committed receipts and leaves a piece of the next frame as its tail. */
  lemma CrashRecovers(c: Codec, rs: seq<Receipt>, r: Receipt, k: nat)
    requires AllFit(c, rs) && Fits(c, r) && k <= |FrameOf(c, rs, r)|
    ensures RecoverFrom(c.frames, [], 0, Encoded(c, rs) + FrameOf(c, rs, r)[..k], ZERO_HASH)
            == if k < |FrameOf(c, rs, r)| then Recovered(RecordsOf(c, rs), |Encoded(c, rs)|)
               else Recovered(RecordsOf(c, rs) + [RecordOf(c, rs, r)], |Encoded(c, rs)| + |FrameOf(c, rs, r)|)
  {
    hide HeadOf, Encoded, FrameHash, TornTail, RecordsOf, FrameOf;
    var frame := FrameOf(c, rs, r);
    EncodedRecovers(c, rs, frame[..k]);
    if k < |frame| {
      if k > 0 {
        PieceIsTorn(c, rs, r, k);
      }
    } else {
      assert frame[..k] == frame + [];
      FrameRecovers(c, rs, r, RecordsOf(c, rs), |Encoded(c, rs)|, []);
    }
  }

  // ---------------------------------------------------------------------------------------
  // Recovered records are chained, and spell the file out
  // ---------------------------------------------------------------------------------------

  lemma {:induction false} ChainedAppend(d: Digests, records: seq<Record>, previous: Hash, record: Record)
    requires Chained(d, records, previous) && |record.payload| <= MAX_PAYLOAD
    requires record.previous == (if records == [] then previous else records[|records| - 1].hash)
    requires record.hash == FrameHash(d, record.payload, record.previous)
    ensures Chained(d, records + [record], previous)
    ensures Joined(d, records + [record], previous)
            == Joined(d, records, previous) + EncodeFrame(d, record.payload, record.previous)
    decreases |records|
  {
    hide FrameHash, EncodeFrame;
    if records == [] {
      assert [record][1..] == [];
    } else {
      assert (records + [record])[1..] == records[1..] + [record];
      ChainedAppend(d, records[1..], records[0].hash, record);
    }
  }

  /** Where recovery stands: the records so far spell the file out up to `offset`, and `expected` is their head. */
  ghost predicate SpellsOut(d: Digests, records: seq<Record>, offset: nat, raw: Bytes, expected: Hash) {
    && offset <= |raw| && Chained(d, records, ZERO_HASH) && Joined(d, records, ZERO_HASH) == raw[..offset]
    && expected == if records == [] then ZERO_HASH else records[|records| - 1].hash
  }

  lemma SpellsOneMore(d: Digests, records: seq<Record>, offset: nat, raw: Bytes, expected: Hash, size: nat)
    requires SpellsOut(d, records, offset, raw, expected) && offset + size <= |raw|
    requires DecodeFrame(d, raw[offset..offset + size], MAX_PAYLOAD, expected).Whole?
    ensures var record := DecodeFrame(d, raw[offset..offset + size], MAX_PAYLOAD, expected).record;
            SpellsOut(d, records + [record], offset + size, raw, record.hash)
  {
    hide DecodeFrame, FrameHash, EncodeFrame, Joined, Chained;
    DecodedIsEncoded(d, raw[offset..offset + size], MAX_PAYLOAD, expected);
    ChainedAppend(d, records, ZERO_HASH, DecodeFrame(d, raw[offset..offset + size], MAX_PAYLOAD, expected).record);
    assert raw[..offset] + raw[offset..offset + size] == raw[..offset + size];
  }

  lemma {:induction false} RecoverySpells(d: Digests, records: seq<Record>, offset: nat, raw: Bytes, expected: Hash)
    requires SpellsOut(d, records, offset, raw, expected)
    ensures var r := RecoverFrom(d, records, offset, raw[offset..], expected);
            r.Recovered? ==>
              && r.verified <= |raw| && Chained(d, r.records, ZERO_HASH) && Joined(d, r.records, ZERO_HASH) == raw[..r.verified]
              && (raw[r.verified..] == [] || TornTail(raw[r.verified..]))
    decreases |raw| - offset
  {
    hide DecodeFrame, FrameHash, EncodeFrame, Joined, Chained, TornTail, ClaimedSize, SpellsOut;
    SpellsBounds(d, records, offset, raw, expected);
    var rest := raw[offset..];
    if !(rest == [] || TornTail(rest)) && RecoverFrom(d, records, offset, rest, expected).Recovered? {
      var size := ClaimedSize(rest);
      NotTorn(rest);
      assert rest[..size] == raw[offset..offset + size] && rest[size..] == raw[offset + size..];
      SpellsOneMore(d, records, offset, raw, expected, size);
      var record := DecodeFrame(d, rest[..size], MAX_PAYLOAD, expected).record;
      RecoverySpells(d, records + [record], offset + size, raw, record.hash);
    }
  }

  lemma SpellsBounds(d: Digests, records: seq<Record>, offset: nat, raw: Bytes, expected: Hash)
    requires SpellsOut(d, records, offset, raw, expected)
    ensures offset <= |raw| && Chained(d, records, ZERO_HASH) && Joined(d, records, ZERO_HASH) == raw[..offset]
  {}

  lemma NotTorn(raw: Bytes)
    requires raw != [] && !TornTail(raw) && |raw| >= HEADER && raw[..4] == MAGIC && ClaimedSize(raw) <= OVERHEAD + MAX_PAYLOAD
    ensures 0 < ClaimedSize(raw) <= |raw|
  {}

  /**
   Of any file whatever: the records that recovery returns are chained from the start, they spell
   the file out up to the verified length, and behind it lies nothing or a torn tail. So the
   record-level inspector may be asked about them, and it says what the byte-level one says.
   */
  lemma RecoveredIsChained(d: Digests, raw: Bytes)
    ensures var r := RecoverFrom(d, [], 0, raw, ZERO_HASH);
            r.Recovered? ==>
              && r.verified <= |raw| && Chained(d, r.records, ZERO_HASH) && Joined(d, r.records, ZERO_HASH) == raw[..r.verified]
              && (raw[r.verified..] == [] || TornTail(raw[r.verified..]))
  {
    hide RecoverFrom, TornTail;
    assert raw[0..] == raw;
    RecoverySpells(d, [], 0, raw, ZERO_HASH);
  }

  /** The two layers together, on any file: the records recovered from it are inspected as their bytes are. */
  method InspectRecovered(c: Codec, raw: Bytes, a: Anchor) returns (r: FrameRecovery, state: Inspection)
    requires Lawful(c)
    ensures r == RecoverFrom(c.frames, [], 0, raw, ZERO_HASH)
    ensures r.Broken? ==> state == Corrupt
    ensures r.Recovered? ==> r.verified <= |raw| && state == Inspect(c, raw[..r.verified], a)
  {
    hide Lawful, Inspect, RecoverFrom, TornTail, Chained, Joined;
    RecoveredIsChained(c.frames, raw);
    r := RecoverLocked(c.frames, raw);
    if r.Broken? {
      return r, Corrupt;
    }
    state := InspectRecords(c, r.records, r.verified, a);
  }
}
