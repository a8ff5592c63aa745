/** The two inspectors as loops, each proved to compute the inspection result of the file. */
module ControlReceiptInspectors {
  import opened Wrappers
  import opened DurableFrames
  import opened ControlReceipts
  import opened ControlReceiptInspection
  import opened ControlReceiptParsing

  /** Takes one record into the tables and moves the anchor, or refuses it. */
  method TakeRecord(c: Codec, record: Record, t: Tables, anchor: Anchor, ghost rs: seq<Receipt>)
    returns (r: Option<Receipt>, t': Tables, anchor': Anchor)
    requires Lawful(c) && GoodHistory(c, rs) && Mirrors(t, rs) && anchor == AnchorOf(c, rs)
    requires |record.payload| <= MAX_PAYLOAD && record.previous == HeadOf(c, rs)
    requires record.hash == FrameHash(c.frames, record.payload, HeadOf(c, rs))
    ensures var next := Replayed(c, rs, record.payload);
            r == if next.Some? && WithinQuota(c, rs, next.value) then next else None
    ensures r.Some? ==>
              && GoodHistory(c, rs + [r.value]) && Mirrors(t', rs + [r.value]) && anchor' == AnchorOf(c, rs + [r.value])
              && Fits(c, r.value) && HeadOf(c, rs + [r.value]) == record.hash
  {
    hide Lawful, GoodHistory, Admissible, Mirrors, HeadOf, Encoded, FrameHash, Advance;
    GoodFits(c, rs);
    anchor' := anchor;
    r, t' := CheckReplayed(c, record.payload, t, rs);
    if r.Some? {
      AdvanceAgrees(c, rs, r.value);
      ReplayedFacts(c, rs, record.payload);
      var next := Advance(anchor, record);
      if next.None? {
        return None, t', anchor;
      }
      anchor' := next.value;
      GoodExtends(c, rs, r.value);
      ExtendEncoded(c, rs, r.value);
    }
  }

  lemma ReplayedFacts(c: Codec, rs: seq<Receipt>, payload: Bytes)
    requires Replayed(c, rs, payload).Some?
    ensures c.encode(Replayed(c, rs, payload).value) == payload && Admissible(c, rs, Replayed(c, rs, payload).value)
  {}

  /** The running comparison with the committed anchor. */
  ghost predicate Tracking(c: Codec, rs: seq<Receipt>, a: Anchor, matches: bool, candidate: Option<Receipt>)
    requires AllFit(c, rs)
  {
    && |rs| <= a.count + 1
    && (matches <==> Anchored(c, rs, a))
    && candidate == if |rs| == a.count + 1 then Some(rs[a.count]) else None
  }

  lemma TrackingAdvances(c: Codec, rs: seq<Receipt>, r: Receipt, a: Anchor, matches: bool, candidate: Option<Receipt>)
    requires AllFit(c, rs) && AllFit(c, rs + [r]) && Tracking(c, rs, a, matches, candidate) && |rs| <= a.count
    ensures var matches' := if |rs| + 1 == a.count then AnchorOf(c, rs + [r]) == a else matches;
            Tracking(c, rs + [r], a, matches', if |rs| + 1 > a.count then Some(r) else candidate)
  {
    hide HeadOf, Encoded;
    if |rs| + 1 == a.count {
      assert (rs + [r])[..a.count] == rs + [r];
    } else if |rs| + 1 > a.count {
      assert (rs + [r])[..a.count] == rs == rs[..a.count];
    }
  }

  lemma WholeVerdict(c: Codec, rs: seq<Receipt>, a: Anchor, matches: bool, candidate: Option<Receipt>)
    requires AllFit(c, rs) && Tracking(c, rs, a, matches, candidate)
    ensures Classify(c, rs, [], a)
            == if AnchorOf(c, rs) == a then Exact(a, Lookup(rs))
               else if !matches || candidate.None? then Corrupt
               else CompleteTail(AnchorOf(c, rs), Lookup(rs), candidate.value)
  {
    hide HeadOf, Encoded, Lookup;
    assert rs[..|rs|] == rs;
  }

  lemma TornVerdict(c: Codec, rs: seq<Receipt>, tail: Bytes, a: Anchor, matches: bool, candidate: Option<Receipt>)
    requires AllFit(c, rs) && Tracking(c, rs, a, matches, candidate) && tail != []
    ensures Classify(c, rs, tail, a)
            == if |Encoded(c, rs)| != a.bytes || !matches then Corrupt
               else IncompleteTail(AnchorOf(c, rs), Lookup(rs), |tail|)
  {
    hide HeadOf, Encoded, Lookup;
    assert rs[..|rs|] == rs;
    if matches && a.count < |rs| {
      EncodedGrows(c, rs, a.count);
    }
  }

  lemma TooLong(c: Codec, rs: seq<Receipt>, rest: Bytes, a: Anchor)
    requires GoodHistory(c, rs) && |rs| > a.count + 1
    ensures Parse(c, rs, rest).Parsed? ==>
              var p := Parse(c, rs, rest); AllFit(c, p.history) && Classify(c, p.history, p.tail, a) == Corrupt
  {
    hide GoodHistory, Parse, HeadOf, Encoded, Lookup, Unfinished;
    GoodFits(c, rs);
    if Parse(c, rs, rest).Parsed? {
      ParseSound(c, rs, rest);
      GoodFits(c, Parse(c, rs, rest).history);
    }
  }

  /** What is left to do once `rs` has been read and `rest` has not. */
  ghost predicate Reading(c: Codec, raw: Bytes, a: Anchor, rs: seq<Receipt>, rest: Bytes)
    requires AllFit(c, rs)
  {
    a.Valid() && Parse(c, [], raw) == Parse(c, rs, rest)
  }

  lemma ReadingEnds(c: Codec, raw: Bytes, a: Anchor, rs: seq<Receipt>, rest: Bytes)
    requires GoodHistory(c, rs) && AllFit(c, rs) && Reading(c, raw, a, rs, rest)
    ensures rest == [] || Unfinished(rest) ==> Inspect(c, raw, a) == Classify(c, rs, rest, a)
    ensures |rs| > a.count + 1 || Parse(c, rs, rest) == Bad ==> Inspect(c, raw, a) == Corrupt
  {
    hide GoodHistory, Classify, Unfinished;
    if |rs| > a.count + 1 {
      TooLong(c, rs, rest, a);
    }
  }

  // ---------------------------------------------------------------------------------------
  // Records recovered by the storage layer
  // ---------------------------------------------------------------------------------------

  predicate Chained(d: Digests, records: seq<Record>, previous: Hash) {
    records == [] ||
    (&& |records[0].payload| <= MAX_PAYLOAD && records[0].previous == previous
     && records[0].hash == FrameHash(d, records[0].payload, previous)
     && Chained(d, records[1..], records[0].hash))
  }

  function Joined(d: Digests, records: seq<Record>, previous: Hash): Bytes
    requires Chained(d, records, previous)
  {
    if records == [] then []
    else EncodeFrame(d, records[0].payload, previous) + Joined(d, records[1..], records[0].hash)
  }

  // ---------------------------------------------------------------------------------------
  // Small steps of the loops
  // ---------------------------------------------------------------------------------------

  lemma InvalidAnchor(c: Codec, raw: Bytes, a: Anchor)
    requires !a.Valid()
    ensures Inspect(c, raw, a) == Corrupt
  {}

  lemma StartsGood(c: Codec, raw: Bytes, a: Anchor)
    requires a.Valid()
    ensures GoodHistory(c, []) && AnchorOf(c, []) == EMPTY_ANCHOR && HeadOf(c, []) == ZERO_HASH
    ensures Mirrors(Tables(map[], {}, {}, 0), [])
    ensures Reading(c, raw, a, [], raw) && Tracking(c, [], a, a.count == 0, None)
  {
    hide Parse;
  }

  lemma MirrorsLookup(t: Tables, rs: seq<Receipt>)
    requires Mirrors(t, rs)
    ensures t.receipts == Lookup(rs)
  {}

  lemma CandidateMeansOneMore(c: Codec, rs: seq<Receipt>, a: Anchor, matches: bool, candidate: Option<Receipt>)
    requires AllFit(c, rs) && Tracking(c, rs, a, matches, candidate)
    ensures candidate.Some? <==> |rs| == a.count + 1
  {}

  /** The verdict on whole frames, as the inspectors compute it from their counters. */
  method Verdict(c: Codec, receipts: map<Key, Receipt>, anchor: Anchor, a: Anchor, matches: bool, candidate: Option<Receipt>,
                 ghost rs: seq<Receipt>) returns (result: Inspection)
    requires AllFit(c, rs) && Tracking(c, rs, a, matches, candidate)
    requires anchor == AnchorOf(c, rs) && receipts == Lookup(rs)
    ensures result == Classify(c, rs, [], a)
  {
    hide HeadOf, Encoded, Lookup, Classify, Tracking;
    WholeVerdict(c, rs, a, matches, candidate);
    CandidateMeansOneMore(c, rs, a, matches, candidate);
    if anchor == a {
      return Exact(anchor, receipts);
    }
    if !matches || anchor.count != a.count + 1 || candidate.None? {
      return Corrupt;
    }
    return CompleteTail(anchor, receipts, candidate.value);
  }

  /** A running scan: what has been read, and that the rest still decides the result. */
  ghost predicate Scanning(c: Codec, raw: Bytes, a: Anchor, rs: seq<Receipt>, rest: Bytes, t: Tables, anchor: Anchor,
                           matches: bool, candidate: Option<Receipt>) {
    && GoodHistory(c, rs) && AllFit(c, rs)
    && Mirrors(t, rs) && anchor == AnchorOf(c, rs)
    && Reading(c, raw, a, rs, rest) && Tracking(c, rs, a, matches, candidate)
  }

  /** One whole frame read: either the result is settled as corrupt, or the scan goes on behind it. */
  method Advanced(c: Codec, record: Record, t: Tables, anchor: Anchor, a: Anchor, matches: bool, candidate: Option<Receipt>,
                  ghost raw: Bytes, ghost rs: seq<Receipt>, ghost rest: Bytes)
    returns (ok: bool, t': Tables, anchor': Anchor, matches': bool, candidate': Option<Receipt>, ghost rs': seq<Receipt>)
    requires Lawful(c) && AllFit(c, rs)
    requires |record.payload| <= MAX_PAYLOAD && record.previous == HeadOf(c, rs)
    requires record.hash == FrameHash(c.frames, record.payload, HeadOf(c, rs))
    requires Scanning(c, raw, a, rs, EncodeFrame(c.frames, record.payload, HeadOf(c, rs)) + rest, t, anchor, matches, candidate)
    ensures !ok ==> Inspect(c, raw, a) == Corrupt
    ensures ok ==>
              && Scanning(c, raw, a, rs', rest, t', anchor', matches', candidate')
              && HeadOf(c, rs') == record.hash && |Encoded(c, rs')| == |Encoded(c, rs)| + record.Size()
  {
    hide Lawful, GoodHistory, Parse, HeadOf, Encoded, Lookup, Classify, Inspect, Mirrors, EncodeFrame, FrameHash, Replayed,
         Unfinished, Tracking, Anchored;
    matches', candidate', rs' := matches, candidate, rs;
    ParseWhole(c, rs, record.payload, rest);
    ReadingEnds(c, raw, a, rs, EncodeFrame(c.frames, record.payload, HeadOf(c, rs)) + rest);
    var r;
    r, t', anchor' := TakeRecord(c, record, t, anchor, rs);
    if r.None? {
      return false, t', anchor', matches, candidate, rs;
    }
    rs' := rs + [r.value];
    GoodFits(c, rs');
    ReplayedFacts(c, rs, record.payload);
    ExtendEncoded(c, rs, r.value);
    ReadingEnds(c, raw, a, rs', rest);
    if anchor'.count == a.count {
      matches' := anchor' == a;
    }
    if anchor'.count > a.count {
      if anchor'.count != a.count + 1 {
        return false, t', anchor', matches, candidate, rs;
      }
      candidate' := r;
    }
    TrackingAdvances(c, rs, r.value, a, matches, candidate);
    ok := true;
  }

  // ---------------------------------------------------------------------------------------
  // The inspectors
  // ---------------------------------------------------------------------------------------

  /** The record-level inspector finds in a file's whole frames what the byte-level one finds in the file. */
  method InspectRecords(c: Codec, records: seq<Record>, verifiedBytes: nat, a: Anchor) returns (result: Inspection)
    requires Lawful(c) && Chained(c.frames, records, ZERO_HASH)
    requires verifiedBytes == |Joined(c.frames, records, ZERO_HASH)|
    ensures result == Inspect(c, Joined(c.frames, records, ZERO_HASH), a)
  {
    hide Lawful, GoodHistory, HeadOf, Encoded, Lookup, Classify, Inspect, EncodeFrame, FrameHash, Reading, Tracking, Mirrors;
    ghost var raw := Joined(c.frames, records, ZERO_HASH);
    if !a.Valid() {
      InvalidAnchor(c, raw, a);
      return Corrupt;
    }
    ghost var rs: seq<Receipt> := [];
    StartsGood(c, raw, a);
    var t, anchor, matches, candidate := Tables(map[], {}, {}, 0), EMPTY_ANCHOR, a.count == 0, None;
    var i := 0;
    while i < |records|
      invariant i <= |records| && AllFit(c, rs) && Chained(c.frames, records[i..], HeadOf(c, rs))
      invariant Scanning(c, raw, a, rs, Joined(c.frames, records[i..], HeadOf(c, rs)), t, anchor, matches, candidate)
      invariant |Encoded(c, rs)| + |Joined(c.frames, records[i..], HeadOf(c, rs))| == verifiedBytes
    {
      assert records[i..][1..] == records[i + 1..];
      var ok;
      ok, t, anchor, matches, candidate, rs :=
        Advanced(c, records[i], t, anchor, a, matches, candidate, raw, rs, Joined(c.frames, records[i + 1..], records[i].hash));
      if !ok {
        return Corrupt;
      }
      i := i + 1;
    }
    ReadingEnds(c, raw, a, rs, []);
    MirrorsLookup(t, rs);
    if verifiedBytes != anchor.bytes {
      return Corrupt;
    }
    result := Verdict(c, t.receipts, anchor, a, matches, candidate, rs);
  }

  lemma DamageIsBad(c: Codec, rs: seq<Receipt>, rest: Bytes)
    requires AllFit(c, rs) && |rest| >= 8 && !Unfinished(rest)
    ensures rest[..4] != MAGIC || ClaimedSize(rest) > OVERHEAD + MAX_PAYLOAD ==> Parse(c, rs, rest) == Bad
    ensures rest[..4] == MAGIC && ClaimedSize(rest) <= OVERHEAD + MAX_PAYLOAD
            && !DecodeFrame(c.frames, rest[..ClaimedSize(rest)], MAX_PAYLOAD, HeadOf(c, rs)).Whole? ==>
              Parse(c, rs, rest) == Bad
  {}

  /** The byte-level inspector. */
  method InspectBytes(c: Codec, raw: Bytes, a: Anchor) returns (result: Inspection)
    requires Lawful(c)
    ensures result == Inspect(c, raw, a)
  {
    hide Lawful, GoodHistory, HeadOf, Encoded, Lookup, Classify, Inspect, EncodeFrame, FrameHash, DecodeFrame, Reading, Tracking,
         Mirrors, Parse;
    if !a.Valid() {
      InvalidAnchor(c, raw, a);
      return Corrupt;
    }
    ghost var rs: seq<Receipt> := [];
    StartsGood(c, raw, a);
    var t, anchor, matches, candidate := Tables(map[], {}, {}, 0), EMPTY_ANCHOR, a.count == 0, None;
    var expectedPrevious := ZERO_HASH;
    var offset := 0;
    assert raw[0..] == raw;
    while offset < |raw|
      invariant offset <= |raw| && AllFit(c, rs)
      invariant Scanning(c, raw, a, rs, raw[offset..], t, anchor, matches, candidate)
      invariant expectedPrevious == HeadOf(c, rs) && offset == |Encoded(c, rs)|
      decreases |raw| - offset
    {
      var rest := raw[offset..];
      ReadingEnds(c, raw, a, rs, rest);
      MirrorsLookup(t, rs);
      TornVerdict(c, rs, rest, a, matches, candidate);
      if |rest| < 8 {
        return if offset != a.bytes || !matches then Corrupt else IncompleteTail(anchor, t.receipts, |rest|);
      }
      if rest[..4] != MAGIC {
        DamageIsBad(c, rs, rest);
        return Corrupt;
      }
      var frameBytes := ClaimedSize(rest);
      if frameBytes > OVERHEAD + MAX_PAYLOAD {
        DamageIsBad(c, rs, rest);
        return Corrupt;
      }
      if frameBytes > |rest| {
        return if offset != a.bytes || !matches then Corrupt else IncompleteTail(anchor, t.receipts, |rest|);
      }
      DamageIsBad(c, rs, rest);
      var frame := DecodeFrame(c.frames, rest[..frameBytes], MAX_PAYLOAD, expectedPrevious);
      if !frame.Whole? {
        return Corrupt;
      }
      DecodedIsEncoded(c.frames, rest[..frameBytes], MAX_PAYLOAD, expectedPrevious);
      assert rest == rest[..frameBytes] + rest[frameBytes..];
      assert rest[frameBytes..] == raw[offset + frameBytes..];
      var ok;
      ok, t, anchor, matches, candidate, rs :=
        Advanced(c, frame.record, t, anchor, a, matches, candidate, raw, rs, raw[offset + frameBytes..]);
      if !ok {
        return Corrupt;
      }
      offset := offset + frameBytes;
      expectedPrevious := frame.record.hash;
    }
    assert raw[offset..] == [];
    ReadingEnds(c, raw, a, rs, []);
    MirrorsLookup(t, rs);
    result := Verdict(c, t.receipts, anchor, a, matches, candidate, rs);
  }
}
