/**
 Receipts for control operations: what a receipt is, when one may follow the receipts before it,
 and how a history of receipts is laid out in the journal file.
 */
module ControlReceipts {
  import opened Wrappers
  import opened DurableFrames

  const MAX_PAYLOAD: nat := 131_072
  const MAX_COUNT: nat := 4096
  const MAX_BYTES: nat := 67_108_864

  // ---------------------------------------------------------------------------------------
  // Requests and receipts
  // ---------------------------------------------------------------------------------------

  // `Other` stands for the control operations without a causal predecessor.
  datatype Request =
    | Authorize(repairId: nat, segment: nat, verifiedBytes: nat, lastFrame: nat, chainHead: nat)
    | Complete(repairId: nat, authorizedBy: nat, authorizedContent: nat, segment: nat, verifiedBytes: nat, lastFrame: nat,
               chainHead: nat)
    | Other(kind: nat, id: nat)

  datatype Key = AuthorizeKey(id: nat) | CompleteKey(id: nat) | OtherKey(kind: nat, id: nat)

  function OperationKey(request: Request): Key {
    match request
    case Authorize(id, _, _, _, _) => AuthorizeKey(id)
    case Complete(id, _, _, _, _, _, _) => CompleteKey(id)
    case Other(kind, id) => OtherKey(kind, id)
  }

  datatype Item = Item(sequence: nat, eventId: nat, contentSha: nat, request: Request)
  datatype Receipt = Receipt(key: Key, requestSha: nat, item: Item)

  /** The serialisation and the checks on an item are black boxes. */
  datatype Codec = Codec(frames: Digests, requestHash: Request -> nat, itemValid: Item -> bool, encode: Receipt -> Bytes,
                         decode: Bytes -> Option<Receipt>)

  predicate ValidReceipt(c: Codec, r: Receipt) {
    c.itemValid(r.item) && r.key == OperationKey(r.item.request) && r.requestSha == c.requestHash(r.item.request)
  }

  /** What the results below need of the black boxes: strict decoding undoes encoding, and no hash is all zeros. */
  ghost predicate Lawful(c: Codec) {
    && (forall r :: ValidReceipt(c, r) ==> c.decode(c.encode(r)) == Some(r))
    && (forall x :: c.frames.sha(x) != ZERO_HASH)
  }

  // ---------------------------------------------------------------------------------------
  // Histories
  // ---------------------------------------------------------------------------------------

  /** `a` is the authorization that the repair completion `r` refers to, in every detail. */
  predicate Authorises(a: Receipt, r: Receipt) {
    && r.item.request.Complete?
    && var done := r.item.request;
    && a.key == AuthorizeKey(done.repairId)
    && a.item.request == Authorize(done.repairId, done.segment, done.verifiedBytes, done.lastFrame, done.chainHead)
    && a.item.eventId == done.authorizedBy && a.item.contentSha == done.authorizedContent
    && a.item.sequence < r.item.sequence
  }

  /** `r` may follow the receipts `rs`: new key, new event, later sequence, and authorised if it completes a repair. */
  ghost predicate Admissible(c: Codec, rs: seq<Receipt>, r: Receipt) {
    && ValidReceipt(c, r)
    && 0 < r.item.sequence
    && (forall i :: 0 <= i < |rs| ==>
          rs[i].key != r.key && rs[i].item.sequence < r.item.sequence && rs[i].item.eventId != r.item.eventId)
    && (r.item.request.Complete? ==> exists i :: 0 <= i < |rs| && Authorises(rs[i], r))
  }

  predicate Fits(c: Codec, r: Receipt) { |c.encode(r)| <= MAX_PAYLOAD }
  predicate AllFit(c: Codec, rs: seq<Receipt>) { forall i :: 0 <= i < |rs| ==> Fits(c, rs[i]) }

  /** The hash the next frame must link to. */
  function HeadOf(c: Codec, rs: seq<Receipt>): Hash
    requires AllFit(c, rs)
  {
    if rs == [] then ZERO_HASH
    else FrameHash(c.frames, c.encode(rs[|rs| - 1]), HeadOf(c, rs[..|rs| - 1]))
  }

  /** The frame of a receipt that follows `rs`. */
  function FrameOf(c: Codec, rs: seq<Receipt>, r: Receipt): (frame: Bytes)
    requires AllFit(c, rs) && Fits(c, r)
    ensures |frame| == OVERHEAD + |c.encode(r)|
  {
    EncodeFrame(c.frames, c.encode(r), HeadOf(c, rs))
  }

  /** The journal file of a history. */
  function Encoded(c: Codec, rs: seq<Receipt>): Bytes
    requires AllFit(c, rs)
  {
    if rs == [] then [] else Encoded(c, rs[..|rs| - 1]) + FrameOf(c, rs[..|rs| - 1], rs[|rs| - 1])
  }

  datatype Anchor = Anchor(count: nat, bytes: nat, head: Hash) {
    predicate Valid() {
      && count <= MAX_COUNT && bytes <= MAX_BYTES
      && (count == 0 <==> bytes == 0) && (count == 0 <==> head == ZERO_HASH)
    }
  }

  const EMPTY_ANCHOR := Anchor(0, 0, ZERO_HASH)

  function AnchorOf(c: Codec, rs: seq<Receipt>): Anchor
    requires AllFit(c, rs)
  {
    Anchor(|rs|, |Encoded(c, rs)|, HeadOf(c, rs))
  }

  ghost predicate GoodHistory(c: Codec, rs: seq<Receipt>) {
    rs == [] ||
    (&& GoodHistory(c, rs[..|rs| - 1]) && AllFit(c, rs)
     && Admissible(c, rs[..|rs| - 1], rs[|rs| - 1])
     && |rs| <= MAX_COUNT && |Encoded(c, rs)| <= MAX_BYTES)
  }

  lemma GoodFits(c: Codec, rs: seq<Receipt>)
    requires GoodHistory(c, rs)
    ensures AllFit(c, rs)
  {}

  lemma ExtendEncoded(c: Codec, rs: seq<Receipt>, r: Receipt)
    requires AllFit(c, rs) && Fits(c, r)
    ensures AllFit(c, rs + [r])
    ensures Encoded(c, rs + [r]) == Encoded(c, rs) + FrameOf(c, rs, r)
    ensures HeadOf(c, rs + [r]) == FrameHash(c.frames, c.encode(r), HeadOf(c, rs))
  {
    assert (rs + [r])[..|rs|] == rs;
  }

  lemma GoodExtends(c: Codec, rs: seq<Receipt>, r: Receipt)
    requires GoodHistory(c, rs) && Admissible(c, rs, r) && Fits(c, r)
    requires |rs| < MAX_COUNT && AllFit(c, rs) && |Encoded(c, rs)| + OVERHEAD + |c.encode(r)| <= MAX_BYTES
    ensures GoodHistory(c, rs + [r])
  {
    ExtendEncoded(c, rs, r);
    assert (rs + [r])[..|rs|] == rs;
  }

  lemma {:induction false} GoodPrefix(c: Codec, rs: seq<Receipt>, n: nat)
    requires GoodHistory(c, rs) && n <= |rs|
    ensures GoodHistory(c, rs[..n])
    decreases |rs|
  {
    if n < |rs| {
      assert rs[..|rs| - 1][..n] == rs[..n];
      GoodPrefix(c, rs[..|rs| - 1], n);
    } else {
      assert rs[..n] == rs;
    }
  }

  lemma {:induction false} GoodMember(c: Codec, rs: seq<Receipt>, i: nat)
    requires GoodHistory(c, rs) && i < |rs|
    ensures Admissible(c, rs[..i], rs[i])
  {
    GoodPrefix(c, rs, i + 1);
    assert rs[..i + 1][..i] == rs[..i];
  }

  // ---------------------------------------------------------------------------------------
  // What a good history guarantees
  // ---------------------------------------------------------------------------------------

  /** A key is bound to one receipt for ever, events are never reused, and sequences strictly increase. */
  lemma HistoryIsFunctional(c: Codec, rs: seq<Receipt>, i: nat, j: nat)
    requires GoodHistory(c, rs) && i < j < |rs|
    ensures rs[i].key != rs[j].key
    ensures rs[i].item.sequence < rs[j].item.sequence
    ensures rs[i].item.eventId != rs[j].item.eventId
  {
    GoodMember(c, rs, j);
    assert rs[..j][i] == rs[i];
  }

  /** A key stands for one kind of operation and its identifier. */
  lemma KeysAreOperations(a: Request, b: Request)
    ensures OperationKey(a) == OperationKey(b) <==>
            match (a, b)
            case (Authorize(i, _, _, _, _), Authorize(j, _, _, _, _)) => i == j
            case (Complete(i, _, _, _, _, _, _), Complete(j, _, _, _, _, _, _)) => i == j
            case (Other(k, i), Other(l, j)) => k == l && i == j
            case _ => false
  {}

  /** Every receipt is bound to its item: filed under the key and the hash of the item's own request. */
  lemma ReceiptsAreBound(c: Codec, rs: seq<Receipt>, i: nat)
    requires GoodHistory(c, rs) && i < |rs|
    ensures c.itemValid(rs[i].item) && 0 < rs[i].item.sequence
    ensures rs[i].key == OperationKey(rs[i].item.request) && rs[i].requestSha == c.requestHash(rs[i].item.request)
  {
    GoodMember(c, rs, i);
  }

  /** Every repair completion was preceded by its own authorization. */
  lemma CompletionsAreAuthorised(c: Codec, rs: seq<Receipt>, j: nat) returns (i: nat)
    requires GoodHistory(c, rs) && j < |rs| && rs[j].item.request.Complete?
    ensures i < j && Authorises(rs[i], rs[j])
  {
    GoodMember(c, rs, j);
    i :| 0 <= i < |rs[..j]| && Authorises(rs[..j][i], rs[j]);
  }

  /** The anchor of a good history is a valid one. */
  lemma {:induction false} GoodAnchor(c: Codec, rs: seq<Receipt>)
    requires Lawful(c) && GoodHistory(c, rs)
    ensures AnchorOf(c, rs).Valid()
    decreases |rs|
  {
  }

  lemma {:induction false} EncodedGrows(c: Codec, rs: seq<Receipt>, n: nat)
    requires AllFit(c, rs) && n <= |rs|
    ensures AllFit(c, rs[..n]) && |Encoded(c, rs[..n])| <= |Encoded(c, rs)|
    ensures n < |rs| ==> |Encoded(c, rs[..n])| < |Encoded(c, rs)|
    decreases |rs|
  {
    if n < |rs| {
      assert rs[..|rs| - 1][..n] == rs[..n];
      EncodedGrows(c, rs[..|rs| - 1], n);
    } else {
      assert rs[..n] == rs;
    }
  }
}
