/**
 The receipt journal as an object over two files: the frame file and the anchor kept in the
 state store. `history` is what the anchor vouches for; `pending` is the receipt, if any, whose
 frame was started behind it.
 */
module ControlReceiptJournal {
  import opened Wrappers
  import opened DurableFrames
  import opened ControlReceipts
  import opened ControlReceiptInspection
  import opened ControlReceiptParsing
  import opened ControlReceiptInspectors
  import opened ControlReceiptRecovery

  /** The frame file of a history behind which a piece of one more frame may have been written. */
  ghost predicate OnDisk(c: Codec, disk: Bytes, rs: seq<Receipt>, pending: Option<Receipt>) {
    && GoodHistory(c, rs)
    && match pending
       case None => disk == Encoded(c, rs)
       case Some(r) =>
         && GoodHistory(c, rs + [r]) && Fits(c, r)
         && |Encoded(c, rs)| <= |disk| <= |Encoded(c, rs)| + |FrameOf(c, rs, r)|
         && disk == Encoded(c, rs) + FrameOf(c, rs, r)[..|disk| - |Encoded(c, rs)|]
  }

  /** How much of a frame lies behind the history: nothing, a piece, or all of it. */
  ghost predicate Untouched(c: Codec, disk: Bytes, rs: seq<Receipt>)
    requires AllFit(c, rs)
  {
    |disk| == |Encoded(c, rs)|
  }

  ghost predicate Finished(c: Codec, disk: Bytes, rs: seq<Receipt>, pending: Option<Receipt>)
    requires AllFit(c, rs)
  {
    pending.Some? && Fits(c, pending.value) && |disk| == |Encoded(c, rs)| + |FrameOf(c, rs, pending.value)|
  }

  lemma UntouchedIsWhole(c: Codec, disk: Bytes, rs: seq<Receipt>, pending: Option<Receipt>)
    requires OnDisk(c, disk, rs, pending) && AllFit(c, rs) && Untouched(c, disk, rs)
    ensures disk == Encoded(c, rs)
  {
    hide GoodHistory, Encoded, FrameOf;
  }

  lemma FinishedIsWhole(c: Codec, disk: Bytes, rs: seq<Receipt>, pending: Option<Receipt>)
    requires OnDisk(c, disk, rs, pending) && AllFit(c, rs) && Finished(c, disk, rs, pending)
    ensures AllFit(c, rs + [pending.value])
    ensures disk == Encoded(c, rs) + FrameOf(c, rs, pending.value) == Encoded(c, rs + [pending.value])
  {
    hide GoodHistory, Encoded, FrameOf;
    var frame := FrameOf(c, rs, pending.value);
    assert frame[..|frame|] == frame;
    ExtendEncoded(c, rs, pending.value);
  }

  /** What the byte-level inspector says about the files after any crash. */
  lemma DiskInspects(c: Codec, disk: Bytes, rs: seq<Receipt>, pending: Option<Receipt>)
    requires Lawful(c) && OnDisk(c, disk, rs, pending) && AllFit(c, rs)
    ensures pending.Some? ==> AllFit(c, rs + [pending.value])
    ensures Inspect(c, disk, AnchorOf(c, rs))
            == if Untouched(c, disk, rs) then Exact(AnchorOf(c, rs), Lookup(rs))
               else if Finished(c, disk, rs, pending) then
                 CompleteTail(AnchorOf(c, rs + [pending.value]), Lookup(rs + [pending.value]), pending.value)
               else IncompleteTail(AnchorOf(c, rs), Lookup(rs), |disk| - |Encoded(c, rs)|)
  {
    hide Lawful, GoodHistory, Inspect, HeadOf, Encoded, FrameOf, Lookup, AnchorOf;
    match pending
    case None =>
      ClassifyOwn(c, rs, []);
      assert Encoded(c, rs) + [] == disk;
    case Some(r) =>
      GoodFits(c, rs + [r]);
      CrashPointsAreClassified(c, rs, r, |disk| - |Encoded(c, rs)|);
  }

  /** What the storage layer recovers from them. */
  lemma DiskRecovers(c: Codec, disk: Bytes, rs: seq<Receipt>, pending: Option<Receipt>)
    requires OnDisk(c, disk, rs, pending) && AllFit(c, rs)
    ensures pending.Some? ==> AllFit(c, rs + [pending.value])
    ensures var whole := if Finished(c, disk, rs, pending) then rs + [pending.value] else rs;
            RecoverFrom(c.frames, [], 0, disk, ZERO_HASH) == Recovered(RecordsOf(c, whole), |Encoded(c, whole)|)
            && |Encoded(c, whole)| <= |disk|
  {
    hide GoodHistory, HeadOf, Encoded, FrameOf, RecordsOf;
    match pending
    case None =>
      EncodedRecovers(c, rs, []);
      assert Encoded(c, rs) + [] == disk;
    case Some(r) =>
      GoodFits(c, rs + [r]);
      CrashRecovers(c, rs, r, |disk| - |Encoded(c, rs)|);
      RecordsExtend(c, rs, r);
  }

  lemma RecordsExtend(c: Codec, rs: seq<Receipt>, r: Receipt)
    requires AllFit(c, rs) && Fits(c, r) && AllFit(c, rs + [r])
    ensures RecordsOf(c, rs + [r]) == RecordsOf(c, rs) + [RecordOf(c, rs, r)]
    ensures |Encoded(c, rs + [r])| == |Encoded(c, rs)| + |FrameOf(c, rs, r)|
  {
    hide HeadOf, FrameHash, EncodeFrame;
    assert (rs + [r])[..|rs|] == rs;
    ExtendEncoded(c, rs, r);
  }

  // ---------------------------------------------------------------------------------------
  // The spool's side
  // ---------------------------------------------------------------------------------------

  /** Receipts proved by live spool items, by sequence; how far the spool is acknowledged and filled; whom it trusts. */
  datatype Spool = Spool(live: map<nat, Receipt>, acked: nat, last: nat, trusted: Receipt -> bool)

  predicate EntryBacked(c: Codec, r: Receipt, receipts: map<Key, Receipt>, spool: Spool) {
    && ValidReceipt(c, r) && r.item.sequence <= spool.last && spool.trusted(r) && CausalIn(c, r, receipts)
    && (r.item.sequence > spool.acked ==>
          r.item.sequence in spool.live && spool.live[r.item.sequence].item == r.item)
  }

  predicate SetBacked(c: Codec, receipts: map<Key, Receipt>, spool: Spool) {
    forall k :: k in receipts ==> EntryBacked(c, receipts[k], receipts, spool)
  }

  predicate SpoolConsistent(receipts: map<Key, Receipt>, spool: Spool) {
    forall s :: s in spool.live && spool.live[s].key in receipts ==> receipts[spool.live[s].key] == spool.live[s]
  }

  function Missing(receipts: map<Key, Receipt>, spool: Spool): (missing: set<nat>)
    ensures missing <= spool.live.Keys
  {
    set s | s in spool.live && spool.live[s].key !in receipts
  }

  /** The spool still vouches for this receipt. */
  predicate Held(r: Receipt, spool: Spool) {
    && r.item.sequence <= spool.last && spool.trusted(r)
    && (r.item.sequence > spool.acked ==> r.item.sequence in spool.live && spool.live[r.item.sequence] == r)
  }

  /**
   The spool as a crash leaves it. Control items are spooled before their receipts are stored, so
   it holds every unacknowledged receipt and the one whose frame was begun, and no other.
   */
  ghost predicate SpoolAfterCrash(spool: Spool, rs: seq<Receipt>, begun: Option<Receipt>) {
    && (forall i :: 0 <= i < |rs| ==> Held(rs[i], spool))
    && (forall s :: s in spool.live ==>
          spool.live[s].item.sequence == s && (begun == Some(spool.live[s]) || spool.live[s] in rs))
    && (begun.Some? ==>
          && Held(begun.value, spool)
          && begun.value.item.sequence in spool.live && spool.live[begun.value.item.sequence] == begun.value)
  }

  lemma HistoryIsCausal(c: Codec, rs: seq<Receipt>, i: nat)
    requires GoodHistory(c, rs) && i < |rs|
    ensures ValidReceipt(c, rs[i]) && CausalIn(c, rs[i], Lookup(rs))
  {
    GoodMember(c, rs, i);
    if rs[i].item.request.Complete? {
      var j := CompletionsAreAuthorised(c, rs, i);
      LookupFinds(c, rs, j);
      GoodMember(c, rs, j);
    }
  }

  lemma HistoryIsBacked(c: Codec, rs: seq<Receipt>, spool: Spool)
    requires GoodHistory(c, rs) && forall i :: 0 <= i < |rs| ==> Held(rs[i], spool)
    ensures SetBacked(c, Lookup(rs), spool)
  {
    hide GoodHistory, CausalIn, ValidReceipt;
    forall k | k in Lookup(rs) ensures EntryBacked(c, Lookup(rs)[k], Lookup(rs), spool) {
      var i := LookupOnly(rs, k);
      HistoryIsCausal(c, rs, i);
    }
  }

  /**
   The spool vouches for a history: it was filled at least that far, trusts every receipt, still
   holds the item of each unacknowledged one, and holds no other receipt under a key of the history.
   */
  ghost predicate Vouched(rs: seq<Receipt>, spool: Spool) {
    && (forall i :: 0 <= i < |rs| ==>
          && rs[i].item.sequence <= spool.last && spool.trusted(rs[i])
          && (rs[i].item.sequence > spool.acked ==>
                rs[i].item.sequence in spool.live && spool.live[rs[i].item.sequence].item == rs[i].item))
    && (forall i, s :: 0 <= i < |rs| && s in spool.live && spool.live[s].key == rs[i].key ==> spool.live[s] == rs[i])
  }

  /** The two checks of recovery on the receipts found mean just that. */
  lemma ChecksMeanVouched(c: Codec, rs: seq<Receipt>, spool: Spool)
    requires GoodHistory(c, rs)
    ensures SetBacked(c, Lookup(rs), spool) && SpoolConsistent(Lookup(rs), spool) <==> Vouched(rs, spool)
  {
    hide GoodHistory, CausalIn, ValidReceipt;
    forall i | 0 <= i < |rs|
      ensures rs[i].key in Lookup(rs) && Lookup(rs)[rs[i].key] == rs[i]
      ensures ValidReceipt(c, rs[i]) && CausalIn(c, rs[i], Lookup(rs))
    {
      LookupFinds(c, rs, i);
      HistoryIsCausal(c, rs, i);
    }
    if Vouched(rs, spool) {
      forall k | k in Lookup(rs) ensures EntryBacked(c, Lookup(rs)[k], Lookup(rs), spool) {
        var i := LookupOnly(rs, k);
      }
      forall s | s in spool.live && spool.live[s].key in Lookup(rs)
        ensures Lookup(rs)[spool.live[s].key] == spool.live[s]
      {
        var i := LookupOnly(rs, spool.live[s].key);
      }
    }
    if SetBacked(c, Lookup(rs), spool) && SpoolConsistent(Lookup(rs), spool) {
      forall i | 0 <= i < |rs| ensures EntryBacked(c, rs[i], Lookup(rs), spool) {
        assert rs[i].key in Lookup(rs);
      }
    }
  }

  /** Before the pending receipt is anchored it alone is missing; afterwards nothing is. */
  lemma MissingAfterCrash(c: Codec, rs: seq<Receipt>, spool: Spool, begun: Option<Receipt>)
    requires GoodHistory(c, rs) && SpoolAfterCrash(spool, rs, begun)
    requires begun.Some? ==> Admissible(c, rs, begun.value)
    ensures SpoolConsistent(Lookup(rs), spool)
    ensures Missing(Lookup(rs), spool) == if begun.Some? then {begun.value.item.sequence} else {}
  {
    forall s | s in spool.live
      ensures spool.live[s].key in Lookup(rs) ==> Lookup(rs)[spool.live[s].key] == spool.live[s]
      ensures spool.live[s].key in Lookup(rs) <==> begun != Some(spool.live[s])
    {
      if begun == Some(spool.live[s]) {
        if spool.live[s].key in Lookup(rs) {
          KeyTaken(c, rs, spool.live[s]);
        }
      } else {
        var i :| 0 <= i < |rs| && rs[i] == spool.live[s];
        LookupFinds(c, rs, i);
      }
    }
  }

  lemma SpoolAfterStoring(spool: Spool, rs: seq<Receipt>, r: Receipt)
    requires SpoolAfterCrash(spool, rs, Some(r))
    ensures SpoolAfterCrash(spool, rs + [r], None)
  {}

  datatype StoreError = Unusable | Conflict | NotAdmissible | TooLarge | Quota | WriteFailed | CommitFailed

  /** The file was replaced and synced; it was not replaced; it was replaced, but the sync failed. */
  datatype CommitFate = Committed | NotReplaced | Unsynced

  class ReceiptJournal {
    const c: Codec

    // The two files.
    var disk: Bytes
    var committed: Anchor

    // What the process remembers.
    var anchor: Anchor
    var receipts: map<Key, Receipt>
    var failed: bool

    ghost var history: seq<Receipt>
    ghost var pending: Option<Receipt>

    /** The files: whatever happened, the anchor vouches for a good history that the frame file begins with. */
    ghost predicate Durable()
      reads this
    {
      && Lawful(c) && OnDisk(c, disk, history, pending)
      && AllFit(c, history) && committed == AnchorOf(c, history)
    }

    ghost predicate Valid()
      reads this
    {
      && Durable()
      && (!failed ==> pending == None && anchor == committed && receipts == Lookup(history))
    }

    constructor (c: Codec)
      requires Lawful(c)
      ensures Valid() && this.c == c && history == [] && !failed
    {
      this.c := c;
      disk, committed, anchor, receipts, failed := [], EMPTY_ANCHOR, EMPTY_ANCHOR, map[], false;
      history, pending := [], None;
    }

    /** Writes a frame. Any piece of it may reach the disk, and only a complete and synced one is reported as written. */
    method WriteFrame(frame: Bytes, ghost r: Receipt) returns (ok: bool)
      requires Durable() && pending == None && GoodHistory(c, history + [r]) && Fits(c, r) && frame == FrameOf(c, history, r)
      modifies this`disk, this`pending
      ensures Durable() && pending == Some(r)
      ensures ok ==> disk == Encoded(c, history) + FrameOf(c, history, r)
    {
      hide Lawful, GoodHistory, HeadOf, Encoded, AnchorOf, EncodeFrame;
      var k: nat, synced: bool := *, *;
      if k >= |frame| {
        k := |frame|;
      }
      assert frame[..|frame|] == frame;
      disk := disk + frame[..k];
      pending := Some(r);
      ok := k == |frame| && synced;
    }

    /**
     Commits the next anchor to the state store. The store replaces its file by a rename and then
     syncs the directory, so a commit that is reported as failed may be durable all the same.
     */
    method Commit(next: Anchor, ghost r: Receipt) returns (ok: bool)
      requires Durable() && pending == Some(r) && AllFit(c, history + [r]) && next == AnchorOf(c, history + [r])
      requires Fits(c, r) && disk == Encoded(c, history) + FrameOf(c, history, r)
      modifies this`committed, this`history, this`pending
      ensures Durable()
      ensures if history == old(history) then !ok && pending == old(pending) && committed == old(committed)
              else history == old(history) + [r] && pending == None && committed == next
    {
      hide Lawful, GoodHistory, HeadOf, Encoded, EncodeFrame, FrameOf;
      var fate: CommitFate := *;
      if fate != NotReplaced {
        ExtendEncoded(c, history, r);
        committed := next;
        history, pending := history + [r], None;
      }
      ok := fate == Committed;
    }

    /** The frame and the anchor that one more receipt would lead to. */
    method Preview(a: Anchor, r: Receipt, ghost rs: seq<Receipt>) returns (p: Result<(Bytes, Anchor), StoreError>)
      requires Lawful(c) && GoodHistory(c, rs) && AllFit(c, rs) && a == AnchorOf(c, rs)
      ensures p.Success? ==>
                && Fits(c, r) && AllFit(c, rs + [r]) && WithinQuota(c, rs, r)
                && p.value == (FrameOf(c, rs, r), AnchorOf(c, rs + [r]))
      ensures p.Failure? ==> !(Fits(c, r) && WithinQuota(c, rs, r)) && (p.error == TooLarge || p.error == Quota)
    {
      hide Lawful, GoodHistory, HeadOf, Encoded, FrameHash, EncodeFrame, Advance;
      var payload := c.encode(r);
      if |payload| > MAX_PAYLOAD {
        return Failure(TooLarge);
      }
      AdvanceAgrees(c, rs, r);
      var next := Advance(a, Record(FrameHash(c.frames, payload, a.head), a.head, payload));
      if next.None? {
        return Failure(Quota);
      }
      return Success((EncodeFrame(c.frames, payload, a.head), next.value));
    }

    /**
     Stores the receipt of an operation. Asking again with the same request returns the item of
     the first time and writes nothing; asking with another request under the same key is refused.
     A receipt that is reported as stored is in the history. A failed write leaves the history as
     it was; a failed commit may have added the receipt or not, and the journal cannot be used
     until the next start has found out.
     */
    method Store(key: Key, requestSha: nat, item: Item) returns (r: Result<(Item, bool), StoreError>)
      requires Valid()
      modifies this
      ensures Valid()
      ensures old(failed) ==> r == Failure(Unusable) && unchanged(this)
      ensures !old(failed) && key in old(receipts) ==>
                && unchanged(this)
                && r == if old(receipts[key].requestSha) == requestSha then Success((old(receipts[key].item), false))
                        else Failure(Conflict)
      ensures !old(failed) && key !in old(receipts) ==>
                var receipt := Receipt(key, requestSha, item);
                && (r.Success? ==> r.value == (item, true) && !failed && history == old(history) + [receipt])
                && (r.Failure? && r.error != WriteFailed && r.error != CommitFailed ==> unchanged(this))
                && (r == Failure(WriteFailed) ==> failed && history == old(history) && pending == Some(receipt))
                && (r == Failure(CommitFailed) ==>
                      && failed
                      && (|| (history == old(history) && pending == Some(receipt) && |disk| > committed.bytes)
                          || (history == old(history) + [receipt] && pending == None)))
                && (r == Failure(NotAdmissible) <==> !Admissible(c, old(history), receipt))
                && (r == Failure(TooLarge) || r == Failure(Quota) ==> !(Fits(c, receipt) && WithinQuota(c, old(history), receipt)))
                && (r.Failure? ==> r.error in {NotAdmissible, TooLarge, Quota, WriteFailed, CommitFailed})
    {
      hide Lawful, GoodHistory, HeadOf, Encoded, EncodeFrame, FrameOf, Lookup, Admissible, WithinQuota, AnchorOf;
      if failed {
        return Failure(Unusable);
      }
      if key in receipts {
        return if receipts[key].requestSha == requestSha then Success((receipts[key].item, false)) else Failure(Conflict);
      }
      var receipt := Receipt(key, requestSha, item);
      var admissible := ValidateCandidate(c, receipt, receipts, history);
      if !admissible {
        return Failure(NotAdmissible);
      }
      var preview := Preview(anchor, receipt, history);
      if preview.Failure? {
        return Failure(preview.error);
      }
      QuotaExtends(c, history, receipt);
      var written := WriteFrame(preview.value.0, receipt);
      if !written {
        failed := true;
        return Failure(WriteFailed);
      }
      var stored := Commit(preview.value.1, receipt);
      if !stored {
        if history == old(history) {
          BehindAnchor(c, history, receipt);
        }
        failed := true;
        return Failure(CommitFailed);
      }
      LookupExtends(old(history), receipt);
      anchor := preview.value.1;
      receipts := receipts[key := receipt];
      return Success((item, true));
    }

    // -------------------------------------------------------------------------------------
    // Recovery
    // -------------------------------------------------------------------------------------

    /** Opens the frame file through the storage layer and inspects its whole frames. */
    method OpenLocked() returns (state: Inspection, verified: nat)
      requires Durable()
      ensures verified <= |disk|
      ensures pending.Some? ==> AllFit(c, history + [pending.value])
      ensures if Finished(c, disk, history, pending)
              then verified == |disk| && state == CompleteTail(AnchorOf(c, history + [pending.value]),
                                                               Lookup(history + [pending.value]), pending.value)
              else verified == committed.bytes && state == Exact(committed, Lookup(history))
    {
      hide Lawful, GoodHistory, HeadOf, Encoded, FrameOf, Lookup, Inspect, RecordsOf, Chained, Joined, RecoverFrom;
      DiskRecovers(c, disk, history, pending);
      var recovered;
      recovered, state := InspectRecovered(c, disk, committed);
      verified := recovered.verified;
      if Finished(c, disk, history, pending) {
        FinishedIsWhole(c, disk, history, pending);
        DiskInspects(c, disk, history, pending);
        assert disk[..verified] == disk;
      } else {
        ClassifyOwn(c, history, []);
        assert disk[..verified] == Encoded(c, history) + [];
      }
    }

    /** A torn tail is cut off only if it is a piece of exactly the frame that is about to be written. */
    method AcceptTail(r: Receipt, frame: Bytes, verified: nat, state: Inspection, spool: Spool) returns (ok: bool)
      requires Durable() && Fits(c, r) && frame == FrameOf(c, history, r) && verified == committed.bytes < |disk|
      requires state == Exact(committed, Lookup(history)) && !Finished(c, disk, history, pending)
      modifies this`disk, this`pending
      ensures Durable()
      ensures ok ==> pending == None && disk == Encoded(c, history) && Admissible(c, history, r)
      ensures ok ==> old(disk)[verified..] < frame && SetBacked(c, Lookup(history)[r.key := r], spool)
      ensures !ok ==> unchanged(this)
      ensures old(pending) == Some(r) && SetBacked(c, Lookup(history)[r.key := r], spool) ==> ok
    {
      hide Lawful, GoodHistory, HeadOf, Encoded, Lookup, SetBacked, Admissible, FrameOf, AnchorOf;
      assert committed.bytes == |Encoded(c, history)| by { AnchorBytes(c, history); }
      var tail := disk[verified..];
      if |tail| >= |frame| || tail != frame[..|tail|] {
        return false;
      }
      var admissible := ValidateCandidate(c, r, state.receipts, history);
      if pending == Some(r) {
        GoodLast(c, history, r);
      }
      if !admissible || !SetBacked(c, state.receipts[r.key := r], spool) {
        return false;
      }
      assert disk[..verified] == Encoded(c, history);
      disk := disk[..verified];
      pending := None;
      return true;
    }

    /**
     Brings the anchor up to one receipt that a live spool item proves: completes its torn frame,
     or takes over its finished one. Unless the disk or the state store fails, this succeeds for
     the very receipt whose frame was begun.
     */
    method Reconcile(r: Receipt, spool: Spool) returns (ok: bool, io: bool)
      requires Durable()
      modifies this`disk, this`committed, this`history, this`pending
      ensures Durable()
      ensures ok ==> pending == None && disk == Encoded(c, history) && history == old(history) + [r]
      ensures !ok && !io ==> unchanged(this)
      ensures io ==> !ok && if history == old(history) then pending == Some(r) && committed == old(committed)
                            else history == old(history) + [r] && pending == None
      ensures (&& old(pending) == Some(r) && |old(disk)| > old(committed).bytes
               && SetBacked(c, Lookup(old(history))[r.key := r], spool)) ==> ok || io
    {
      hide Lawful, GoodHistory, HeadOf, Encoded, Lookup, SetBacked, Admissible, FrameOf, CausalIn, AnchorOf;
      io := false;
      ghost var rs, begun := history, pending;
      AnchorBytes(c, history);
      if pending == Some(r) {
        GoodLast(c, history, r);
      }
      var preview := Preview(committed, r, history);
      if preview.Failure? {
        return false, false;
      }
      var frame, next := preview.value.0, preview.value.1;
      LookupExtends(history, r);
      var state, verified := OpenLocked();
      if verified < |disk| {
        var accepted := AcceptTail(r, frame, verified, state, spool);
        if !accepted {
          return false, false;
        }
        QuotaExtends(c, history, r);
        AnchorBytes(c, history);
        var written := WriteFrame(frame, r);
        if !written {
          return false, true;
        }
      } else {
        if !state.CompleteTail? || state.candidate != r || state.anchor != next
           || !CausalIn(c, r, state.receipts) || !SetBacked(c, state.receipts, spool) {
          if begun == Some(r) && SetBacked(c, Lookup(rs)[r.key := r], spool) {
            BackedIsCausal(c, r, Lookup(rs)[r.key := r], spool);
          }
          return false, false;
        }
        FinishedIsWhole(c, disk, history, pending);
      }
      ok := Commit(next, r);
      ExtendEncoded(c, rs, r);
      io := !ok;
    }

    /** Takes over a journal that needs no recovery. */
    method Adopt(spool: Spool) returns (ok: bool)
      requires Durable() && Untouched(c, disk, history)
      modifies this`anchor, this`receipts, this`failed, this`pending
      ensures Durable() && (ok ==> Valid() && !failed)
      ensures ok <==> SetBacked(c, Lookup(history), spool)
    {
      hide Lawful, GoodHistory, HeadOf, Encoded, Lookup, SetBacked, FrameOf;
      var state, verified := OpenLocked();
      AnchorBytes(c, history);
      if verified < |disk| || !state.Exact? || !SetBacked(c, state.receipts, spool) {
        return false;
      }
      UntouchedIsWhole(c, disk, history, pending);
      anchor, receipts, failed, pending := committed, state.receipts, false, None;
      return true;
    }

    /** The receipt that must be anchored next, as proved by a live spool item. */
    method ChooseProof(inspection: Inspection, spool: Spool, maxBytes: nat) returns (r: Option<Receipt>)
      requires Durable() && pending.Some? && !Untouched(c, disk, history) && inspection == Inspect(c, disk, committed)
      ensures SpoolAfterCrash(spool, history, pending) && RoomFor(c, history, pending, maxBytes) ==> r == pending
      ensures r.Some? ==> exists s :: s in spool.live && spool.live[s] == r.value
      ensures r.Some? && !inspection.Corrupt? && inspection.anchor.bytes <= maxBytes ==>
                GrowsWithin(c, history, r.value, maxBytes)
    {
      hide GrowsWithin, Lawful, GoodHistory, HeadOf, Encoded, Lookup, SetBacked, FrameOf, Inspect, Admissible, SpoolConsistent,
           Missing, AnchorOf, SpoolAfterCrash, WithinQuota;
      DiskInspects(c, disk, history, pending);
      GoodLast(c, history, pending.value);
      AnchorBytes(c, history + [pending.value]);
      RecordsExtend(c, history, pending.value);
      if SpoolAfterCrash(spool, history, pending) {
        CrashFacts(c, history, spool, pending);
      }
      var missing := Missing(inspection.receipts, spool);
      if inspection.CompleteTail? {
        var s := inspection.candidate.item.sequence;
        GrownAnchor(c, history, inspection.candidate, inspection.anchor, maxBytes);
        return if missing == {} && s in spool.live && spool.live[s] == inspection.candidate then Some(inspection.candidate)
               else None;
      }
      var proof := OnlyMissing(missing, spool);
      if proof.None? {
        return None;
      }
      var admissible := ValidateCandidate(c, proof.value, inspection.receipts, history);
      var preview := Preview(committed, proof.value, history);
      if preview.Success? {
        GrownAnchor(c, history, proof.value, preview.value.1, maxBytes);
      }
      return if !admissible || preview.Failure? || preview.value.1.bytes > maxBytes then None else proof;
    }

    /** The checks that recovery makes whatever the inspection found. */
    method Sound(inspection: Inspection, spool: Spool, maxBytes: nat, ghost begun: Option<Receipt>) returns (ok: bool)
      requires Durable() && inspection == Inspect(c, disk, committed)
      ensures AfterCrash(c, disk, history, pending, spool, begun, maxBytes) ==> ok
      ensures ok ==> !inspection.Corrupt? && committed.bytes <= maxBytes && inspection.anchor.bytes <= maxBytes
      ensures Untouched(c, disk, history) ==>
                (ok <==> SpoolConsistent(Lookup(history), spool) && SetBacked(c, Lookup(history), spool) && |disk| <= maxBytes)
    {
      hide Lawful, GoodHistory, HeadOf, Encoded, Lookup, SetBacked, FrameOf, Inspect, Admissible, SpoolConsistent,
           Missing, AnchorOf, SpoolAfterCrash, AfterCrash, WithinQuota;
      DiskInspects(c, disk, history, pending);
      AnchorBytes(c, history);
      if pending.Some? {
        AnchorBytes(c, history + [pending.value]);
        RecordsExtend(c, history, pending.value);
      }
      if AfterCrash(c, disk, history, pending, spool, begun, maxBytes) {
        SpoolFacts(c, disk, history, pending, spool, begun, maxBytes);
      }
      return !inspection.Corrupt? && SpoolConsistent(inspection.receipts, spool)
             && committed.bytes <= maxBytes && inspection.anchor.bytes <= maxBytes && SetBacked(c, inspection.receipts, spool);
    }

    /**
     Start-up: inspect, reconcile at most one receipt, then open. After a crash it opens exactly
     if no live item lacks its receipt, or some bytes lie behind the anchor. An item that was
     spooled while nothing of its frame reached the file is refused, at this and every later start.
     When the disk or the state store fails again, the files are once more as after a crash, and
     the same condition decides about the next start. Crash or not, an open journal holds the receipt
     of every live item, and the spool vouches for every receipt it holds.
     */
    method Recover(spool: Spool, maxBytes: nat, ghost begun: Option<Receipt>) returns (ok: bool, io: bool)
      requires Durable()
      modifies this
      ensures Durable() && (ok ==> Valid() && !failed && Missing(Lookup(history), spool) == {})
      ensures ok ==> Vouched(history, spool) && |disk| <= maxBytes
      ensures old(Untouched(c, disk, history)) ==>
                (ok <==> old(Missing(Lookup(history), spool) == {} && Vouched(history, spool) && |disk| <= maxBytes))
      ensures old(history) <= history && |history| <= |old(history)| + 1
      ensures history != old(history) ==> committed.bytes <= maxBytes
      ensures old(Untouched(c, disk, history)) ==> history == old(history) && disk == old(disk) && !io
      ensures old(AfterCrash(c, disk, history, pending, spool, begun, maxBytes)) ==>
                && (!io ==> (ok <==> old(Opens(c, disk, history, spool))))
                && (history == old(history) || (begun.Some? && history == old(history) + [begun.value]))
                && AfterCrash(c, disk, history, pending, spool, if history == old(history) then begun else None, maxBytes)
      decreases if Inspect(c, disk, committed).Exact? then 0 else 1
    {
      hide Lawful, GoodHistory, HeadOf, Encoded, Lookup, SetBacked, FrameOf, Inspect, Admissible, SpoolConsistent,
           Missing, AnchorOf, SpoolAfterCrash, RoomFor, AfterCrash, Opens, Vouched;
      ChecksMeanVouched(c, history, spool);
      ok, io := false, false;
      ghost var before := AfterCrash(c, disk, history, pending, spool, begun, maxBytes);
      ghost var rs, begunFrame := history, pending;
      DiskInspects(c, disk, history, pending);
      if before {
        SpoolFacts(c, disk, history, pending, spool, begun, maxBytes);
      }
      failed := true;
      var inspection := InspectBytes(c, disk, committed);
      var sound := Sound(inspection, spool, maxBytes, begun);
      if !sound {
        return;
      }
      if inspection.Exact? {
        if Missing(inspection.receipts, spool) == {} {
          ok := Adopt(spool);
        }
        if before {
          StillAfterCrash(c, disk, history, begunFrame, pending, spool, begun, maxBytes);
        }
        return;
      }
      var reconciled;
      reconciled, io := AnchorBegun(inspection, spool, maxBytes, begun);
      if reconciled {
        ok, io := Recover(spool, maxBytes, None);
      }
    }

    /**
     Storing the receipt of a spooled item, and then a restart, whatever became of the store. If the
     journal opens, the receipt is in it; and it does open after a commit that was reported as
     failed, durable or not.
     */
    method StoreAndRestart(receipt: Receipt, spool: Spool, maxBytes: nat)
      returns (r: Result<(Item, bool), StoreError>, ok: bool, io: bool)
      requires Valid() && !failed && Admissible(c, history, receipt)
      requires SpoolAfterCrash(spool, history, Some(receipt)) && RoomFor(c, history, Some(receipt), maxBytes)
      modifies this
      ensures Durable() && (ok ==> Valid() && !failed && history == old(history) + [receipt])
      ensures r.Success? ==> ok
      ensures r == Failure(CommitFailed) ==> ok || io
      ensures r == Failure(TooLarge) || r == Failure(Quota) ==> !ok && !io && history == old(history)
    {
      hide Lawful, GoodHistory, HeadOf, Encoded, Lookup, SetBacked, FrameOf, Inspect, Admissible, SpoolConsistent,
           Missing, AnchorOf, SpoolAfterCrash;
      ghost var rs := history;
      if receipt.key in Lookup(rs) {
        KeyTaken(c, rs, receipt);
      }
      r := Store(receipt.key, receipt.requestSha, receipt.item);
      assert receipt == Receipt(receipt.key, receipt.requestSha, receipt.item);
      ghost var begun := if history == rs then Some(receipt) else None;
      if history != rs || pending == Some(receipt) {
        GoodFits(c, rs + [receipt]);
        AfterReconciling(c, disk, rs, Some(receipt), history, pending, spool, maxBytes);
      }
      OpensUnlessUnwritten(c, disk, history, pending, spool, begun, maxBytes);
      ok, io := Recover(spool, maxBytes, begun);
      if history == rs {
        MissingAfterCrash(c, rs, spool, Some(receipt));
      }
    }

    /** Chooses the receipt that must be anchored next and reconciles it. */
    method AnchorBegun(inspection: Inspection, spool: Spool, maxBytes: nat, ghost begun: Option<Receipt>)
      returns (ok: bool, io: bool)
      requires Durable() && inspection == Inspect(c, disk, committed) && !Untouched(c, disk, history)
      modifies this`disk, this`committed, this`history, this`pending
      ensures Durable() && (ok ==> !io && Untouched(c, disk, history) && Inspect(c, disk, committed).Exact?)
      ensures history == old(history) || (|history| == |old(history)| + 1 && old(history) <= history)
      ensures history != old(history) && !inspection.Corrupt? && inspection.anchor.bytes <= maxBytes ==> committed.bytes <= maxBytes
      ensures old(AfterCrash(c, disk, history, pending, spool, begun, maxBytes)) ==>
                && (ok || io) && (ok ==> Opens(c, disk, history, spool) && history != old(history))
                && (history == old(history) || (begun.Some? && history == old(history) + [begun.value]))
                && AfterCrash(c, disk, history, pending, spool, if history == old(history) then begun else None, maxBytes)
    {
      hide Lawful, GoodHistory, HeadOf, Encoded, Lookup, SetBacked, FrameOf, Inspect, Admissible, SpoolConsistent,
           Missing, AnchorOf, SpoolAfterCrash, RoomFor, AfterCrash, Opens;
      ghost var before := AfterCrash(c, disk, history, pending, spool, begun, maxBytes);
      ghost var rs, started := history, pending;
      DiskInspects(c, disk, history, pending);
      NotUntouched(c, disk, history, pending);
      if before {
        SpoolFacts(c, disk, history, pending, spool, begun, maxBytes);
      }
      var proof := ChooseProof(inspection, spool, maxBytes);
      if proof.None? {
        return false, false;
      }
      ok, io := Reconcile(proof.value, spool);
      if before {
        AfterReconciling(c, disk, rs, started, history, pending, spool, maxBytes);
      }
      if ok {
        UntouchedNow(c, disk, history);
        DiskInspects(c, disk, history, pending);
      }
    }
  }

  lemma BehindAnchor(c: Codec, rs: seq<Receipt>, r: Receipt)
    requires AllFit(c, rs) && Fits(c, r)
    ensures |Encoded(c, rs) + FrameOf(c, rs, r)| > AnchorOf(c, rs).bytes
  {
    hide Encoded;
  }

  lemma NotUntouched(c: Codec, disk: Bytes, rs: seq<Receipt>, pending: Option<Receipt>)
    requires OnDisk(c, disk, rs, pending) && AllFit(c, rs)
    ensures !Untouched(c, disk, rs) ==> pending.Some? && |disk| > AnchorOf(c, rs).bytes
  {
    hide GoodHistory, Encoded, FrameOf;
  }

  /** With one more receipt the file stays within the limit. */
  ghost predicate GrowsWithin(c: Codec, rs: seq<Receipt>, r: Receipt, maxBytes: nat) {
    AllFit(c, rs + [r]) && AnchorOf(c, rs + [r]).bytes <= maxBytes
  }

  lemma GrownAnchor(c: Codec, rs: seq<Receipt>, r: Receipt, a: Anchor, maxBytes: nat)
    requires AllFit(c, rs + [r]) && a == AnchorOf(c, rs + [r])
    ensures GrowsWithin(c, rs, r, maxBytes) <==> a.bytes <= maxBytes
  {
    hide AnchorOf;
  }

  ghost predicate RoomFor(c: Codec, rs: seq<Receipt>, begun: Option<Receipt>, maxBytes: nat)
    requires AllFit(c, rs)
  {
    && |Encoded(c, rs)| <= maxBytes
    && (begun.Some? ==> Fits(c, begun.value) && |Encoded(c, rs)| + |FrameOf(c, rs, begun.value)| <= maxBytes)
  }

  /**
   The files and the spool as a crash leaves them. At most one item was spooled whose receipt is not
   in the history, and it need not be one whose frame was begun; but bytes behind the anchor are
   bytes of its frame.
   */
  ghost predicate AfterCrash(c: Codec, disk: Bytes, rs: seq<Receipt>, pending: Option<Receipt>, spool: Spool,
                             begun: Option<Receipt>, maxBytes: nat)
    requires AllFit(c, rs)
  {
    && SpoolAfterCrash(spool, rs, begun)
    && (begun.Some? ==> Admissible(c, rs, begun.value))
    && (Untouched(c, disk, rs) || begun == pending)
    && RoomFor(c, rs, pending, maxBytes)
  }

  /** When a start opens the journal: no live item lacks its receipt, or bytes lie behind the anchor. */
  ghost predicate Opens(c: Codec, disk: Bytes, rs: seq<Receipt>, spool: Spool)
    requires AllFit(c, rs)
  {
    Missing(Lookup(rs), spool) == {} || |disk| > AnchorOf(c, rs).bytes
  }

  /** What the spool means for the steps of recovery. */
  lemma SpoolFacts(c: Codec, disk: Bytes, rs: seq<Receipt>, pending: Option<Receipt>, spool: Spool,
                   begun: Option<Receipt>, maxBytes: nat)
    requires OnDisk(c, disk, rs, pending) && AllFit(c, rs) && (pending.Some? ==> AllFit(c, rs + [pending.value]))
    requires AfterCrash(c, disk, rs, pending, spool, begun, maxBytes)
    ensures RoomFor(c, rs, pending, maxBytes)
    ensures SpoolConsistent(Lookup(rs), spool) && SetBacked(c, Lookup(rs), spool)
    ensures Untouched(c, disk, rs) ==> (Opens(c, disk, rs, spool) <==> Missing(Lookup(rs), spool) == {})
    ensures !Untouched(c, disk, rs) ==>
              && begun == pending && begun.Some? && SpoolAfterCrash(spool, rs, begun) && Admissible(c, rs, begun.value)
              && Opens(c, disk, rs, spool)
              && SetBacked(c, Lookup(rs)[begun.value.key := begun.value], spool)
              && SpoolConsistent(Lookup(rs + [begun.value]), spool) && SetBacked(c, Lookup(rs + [begun.value]), spool)
  {
    hide GoodHistory, HeadOf, Encoded, Lookup, SetBacked, FrameOf, Admissible, SpoolConsistent, Missing, SpoolAfterCrash, RoomFor;
    HistoryHeld(c, rs, spool, begun);
    MissingAfterCrash(c, rs, spool, begun);
    AnchorBytes(c, rs);
    NotUntouched(c, disk, rs, pending);
    if !Untouched(c, disk, rs) {
      CrashFacts(c, rs, spool, begun);
    }
  }

  /** The condition in terms of the crash: an item was spooled, and nothing of its frame is in the file. */
  lemma OpensUnlessUnwritten(c: Codec, disk: Bytes, rs: seq<Receipt>, pending: Option<Receipt>, spool: Spool,
                             begun: Option<Receipt>, maxBytes: nat)
    requires OnDisk(c, disk, rs, pending) && AllFit(c, rs) && AfterCrash(c, disk, rs, pending, spool, begun, maxBytes)
    ensures Opens(c, disk, rs, spool) <==> begun.None? || !Untouched(c, disk, rs)
  {
    hide GoodHistory, HeadOf, Encoded, Lookup, FrameOf, Admissible, Missing, SpoolAfterCrash, RoomFor;
    MissingAfterCrash(c, rs, spool, begun);
    AnchorBytes(c, rs);
    NotUntouched(c, disk, rs, pending);
  }

  lemma HistoryHeld(c: Codec, rs: seq<Receipt>, spool: Spool, begun: Option<Receipt>)
    requires GoodHistory(c, rs) && SpoolAfterCrash(spool, rs, begun)
    ensures SetBacked(c, Lookup(rs), spool)
  {
    hide GoodHistory, Lookup, SetBacked, Held;
    HistoryIsBacked(c, rs, spool);
  }

  /** An untouched file whose frame was begun or not: forgetting the begun frame changes nothing. */
  lemma StillAfterCrash(c: Codec, disk: Bytes, rs: seq<Receipt>, was: Option<Receipt>, now: Option<Receipt>, spool: Spool,
                        begun: Option<Receipt>, maxBytes: nat)
    requires AllFit(c, rs) && AfterCrash(c, disk, rs, was, spool, begun, maxBytes)
    requires Untouched(c, disk, rs) && (now == was || now == None)
    ensures AfterCrash(c, disk, rs, now, spool, begun, maxBytes)
  {
    hide Encoded, FrameOf, Admissible, SpoolAfterCrash;
  }

  /** Reconciling the begun receipt, completed or interrupted anywhere, leaves files as after a crash. */
  lemma AfterReconciling(c: Codec, disk: Bytes, rs: seq<Receipt>, begun: Option<Receipt>, grown: seq<Receipt>,
                         pending: Option<Receipt>, spool: Spool, maxBytes: nat)
    requires AllFit(c, rs) && begun.Some? && AllFit(c, rs + [begun.value]) && GoodHistory(c, rs + [begun.value])
    requires SpoolAfterCrash(spool, rs, begun) && Admissible(c, rs, begun.value) && RoomFor(c, rs, begun, maxBytes)
    requires (grown == rs && pending == begun) || (grown == rs + [begun.value] && pending == None)
    ensures AfterCrash(c, disk, grown, pending, spool, if grown == rs then begun else None, maxBytes)
    ensures grown != rs ==> Opens(c, disk, grown, spool)
  {
    hide GoodHistory, HeadOf, Encoded, FrameOf, Lookup, Admissible, SpoolAfterCrash, Missing;
    SpoolAfterStoring(spool, rs, begun.value);
    RecordsExtend(c, rs, begun.value);
    MissingAfterCrash(c, rs + [begun.value], spool, None);
  }

  lemma UntouchedNow(c: Codec, disk: Bytes, rs: seq<Receipt>)
    requires AllFit(c, rs) && disk == Encoded(c, rs)
    ensures Untouched(c, disk, rs)
  {}

  method OnlyMissing(missing: set<nat>, spool: Spool) returns (r: Option<Receipt>)
    requires missing <= spool.live.Keys
    ensures |missing| != 1 ==> r == None
    ensures forall s :: missing == {s} ==> s in spool.live && r == Some(spool.live[s])
    ensures r.Some? ==> exists s :: s in missing && s in spool.live && r.value == spool.live[s]
  {
    if |missing| != 1 {
      return None;
    }
    var s :| s in missing;
    return Some(spool.live[s]);
  }

  /** Everything recovery will ask of the spool, before and after the pending receipt is anchored. */
  lemma CrashFacts(c: Codec, rs: seq<Receipt>, spool: Spool, begun: Option<Receipt>)
    requires GoodHistory(c, rs) && SpoolAfterCrash(spool, rs, begun)
    requires begun.Some? ==> GoodHistory(c, rs + [begun.value]) && Admissible(c, rs, begun.value)
    ensures SpoolConsistent(Lookup(rs), spool) && SetBacked(c, Lookup(rs), spool)
    ensures Missing(Lookup(rs), spool) == if begun.Some? then {begun.value.item.sequence} else {}
    ensures begun.Some? ==>
              && SpoolAfterCrash(spool, rs + [begun.value], None)
              && Lookup(rs + [begun.value]) == Lookup(rs)[begun.value.key := begun.value]
              && SpoolConsistent(Lookup(rs + [begun.value]), spool) && SetBacked(c, Lookup(rs + [begun.value]), spool)
              && Missing(Lookup(rs + [begun.value]), spool) == {}
              && begun.value.item.sequence in spool.live && spool.live[begun.value.item.sequence] == begun.value
  {
    hide GoodHistory, Admissible, Lookup, SetBacked, SpoolConsistent, Missing, Held;
    HistoryIsBacked(c, rs, spool);
    MissingAfterCrash(c, rs, spool, begun);
    if begun.Some? {
      SpoolAfterStoring(spool, rs, begun.value);
      LookupExtends(rs, begun.value);
      HistoryIsBacked(c, rs + [begun.value], spool);
      MissingAfterCrash(c, rs + [begun.value], spool, None);
    }
  }

  lemma BackedIsCausal(c: Codec, r: Receipt, receipts: map<Key, Receipt>, spool: Spool)
    requires SetBacked(c, receipts, spool) && r.key in receipts && receipts[r.key] == r
    ensures CausalIn(c, r, receipts)
  {
    assert EntryBacked(c, receipts[r.key], receipts, spool);
  }

  lemma AnchorBytes(c: Codec, rs: seq<Receipt>)
    requires AllFit(c, rs)
    ensures AnchorOf(c, rs).bytes == |Encoded(c, rs)| && AnchorOf(c, rs).count == |rs|
  {}

  lemma QuotaExtends(c: Codec, rs: seq<Receipt>, r: Receipt)
    requires GoodHistory(c, rs) && AllFit(c, rs) && Admissible(c, rs, r) && Fits(c, r) && WithinQuota(c, rs, r)
    ensures GoodHistory(c, rs + [r])
  {
    hide GoodHistory, Admissible;
    GoodExtends(c, rs, r);
  }
}
