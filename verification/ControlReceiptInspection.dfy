/**
 Reading a receipt journal back. The byte-level inspector walks raw bytes, the record-level one
 walks frames already recovered by the storage layer; both are loops over tables and counters,
 and both are proved against one description in terms of receipt histories.
 */
module ControlReceiptInspection {
  import opened Wrappers
  import opened DurableFrames
  import opened ControlReceipts

  // ---------------------------------------------------------------------------------------
  // Tables of a history
  // ---------------------------------------------------------------------------------------

  function Lookup(rs: seq<Receipt>): map<Key, Receipt> {
    if rs == [] then map[] else Lookup(rs[..|rs| - 1])[rs[|rs| - 1].key := rs[|rs| - 1]]
  }

  lemma LookupExtends(rs: seq<Receipt>, r: Receipt)
    ensures Lookup(rs + [r]) == Lookup(rs)[r.key := r]
  {
    assert (rs + [r])[..|rs|] == rs;
  }

  lemma {:induction false} LookupFinds(c: Codec, rs: seq<Receipt>, i: nat)
    requires GoodHistory(c, rs) && i < |rs|
    ensures rs[i].key in Lookup(rs) && Lookup(rs)[rs[i].key] == rs[i]
    decreases |rs|
  {
    if i < |rs| - 1 {
      HistoryIsFunctional(c, rs, i, |rs| - 1);
      LookupFinds(c, rs[..|rs| - 1], i);
    }
  }

  lemma {:induction false} LookupOnly(rs: seq<Receipt>, k: Key) returns (i: nat)
    requires k in Lookup(rs)
    ensures i < |rs| && rs[i].key == k && rs[i] == Lookup(rs)[k]
    decreases |rs|
  {
    i := |rs| - 1;
    if rs[i].key != k {
      i := LookupOnly(rs[..|rs| - 1], k);
    }
  }

  /** However the history grows, a key's entry never changes. */
  lemma KeyIsBoundForEver(c: Codec, rs: seq<Receipt>, grown: seq<Receipt>, k: Key)
    requires GoodHistory(c, grown) && rs <= grown && k in Lookup(rs)
    ensures k in Lookup(grown) && Lookup(grown)[k] == Lookup(rs)[k]
  {
    hide GoodHistory, Lookup;
    var i := LookupOnly(rs, k);
    LookupFinds(c, grown, i);
  }

  /** Looks the authorization of a completion up in the table. */
  predicate CausalIn(c: Codec, r: Receipt, receipts: map<Key, Receipt>) {
    r.item.request.Complete? ==>
      var done := r.item.request;
      && AuthorizeKey(done.repairId) in receipts
      && var a := receipts[AuthorizeKey(done.repairId)];
      && ValidReceipt(c, a)
      && a.item.sequence < r.item.sequence
      && a.item.eventId == done.authorizedBy && a.item.contentSha == done.authorizedContent
      && a.item.request.Authorize?
      && a.item.request.repairId == done.repairId && a.item.request.segment == done.segment
      && a.item.request.verifiedBytes == done.verifiedBytes && a.item.request.lastFrame == done.lastFrame
      && a.item.request.chainHead == done.chainHead
  }

  ghost predicate CausalAfter(rs: seq<Receipt>, r: Receipt) {
    r.item.request.Complete? ==> exists i :: 0 <= i < |rs| && Authorises(rs[i], r)
  }

  lemma CausalAgrees(c: Codec, rs: seq<Receipt>, r: Receipt)
    requires GoodHistory(c, rs)
    ensures CausalIn(c, r, Lookup(rs)) <==> CausalAfter(rs, r)
  {
    if r.item.request.Complete? {
      var k := AuthorizeKey(r.item.request.repairId);
      if k in Lookup(rs) {
        var i := LookupOnly(rs, k);
        GoodMember(c, rs, i);
        forall j | 0 <= j < |rs| && Authorises(rs[j], r) ensures j == i {
          LookupFinds(c, rs, j);
          if i < j { HistoryIsFunctional(c, rs, i, j); }
          if j < i { HistoryIsFunctional(c, rs, j, i); }
        }
      } else {
        forall j | 0 <= j < |rs| ensures !Authorises(rs[j], r) {
          LookupFinds(c, rs, j);
        }
      }
    }
  }

  /** It does not matter that the replaying side has already entered the receipt itself. */
  lemma CausalSelf(c: Codec, r: Receipt, receipts: map<Key, Receipt>)
    requires ValidReceipt(c, r) && r.key !in receipts
    ensures CausalIn(c, r, receipts[r.key := r]) <==> CausalIn(c, r, receipts)
  {}

  // ---------------------------------------------------------------------------------------
  // The two checks of a new receipt
  // ---------------------------------------------------------------------------------------

  /** The appending side looks at the table of receipts alone. */
  method ValidateCandidate(c: Codec, r: Receipt, receipts: map<Key, Receipt>, ghost rs: seq<Receipt>) returns (ok: bool)
    requires GoodHistory(c, rs) && receipts == Lookup(rs)
    ensures ok <==> Admissible(c, rs, r)
  {
    if !ValidReceipt(c, r) || r.key in receipts {
      KeyTaken(c, rs, r);
      return false;
    }
    var previous := 0;
    var rest := receipts.Keys;
    while rest != {}
      invariant rest <= receipts.Keys
      invariant previous == 0 || exists k :: k in receipts && receipts[k].item.sequence == previous
      invariant forall k :: k in receipts && k !in rest ==>
                  && receipts[k].item.sequence != r.item.sequence && receipts[k].item.eventId != r.item.eventId
                  && receipts[k].item.sequence <= previous
      decreases |rest|
    {
      var k :| k in rest;
      var existing := receipts[k].item;
      if existing.sequence == r.item.sequence || existing.eventId == r.item.eventId {
        Clash(c, rs, r, k);
        return false;
      }
      if existing.sequence > previous {
        previous := existing.sequence;
      }
      rest := rest - {k};
    }
    if r.item.sequence <= previous {
      if previous > 0 {
        ghost var k :| k in receipts && receipts[k].item.sequence == previous;
        Clash(c, rs, r, k);
      }
      return false;
    }
    TableIsNew(c, rs, r);
    CausalAgrees(c, rs, r);
    return CausalIn(c, r, receipts);
  }

  lemma KeyTaken(c: Codec, rs: seq<Receipt>, r: Receipt)
    requires r.key in Lookup(rs) || !ValidReceipt(c, r)
    ensures !Admissible(c, rs, r)
  {
    if r.key in Lookup(rs) {
      var i := LookupOnly(rs, r.key);
    }
  }

  lemma Clash(c: Codec, rs: seq<Receipt>, r: Receipt, k: Key)
    requires k in Lookup(rs)
    requires Lookup(rs)[k].item.sequence >= r.item.sequence || Lookup(rs)[k].item.eventId == r.item.eventId
    ensures !Admissible(c, rs, r)
  {
    var i := LookupOnly(rs, k);
  }

  /** A table without the receipt's key, event or a later sequence: nothing in the history stands in its way. */
  lemma TableIsNew(c: Codec, rs: seq<Receipt>, r: Receipt)
    requires GoodHistory(c, rs) && r.key !in Lookup(rs) && ValidReceipt(c, r) && 0 < r.item.sequence
    requires forall k :: k in Lookup(rs) ==>
               Lookup(rs)[k].item.sequence < r.item.sequence && Lookup(rs)[k].item.eventId != r.item.eventId
    ensures Admissible(c, rs, r) <==> CausalAfter(rs, r)
  {
    forall i | 0 <= i < |rs|
      ensures rs[i].key != r.key && rs[i].item.sequence < r.item.sequence && rs[i].item.eventId != r.item.eventId
    {
      LookupFinds(c, rs, i);
    }
  }

  /** The running tables of a replay. */
  datatype Tables = Tables(receipts: map<Key, Receipt>, sequences: set<nat>, events: set<nat>, previous: nat)

  ghost predicate Mirrors(t: Tables, rs: seq<Receipt>) {
    && t.receipts == Lookup(rs)
    && (forall s :: s in t.sequences <==> exists i :: 0 <= i < |rs| && rs[i].item.sequence == s)
    && (forall e :: e in t.events <==> exists i :: 0 <= i < |rs| && rs[i].item.eventId == e)
    && t.previous == if rs == [] then 0 else rs[|rs| - 1].item.sequence
  }

  /** The replaying side keeps four running tables instead. */
  method CheckReplayed(c: Codec, payload: Bytes, t: Tables, ghost rs: seq<Receipt>)
    returns (r: Option<Receipt>, t': Tables)
    requires GoodHistory(c, rs) && Mirrors(t, rs)
    ensures r == Replayed(c, rs, payload)
    ensures r.Some? ==> Mirrors(t', rs + [r.value])
  {
    t' := t;
    var decoded := c.decode(payload);
    if decoded.None? || !ValidReceipt(c, decoded.value) || c.encode(decoded.value) != payload {
      return None, t';
    }
    var receipt := decoded.value;
    if receipt.key in t.receipts {
      KeyTaken(c, rs, receipt);
      return None, t';
    }
    if receipt.item.sequence <= t.previous || receipt.item.sequence in t.sequences || receipt.item.eventId in t.events {
      return None, t';
    }
    var receipts := t.receipts[receipt.key := receipt];
    ReplayIsNew(c, rs, receipt);
    CausalAgrees(c, rs, receipt);
    CausalSelf(c, receipt, t.receipts);
    if !CausalIn(c, receipt, receipts) {
      return None, t';
    }
    t' := Tables(receipts, t.sequences + {receipt.item.sequence}, t.events + {receipt.item.eventId}, receipt.item.sequence);
    MirrorsExtends(t, rs, receipt);
    return Some(receipt), t';
  }

  /** The receipt a payload stands for, if it is the canonical text of one that may follow. */
  ghost function Replayed(c: Codec, rs: seq<Receipt>, payload: Bytes): Option<Receipt> {
    var decoded := c.decode(payload);
    if decoded.Some? && c.encode(decoded.value) == payload && Admissible(c, rs, decoded.value) then decoded else None
  }

  lemma ReplayIsNew(c: Codec, rs: seq<Receipt>, r: Receipt)
    requires GoodHistory(c, rs) && r.key !in Lookup(rs) && ValidReceipt(c, r)
    requires r.item.sequence > if rs == [] then 0 else rs[|rs| - 1].item.sequence
    requires forall i :: 0 <= i < |rs| ==> rs[i].item.eventId != r.item.eventId
    ensures Admissible(c, rs, r) <==> CausalAfter(rs, r)
  {
    forall i | 0 <= i < |rs|
      ensures rs[i].key != r.key && rs[i].item.sequence < r.item.sequence
    {
      LookupFinds(c, rs, i);
      if i < |rs| - 1 {
        HistoryIsFunctional(c, rs, i, |rs| - 1);
      }
    }
  }

  lemma MirrorsExtends(t: Tables, rs: seq<Receipt>, r: Receipt)
    requires Mirrors(t, rs)
    ensures Mirrors(Tables(t.receipts[r.key := r], t.sequences + {r.item.sequence}, t.events + {r.item.eventId},
                           r.item.sequence), rs + [r])
  {
    LookupExtends(rs, r);
    forall s ensures s in t.sequences + {r.item.sequence} <==> exists i :: 0 <= i < |rs + [r]| && (rs + [r])[i].item.sequence == s {
      if s in t.sequences {
        var i :| 0 <= i < |rs| && rs[i].item.sequence == s;
        assert (rs + [r])[i].item.sequence == s;
      }
      assert (rs + [r])[|rs|] == r;
    }
    forall e ensures e in t.events + {r.item.eventId} <==> exists i :: 0 <= i < |rs + [r]| && (rs + [r])[i].item.eventId == e {
      if e in t.events {
        var i :| 0 <= i < |rs| && rs[i].item.eventId == e;
        assert (rs + [r])[i].item.eventId == e;
      }
      assert (rs + [r])[|rs|] == r;
    }
  }
}
