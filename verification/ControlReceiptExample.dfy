/**
 A concrete codec, a history of one receipt, and a spool with one item more: the start that is
 refused, and the torn frame with which the same start succeeds.
 */
module ControlReceiptExample {
  import opened Wrappers
  import opened DurableFrames
  import opened ControlReceipts
  import opened ControlReceiptInspection
  import opened ControlReceiptJournal

  function ItemAt(n: nat): Item { Item(n, n, n, Other(0, n)) }
  function ReceiptAt(n: nat): Receipt { Receipt(OtherKey(0, n), 0, ItemAt(n)) }

  /** Two items are valid, the first and the second, and each is written as its number. */
  function Encode(r: Receipt): Bytes { if r == ReceiptAt(1) then [1] else [2] }
  function Decode(b: Bytes): Option<Receipt> {
    if b == [1] then Some(ReceiptAt(1)) else if b == [2] then Some(ReceiptAt(2)) else None
  }
  function Sum(b: Bytes): Quad { [0, 0, 0, 0] }
  function Digest(b: Bytes): Hash {
    [1, 0, 0, 0, 0, 0, 0, 0, 0, 0, 0, 0, 0, 0, 0, 0, 0, 0, 0, 0, 0, 0, 0, 0, 0, 0, 0, 0, 0, 0, 0, 0]
  }

  function TheCodec(): Codec {
    Codec(Digests(Sum, Digest, []), _ => 0, item => item == ItemAt(1) || item == ItemAt(2), Encode, Decode)
  }

  /** Both items are spooled and none is acknowledged. */
  function TheSpool(): Spool { Spool(map[1 := ReceiptAt(1), 2 := ReceiptAt(2)], 0, 2, _ => true) }

  lemma CodecIsLawful()
    ensures Lawful(TheCodec())
  {
    forall x ensures TheCodec().frames.sha(x) != ZERO_HASH {
      assert TheCodec().frames.sha(x)[0] == 1 && ZERO_HASH[0] == 0;
    }
  }

  /** Receipts in the order of their numbers. */
  lemma MayFollow(rs: seq<Receipt>, n: nat)
    requires 1 <= n <= 2 && forall i :: 0 <= i < |rs| ==> rs[i] == ReceiptAt(i + 1) && i + 1 < n
    ensures Admissible(TheCodec(), rs, ReceiptAt(n)) && Fits(TheCodec(), ReceiptAt(n))
    ensures |TheCodec().encode(ReceiptAt(n))| == 1
  {}

  lemma OneReceipt()
    ensures GoodHistory(TheCodec(), [ReceiptAt(1)]) && AllFit(TheCodec(), [ReceiptAt(1)])
    ensures Admissible(TheCodec(), [ReceiptAt(1)], ReceiptAt(2)) && Fits(TheCodec(), ReceiptAt(2))
    ensures |Encoded(TheCodec(), [ReceiptAt(1)])| == 77 && |FrameOf(TheCodec(), [ReceiptAt(1)], ReceiptAt(2))| == 77
  {
    hide EncodeFrame, HeadOf, Admissible, Fits, TheCodec, ReceiptAt, FrameOf;
    MayFollow([], 1);
    MayFollow([ReceiptAt(1)], 2);
    GoodExtends(TheCodec(), [], ReceiptAt(1));
    ExtendEncoded(TheCodec(), [], ReceiptAt(1));
    assert [] + [ReceiptAt(1)] == [ReceiptAt(1)];
  }

  lemma TwoReceipts()
    ensures AllFit(TheCodec(), [ReceiptAt(1)]) && GoodHistory(TheCodec(), [ReceiptAt(1)] + [ReceiptAt(2)])
  {
    hide EncodeFrame, HeadOf, Admissible, GoodHistory, Encoded, FrameOf;
    OneReceipt();
    GoodExtends(TheCodec(), [ReceiptAt(1)], ReceiptAt(2));
  }

  /**
   The second item is spooled. Nothing of its frame in the file, because its write never began or
   because a recovery cut a torn frame off and was interrupted: refused. One byte of it: opened.
   */
  lemma UnwrittenItemIsRefused(pending: Option<Receipt>)
    requires pending == None || pending == Some(ReceiptAt(2))
    ensures Lawful(TheCodec()) && AllFit(TheCodec(), [ReceiptAt(1)]) && Fits(TheCodec(), ReceiptAt(2))
    ensures var c, rs, begun := TheCodec(), [ReceiptAt(1)], Some(ReceiptAt(2));
            var disk := Encoded(c, rs);
            var torn := disk + FrameOf(c, rs, ReceiptAt(2))[..1];
            && OnDisk(c, disk, rs, pending) && AfterCrash(c, disk, rs, pending, TheSpool(), begun, MAX_BYTES)
            && !Opens(c, disk, rs, TheSpool())
            && OnDisk(c, torn, rs, begun) && AfterCrash(c, torn, rs, begun, TheSpool(), begun, MAX_BYTES)
            && Opens(c, torn, rs, TheSpool())
  {
    hide EncodeFrame, HeadOf, Lawful, Admissible, GoodHistory, Encoded, FrameOf, Opens;
    CodecIsLawful();
    OneReceipt();
    TwoReceipts();
    var c, rs := TheCodec(), [ReceiptAt(1)];
    var disk, frame := Encoded(c, rs), FrameOf(c, rs, ReceiptAt(2));
    assert disk == disk + frame[..0];
    OpensUnlessUnwritten(c, disk, rs, pending, TheSpool(), Some(ReceiptAt(2)), MAX_BYTES);
    OpensUnlessUnwritten(c, disk + frame[..1], rs, Some(ReceiptAt(2)), TheSpool(), Some(ReceiptAt(2)), MAX_BYTES);
  }

  lemma FirstIsStored(journal: ReceiptJournal)
    requires journal.c == TheCodec() && journal.Valid() && !journal.failed && journal.history == [ReceiptAt(1)]
    ensures journal.disk == Encoded(journal.c, [ReceiptAt(1)]) && Untouched(journal.c, journal.disk, journal.history)
    ensures AfterCrash(journal.c, journal.disk, journal.history, journal.pending, TheSpool(), Some(ReceiptAt(2)), MAX_BYTES)
    ensures !Opens(journal.c, journal.disk, journal.history, TheSpool())
  {
    hide Lawful, GoodHistory, Lookup, Encoded, AnchorOf, AfterCrash, Opens, TheCodec, TheSpool;
    UnwrittenItemIsRefused(None);
  }

  /** A journal with one stored receipt, and a crash after the next item was spooled: refused at every start. */
  method RefusedAtEveryStart() returns (stored: bool, first: bool, second: bool)
    ensures stored ==> !first && !second
  {
    hide Lawful, GoodHistory, Encoded, AnchorOf, Admissible, OnDisk, AfterCrash, Opens, TheCodec, TheSpool;
    CodecIsLawful();
    var journal := new ReceiptJournal(TheCodec());
    var r := journal.Store(OtherKey(0, 1), 0, ItemAt(1));
    stored, first, second := r.Success?, false, false;
    if stored {
      assert journal.history == [ReceiptAt(1)];
      FirstIsStored(journal);
      var io;
      first, io := journal.Recover(TheSpool(), MAX_BYTES, Some(ReceiptAt(2)));
      second, io := journal.Recover(TheSpool(), MAX_BYTES, Some(ReceiptAt(2)));
    }
  }
}
