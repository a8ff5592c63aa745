/**
 The AGF1 frame: magic, length, previous hash, payload, checksum, hash. Checksum and hash are
 arbitrary functions with the right output width.
 */
module DurableFrames {
  type Byte = b: int | 0 <= b < 256
  type Bytes = seq<Byte>
  type Quad = s: Bytes | |s| == 4 witness [0, 0, 0, 0]
  type Hash = s: Bytes | |s| == 32 witness
    [0, 0, 0, 0, 0, 0, 0, 0, 0, 0, 0, 0, 0, 0, 0, 0, 0, 0, 0, 0, 0, 0, 0, 0, 0, 0, 0, 0, 0, 0, 0, 0]

  const ZERO_HASH: Hash :=
    [0, 0, 0, 0, 0, 0, 0, 0, 0, 0, 0, 0, 0, 0, 0, 0, 0, 0, 0, 0, 0, 0, 0, 0, 0, 0, 0, 0, 0, 0, 0, 0]
  const MAGIC: Quad := [65, 71, 70, 49]
  const HEADER: nat := 40
  const OVERHEAD: nat := 76

  /** The functions a frame is built from; `domain` is prefixed to what is hashed. */
  datatype Digests = Digests(crc: Bytes -> Quad, sha: Bytes -> Hash, domain: Bytes)

  datatype Record = Record(hash: Hash, previous: Hash, payload: Bytes) {
    function Size(): nat { OVERHEAD + |payload| }
  }

  datatype Decoded = Whole(record: Record) | Torn | Damaged

  function LowByte(n: nat): Byte { n % 256 }

  /** Big-endian. */
  function PutUint32(n: nat): Quad
    requires n < 0x1_0000_0000
  {
    [LowByte(n / 256 / 256 / 256), LowByte(n / 256 / 256), LowByte(n / 256), LowByte(n)]
  }

  function Uint32(q: Quad): nat { Shift(Shift(Shift(q[0], q[1]), q[2]), q[3]) }

  function Shift(high: nat, low: Byte): nat { high * 256 + low }

  lemma ShiftSplits(high: nat, low: Byte)
    ensures Shift(high, low) / 256 == high && LowByte(Shift(high, low)) == low
  {}

  lemma SplitShifts(n: nat)
    ensures Shift(n / 256, LowByte(n)) == n
  {}

  lemma Uint32RoundTrip(n: nat)
    requires n < 0x1_0000_0000
    ensures Uint32(PutUint32(n)) == n
  {
    hide Shift, LowByte;
    ByteIsLow(n / 256 / 256 / 256);
    SplitShifts(n);
    SplitShifts(n / 256);
    SplitShifts(n / 256 / 256);
  }

  lemma Uint32Fits(q: Quad)
    ensures Uint32(q) < 0x1_0000_0000
  {}

  lemma ByteIsLow(b: Byte)
    ensures LowByte(b) == b
  {}

  lemma PutUint32RoundTrip(q: Quad)
    ensures Uint32(q) < 0x1_0000_0000 && PutUint32(Uint32(q)) == q
  {
    hide Shift, LowByte;
    Uint32Fits(q);
    var high := Shift(q[0], q[1]);
    ByteIsLow(q[0]);
    ShiftSplits(q[0], q[1]);
    ShiftSplits(high, q[2]);
    ShiftSplits(Shift(high, q[2]), q[3]);
  }

  function Head(previous: Hash, length: nat): Bytes
    requires length < 0x1_0000_0000
  {
    MAGIC + PutUint32(length) + previous
  }

  function Sealed(d: Digests, body: Bytes): Bytes {
    var checked := body + d.crc(body);
    checked + d.sha(d.domain + checked)
  }

  function FrameHash(d: Digests, payload: Bytes, previous: Hash): Hash
    requires |payload| < 0x1_0000_0000
  {
    var body := Head(previous, |payload|) + payload;
    d.sha(d.domain + (body + d.crc(body)))
  }

  function EncodeFrame(d: Digests, payload: Bytes, previous: Hash): (frame: Bytes)
    requires |payload| < 0x1_0000_0000
    ensures |frame| == OVERHEAD + |payload|
  {
    Sealed(d, Head(previous, |payload|) + payload)
  }

  /** Decodes exactly one frame that must link to `expected`. */
  function DecodeFrame(d: Digests, raw: Bytes, maxFrame: nat, expected: Hash): Decoded {
    if |raw| >= 4 && raw[..4] != MAGIC then Damaged
    else if |raw| < HEADER then Torn
    else
      var length := Uint32(raw[4..8]);
      if length > maxFrame then Damaged
      else if |raw| < OVERHEAD + length then Torn
      else if |raw| != OVERHEAD + length then Damaged
      else
        var previous: Hash := raw[8..HEADER];
        var end := HEADER + length;
        if previous != expected then Damaged
        else if raw[end..end + 4] != d.crc(raw[..end]) then Damaged
        else if raw[end + 4..] != d.sha(d.domain + raw[..end + 4]) then Damaged
        else Whole(Record(d.sha(d.domain + raw[..end + 4]), previous, raw[HEADER..end]))
  }

  /** Where the parts of an encoded frame lie. */
  lemma EncodedParts(d: Digests, payload: Bytes, previous: Hash)
    requires |payload| < 0x1_0000_0000
    ensures var f, end := EncodeFrame(d, payload, previous), HEADER + |payload|;
            && f[..4] == MAGIC && f[4..8] == PutUint32(|payload|) && f[8..HEADER] == previous && f[HEADER..end] == payload
            && f[..end] == Head(previous, |payload|) + payload
            && f[end..end + 4] == d.crc(f[..end])
            && f[..end + 4] == f[..end] + d.crc(f[..end])
            && f[end + 4..] == d.sha(d.domain + f[..end + 4])
  {
    var head := Head(previous, |payload|);
    var body := head + payload;
    var f := EncodeFrame(d, payload, previous);
    assert f[..|body|] == body;
    assert f[..|body| + 4] == body + d.crc(body);
    assert body[..4] == MAGIC && body[4..8] == PutUint32(|payload|) && body[8..HEADER] == previous;
    assert body[HEADER..] == payload;
  }

  /** Decoding undoes encoding. */
  lemma DecodeEncoded(d: Digests, payload: Bytes, previous: Hash, maxFrame: nat)
    requires |payload| <= maxFrame < 0x1_0000_0000
    ensures DecodeFrame(d, EncodeFrame(d, payload, previous), maxFrame, previous)
            == Whole(Record(FrameHash(d, payload, previous), previous, payload))
  {
    EncodedParts(d, payload, previous);
    Uint32RoundTrip(|payload|);
  }

  /** What decodes is exactly the encoding of what it decodes to. */
  lemma DecodedIsEncoded(d: Digests, raw: Bytes, maxFrame: nat, expected: Hash)
    requires maxFrame < 0x1_0000_0000 && DecodeFrame(d, raw, maxFrame, expected).Whole?
    ensures var r := DecodeFrame(d, raw, maxFrame, expected).record;
            && |r.payload| <= maxFrame && r.previous == expected
            && raw == EncodeFrame(d, r.payload, expected)
            && r.hash == FrameHash(d, r.payload, expected)
  {
    hide Uint32, PutUint32;
    var length := Uint32(raw[4..8]);
    var end := HEADER + length;
    PutUint32RoundTrip(raw[4..8]);
    CutAt(raw[..HEADER], 4, 8);
    assert raw[..HEADER][..4] == raw[..4] && raw[..HEADER][4..8] == raw[4..8] && raw[..HEADER][8..] == raw[8..HEADER];
    assert raw[..HEADER] == Head(expected, length);
    CutAt(raw[..end], HEADER, HEADER);
    assert raw[..end][..HEADER] == raw[..HEADER] && raw[..end][HEADER..] == raw[HEADER..end];
    CutAt(raw, end, end + 4);
    assert raw[..end + 4] == raw[..end] + raw[end..end + 4];
  }

  lemma CutAt(s: Bytes, i: nat, j: nat)
    requires i <= j <= |s|
    ensures s == s[..i] + s[i..j] + s[j..]
  {}

  /** A proper prefix of a frame is recognised as torn, never as damaged or whole. */
  lemma PrefixIsTorn(d: Digests, payload: Bytes, previous: Hash, maxFrame: nat, k: nat, expected: Hash)
    requires |payload| <= maxFrame < 0x1_0000_0000 && k < OVERHEAD + |payload|
    ensures DecodeFrame(d, EncodeFrame(d, payload, previous)[..k], maxFrame, expected) == Torn
  {
    EncodedParts(d, payload, previous);
    Uint32RoundTrip(|payload|);
    var f := EncodeFrame(d, payload, previous);
    assert k >= 4 ==> f[..k][..4] == f[..4];
    assert k >= 8 ==> f[..k][4..8] == f[4..8];
  }
}
