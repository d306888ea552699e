/** CAN frames, the DLC coding of ISO 11898-1 (with its CAN FD extension), and the two
    conversions between the daemon's frames and the frames of the hardware library. */
module CanFrames {

  type uint8 = x: int | 0 <= x < 0x100

  type uint32 = x: int | 0 <= x < 0x1_0000_0000

  type CanId = uint32

  // The identifiers of a list, as a set.
  function IdSet(ids: seq<CanId>): set<CanId> { set id: CanId | id in ids }

  const MAX_BYTES: uint8 := 64

  type Payload = d: seq<uint8> | |d| == 64 witness seq(64, _ => 0)

  datatype CanFrame = CanFrame(id: CanId, dlc: uint8, flags: uint8, data: Payload)

  datatype HalFields = HalFrame(timeStamp: nat, canId: CanId, count: nat, canType: uint8,
                                channel: uint8, len: uint8, data: Payload)

  // The hardware library is not visible here; it is taken to report at most 64 payload bytes.
  type HalFrame = h: HalFields | h.len <= MAX_BYTES
    witness HalFrame(0, 0, 0, 0, 0, 0, seq(64, _ => 0))

  const DLC_TABLE: seq<uint8> := [0, 1, 2, 3, 4, 5, 6, 7, 8, 12, 16, 20, 24, 32, 48, 64]

  function DlcToBytes(dlc: uint8): (n: uint8)
    ensures n <= MAX_BYTES
    ensures n == 0 <==> dlc == 0
  {
    DLC_TABLE[if dlc < 15 then dlc else 15]
  }

  function BytesToDlc(n: uint8): (dlc: uint8)
    ensures dlc <= 15
  {
    if n <= 8 then n
    else if n <= 12 then 9
    else if n <= 16 then 10
    else if n <= 20 then 11
    else if n <= 24 then 12
    else if n <= 32 then 13
    else if n <= 48 then 14
    else 15
  }

  /** The capacities of the standard: up to 8 bytes the code is the length, then it counts in steps of
      4 bytes up to 24, and then of 16 bytes. */
  lemma DlcValues(dlc: uint8)
    ensures DlcToBytes(dlc) ==
      if dlc <= 8 then dlc
      else if dlc <= 12 then 4 * dlc - 24
      else if dlc <= 15 then 16 * dlc - 176
      else 64
  {
  }

  /** The two codings form a Galois connection: on every payload length a frame can have, the
      code chosen is the least one whose capacity covers the length. */
  lemma DlcIsLeastSufficient(n: uint8, dlc: uint8)
    requires n <= MAX_BYTES
    ensures BytesToDlc(n) <= dlc <==> n <= DlcToBytes(dlc)
  {
  }

  /** A length is covered by its own code exactly when it is a legal CAN FD length, and
      converting a code to bytes and back only clamps it. */
  lemma DlcRoundTrip(n: uint8, dlc: uint8)
    ensures n <= DlcToBytes(BytesToDlc(n)) <==> n <= MAX_BYTES
    ensures BytesToDlc(DlcToBytes(dlc)) == if dlc < 15 then dlc else 15
  {
  }

  // ---------- byte order ----------

  // Byte k of the word, counted from the least significant end.
  function ByteOf(x: uint32, k: nat): uint8
    requires k < 4
  {
    (if k == 0 then x else if k == 1 then x / 0x100 else if k == 2 then x / 0x1_0000 else x / 0x100_0000) % 0x100
  }

  function FromBytes(b0: uint8, b1: uint8, b2: uint8, b3: uint8): uint32 {
    b0 + 0x100 * b1 + 0x1_0000 * b2 + 0x100_0000 * b3
  }

  lemma BytesOfWord(b0: uint8, b1: uint8, b2: uint8, b3: uint8)
    ensures var x := FromBytes(b0, b1, b2, b3);
            ByteOf(x, 0) == b0 && ByteOf(x, 1) == b1 && ByteOf(x, 2) == b2 && ByteOf(x, 3) == b3
  {
    var x := FromBytes(b0, b1, b2, b3);
    assert x / 0x100 == b1 + 0x100 * b2 + 0x1_0000 * b3;
    assert x / 0x1_0000 == b2 + 0x100 * b3;
    assert x / 0x100_0000 == b3;
  }

  lemma WordOfBytes(x: uint32)
    ensures FromBytes(ByteOf(x, 0), ByteOf(x, 1), ByteOf(x, 2), ByteOf(x, 3)) == x
  {
    assert x / 0x1_0000 == x / 0x100 / 0x100;
    assert x / 0x100_0000 == x / 0x1_0000 / 0x100;
  }

  // The sender's macro: every mask-and-shift pair moves one byte to the mirrored position.
  function BSwap32(x: uint32): uint32 {
    (x / 0x100_0000) % 0x100
    + ((x / 0x1_0000) % 0x100) * 0x100
    + ((x / 0x100) % 0x100) * 0x1_0000
    + (x % 0x100) * 0x100_0000
  }

  /** The macro reverses the byte order, so applying it twice gives the word back. */
  lemma BSwapReverses(x: uint32, k: nat)
    requires k < 4
    ensures ByteOf(BSwap32(x), k) == ByteOf(x, 3 - k)
    ensures BSwap32(BSwap32(x)) == x
  {
    BytesOfWord(ByteOf(x, 3), ByteOf(x, 2), ByteOf(x, 1), ByteOf(x, 0));
    WordOfBytes(x);
  }

  // ---------- one frame ----------

  // A zeroed 64-byte buffer into which n bytes are copied.
  function CopyBytes(data: Payload, n: uint8): Payload
    requires n <= MAX_BYTES
  {
    data[..n] + seq(64 - n, _ => 0)
  }

  function Encode(f: CanFrame, channel: uint8, now: nat): HalFrame {
    var len := DlcToBytes(f.dlc);
    HalFrame(now, BSwap32(f.id), 1, f.flags, channel, len, CopyBytes(f.data, len))
  }

  function Decode(h: HalFrame): CanFrame {
    CanFrame(h.canId, BytesToDlc(h.len), h.canType, CopyBytes(h.data, h.len))
  }

  // What one trip over the wire leaves of a frame, apart from the identifier's byte order.
  function Normalise(f: CanFrame): CanFrame {
    f.(dlc := if f.dlc < 15 then f.dlc else 15, data := CopyBytes(f.data, DlcToBytes(f.dlc)))
  }

  lemma NormaliseKeepsPayload(f: CanFrame, i: nat)
    requires i < 64
    ensures Normalise(f).data[i] == if i < DlcToBytes(f.dlc) then f.data[i] else 0
  {
  }

  function Swapped(f: CanFrame): CanFrame { f.(id := BSwap32(f.id)) }

  lemma FrameRoundTrip(f: CanFrame, channel: uint8, now: nat)
    ensures Decode(Encode(f, channel, now)) == Swapped(Normalise(f))
  {
  }

  /** Receiving does not undo the sender's byte swap: one hop preserves the identifier exactly
      when it is a palindrome of bytes, and two hops always do. */
  lemma TwoHops(f: CanFrame, channel: uint8, t0: nat, t1: nat)
    ensures Decode(Encode(Decode(Encode(f, channel, t0)), channel, t1)) == Normalise(f)
    ensures Decode(Encode(f, channel, t0)).id == f.id
       <==> ByteOf(f.id, 0) == ByteOf(f.id, 3) && ByteOf(f.id, 1) == ByteOf(f.id, 2)
  {
    FrameRoundTrip(f, channel, t0);
    var g := Swapped(Normalise(f));
    FrameRoundTrip(g, channel, t1);
    BSwapReverses(f.id, 0);
    BSwapReverses(f.id, 1);
    WordOfBytes(f.id);
    var len := DlcToBytes(f.dlc);
    assert DlcToBytes(g.dlc) == len;
    assert CopyBytes(CopyBytes(f.data, len), len) == CopyBytes(f.data, len);
  }

  /** A received frame keeps the identifier and the type, and is padded with zeros from its length up
      to the capacity of its code. */
  lemma DecodePads(h: HalFrame, i: nat)
    requires i < 64
    ensures Decode(h).id == h.canId && Decode(h).flags == h.canType
    ensures Decode(h).data[i] == if i < h.len then h.data[i] else 0
    ensures h.len <= DlcToBytes(Decode(h).dlc)
    ensures h.len != 0 ==> DlcToBytes(Decode(h).dlc - 1) < h.len
  {
  }

  /** One hop turns identifier 0x100 into 0x10000, so a filter for the former does not match. */
  lemma OneHopSwaps(f: CanFrame, channel: uint8, now: nat)
    requires f.id == 0x100
    ensures Decode(Encode(f, channel, now)).id == 0x10000
  {
  }

  // ---------- one batch ----------

  // The batch loop never gets past a frame of length zero.
  function LivePrefix(hs: seq<HalFrame>): (k: nat)
    ensures k <= |hs|
    ensures forall i :: 0 <= i < k ==> hs[i].len != 0
    ensures k < |hs| ==> hs[k].len == 0
  {
    if hs == [] || hs[0].len == 0 then 0 else 1 + LivePrefix(hs[1..])
  }

  function DecodeBatch(hs: seq<HalFrame>): seq<CanFrame> {
    seq<CanFrame>(LivePrefix(hs), i requires 0 <= i < LivePrefix(hs) => Decode(hs[i]))
  }

  lemma TakeOneMore<T>(s: seq<T>, k: nat)
    requires k < |s|
    ensures s[..k + 1] == s[..k] + [s[k]]
  {
  }

  lemma DecodedAt(hs: seq<HalFrame>, k: nat)
    ensures |DecodeBatch(hs)| == LivePrefix(hs)
    ensures k < LivePrefix(hs) ==> DecodeBatch(hs)[k] == Decode(hs[k])
  {
  }

  // The frame under the pointer either ends the decoded prefix or extends it by one.
  lemma LiveStep(hs: seq<HalFrame>, k: nat)
    requires k <= LivePrefix(hs) && k < |hs|
    ensures if hs[k].len == 0 then k == LivePrefix(hs)
            else k < LivePrefix(hs) && DecodeBatch(hs)[..k + 1] == DecodeBatch(hs)[..k] + [Decode(hs[k])]
  {
    DecodedAt(hs, k);
    hide Decode, DecodeBatch;
    if hs[k].len != 0 {
      TakeOneMore(DecodeBatch(hs), k);
    }
  }

  function EncodeAll(fs: seq<CanFrame>, channel: uint8, clock: nat -> nat): seq<HalFrame> {
    seq<HalFrame>(|fs|, i requires 0 <= i < |fs| => Encode(fs[i], channel, clock(i)))
  }

  /** Decoding an encoded batch gives back every normalised frame before the first one with
      DLC 0, in order; so the batch survives completely exactly when no frame has DLC 0. */
  lemma BatchRoundTrip(fs: seq<CanFrame>, channel: uint8, clock: nat -> nat)
    ensures var out := DecodeBatch(EncodeAll(fs, channel, clock));
            && |out| <= |fs|
            && (forall i :: 0 <= i < |out| ==> fs[i].dlc != 0 && out[i] == Swapped(Normalise(fs[i])))
            && (|out| < |fs| ==> fs[|out|].dlc == 0)
            && (|out| == |fs| <==> forall i :: 0 <= i < |fs| ==> fs[i].dlc != 0)
  {
    var hs := EncodeAll(fs, channel, clock);
    var out := DecodeBatch(hs);
    assert |out| == LivePrefix(hs);
    forall i | 0 <= i < |out|
      ensures fs[i].dlc != 0 && out[i] == Swapped(Normalise(fs[i]))
    {
      assert hs[i].len != 0;
      FrameRoundTrip(fs[i], channel, clock(i));
    }
    if |out| < |fs| {
      assert hs[|out|] == Encode(fs[|out|], channel, clock(|out|)) && hs[|out|].len == 0;
    }
  }

  /** A frame with DLC 0 at the head of a batch hides the frame that follows it. */
  lemma EmptyFrameHidesTheRest(f: CanFrame, g: CanFrame, channel: uint8, clock: nat -> nat)
    requires f.dlc == 0 && g.dlc == 1
    ensures DecodeBatch(EncodeAll([f, g], channel, clock)) == []
    ensures DecodeBatch(EncodeAll([g], channel, clock)) == [Swapped(Normalise(g))]
  {
    BatchRoundTrip([f, g], channel, clock);
    BatchRoundTrip([g], channel, clock);
  }
}
