/** The fixed-size package that clients and the daemon exchange: its memory image, and the
    replies to a sequence of packages. */
module Packages {
  import opened CanFrames

  const PACKAGE_SIZE: nat := 224
  const SOCKET_MAGIC_CODE: uint32 := 0xDEADC0DE

  const ORDER_SEND: uint32 := 0
  const ORDER_RECEIVE: uint32 := 1
  const ORDER_ADD_FILTER: uint32 := 2
  const ORDER_REMOVE_FILTER: uint32 := 3
  const ORDER_ACK: uint32 := 4

  const ACK_OKAY: uint32 := 0
  const ACK_ERROR: uint32 := 1

  const MAX_FILTER_IDS: nat := 32

  type IdArray = s: seq<uint32> | |s| == 32 witness seq(32, _ => 0)

  datatype Package = Package(magic: uint32, order: uint32, port: uint32, frame: CanFrame,
                             filterIds: IdArray, filterCount: uint32, ack: uint32, ackFor: uint32)

  type Image = b: seq<uint8> | |b| == 224 witness seq(224, _ => 0)

  // ---------- the memory image, little-endian, with two padding bytes in the frame ----------

  function ImageByte(p: Package, j: nat): uint8
    requires j < PACKAGE_SIZE
  {
    if j < 4 then ByteOf(p.magic, j)
    else if j < 8 then ByteOf(p.order, j - 4)
    else if j < 12 then ByteOf(p.port, j - 8)
    else if j < 16 then ByteOf(p.frame.id, j - 12)
    else if j == 16 then p.frame.dlc
    else if j == 17 then p.frame.flags
    else if j < 20 then 0
    else if j < 84 then p.frame.data[j - 20]
    else if j < 212 then ByteOf(p.filterIds[(j - 84) / 4], (j - 84) % 4)
    else if j < 216 then ByteOf(p.filterCount, j - 212)
    else if j < 220 then ByteOf(p.ack, j - 216)
    else ByteOf(p.ackFor, j - 220)
  }

  function Serialize(p: Package): Image {
    seq(224, j requires 0 <= j < 224 => ImageByte(p, j))
  }

  function WordAt(b: Image, k: nat): uint32
    requires k + 4 <= 224
  {
    FromBytes(b[k], b[k + 1], b[k + 2], b[k + 3])
  }

  function FilterWords(b: Image): IdArray {
    seq(32, i requires 0 <= i < 32 => WordAt(b, 84 + 4 * i))
  }

  function Parse(b: Image): Package {
    Package(WordAt(b, 0), WordAt(b, 4), WordAt(b, 8),
            CanFrame(WordAt(b, 12), b[16], b[17], b[20..84]),
            FilterWords(b),
            WordAt(b, 212), WordAt(b, 216), WordAt(b, 220))
  }

  lemma WordOfImage(p: Package, k: nat, x: uint32)
    requires k + 4 <= 224
    requires ImageByte(p, k) == ByteOf(x, 0) && ImageByte(p, k + 1) == ByteOf(x, 1)
    requires ImageByte(p, k + 2) == ByteOf(x, 2) && ImageByte(p, k + 3) == ByteOf(x, 3)
    ensures WordAt(Serialize(p), k) == x
  {
    WordOfBytes(x);
  }

  lemma FilterWord(p: Package, i: nat)
    requires i < 32
    ensures WordAt(Serialize(p), 84 + 4 * i) == p.filterIds[i]
  {
    assert (4 * i) / 4 == i && (4 * i + 1) / 4 == i && (4 * i + 2) / 4 == i && (4 * i + 3) / 4 == i;
    WordOfImage(p, 84 + 4 * i, p.filterIds[i]);
  }

  lemma FrameOfImage(p: Package)
    ensures Parse(Serialize(p)).frame == p.frame
  {
    WordOfImage(p, 12, p.frame.id);
    var b := Serialize(p);
    assert b[16] == ImageByte(p, 16) && b[17] == ImageByte(p, 17);
    assert b[20..84] == p.frame.data;
  }

  lemma IdsOfImage(p: Package)
    ensures FilterWords(Serialize(p)) == p.filterIds
  {
    var words := FilterWords(Serialize(p));
    forall i: nat | i < 32
      ensures words[i] == p.filterIds[i]
    {
      FilterWord(p, i);
    }
  }

  // The word at k is x: the least significant byte comes first.
  predicate HoldsWord(b: Image, k: nat, x: int)
    requires k + 4 <= 224
  {
    x == b[k] as int + 0x100 * b[k + 1] as int + 0x1_0000 * b[k + 2] as int + 0x100_0000 * b[k + 3] as int
  }

  /** Where each field lies in the image. */
  lemma ParseFields(b: Image)
    ensures var p := Parse(b);
            && HoldsWord(b, 0, p.magic) && HoldsWord(b, 4, p.order) && HoldsWord(b, 8, p.port)
            && HoldsWord(b, 12, p.frame.id) && b[16] == p.frame.dlc && b[17] == p.frame.flags
            && (forall i :: 0 <= i < 64 ==> b[20 + i] == p.frame.data[i])
            && (forall i :: 0 <= i < 32 ==> HoldsWord(b, 84 + 4 * i, p.filterIds[i]))
            && HoldsWord(b, 212, p.filterCount) && HoldsWord(b, 216, p.ack) && HoldsWord(b, 220, p.ackFor)
  {
    var p := Parse(b);
    forall i | 0 <= i < 32
      ensures HoldsWord(b, 84 + 4 * i, p.filterIds[i])
    {
      assert p.filterIds[i] == WordAt(b, 84 + 4 * i);
    }
  }

  /** A package survives being written as memory and read back. */
  lemma ParseSerialize(p: Package)
    ensures Parse(Serialize(p)) == p
  {
    WordOfImage(p, 0, p.magic);
    WordOfImage(p, 4, p.order);
    WordOfImage(p, 8, p.port);
    WordOfImage(p, 212, p.filterCount);
    WordOfImage(p, 216, p.ack);
    WordOfImage(p, 220, p.ackFor);
    FrameOfImage(p);
    IdsOfImage(p);
  }

  // The two bytes of the frame that hold nothing.
  predicate IsFiller(j: nat) { j == 18 || j == 19 }

  lemma BytesOfWordAt(b: Image, k: nat, i: nat)
    requires k + 4 <= 224 && i < 4
    ensures ByteOf(WordAt(b, k), i) == b[k + i]
  {
    BytesOfWord(b[k], b[k + 1], b[k + 2], b[k + 3]);
  }

  /** An image is determined by the package that is read from it, up to the filler. */
  lemma SerializeParse(b: Image, j: nat)
    requires j < PACKAGE_SIZE && !IsFiller(j)
    ensures Serialize(Parse(b))[j] == b[j]
  {
    hide ByteOf, WordAt;
    assert Serialize(Parse(b))[j] == ImageByte(Parse(b), j);
    if j < 4 {
      BytesOfWordAt(b, 0, j);
    } else if j < 8 {
      BytesOfWordAt(b, 4, j - 4);
    } else if j < 12 {
      BytesOfWordAt(b, 8, j - 8);
    } else if j < 16 {
      BytesOfWordAt(b, 12, j - 12);
    } else if 84 <= j < 212 {
      BytesOfWordAt(b, 84 + 4 * ((j - 84) / 4), (j - 84) % 4);
    } else if 212 <= j < 216 {
      BytesOfWordAt(b, 212, j - 212);
    } else if 216 <= j < 220 {
      BytesOfWordAt(b, 216, j - 216);
    } else if 220 <= j {
      BytesOfWordAt(b, 220, j - 220);
    }
  }

  // ---------- acknowledgements ----------

  predicate IsFilterOrder(p: Package) {
    p.order == ORDER_ADD_FILTER || p.order == ORDER_REMOVE_FILTER
  }

  predicate WellFormed(p: Package) {
    IsFilterOrder(p) ==> p.filterCount <= MAX_FILTER_IDS
  }

  function FilterIds(p: Package): seq<CanId>
    requires p.filterCount <= MAX_FILTER_IDS
  {
    p.filterIds[..p.filterCount]
  }

  // The reply is the request's own package with three fields overwritten.
  function Reply(p: Package, ret: int): Package {
    p.(order := ORDER_ACK, ack := if ret == 0 then ACK_OKAY else ACK_ERROR, ackFor := p.order)
  }

  // What a client is written for a frame: the frame and otherwise zeros.
  function ReceivedPackage(f: CanFrame): Package {
    Package(SOCKET_MAGIC_CODE, ORDER_RECEIVE, 0, f, seq(32, _ => 0), 0, 0, 0)
  }

  /** Its memory image, byte by byte. */
  lemma ReceivedImage(f: CanFrame, j: nat)
    requires j < PACKAGE_SIZE
    ensures Serialize(ReceivedPackage(f))[j] ==
            if j < 12 then [0xDE, 0xC0, 0xAD, 0xDE, 1, 0, 0, 0, 0, 0, 0, 0][j]
            else if j < 16 then ByteOf(f.id, j - 12)
            else if j == 16 then f.dlc
            else if j == 17 then f.flags
            else if 20 <= j < 84 then f.data[j - 20]
            else 0
  {
    var p := ReceivedPackage(f);
    assert Serialize(p)[j] == ImageByte(p, j);
    if 84 <= j < 212 {
      assert p.filterIds[(j - 84) / 4] == 0;
    }
  }

  // The packages served: those before the first bad magic code.
  function GoodPrefix(ps: seq<Package>): (k: nat)
    ensures k <= |ps|
    ensures forall i :: 0 <= i < k ==> ps[i].magic == SOCKET_MAGIC_CODE
    ensures k < |ps| ==> ps[k].magic != SOCKET_MAGIC_CODE
  {
    if ps == [] || ps[0].magic != SOCKET_MAGIC_CODE then 0 else 1 + GoodPrefix(ps[1..])
  }

  function FilterOrders(ps: seq<Package>): seq<Package> {
    if ps == [] then []
    else (if IsFilterOrder(ps[0]) then [ps[0]] else []) + FilterOrders(ps[1..])
  }

  // The replies written while a client's packages are served.
  function AckTrace(ps: seq<Package>): seq<Package> {
    if ps == [] || ps[0].magic != SOCKET_MAGIC_CODE then []
    else (if IsFilterOrder(ps[0]) then [ReplyFor(ps[0])] else []) + AckTrace(ps[1..])
  }

  function ReplyFor(p: Package): Package { Reply(p, if p.filterCount == 0 then -4 else 0) }

  // A reply repeats the order's package, except that it names the order it answers and says OKAY
  // exactly when the list is not empty.
  ghost predicate Answers(reply: Package, order: Package) {
    && reply.magic == order.magic && reply.port == order.port && reply.frame == order.frame
    && reply.filterIds == order.filterIds && reply.filterCount == order.filterCount
    && reply.order == ORDER_ACK && reply.ackFor == order.order
    && (reply.ack == ACK_OKAY <==> order.filterCount != 0)
    && (reply.ack == ACK_ERROR <==> order.filterCount == 0)
  }

  /** Exactly one reply per ADD or REMOVE order before the first bad magic code, in order. */
  lemma {:induction false} AckTraceIsExact(ps: seq<Package>)
    ensures var orders := FilterOrders(ps[..GoodPrefix(ps)]);
            && |AckTrace(ps)| == |orders|
            && forall k :: 0 <= k < |orders| ==> Answers(AckTrace(ps)[k], orders[k])
  {
    if ps == [] || ps[0].magic != SOCKET_MAGIC_CODE {
    } else {
      var head, rest := ps[0], ps[1..];
      AckTraceIsExact(rest);
      assert ps[..GoodPrefix(ps)] == [head] + rest[..GoodPrefix(rest)];
      OrdersOfCons(head, rest[..GoodPrefix(rest)]);
      assert IsFilterOrder(head) ==> Answers(ReplyFor(head), head);
    }
  }

  lemma OrdersOfCons(head: Package, rest: seq<Package>)
    ensures FilterOrders([head] + rest) == (if IsFilterOrder(head) then [head] else []) + FilterOrders(rest)
  {
  }
}
