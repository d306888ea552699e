/** What one package does, read off its fields and off its bytes. */
module OrderEffects {
  import opened CanFrames
  import opened FilterTables
  import opened Receivers
  import opened ClientIndex
  import opened Packages
  import opened Messages
  import opened Controllers
  import opened Daemon
  import opened DaemonCounts
  import opened DaemonOrders

  // The identifiers of an order are the first of its array, as many as it counts.
  predicate Lists(p: Package, id: CanId) {
    exists i: nat :: i < p.filterCount && i < 32 && p.filterIds[i] == id
  }

  // How often it lists one.
  function TimesListed(p: Package, id: CanId, n: nat): nat
    requires n <= 32
  {
    if n == 0 then 0 else TimesListed(p, id, n - 1) + if p.filterIds[n - 1] == id then 1 else 0
  }

  lemma {:induction false} TimesIsMultiplicity(p: Package, id: CanId, n: nat)
    requires n <= 32
    ensures multiset(p.filterIds[..n])[id] == TimesListed(p, id, n)
  {
    if n == 0 {
    } else {
      TimesIsMultiplicity(p, id, n - 1);
      assert p.filterIds[..n] == p.filterIds[..n - 1] + [p.filterIds[n - 1]];
    }
  }

  lemma ListsIsMember(p: Package, id: CanId)
    requires p.filterCount <= 32
    ensures Lists(p, id) <==> id in FilterIds(p)
  {
    if id in FilterIds(p) {
      var i :| 0 <= i < |FilterIds(p)| && FilterIds(p)[i] == id;
      assert p.filterIds[i] == id;
    }
    forall i: nat | i < p.filterCount && i < 32 && p.filterIds[i] == id
      ensures id in FilterIds(p)
    {
      assert FilterIds(p)[i] == id;
    }
  }

  /** After a package client c asks for what it asked for, with what an ADD lists and without what a
      REMOVE lists; any other client asks for what it did. */
  lemma ServeAsks(s: Server, c: Client, p: Package, clock: nat -> nat, d: Client, id: CanId)
    requires p.order == 2 || p.order == 3 ==> p.filterCount <= 32
    ensures var before := Asks(s.index.forward, d, id);
            Asks(Serve(s, c, p, clock).index.forward, d, id) <==>
              if d == c && p.order == 2 then before || Lists(p, id)
              else if d == c && p.order == 3 then before && !Lists(p, id)
              else before
  {
    if p.order == 2 || p.order == 3 {
      ListsIsMember(p, id);
      AsksAfter(s.index, c, OrderOf(p), d, id);
    }
  }

  /** Port 5's count of an identifier goes up by the times an ADD lists it and down by the times a
      REMOVE does, to zero at most; no other port's tables change. */
  lemma ServeCounts(s: Server, c: Client, p: Package, clock: nat -> nat, id: CanId)
    requires p.order == 2 || p.order == 3 ==> p.filterCount <= 32
    requires Consistent(s.tables.port5)
    ensures var t := Serve(s, c, p, clock).tables;
            var before := CountOf(s.tables.port5, id);
            && t == s.tables.(port5 := t.port5) && Consistent(t.port5)
            && CountOf(t.port5, id) ==
                 if p.order == 2 then before + TimesListed(p, id, p.filterCount)
                 else if p.order == 3 then
                   if before < TimesListed(p, id, p.filterCount) then 0 else before - TimesListed(p, id, p.filterCount)
                 else before
  {
    if p.order == 2 || p.order == 3 {
      TimesIsMultiplicity(p, id, p.filterCount);
      MembersOf(FilterIds(p));
      ServeApplies(s, c, p, clock);
    }
  }

  /** An ADD stores for each listed identifier that has no filter one for port 5 that writes to the
      sockets, and keeps every other filter; a REMOVE keeps the filters of what is still counted. */
  lemma ServeFilters(s: Server, c: Client, p: Package, clock: nat -> nat, id: CanId)
    requires p.order == 2 || p.order == 3 ==> p.filterCount <= 32
    requires Consistent(s.tables.port5)
    ensures var f, g := s.tables.port5.filters, Serve(s, c, p, clock).tables.port5.filters;
            && (id in g <==> CountOf(Serve(s, c, p, clock).tables.port5, id) > 0)
            && (id in g && id in f ==> g[id] == f[id])
            && (id in g && id !in f ==>
                  p.order == 2 && Lists(p, id) && g[id] == Filter(5, p.filterCount, SocketReceive))
  {
    if p.order == 2 || p.order == 3 {
      ListsIsMember(p, id);
      MembersOf(FilterIds(p));
      ServeApplies(s, c, p, clock);
    }
  }

  /** A SEND hands one frame to the library and changes nothing else; an ADD or a REMOVE hands it none;
      any other order changes nothing. */
  lemma ServeSends(s: Server, c: Client, p: Package, clock: nat -> nat)
    requires p.order == 2 || p.order == 3 ==> p.filterCount <= 32
    ensures var t := Serve(s, c, p, clock);
            if p.order == 0 then
              && t == s.(sent := t.sent) && |t.sent| == |s.sent| + 1 && t.sent[..|s.sent|] == s.sent
              && IsTransmitted(t.sent[|s.sent|], p.port, p.frame, clock(|s.sent|))
            else if p.order == 2 || p.order == 3 then t.sent == s.sent
            else t == s
  {
    hide IsTransmitted, Transmit;
    TransmitIsTransmitted(p.port, p.frame, clock(|s.sent|));
  }

  /** The reverse index is after an ADD, and after a REMOVE of a client with an entry, the exact
      inverse of the forward map, and otherwise as before. */
  lemma ServeRebuilds(s: Server, c: Client, p: Package, clock: nat -> nat)
    requires p.order == 2 || p.order == 3 ==> p.filterCount <= 32
    ensures var x := Serve(s, c, p, clock).index;
            if p.order == 2 || (p.order == 3 && c in s.index.forward) then IsInverse(x.reverse, x.forward)
            else x == s.index
  {
    InverseInverts(Serve(s, c, p, clock).index.forward);
  }

  // ---------- from the bytes of a message ----------

  // A message of a package's size with the magic code and an order.
  ghost predicate IsOrderMessage(m: Message, order: int) {
    |m| == 224 && m[0..4] == [0xDE, 0xC0, 0xAD, 0xDE] && HoldsWord(m, 4, order)
  }

  lemma WholeMessage(m: Message, rest: seq<Message>, broken: bool)
    requires |m| == 224
    ensures PackagesOf([m] + rest, broken) == [Parse(m)] + PackagesOf(rest, broken)
  {
    hide Parse;
    assert ([m] + rest)[1..] == rest && m[..224] == m;
    assert Gather([m] + rest, 224, broken) == Intake(m, rest, false);
    assert Padded(m) == m;
  }

  /** A whole message with the magic code is one package, and the session goes on after it. */
  lemma MessageIsServed(s: Server, c: Client, m: Message, order: int, rest: seq<Message>, broken: bool,
                        clock: nat -> nat)
    requires IsOrderMessage(m, order)
    requires order == 2 || order == 3 ==> exists n :: n <= 32 && HoldsWord(m, 212, n)
    requires ServedWellFormed(PackagesOf(rest, broken))
    ensures var p, ps := Parse(m), PackagesOf([m] + rest, broken);
            && p.order == order && (order == 2 || order == 3 ==> p.filterCount <= 32)
            && ps == [p] + PackagesOf(rest, broken) && ServedWellFormed(ps)
            && Session(s, c, ps, clock) == Session(Serve(s, c, p, clock), c, PackagesOf(rest, broken), clock)
            && AckTrace(ps) ==
                 (if order == 2 || order == 3 then [ReplyFor(p)] else []) + AckTrace(PackagesOf(rest, broken))
  {
    ParseFields(m);
    var ps := PackagesOf([m] + rest, broken);
    WholeMessage(m, rest, broken);
    assert ps[1..] == PackagesOf(rest, broken);
    assert m[0..4][0] == m[0] && m[0..4][1] == m[1] && m[0..4][2] == m[2] && m[0..4][3] == m[3];
    assert Parse(m).magic == 0xDEADC0DE;
  }

  /** The bytes of an ADD of one identifier make the client ask for it and raise port 5's count of it
      by one. */
  lemma AddMessage(s: Server, c: Client, m: Message, id: CanId, clock: nat -> nat, d: Client, x: CanId)
    requires IsOrderMessage(m, 2) && HoldsWord(m, 84, id) && HoldsWord(m, 212, 1)
    requires Consistent(s.tables.port5)
    ensures var t := Serve(s, c, Parse(m), clock);
            && WellFormed(Parse(m))
            && (Asks(t.index.forward, d, x) <==> Asks(s.index.forward, d, x) || (d == c && x == id))
            && CountOf(t.tables.port5, x) == CountOf(s.tables.port5, x) + if x == id then 1 else 0
  {
    var p := Parse(m);
    ParseFields(m);
    assert HoldsWord(m, 84 + 4 * 0, p.filterIds[0]);
    assert p.filterCount == 1 && p.order == 2 && p.filterIds[0] == id;
    hide Parse, HoldsWord, Serve;
    ServeAsks(s, c, p, clock, d, x);
    ServeCounts(s, c, p, clock, x);
    OneListed(p, x);
  }

  /** The bytes of a REMOVE of one identifier undo that. */
  lemma RemoveMessage(s: Server, c: Client, m: Message, id: CanId, clock: nat -> nat, d: Client, x: CanId)
    requires IsOrderMessage(m, 3) && HoldsWord(m, 84, id) && HoldsWord(m, 212, 1)
    requires Consistent(s.tables.port5)
    ensures var t := Serve(s, c, Parse(m), clock);
            var before := CountOf(s.tables.port5, x);
            && WellFormed(Parse(m))
            && (Asks(t.index.forward, d, x) <==> Asks(s.index.forward, d, x) && !(d == c && x == id))
            && CountOf(t.tables.port5, x) == if x == id && before > 0 then before - 1 else before
  {
    var p := Parse(m);
    ParseFields(m);
    assert HoldsWord(m, 84 + 4 * 0, p.filterIds[0]);
    assert p.filterCount == 1 && p.order == 3 && p.filterIds[0] == id;
    hide Parse, HoldsWord, Serve;
    ServeAsks(s, c, p, clock, d, x);
    ServeCounts(s, c, p, clock, x);
    OneListed(p, x);
    assert CountOf(s.tables.port5, x) >= 0;
  }

  lemma OneListed(p: Package, x: CanId)
    requires p.filterCount == 1
    ensures Lists(p, x) <==> p.filterIds[0] == x
    ensures TimesListed(p, x, 1) == if p.filterIds[0] == x then 1 else 0
  {
    assert TimesListed(p, x, 0) == 0;
  }

  /** The bytes of a SEND are the frame that the library is handed: identifier bytes reversed, the
      payload up to the standard's length, on the channel of the port. */
  lemma SendMessage(s: Server, c: Client, m: Message, port: uint32, clock: nat -> nat)
    requires IsOrderMessage(m, 0) && HoldsWord(m, 8, port)
    ensures WellFormed(Parse(m))
    ensures var t := Serve(s, c, Parse(m), clock);
            && t == s.(sent := t.sent) && |t.sent| == |s.sent| + 1 && t.sent[..|s.sent|] == s.sent
            && var sent := t.sent[|s.sent|];
               && sent.frame.channel == (if port <= 4 then 5 + port else 5)
               && sent.frame.canId ==
                    m[15] as int + 0x100 * m[14] as int + 0x1_0000 * m[13] as int + 0x100_0000 * m[12] as int
               && sent.frame.canType == m[17]
               && forall i :: 0 <= i < 64 ==> sent.frame.data[i] == if i < sent.frame.len then m[20 + i] else 0
  {
    var p := Parse(m);
    ParseFields(m);
    assert p.order == 0 && p.port == port;
    ServeSends(s, c, p, clock);
    var h := Serve(s, c, p, clock).sent[|s.sent|].frame;
    assert IsSent(h, p.frame, if port <= 4 then 5 + port else 5, clock(|s.sent|));
    assert p.frame.id == FromBytes(m[12], m[13], m[14], m[15]);
    BytesOfWord(m[12], m[13], m[14], m[15]);
    assert ByteOf(h.canId, 0) == m[15] && ByteOf(h.canId, 1) == m[14];
    assert ByteOf(h.canId, 2) == m[13] && ByteOf(h.canId, 3) == m[12];
    WordOfBytes(h.canId);
  }

  lemma SmallWord(x: uint32, j: nat)
    requires x <= 4 && j < 4
    ensures ByteOf(x, j) == if j == 0 then x else 0
  {
  }

  // The bytes of a reply against those of its order.
  lemma ReplyBytes(p: Package, j: nat)
    requires j < 224 && p.order <= 4
    ensures var status := if p.filterCount == 0 then 1 else 0;
            Serialize(ReplyFor(p))[j] ==
              if 4 <= j < 8 then [4, 0, 0, 0][j - 4]
              else if 216 <= j < 220 then [status, 0, 0, 0][j - 216]
              else if 220 <= j then [p.order, 0, 0, 0][j - 220]
              else Serialize(p)[j]
  {
    var q := ReplyFor(p);
    assert Serialize(q)[j] == ImageByte(q, j) && Serialize(p)[j] == ImageByte(p, j);
    if 4 <= j < 8 {
      SmallWord(q.order, j - 4);
    } else if 216 <= j < 220 {
      SmallWord(q.ack, j - 216);
    } else if 220 <= j {
      SmallWord(q.ackFor, j - 220);
    }
  }

  /** The reply repeats the message, except for the order, which is now 4, the status, which is 0 for
      okay and 1 for an empty list, and the order replied to. */
  lemma ReplyImage(m: Message, order: uint8, j: nat)
    requires IsOrderMessage(m, order as int) && order <= 4 && j < 224 && !IsFiller(j)
    ensures var status := if HoldsWord(m, 212, 0) then 1 else 0;
            Serialize(ReplyFor(Parse(m)))[j] ==
              if 4 <= j < 8 then [4, 0, 0, 0][j - 4]
              else if 216 <= j < 220 then [status, 0, 0, 0][j - 216]
              else if 220 <= j then [order, 0, 0, 0][j - 220]
              else m[j]
  {
    var p := Parse(m);
    ParseFields(m);
    assert p.order == order && (p.filterCount == 0 <==> HoldsWord(m, 212, 0));
    hide Parse, Serialize, HoldsWord, ReplyFor;
    ReplyBytes(p, j);
    SerializeParse(m, j);
  }

  // ---------- a session, byte by byte ----------

  // An ADD of 0x100 on the first port, and a message without the magic code.
  function SubscribeMessage(): Message {
    [0xDE, 0xC0, 0xAD, 0xDE, 2, 0, 0, 0, 0, 0, 0, 0] + seq(72, _ => 0)
    + [0, 1, 0, 0] + seq(124, _ => 0)
    + [1, 0, 0, 0, 0, 0, 0, 0, 0, 0, 0, 0]
  }

  function ZeroMessage(): (m: Message)
    ensures |m| == 224
  {
    seq(224, _ => 0)
  }

  lemma SubscribeIsOrder()
    ensures var m := SubscribeMessage();
            IsOrderMessage(m, 2) && HoldsWord(m, 84, 0x100) && HoldsWord(m, 212, 1)
  {
    var m := SubscribeMessage();
    assert m[0..4] == [0xDE, 0xC0, 0xAD, 0xDE];
    assert m[4] == 2 && m[5] == 0 && m[6] == 0 && m[7] == 0;
    assert m[84] == 0 && m[85] == 1 && m[86] == 0 && m[87] == 0;
    assert m[212] == 1 && m[213] == 0 && m[214] == 0 && m[215] == 0;
  }

  lemma ZeroMessageEnds()
    ensures var ps := PackagesOf([ZeroMessage()], false);
            |ps| == 1 && ps[0].magic == 0
  {
    assert HoldsWord(ZeroMessage(), 0, 0);
    hide ZeroMessage;
    OneMessage(ZeroMessage(), 0);
  }

  lemma OneMessage(m: Message, magic: int)
    requires |m| == 224 && HoldsWord(m, 0, magic)
    ensures var ps := PackagesOf([m], false);
            |ps| == 1 && ps[0].magic == magic
  {
    ParseFields(m);
    assert PackagesOf([], false) == [];
    hide Parse, PackagesOf;
    WholeMessage(m, [], false);
    assert [m] + [] == [m];
  }

  /** Client 7 writes these two messages to a fresh server: it asks for 0x100 and for nothing else, the
      count of 0x100 is one, and it has had one reply. */
  lemma SubscribeSession(clock: nat -> nat, d: Client, x: CanId)
    ensures var ps := PackagesOf([SubscribeMessage(), ZeroMessage()], false);
            && ServedWellFormed(ps) && |AckTrace(ps)| == 1
            && var t := Session(Server(EMPTY_INDEX, NO_FILTERS, []), 7, ps, clock);
               && (Asks(t.index.forward, d, x) <==> d == 7 && x == 0x100)
               && CountOf(t.tables.port5, x) == if x == 0x100 then 1 else 0
  {
    var s, m, rest := Server(EMPTY_INDEX, NO_FILTERS, []), SubscribeMessage(), PackagesOf([ZeroMessage()], false);
    SubscribeIsOrder();
    ZeroMessageEnds();
    hide SubscribeMessage, ZeroMessage, IsOrderMessage, HoldsWord, PackagesOf, Serve, Parse;
    assert [m] + [ZeroMessage()] == [m, ZeroMessage()];
    MessageIsServed(s, 7, m, 2, [ZeroMessage()], false, clock);
    AddMessage(s, 7, m, 0x100, clock, d, x);
    assert AckTrace(rest) == [];
  }
}
