/** A client's socket, and the loop that assembles n bytes from whatever messages arrive. */
module Connections {
  import opened CanFrames
  import opened Packages
  import opened Messages

  // What the peer has in store: the messages that are still to arrive, and the reads that will
  // still be interrupted by a signal at most. Then the peer closes or, if broken, the connection
  // fails.
  datatype Incoming = Incoming(messages: seq<Message>, interrupts: nat, broken: bool)

  // The packages that a reader of this connection will see.
  function ToCome(x: Incoming): seq<Package> { PackagesOf(x.messages, x.broken) }

  /** One system call that asks for the bytes of the buffer from off up to end: it is interrupted,
      or meets the end, or uses up a message and delivers what fits of it. */
  ghost predicate ReadOnce(x: Incoming, b: seq<uint8>, off: nat, end: nat,
                           x': Incoming, b': seq<uint8>, nread: int, interrupted: bool)
    requires off < end <= |b|
  {
    if interrupted then
      nread == -1 && x.interrupts > 0 && x' == x.(interrupts := x.interrupts - 1) && b' == b
    else if x.messages == [] then
      nread == (if x.broken then -1 else 0) && x' == x && b' == b
    else
      var piece := FirstOf(x.messages[0], end - off);
      nread == |piece| && x' == x.(messages := x.messages[1..]) && b' == b[..off] + piece + b[off + |piece|..]
  }

  class Connection {
    var incoming: Incoming
    var replies: seq<Package>

    constructor (incoming: Incoming)
      ensures this.incoming == incoming && replies == []
    {
      this.incoming, replies := incoming, [];
    }

    method Read(buf: array<uint8>, off: nat, end: nat) returns (nread: int, interrupted: bool)
      requires off < end <= buf.Length
      modifies this`incoming, buf
      ensures ReadOnce(old(incoming), old(buf[..]), off, end, incoming, buf[..], nread, interrupted)
    {
      if incoming.interrupts > 0 {
        var now: bool := *;
        if now {
          incoming := incoming.(interrupts := incoming.interrupts - 1);
          return -1, true;
        }
      }
      if |incoming.messages| == 0 {
        return if incoming.broken then -1 else 0, false;
      }
      var piece := FirstOf(incoming.messages[0], end - off);
      forall i | 0 <= i < |piece| {
        buf[off + i] := piece[i];
      }
      incoming := incoming.(messages := incoming.messages[1..]);
      return |piece|, false;
    }

    method Write(p: Package)
      modifies this`replies
      ensures replies == old(replies) + [p]
    {
      replies := replies + [p];
    }
  }

  // ---------- reading n bytes ----------

  // What a read of g into the buffer b leaves and returns.
  ghost predicate Received(g: Intake, b: seq<uint8>, x: Incoming, now: seq<uint8>, ret: int) {
    && |g.bytes| <= |b| && now == g.bytes + b[|g.bytes|..]
    && x.messages == g.rest && ret == if g.failed then -1 else |g.bytes|
  }

  // Of the n bytes wanted, all in the end, the buffer now has the first ones; b is what it was.
  ghost predicate Reading(all: Intake, b: seq<uint8>, x: Incoming, now: seq<uint8>, total: nat, n: nat) {
    && total <= n <= |b| == |now| && now[total..] == b[total..]
    && var g := Gather(x.messages, n - total, x.broken);
       all == Intake(now[..total] + g.bytes, g.rest, g.failed)
  }

  // Sequences: a piece is put in place, and what lies after it is what was there.
  lemma PutPiece(b: seq<uint8>, now: seq<uint8>, total: nat, piece: seq<uint8>, now': seq<uint8>)
    requires total + |piece| <= |b| == |now| && now[total..] == b[total..]
    requires now' == now[..total] + piece + now[total + |piece|..]
    ensures now'[..total + |piece|] == now[..total] + piece
    ensures now'[total + |piece|..] == b[total + |piece|..]
  {
    assert now[total + |piece|..] == now[total..][|piece|..];
    assert b[total + |piece|..] == b[total..][|piece|..];
  }

  lemma ReadPiece(all: Intake, b: seq<uint8>, x: Incoming, now: seq<uint8>, total: nat, n: nat,
                  x': Incoming, now': seq<uint8>, nread: int)
    requires Reading(all, b, x, now, total, n) && total < n && nread > 0
    requires ReadOnce(x, now, total, n, x', now', nread, false)
    ensures Reading(all, b, x', now', total + nread, n)
  {
    var piece := FirstOf(x.messages[0], n - total);
    FirstPiece(x.messages, n - total, x.broken);
    hide Gather, FirstOf;
    PutPiece(b, now, total, piece, now');
    var start, later := now[..total], Gather(x'.messages, n - total - nread, x.broken);
    assert start + (piece + later.bytes) == start + piece + later.bytes;
  }

  lemma ReadNothing(all: Intake, b: seq<uint8>, x: Incoming, now: seq<uint8>, total: nat, n: nat,
                    x': Incoming, now': seq<uint8>, nread: int)
    requires Reading(all, b, x, now, total, n) && total < n && nread <= 0
    requires ReadOnce(x, now, total, n, x', now', nread, false)
    ensures Received(all, b, x', now', if nread == -1 then -1 else total)
  {
    assert now == now[..total] + now[total..];
  }

  lemma ReadingGoesOn(all: Intake, b: seq<uint8>, x: Incoming, now: seq<uint8>, total: nat, n: nat,
                      x': Incoming, now': seq<uint8>, nread: int, interrupted: bool)
    requires Reading(all, b, x, now, total, n) && total < n
    requires ReadOnce(x, now, total, n, x', now', nread, interrupted)
    ensures x'.broken == x.broken
    ensures interrupted ==> nread == -1 && Reading(all, b, x', now', total, n) && x'.interrupts < x.interrupts
    ensures nread > 0 ==> Reading(all, b, x', now', total + nread, n) && x'.interrupts == x.interrupts
    ensures !interrupted && nread <= 0 ==> Received(all, b, x', now', if nread == -1 then -1 else total)
  {
    hide Gather, FirstOf;
    if nread > 0 {
      ReadPiece(all, b, x, now, total, n, x', now', nread);
    } else if !interrupted {
      ReadNothing(all, b, x, now, total, n, x', now', nread);
    }
  }

  lemma ReadingEnds(all: Intake, b: seq<uint8>, x: Incoming, now: seq<uint8>, n: nat)
    requires Reading(all, b, x, now, n, n)
    ensures Received(all, b, x, now, n)
  {
    assert now == now[..n] + now[n..];
  }

  /** However often reads are interrupted, the bytes are those that the messages yield, or there
      is a failure. Nothing is written beyond them, and no other message is used up. */
  method ReadFull(conn: Connection, buf: array<uint8>, n: nat) returns (ret: int)
    requires n <= buf.Length
    modifies conn`incoming, buf
    ensures conn.incoming.broken == old(conn.incoming.broken)
    ensures var g := Gather(old(conn.incoming.messages), n, old(conn.incoming.broken));
      Received(g, old(buf[..]), conn.incoming, buf[..], ret)
  {
    ghost var all, b := Gather(conn.incoming.messages, n, conn.incoming.broken), buf[..];
    assert Reading(all, b, conn.incoming, b, 0, n);
    hide Gather, ReadOnce, Reading, Received;
    var total := 0;
    while total < n
      invariant 0 <= total <= n && Reading(all, b, conn.incoming, buf[..], total, n)
      invariant conn.incoming.broken == old(conn.incoming.broken)
      decreases conn.incoming.interrupts, n - total
    {
      ghost var x, now := conn.incoming, buf[..];
      var nread, interrupted := conn.Read(buf, total, n);
      ReadingGoesOn(all, b, x, now, total, n, conn.incoming, buf[..], nread, interrupted);
      if nread <= 0 {
        if nread == -1 {
          if interrupted {
            continue;
          }
          return nread;
        }
        return if total > 0 then total else 0;
      }
      total := total + nread;
    }
    ReadingEnds(all, b, conn.incoming, buf[..], n);
    return total;
  }
}
