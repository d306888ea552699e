/** The socket controller: one client's session, from the bytes it writes to the state it
    leaves and the replies it gets. */
module Controllers {
  import opened CanFrames
  import opened FilterTables
  import opened WorkQueues
  import opened Receivers
  import opened ClientIndex
  import opened Packages
  import opened Messages
  import opened Connections
  import opened Routing

  // What is handed to the hardware library: the instance name and the frame.
  datatype Transmission = Transmission(instance: string, frame: HalFrame)

  datatype Server = Server(index: Index, tables: Tables, sent: seq<Transmission>)

  // ---------- what serving a package does ----------

  function SocketFilter(p: Package): Filter {
    Filter(LibGetCanDevPort(p.port), p.filterCount, SocketReceive)
  }

  function Transmit(config: CanIpcConfig, frame: CanFrame, now: nat): Transmission {
    Transmission(config.instance, Encode(frame, config.devPort, now))
  }

  function Serve(s: Server, c: Client, p: Package, clock: nat -> nat): Server
    requires WellFormed(p)
  {
    var port := LibGetCanDevPort(p.port);
    if p.order == ORDER_SEND then
      s.(sent := s.sent + [Transmit(LibSetCanIpcHandle(p.port), p.frame, clock(|s.sent|))])
    else if p.order == ORDER_ADD_FILTER then
      s.(index := AfterRegister(s.index, c, FilterIds(p)),
         tables := if p.filterCount == 0 then s.tables
                   else s.tables.With(port, Registered(s.tables.At(port), SocketFilter(p), FilterIds(p))))
    else if p.order == ORDER_REMOVE_FILTER then
      s.(index := AfterDeregister(s.index, c, FilterIds(p)),
         tables := if p.filterCount == 0 then s.tables
                   else s.tables.With(port, Deregistered(s.tables.At(port), FilterIds(p))))
    else s
  }

  // Only the packages that are served, those before the first bad magic code, have to be well
  // formed.
  predicate ServedWellFormed(ps: seq<Package>) {
    ps == [] || ps[0].magic != SOCKET_MAGIC_CODE || (WellFormed(ps[0]) && ServedWellFormed(ps[1..]))
  }

  /** A session that reaches the end of its connection drops the client's forward entry; one that is
      ended by a bad magic code returns without doing so. */
  function Session(s: Server, c: Client, ps: seq<Package>, clock: nat -> nat): Server
    requires ServedWellFormed(ps)
    decreases |ps|
  {
    if ps == [] then s.(index := AfterClean(s.index, c))
    else if ps[0].magic != SOCKET_MAGIC_CODE then s
    else Session(Serve(s, c, ps[0], clock), c, ps[1..], clock)
  }

  // The frames handed to the sender by the packages that are served.
  function SendOrders(ps: seq<Package>): seq<Package> {
    if ps == [] || ps[0].magic != SOCKET_MAGIC_CODE then []
    else (if ps[0].order == ORDER_SEND then [ps[0]] else []) + SendOrders(ps[1..])
  }

  // The frame that the library is handed: the bytes of the identifier in reverse, the standard's
  // length for the code, and that much of the payload.
  ghost predicate IsSent(h: HalFrame, f: CanFrame, channel: uint8, now: nat) {
    && h.timeStamp == now && h.count == 1 && h.canType == f.flags && h.channel == channel
    && (forall k :: 0 <= k < 4 ==> ByteOf(h.canId, k) == ByteOf(f.id, 3 - k))
    && h.len == (if f.dlc <= 8 then f.dlc
                 else if f.dlc <= 12 then 4 * f.dlc - 24
                 else if f.dlc <= 15 then 16 * f.dlc - 176
                 else 64)
    && (forall i :: 0 <= i < 64 ==> h.data[i] == if i < h.len then f.data[i] else 0)
  }

  // Port p of the five is sent on CAN channel 5 + p, under that channel's name.
  ghost predicate IsTransmitted(t: Transmission, port: uint32, f: CanFrame, now: nat) {
    var q := if port <= 4 then port else 0;
    IsSent(t.frame, f, 5 + q, now) && t.instance == "can" + ["56789"[q]] + "_ins0ch" + ["46723"[q]]
  }

  lemma EncodeIsSent(f: CanFrame, channel: uint8, now: nat)
    ensures IsSent(Encode(f, channel, now), f, channel, now)
  {
    DlcValues(f.dlc);
    forall k | 0 <= k < 4
      ensures ByteOf(BSwap32(f.id), k) == ByteOf(f.id, 3 - k)
    {
      BSwapReverses(f.id, k);
    }
  }

  lemma TransmitIsTransmitted(port: uint32, f: CanFrame, now: nat)
    ensures IsTransmitted(Transmit(LibSetCanIpcHandle(port), f, now), port, f, now)
  {
    ChannelOfPort(port);
    EncodeIsSent(f, LibSetCanIpcHandle(port).devPort, now);
  }

  /** Each SEND order served transmits exactly one frame, in order, on the channel of its port. */
  lemma {:induction false} SessionSends(s: Server, c: Client, ps: seq<Package>, clock: nat -> nat)
    requires ServedWellFormed(ps)
    ensures var sent, orders := Session(s, c, ps, clock).sent, SendOrders(ps);
            && |sent| == |s.sent| + |orders| && sent[..|s.sent|] == s.sent
            && forall k :: 0 <= k < |orders| ==>
                 IsTransmitted(sent[|s.sent| + k], orders[k].port, orders[k].frame, clock(|s.sent| + k))
    decreases |ps|
  {
    if ps == [] || ps[0].magic != SOCKET_MAGIC_CODE {
    } else {
      hide IsTransmitted, Transmit;
      TransmitIsTransmitted(ps[0].port, ps[0].frame, clock(|s.sent|));
      SessionSends(Serve(s, c, ps[0], clock), c, ps[1..], clock);
    }
  }

  // What the served packages do to port 5's tables.
  function SessionOps(ps: seq<Package>): seq<Op>
    requires ServedWellFormed(ps)
  {
    if ps == [] || ps[0].magic != SOCKET_MAGIC_CODE then []
    else OpsOf(ps[0]) + SessionOps(ps[1..])
  }

  function OpOf(p: Package): Op
    requires IsFilterOrder(p) && WellFormed(p)
  {
    if p.order == ORDER_ADD_FILTER then Register(SocketFilter(p), FilterIds(p)) else Deregister(FilterIds(p))
  }

  lemma ServeApplies(s: Server, c: Client, p: Package, clock: nat -> nat)
    requires WellFormed(p) && Consistent(s.tables.port5)
    ensures Serve(s, c, p, clock).tables ==
            s.tables.(port5 := if IsFilterOrder(p) then Apply(s.tables.port5, OpOf(p)) else s.tables.port5)
  {
    if p.filterCount == 0 {
      assert FilterIds(p) == [];
      EmptyListChangesNothing(s.tables.port5, SocketFilter(p));
    }
  }

  function OpsOf(p: Package): seq<Op>
    requires WellFormed(p)
  {
    if IsFilterOrder(p) then [OpOf(p)] else []
  }

  lemma ServeReplays(s: Server, c: Client, p: Package, clock: nat -> nat, history: seq<Op>)
    requires WellFormed(p) && s.tables.port5 == Replay(history)
    ensures Serve(s, c, p, clock).tables == s.tables.(port5 := Replay(history + OpsOf(p)))
  {
    ReplayCounts(history, 0);
    ServeApplies(s, c, p, clock);
    if IsFilterOrder(p) {
      ReplayOneMore(history, OpOf(p));
    } else {
      assert history + [] == history;
    }
  }

  /** A whole session replays its filter orders, whatever ports they name, onto the history of
      port 5's tables, and touches no other port's. */
  lemma {:induction false} SessionReplays(s: Server, c: Client, ps: seq<Package>, clock: nat -> nat, history: seq<Op>)
    requires ServedWellFormed(ps) && s.tables.port5 == Replay(history)
    ensures Session(s, c, ps, clock).tables == s.tables.(port5 := Replay(history + SessionOps(ps)))
    decreases |ps|
  {
    hide Serve, Replay;
    if ps == [] || ps[0].magic != SOCKET_MAGIC_CODE {
      assert history + [] == history;
    } else {
      ServeReplays(s, c, ps[0], clock, history);
      SessionReplays(Serve(s, c, ps[0], clock), c, ps[1..], clock, history + OpsOf(ps[0]));
      assert history + OpsOf(ps[0]) + SessionOps(ps[1..]) == history + (OpsOf(ps[0]) + SessionOps(ps[1..]));
    }
  }

  /** A client that hangs up has no entry left, but every count its session raised stays raised:
      the counts are those of the history extended by its orders, and hanging up adds nothing. */
  lemma HangUpKeepsCounts(s: Server, c: Client, ps: seq<Package>, clock: nat -> nat, history: seq<Op>, id: CanId)
    requires ServedWellFormed(ps) && s.tables.port5 == Replay(history)
    ensures CountOf(Session(s, c, ps, clock).tables.port5, id) == Outstanding(history + SessionOps(ps), id)
    ensures GoodPrefix(ps) == |ps| ==> c !in Session(s, c, ps, clock).index.forward
  {
    SessionReplays(s, c, ps, clock, history);
    ReplayCounts(history + SessionOps(ps), id);
    EndOfStreamDropsEntry(s, c, ps, clock);
  }

  lemma {:induction false} EndOfStreamDropsEntry(s: Server, c: Client, ps: seq<Package>, clock: nat -> nat)
    requires ServedWellFormed(ps)
    ensures GoodPrefix(ps) == |ps| ==> c !in Session(s, c, ps, clock).index.forward
    decreases |ps|
  {
    if ps == [] || ps[0].magic != SOCKET_MAGIC_CODE {
    } else {
      EndOfStreamDropsEntry(Serve(s, c, ps[0], clock), c, ps[1..], clock);
    }
  }

  // ---------- the object ----------

  class CanBus {
    var sent: seq<Transmission>
    const clock: nat -> nat   // the time of the k-th transmission
    const results: nat -> int // what the library returns for it

    constructor (clock: nat -> nat, results: nat -> int)
      ensures sent == [] && this.clock == clock && this.results == results
    {
      sent, this.clock, this.results := [], clock, results;
    }

    method SendCanData(config: CanIpcConfig, frame: CanFrame) returns (ret: int)
      requires |config.instance| < INSTANCE_BUFFER
      modifies this`sent
      ensures sent == old(sent) + [Transmit(config, frame, clock(|old(sent)|))]
      ensures IsSent(sent[|old(sent)|].frame, frame, config.devPort, clock(|old(sent)|))
      ensures ret == results(|old(sent)|)
    {
      EncodeIsSent(frame, config.devPort, clock(|sent|));
      var len := DlcToBytes(frame.dlc);
      var tx := HalFrame(clock(|sent|), BSwap32(frame.id), 1, frame.flags, config.devPort, len,
                         CopyBytes(frame.data, len));
      ret := results(|sent|);
      sent := sent + [Transmission(config.instance, tx)];
    }
  }

  datatype Written = Written(c: Client, p: Package)

  class Sockets {
    var written: seq<Written>

    constructor ()
      ensures written == []
    {
      written := [];
    }

    method Write(c: Client, p: Package)
      modifies this
      ensures written == old(written) + [Written(c, p)]
    {
      written := written + [Written(c, p)];
    }
  }

  /** The next package of the connection, if there is one. */
  method ReadPackage(conn: Connection) returns (p: Option<Package>)
    modifies conn`incoming
    ensures var before, after := ToCome(old(conn.incoming)), ToCome(conn.incoming);
      if before == [] then p == None
      else p == Some(before[0]) && after == before[1..] && |conn.incoming.messages| < |old(conn.incoming.messages)|
  {
    var buf := new uint8[PACKAGE_SIZE](_ => 0);
    ghost var got := Gather(conn.incoming.messages, PACKAGE_SIZE, conn.incoming.broken).bytes;
    var ret := ReadFull(conn, buf, PACKAGE_SIZE);
    if ret <= 0 {
      return None;
    }
    assert buf[..] == Padded(got);
    return Some(Parse(buf[..]));
  }

  class IpcSocketController {
    const manager: ClientManager
    const receiver: CanIpcReceiver
    const bus: CanBus

    ghost predicate Valid()
      reads receiver.port5, receiver.port6, receiver.port7, receiver.port8, receiver.port9
    {
      receiver.Valid()
    }

    ghost function State(): Server
      reads manager, receiver.port5, receiver.port6, receiver.port7, receiver.port8, receiver.port9, bus
    {
      Server(manager.State(), receiver.State(), bus.sent)
    }

    constructor (manager: ClientManager, receiver: CanIpcReceiver, bus: CanBus)
      requires receiver.Valid()
      ensures Valid() && this.manager == manager && this.receiver == receiver && this.bus == bus
    {
      this.manager, this.receiver, this.bus := manager, receiver, bus;
    }

    method AddFilter(c: Client, conn: Connection, p: Package)
      requires Valid() && WellFormed(p) && p.order == ORDER_ADD_FILTER
      modifies manager, receiver`receivePaused, receiver`workPaused, conn`replies,
        receiver.port5, receiver.port6, receiver.port7, receiver.port8, receiver.port9
      ensures Valid() && State() == Serve(old(State()), c, p, bus.clock)
      ensures conn.replies == old(conn.replies) + [ReplyFor(p)]
      ensures !receiver.receivePaused && !receiver.workPaused
    {
      receiver.PauseCanIpcReceiver();
      var ids := FilterIds(p);
      manager.ClientManagerRegister(ids, c);
      var ret := receiver.RegisterCanFilter(LibGetCanDevPort(p.port), Some(ids), SocketReceive);
      conn.Write(Reply(p, ret));
      receiver.ResumeCanIpcReceiver();
    }

    method RemoveFilter(c: Client, conn: Connection, p: Package)
      requires Valid() && WellFormed(p) && p.order == ORDER_REMOVE_FILTER
      modifies manager, receiver`receivePaused, receiver`workPaused, conn`replies,
        receiver.port5, receiver.port6, receiver.port7, receiver.port8, receiver.port9
      ensures Valid() && State() == Serve(old(State()), c, p, bus.clock)
      ensures conn.replies == old(conn.replies) + [ReplyFor(p)]
      ensures !receiver.receivePaused && !receiver.workPaused
    {
      receiver.PauseCanIpcReceiver();
      var ids := FilterIds(p);
      manager.ClientManagerDeregister(ids, c);
      var ret := receiver.DeregisterCanFilter(LibGetCanDevPort(p.port), Some(ids));
      conn.Write(Reply(p, ret));
      receiver.ResumeCanIpcReceiver();
    }

    method ServeOne(c: Client, conn: Connection, p: Package)
      requires Valid() && WellFormed(p)
      modifies manager, receiver`receivePaused, receiver`workPaused, conn`replies,
        receiver.port5, receiver.port6, receiver.port7, receiver.port8, receiver.port9, bus`sent
      ensures Valid() && State() == Serve(old(State()), c, p, bus.clock)
      ensures conn.replies == old(conn.replies) + if IsFilterOrder(p) then [ReplyFor(p)] else []
    {
      if p.order == ORDER_SEND {
        var ret := bus.SendCanData(LibSetCanIpcHandle(p.port), p.frame);
      } else if p.order == ORDER_ADD_FILTER {
        AddFilter(c, conn, p);
      } else if p.order == ORDER_REMOVE_FILTER {
        RemoveFilter(c, conn, p);
      }
    }

    /** The callback of every filter: the frame is written once to each client on its identifier's
        list, in whatever order the list is walked. */
    method SocketReceiveCallback(frame: CanFrame, sockets: Sockets) returns (ghost to: seq<Client>)
      modifies sockets
      ensures forall i, j :: 0 <= i < j < |to| ==> to[i] != to[j]
      ensures forall d: Client :: d in to <==> d in Targets(manager.State(), frame.id)
      ensures sockets.written == old(sockets.written) + Writes(to, frame)
    {
      to := [];
      if frame.id !in manager.socketClientReverseIndex {
        return;
      }
      var package := Package(SOCKET_MAGIC_CODE, ORDER_RECEIVE, 0, frame, seq(32, _ => 0), 0, 0, 0);
      var clients := manager.socketClientReverseIndex[frame.id];
      while clients != {}
        invariant clients <= manager.socketClientReverseIndex[frame.id]
        invariant forall i, j :: 0 <= i < j < |to| ==> to[i] != to[j]
        invariant forall d: Client :: d in to <==> d in manager.socketClientReverseIndex[frame.id] - clients && d >= 0
        invariant sockets.written == old(sockets.written) + Writes(to, frame)
        decreases clients
      {
        var d: Client :| d in clients;
        assert d !in to;
        clients := clients - {d};
        if d < 0 {
          continue;
        }
        WritesOneMore(to, d, frame);
        sockets.Write(d, package);
        to := to + [d];
      }
    }

    // One turn of the loop: read a package and serve it, unless the session ends here.
    method Turn(c: Client, conn: Connection) returns (p: Option<Package>)
      requires Valid() && ServedWellFormed(ToCome(conn.incoming))
      modifies manager, receiver`receivePaused, receiver`workPaused,
        receiver.port5, receiver.port6, receiver.port7, receiver.port8, receiver.port9, bus`sent, conn
      ensures Valid()
      ensures var ps := ToCome(old(conn.incoming));
        if ps == [] then p == None && State() == old(State()) && conn.replies == old(conn.replies)
        else
          && p == Some(ps[0]) && ToCome(conn.incoming) == ps[1..]
          && |conn.incoming.messages| < |old(conn.incoming.messages)|
          && (ps[0].magic != SOCKET_MAGIC_CODE ==> State() == old(State()) && conn.replies == old(conn.replies))
          && (ps[0].magic == SOCKET_MAGIC_CODE ==>
                && State() == Serve(old(State()), c, ps[0], bus.clock)
                && conn.replies == old(conn.replies) + if IsFilterOrder(ps[0]) then [ReplyFor(ps[0])] else [])
    {
      p := ReadPackage(conn);
      if p.Some? && p.value.magic == SOCKET_MAGIC_CODE {
        ServeOne(c, conn, p.value);
      }
    }

    /** A whole session while the server is running. What it does depends only on the messages
        that arrive and on how the connection ends, not on how reads are interrupted. */
    method HandleClient(c: Client, conn: Connection)
      requires Valid() && ServedWellFormed(ToCome(conn.incoming))
      modifies manager, receiver`receivePaused, receiver`workPaused,
        receiver.port5, receiver.port6, receiver.port7, receiver.port8, receiver.port9, bus`sent, conn
      ensures Valid()
      ensures var ps := ToCome(old(conn.incoming));
        && State() == Session(old(State()), c, ps, bus.clock)
        && conn.replies == old(conn.replies) + AckTrace(ps)
    {
      hide ToCome, Serve;
      ghost var todo, s, written := ToCome(conn.incoming), State(), [];
      ghost var ps, s0 := todo, s;
      while true
        invariant Valid() && State() == s && conn.replies == old(conn.replies) + written
        invariant todo == ToCome(conn.incoming)
        invariant SessionTail(s0, s, c, ps, todo, written, bus.clock)
        decreases |conn.incoming.messages|
      {
        var next := Turn(c, conn);
        ServeStep(s0, s, c, ps, todo, written, bus.clock);
        if next.None? {
          break;
        }
        if next.value.magic != SOCKET_MAGIC_CODE {
          return;
        }
        s, written := Serve(s, c, todo[0], bus.clock), written + AckTrace([todo[0]]);
        todo := todo[1..];
      }
      manager.CleanSocketClientIndex(c);
    }
  }

  function Writes(to: seq<Client>, frame: CanFrame): seq<Written> {
    seq(|to|, i requires 0 <= i < |to| => Written(to[i], ReceivedPackage(frame)))
  }

  lemma WritesOneMore(to: seq<Client>, d: Client, frame: CanFrame)
    ensures Writes(to + [d], frame) == Writes(to, frame) + [Written(d, ReceivedPackage(frame))]
  {
  }

  // From state s, with written replied so far, the packages still to come finish the session.
  ghost predicate SessionTail(s0: Server, s: Server, c: Client, ps: seq<Package>, todo: seq<Package>,
                              written: seq<Package>, clock: nat -> nat) {
    && ServedWellFormed(ps) && ServedWellFormed(todo)
    && Session(s, c, todo, clock) == Session(s0, c, ps, clock)
    && written + AckTrace(todo) == AckTrace(ps)
  }

  lemma ServeStep(s0: Server, s: Server, c: Client, ps: seq<Package>, todo: seq<Package>,
                  written: seq<Package>, clock: nat -> nat)
    requires SessionTail(s0, s, c, ps, todo, written, clock)
    ensures if todo == []
      then Session(s0, c, ps, clock) == s.(index := AfterClean(s.index, c)) && AckTrace(ps) == written
      else if todo[0].magic == SOCKET_MAGIC_CODE
      then && AckTrace([todo[0]]) == (if IsFilterOrder(todo[0]) then [ReplyFor(todo[0])] else [])
           && SessionTail(s0, Serve(s, c, todo[0], clock), c, ps, todo[1..], written + AckTrace([todo[0]]), clock)
      else Session(s0, c, ps, clock) == s && AckTrace(ps) == written
  {
    hide Serve, ReplyFor;
    if todo != [] && todo[0].magic == SOCKET_MAGIC_CODE {
      var reply := AckTrace([todo[0]]);
      assert [todo[0]][1..] == [] && AckTrace([]) == [];
      assert reply == if IsFilterOrder(todo[0]) then [ReplyFor(todo[0])] else [];
      assert AckTrace(todo) == reply + AckTrace(todo[1..]);
      assert written + (reply + AckTrace(todo[1..])) == written + reply + AckTrace(todo[1..]);
    } else {
      assert written + [] == written;
    }
  }
}
