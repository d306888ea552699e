/** What the manager promises its clients against what the receiver's tables hold, over every
    run: conservation of registrations, and subscribed frames reaching the queue. */
module DaemonCounts {
  import opened CanFrames
  import opened FilterTables
  import opened Receivers
  import opened ClientIndex
  import opened Daemon

  // ---------- the sum over all connected clients ----------

  ghost function Total(held: map<Client, multiset<CanId>>): multiset<CanId>
    decreases |held|
  {
    if held == map[] then multiset{}
    else
      var c :| c in held;
      SmallerMap(held, c);
      held[c] + Total(held - {c})
  }

  lemma SmallerMap(held: map<Client, multiset<CanId>>, c: Client)
    requires c in held
    ensures |held - {c}| < |held|
  {
  }

  lemma {:induction false} TotalSplit(held: map<Client, multiset<CanId>>, c: Client)
    requires c in held
    ensures Total(held) == held[c] + Total(held - {c})
    decreases |held|
  {
    var d :| d in held && Total(held) == held[d] + Total(held - {d});
    if d != c {
      SmallerMap(held, d);
      SmallerMap(held, c);
      TotalSplit(held - {d}, c);
      TotalSplit(held - {c}, d);
      assert held - {d} - {c} == held - {c} - {d};
    }
  }

  lemma TotalUpdate(held: map<Client, multiset<CanId>>, c: Client, m: multiset<CanId>)
    ensures Total(held[c := m]) == m + Total(held - {c})
  {
    TotalSplit(held[c := m], c);
    assert held[c := m] - {c} == held - {c};
  }

  // ---------- conservation ----------

  predicate Unfinished(stage: Stage) {
    stage != Acknowledge && stage != ResumeWork && stage != ResumeReceive
  }

  // A removal that has not reached the tables yet is covered by what its client holds.
  ghost predicate RemovalCovered(r: Registry, c: Client) {
    (&& c in r.clients && c in r.held && r.clients[c].Busy?
     && r.clients[c].order.Remove? && Unfinished(r.clients[c].stage))
    ==> multiset(r.clients[c].order.ids) <= r.held[c]
  }

  ghost predicate Conserved(r: Registry) {
    && r.held.Keys == r.clients.Keys
    && Represents(r.tables.port5, Total(r.held) + r.orphaned)
    && forall c: Client :: RemovalCovered(r, c)
  }

  // The client discipline: remove no more than what one holds.
  ghost predicate Fair(r: Registry, a: Action) {
    (a.ByClient? && a.event.Submit? && a.event.order.Remove? && IsIdle(r, a.c))
    ==> multiset(a.event.order.ids) <= r.held[a.c]
  }

  ghost predicate FairRun(s: State, acts: seq<Action>)
    decreases |acts|
  {
    acts == [] || (Fair(s.reg, acts[0]) && FairRun(Step(s, acts[0]), acts[1..]))
  }

  lemma ArrivalConserves(r: Registry, c: Client)
    requires c !in r.held
    ensures Total(r.held[c := multiset{}]) == Total(r.held)
  {
    TotalUpdate(r.held, c, multiset{});
    assert r.held - {c} == r.held;
  }

  lemma DepartureConserves(r: Registry, c: Client)
    requires IsIdle(r, c)
    ensures Total(Departed(r, c).held) + Departed(r, c).orphaned == Total(r.held) + r.orphaned
  {
    TotalSplit(r.held, c);
  }

  // Whether a table update moves the table and the sum of the holdings by the same amount.
  lemma TablesUpdateConserves(r: Registry, c: Client)
    requires IsAt(r, c, UpdateTables) && Represents(r.tables.port5, Total(r.held) + r.orphaned)
    ensures var r' := ClientStep(r, c, Proceed);
            var ids := r.clients[c].order.ids;
            var others := Total(r.held - {c}) + r.orphaned;
            (Represents(r'.tables.port5, Total(r'.held) + r'.orphaned)
             <==> r.clients[c].order.Add?
                  || forall id :: id in ids ==> multiset(ids)[id] <= r.held[c][id] || others[id] == 0)
  {
    var r', order := ClientStep(r, c, Proceed), r.clients[c].order;
    var mine, others := r.held[c], Total(r.held - {c}) + r.orphaned;
    TotalSplit(r.held, c);
    TotalUpdate(r.held, c, HeldAfter(mine, order));
    assert Total(r.held) + r.orphaned == mine + others;
    assert Total(r'.held) + r'.orphaned == HeldAfter(mine, order) + others;
    TableMoves(r.tables.port5, mine, others, order);
    if order.ids == [] {
      assert multiset(order.ids) == multiset{};
      assert HeldAfter(mine, order) == mine;
    }
  }

  lemma TableMoves(t: PortTable, mine: multiset<CanId>, others: multiset<CanId>, order: Order)
    requires Represents(t, mine + others)
    ensures order.Add? ==>
      Represents(Registered(t, Filter(5, |order.ids|, SocketReceive), order.ids), HeldAfter(mine, order) + others)
    ensures order.Remove? ==>
      (Represents(Deregistered(t, order.ids), HeldAfter(mine, order) + others)
       <==> forall id :: id in order.ids ==> multiset(order.ids)[id] <= mine[id] || others[id] == 0)
  {
    if order.Add? {
      RegisterAddsMultiset(t, mine + others, Filter(5, |order.ids|, SocketReceive), order.ids);
      assert mine + others + multiset(order.ids) == HeldAfter(mine, order) + others;
    } else {
      RemovalTakesOwnShare(t, mine, others, order.ids);
    }
  }

  lemma ClientKeepsRemovalCovered(r: Registry, c: Client, event: Event, d: Client)
    requires r.held.Keys == r.clients.Keys && RemovalCovered(r, d) && Fair(r, ByClient(c, event))
    ensures RemovalCovered(ClientStep(r, c, event), d)
  {
  }

  // Every other event leaves the table and the sum alone.
  lemma OtherEventsConserve(r: Registry, c: Client, event: Event)
    requires event == Arrive ==> c in r.clients || c < 0
    requires event == HangUp ==> !IsIdle(r, c)
    requires event == Proceed ==> !IsAt(r, c, UpdateTables)
    ensures var r' := ClientStep(r, c, event);
            r'.tables == r.tables && r'.held == r.held && r'.orphaned == r.orphaned
  {
  }

  lemma ClientConserves(r: Registry, c: Client, event: Event)
    requires Conserved(r) && Fair(r, ByClient(c, event))
    ensures Conserved(ClientStep(r, c, event))
  {
    ClientKeepsKeys(r, c, event);
    forall d: Client
      ensures RemovalCovered(ClientStep(r, c, event), d)
    {
      ClientKeepsRemovalCovered(r, c, event, d);
    }
    if event == Arrive && c !in r.clients && c >= 0 {
      ArrivalConserves(r, c);
    } else if event == HangUp && IsIdle(r, c) {
      DepartureConserves(r, c);
    } else if event == Proceed && IsAt(r, c, UpdateTables) {
      assert RemovalCovered(r, c);
      TablesUpdateConserves(r, c);
    } else {
      OtherEventsConserve(r, c, event);
    }
  }

  /** Conservation: over every run in which clients remove no more than they hold, port 5's
      count of every identifier is the sum of what the connected clients hold of it plus what
      departed clients left behind. */
  lemma {:induction false} RunConserves(s: State, acts: seq<Action>)
    requires Conserved(s.reg) && FairRun(s, acts)
    ensures Conserved(Run(s, acts).reg)
    decreases |acts|
  {
    if acts == [] {
    } else {
      var a := acts[0];
      if a.ByClient? {
        ClientConserves(s.reg, a.c, a.event);
      }
      RunConserves(Step(s, a), acts[1..]);
    }
  }

  lemma InitConserves()
    ensures Conserved(INIT.reg)
  {
  }

  lemma CountIsSumOfHoldings(acts: seq<Action>, id: CanId)
    requires FairRun(INIT, acts)
    ensures var r := Run(INIT, acts).reg;
            CountOf(r.tables.port5, id) == Total(r.held)[id] + r.orphaned[id]
  {
    InitConserves();
    RunConserves(INIT, acts);
  }

  // ---------- subscriptions are covered by registrations ----------

  // Whatever a client asks for it holds, unless its ADD is between its two updates; and what a
  // REMOVE is about to take out of the tables its client no longer asks for.
  ghost predicate CoveredAt(r: Registry, c: Client, id: CanId) {
    && (Asks(r.index.forward, c, id) ==> c in r.held && (id in r.held[c] || Adding(r, c, id)))
    && (Removing(r, c, id) ==> !Asks(r.index.forward, c, id))
  }

  ghost predicate Covered(r: Registry) {
    r.held.Keys == r.clients.Keys && forall c: Client, id: CanId :: CoveredAt(r, c, id)
  }

  predicate Adding(r: Registry, c: Client, id: CanId) {
    IsAt(r, c, UpdateTables) && r.clients[c].order.Add? && id in r.clients[c].order.ids
  }

  predicate Removing(r: Registry, c: Client, id: CanId) {
    IsAt(r, c, UpdateTables) && r.clients[c].order.Remove? && id in r.clients[c].order.ids
  }

  lemma IndexUpdateCovers(r: Registry, c: Client, d: Client, id: CanId)
    requires IsAt(r, c, UpdateIndex) && CoveredAt(r, d, id)
    ensures CoveredAt(ClientStep(r, c, Proceed), d, id)
  {
  }

  lemma TablesUpdateCovers(r: Registry, c: Client, d: Client, id: CanId)
    requires IsAt(r, c, UpdateTables) && CoveredAt(r, d, id)
    ensures CoveredAt(ClientStep(r, c, Proceed), d, id)
  {
  }

  lemma OtherEventsCover(r: Registry, c: Client, event: Event, d: Client, id: CanId)
    requires event != Proceed || (!IsAt(r, c, UpdateIndex) && !IsAt(r, c, UpdateTables))
    requires r.held.Keys == r.clients.Keys && CoveredAt(r, d, id)
    ensures CoveredAt(ClientStep(r, c, event), d, id)
  {
  }

  lemma AsksAfter(x: Index, c: Client, order: Order, d: Client, id: CanId)
    ensures Asks(IndexAfter(x, c, order).forward, d, id) <==>
      if d != c then Asks(x.forward, d, id)
      else if order.Add? then Asks(x.forward, d, id) || id in order.ids
      else Asks(x.forward, d, id) && id !in order.ids
  {
    var y := IndexAfter(x, c, order).forward;
    assert id in IdSet(order.ids) <==> id in order.ids;
    if order.Add? {
      assert y[c] == IdsOf(x.forward, c) + IdSet(order.ids);
    } else if c in x.forward {
      var left := x.forward[c] - IdSet(order.ids);
      if left == {} {
        assert y == x.forward - {c};
        assert id !in left;
      } else {
        assert y == x.forward[c := left];
      }
    }
  }

  lemma ClientKeepsCovered(r: Registry, c: Client, event: Event)
    requires Covered(r)
    ensures Covered(ClientStep(r, c, event))
  {
    forall d: Client, id: CanId
      ensures CoveredAt(ClientStep(r, c, event), d, id)
    {
      assert CoveredAt(r, d, id);
      if event == Proceed && IsAt(r, c, UpdateIndex) {
        IndexUpdateCovers(r, c, d, id);
      } else if event == Proceed && IsAt(r, c, UpdateTables) {
        TablesUpdateCovers(r, c, d, id);
      } else {
        OtherEventsCover(r, c, event, d, id);
      }
    }
  }

  lemma {:induction false} RunKeepsCovered(s: State, acts: seq<Action>)
    requires Covered(s.reg)
    ensures Covered(Run(s, acts).reg)
    decreases |acts|
  {
    if acts == [] {
    } else {
      var a := acts[0];
      if a.ByClient? {
        ClientKeepsCovered(s.reg, a.c, a.event);
      }
      RunKeepsCovered(Step(s, a), acts[1..]);
    }
  }

  lemma AskedIsRegistered(r: Registry, c: Client, id: CanId)
    requires Conserved(r) && CoveredAt(r, c, id) && Asks(r.index.forward, c, id) && !Adding(r, c, id)
    ensures c in r.held && id in r.tables.port5.filters && CountOf(r.tables.port5, id) >= r.held[c][id] >= 1
  {
    TotalSplit(r.held, c);
    assert (Total(r.held) + r.orphaned)[id] >= r.held[c][id];
    assert id in Total(r.held) + r.orphaned;
  }

  /** Over every run in which clients remove no more than they hold, a frame gets past the
      filters if and only if it was read on port 5 and its identifier is held by some connected
      client or was left registered by a departed one. */
  lemma FrameIsMatchedExactly(acts: seq<Action>, batch: seq<HalFrame>)
    requires FairRun(INIT, acts)
    requires Run(INIT, acts).recv.pc.Offering? && Run(INIT, acts).recv.pc.rest != []
    ensures var s := Run(INIT, acts);
            var pc, pc' := s.recv.pc, Step(s, ByReceiver(batch)).recv.pc;
            && (pc'.Checking? <==> pc.port == 5 && pc.rest[0].id in Total(s.reg.held) + s.reg.orphaned)
            && (pc'.Checking? ==> pc'.task.frame == pc.rest[0] && pc'.rest == pc.rest[1..])
  {
    InitConserves();
    RunConserves(INIT, acts);
    RunKeepsRouted(INIT, acts);
    assert Routed(Run(INIT, acts));
  }

  /** In every such run an identifier that a client asks for, its ADD being complete, has a
      filter. */
  lemma AskedIsFiltered(acts: seq<Action>, c: Client, id: CanId)
    requires FairRun(INIT, acts)
    ensures var r := Run(INIT, acts).reg;
            Asks(r.index.forward, c, id) && !Adding(r, c, id) ==> id in r.tables.port5.filters
  {
    InitConserves();
    RunConserves(INIT, acts);
    RunKeepsCovered(INIT, acts);
    var r := Run(INIT, acts).reg;
    assert CoveredAt(r, c, id);
    if Asks(r.index.forward, c, id) && !Adding(r, c, id) {
      AskedIsRegistered(r, c, id);
    }
  }

  /** In every such run a port 5 frame that a client asks for is offered to the queue if and only
      if the client's ADD is complete or somebody, it included, holds the identifier already. */
  lemma SubscribedFrameReachesQueue(acts: seq<Action>, c: Client, batch: seq<HalFrame>)
    requires FairRun(INIT, acts)
    requires var s := Run(INIT, acts);
             && s.recv.pc.Offering? && s.recv.pc.port == 5 && s.recv.pc.rest != []
             && Asks(s.reg.index.forward, c, s.recv.pc.rest[0].id)
    ensures var s := Run(INIT, acts);
            var pc, pc', id := s.recv.pc, Step(s, ByReceiver(batch)).recv.pc, s.recv.pc.rest[0].id;
            && (pc'.Checking? <==> !Adding(s.reg, c, id) || id in Total(s.reg.held) + s.reg.orphaned)
            && (pc'.Checking? ==> pc'.task.frame == pc.rest[0] && pc'.rest == pc.rest[1..])
  {
    FrameIsMatchedExactly(acts, batch);
    AskedIsFiltered(acts, c, Run(INIT, acts).recv.pc.rest[0].id);
  }

  /** Between the two updates of an ADD of an identifier that nobody holds, the client is listed
      for it but it has no filter. */
  lemma AddOpensWindow(acts: seq<Action>, c: Client, id: CanId)
    requires FairRun(INIT, acts)
    requires var r := Run(INIT, acts).reg;
             && IsAt(r, c, UpdateIndex) && r.clients[c].order.Add? && id in r.clients[c].order.ids
             && id !in Total(r.held) + r.orphaned
    ensures var r' := Step(Run(INIT, acts), ByClient(c, Proceed)).reg;
            Asks(r'.index.forward, c, id) && Adding(r', c, id) && id !in r'.tables.port5.filters
  {
    InitConserves();
    RunConserves(INIT, acts);
    var r := Run(INIT, acts).reg;
    AsksAfter(r.index, c, r.clients[c].order, c, id);
  }

  /** Without the discipline this fails: a client that never added an identifier removes it, and
      the client that did add it is still listed but its frames are no longer matched. */
  lemma UnfairRemovalStarves()
    ensures var add, remove := Add(0, [0x100]), Remove(0, [0x100]);
            var x := IndexAfter(IndexAfter(EMPTY_INDEX, 7, add), 8, remove);
            var ts := TablesAfter(TablesAfter(NO_FILTERS, add), remove);
            Asks(x.forward, 7, 0x100) && 0x100 !in ts.port5.filters
  {
  }

  // ---------- only port 5 has filters, and they all call back into the socket ----------

  ghost predicate SocketTask(t: Task) { t.filter.callback == SocketReceive }

  ghost predicate PortFiveOnly(ts: Tables) {
    && ts.port6 == EMPTY_TABLE && ts.port7 == EMPTY_TABLE && ts.port8 == EMPTY_TABLE && ts.port9 == EMPTY_TABLE
    && forall id :: id in ts.port5.filters ==> ts.port5.filters[id].callback == SocketReceive
  }

  ghost predicate ReceiverRouted(r: Receiving) {
    && (r.pc.Checking? || r.pc.Pushing? ==> r.pc.port == 5 && SocketTask(r.pc.task))
    && (forall o :: o in r.offers && o.verdict != NoFilter ==> o.port == 5)
  }

  ghost predicate WorkerRouted(w: Working) {
    && (w.pc.Got? && w.pc.found.Some? ==> SocketTask(w.pc.found.value))
    && (w.pc.Running? ==> SocketTask(w.pc.task))
    && (forall d :: d in w.delivered ==> SocketTask(d.task))
  }

  ghost predicate Routed(s: State) {
    && PortFiveOnly(s.reg.tables) && ReceiverRouted(s.recv) && WorkerRouted(s.work)
    && (forall t :: t in s.queue.items ==> SocketTask(t))
  }

  lemma ReceiveKeepsRouted(s: State, batch: seq<HalFrame>)
    requires PortFiveOnly(s.reg.tables) && ReceiverRouted(s.recv)
    ensures ReceiverRouted(Step(s, ByReceiver(batch)).recv)
  {
  }

  lemma WorkKeepsRouted(s: State)
    requires WorkerRouted(s.work) && forall t :: t in s.queue.items ==> SocketTask(t)
    ensures WorkerRouted(Step(s, ByWorker).work)
  {
  }

  lemma ClientKeepsRouted(r: Registry, c: Client, event: Event)
    requires PortFiveOnly(r.tables)
    ensures PortFiveOnly(ClientStep(r, c, event).tables)
  {
  }

  lemma StepKeepsRouted(s: State, a: Action)
    requires Routed(s)
    ensures Routed(Step(s, a))
  {
    match a {
      case ByReceiver(batch) => ReceiveKeepsRouted(s, batch);
      case ByWorker => WorkKeepsRouted(s);
      case ByClient(c, event) => ClientKeepsRouted(s.reg, c, event);
      case _ =>
    }
  }

  lemma {:induction false} RunKeepsRouted(s: State, acts: seq<Action>)
    requires Routed(s)
    ensures Routed(Run(s, acts))
    decreases |acts|
  {
    if acts == [] {
    } else {
      StepKeepsRouted(s, acts[0]);
      RunKeepsRouted(Step(s, acts[0]), acts[1..]);
    }
  }

  /** Whatever ports clients name and whichever are enabled, only frames read on port 5 ever get
      past the filters, and every callback that runs is the one that writes to the sockets. */
  lemma OnlyPortFiveIsServed(acts: seq<Action>)
    ensures var s := Run(INIT, acts);
            && (forall o :: o in s.recv.offers && o.port != 5 ==> o.verdict == NoFilter)
            && (forall d :: d in s.work.delivered ==> d.task.filter.callback == SocketReceive)
  {
    RunKeepsRouted(INIT, acts);
    assert Routed(Run(INIT, acts));
  }
}
