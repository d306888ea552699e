/** Runs from the initial state: one in which a subscribed frame arrives, and others in which
    something one might rely on fails. */
module DaemonExamples {
  import opened CanFrames
  import opened ClientIndex
  import opened Receivers
  import opened Daemon
  import opened DaemonCounts
  import opened DaemonHoldings
  import opened DaemonOrders
  import opened DaemonProgress

  // ---------- a client alone, from submission to reply ----------

  function Proceeding(c: Client, n: nat): seq<Action> {
    if n == 0 then [] else [ByClient(c, Proceed)] + Proceeding(c, n - 1)
  }

  function OrderRun(c: Client, order: Order): seq<Action> {
    [ByClient(c, Submit(order))] + Proceeding(c, 7)
  }

  lemma {:induction false} ProceedingIsUndisturbed(c: Client, n: nat)
    ensures Turns(Proceeding(c, n), c) == n
    ensures forall a :: a in Proceeding(c, n) ==> a.ByClient? && Undisturbed(a, c)
  {
    if n == 0 {
    } else {
      ProceedingIsUndisturbed(c, n - 1);
      assert Proceeding(c, n)[1..] == Proceeding(c, n - 1);
    }
  }

  lemma ClientKeepsRunning(s: State, a: Action)
    requires a.ByClient?
    ensures var t := Step(s, a);
            && t.recv == s.recv && t.work == s.work && t.queue == s.queue
            && t.flags.workRunning == s.flags.workRunning && t.flags.receiveRunning == s.flags.receiveRunning
  {
  }

  lemma {:induction false} ClientsKeepThreads(s: State, acts: seq<Action>)
    requires forall a :: a in acts ==> a.ByClient?
    ensures var t := Run(s, acts);
            && t.recv == s.recv && t.work == s.work && t.queue == s.queue
            && t.flags.workRunning == s.flags.workRunning && t.flags.receiveRunning == s.flags.receiveRunning
    decreases |acts|
  {
    if acts == [] {
    } else {
      assert acts[0] in acts;
      ClientKeepsRunning(s, acts[0]);
      ClientsKeepThreads(Step(s, acts[0]), acts[1..]);
    }
  }

  lemma PartOfOrder(s: State, c: Client, order: Order, n: nat)
    requires IsIdle(s.reg, c) && n <= 7
    ensures var t := Run(s, [ByClient(c, Submit(order))] + Proceeding(c, n));
            && Phase(s.reg, t.reg, c, order) && Progress(t.reg.clients[c]) == n && PhaseFlags(t.flags, n)
            && t.recv == s.recv && t.work == s.work && t.queue == s.queue
            && t.flags.workRunning == s.flags.workRunning && t.flags.receiveRunning == s.flags.receiveRunning
  {
    var submit := ByClient(c, Submit(order));
    var s1 := Step(s, submit);
    assert Phase(s.reg, s1.reg, c, order);
    RunCons(s, submit, Proceeding(c, n));
    ProceedingIsUndisturbed(c, n);
    RunKeepsPhase(s.reg, s1, Proceeding(c, n), c, order);
    ClientsKeepThreads(s, [submit] + Proceeding(c, n));
  }

  lemma OrderAlone(s: State, c: Client, order: Order)
    requires IsIdle(s.reg, c)
    ensures var t := Run(s, OrderRun(c, order));
            && IsIdle(t.reg, c) && t.recv == s.recv
            && t.reg.index == IndexAfter(s.reg.index, c, order) && t.reg.tables == TablesAfter(s.reg.tables, order)
            && t.flags.receiveRunning == s.flags.receiveRunning
            && (t.flags.receiveRunning ==> !t.flags.receivePaused)
  {
    PartOfOrder(s, c, order, 7);
  }

  // ---------- a descriptor that is used again ----------

  const ADD := Add(0, [0x100])
  const REMOVE := Remove(0, [0x100])

  function FirstLife(): seq<Action> {
    [ByClient(7, Arrive)] + (OrderRun(7, ADD) + [ByClient(7, HangUp)])
  }

  function SecondLife(): seq<Action> {
    [ByClient(7, Arrive)] + OrderRun(7, REMOVE)
  }

  lemma FirstLifeLeavesEntry()
    ensures var r := Run(INIT, FirstLife()).reg;
            7 !in r.clients && r.index == AfterClean(AfterRegister(EMPTY_INDEX, 7, [0x100]), 7)
  {
    var s := Step(INIT, ByClient(7, Arrive));
    RunCons(INIT, ByClient(7, Arrive), OrderRun(7, ADD) + [ByClient(7, HangUp)]);
    RunSnoc(s, OrderRun(7, ADD), ByClient(7, HangUp));
    OrderAlone(s, 7, ADD);
  }

  lemma SecondLifeKeepsIndex(s: State)
    requires 7 !in s.reg.clients && 7 !in s.reg.index.forward
    ensures var r := Run(s, SecondLife()).reg;
            IsIdle(r, 7) && r.index == s.reg.index
  {
    RunCons(s, ByClient(7, Arrive), OrderRun(7, REMOVE));
    OrderAlone(Step(s, ByClient(7, Arrive)), 7, REMOVE);
  }

  /** Descriptor 7 adds an identifier and hangs up. Its next owner never asks for anything, even
      removes the identifier, and is still the one its frames are written to. */
  lemma ReusedDescriptorIsWrittenTo()
    ensures var r := Run(INIT, FirstLife() + SecondLife()).reg;
            IsIdle(r, 7) && r.index.forward == map[] && Targets(r.index, 0x100) == {7}
  {
    RunConcat(INIT, FirstLife(), SecondLife());
    FirstLifeLeavesEntry();
    DisconnectedClientIsStillWrittenTo();
    SecondLifeKeepsIndex(Run(INIT, FirstLife()));
  }

  // ---------- a port that is not port 5 ----------

  const ADD_ON_SIX := Add(1, [0x100])

  function AskOnSix(): seq<Action> {
    [Enable(6)] + ([ByClient(7, Arrive)] + OrderRun(7, ADD_ON_SIX))
  }

  // Gate, port 5 with an empty batch, and port 6 with the frame.
  function ReadOnSix(h: HalFrame): seq<Action> {
    [ByReceiver([]), ByReceiver([]), ByReceiver([])] + [ByReceiver([]), ByReceiver([h]), ByReceiver([])]
  }

  lemma AddOnSixGoesToFive()
    ensures var x, ts := IndexAfter(EMPTY_INDEX, 7, ADD_ON_SIX), TablesAfter(NO_FILTERS, ADD_ON_SIX);
            && Asks(x.forward, 7, 0x100) && 0x100 in ts.port5.filters && ts.port6.filters == map[]
  {
    assert 0x100 in IdSet([0x100]);
  }

  lemma AskOnSixIsServedOnFive()
    ensures var s := Run(INIT, AskOnSix());
            && Asks(s.reg.index.forward, 7, 0x100) && 0x100 in s.reg.tables.port5.filters
            && s.reg.tables.port6.filters == map[]
            && s.recv == INIT.recv.(enabled := {5, 6}) && s.flags.receiveRunning && !s.flags.receivePaused
  {
    hide IndexAfter, TablesAfter;
    var s1 := Step(INIT, Enable(6));
    var s2 := Step(s1, ByClient(7, Arrive));
    RunCons(INIT, Enable(6), [ByClient(7, Arrive)] + OrderRun(7, ADD_ON_SIX));
    RunCons(s1, ByClient(7, Arrive), OrderRun(7, ADD_ON_SIX));
    OrderAlone(s2, 7, ADD_ON_SIX);
    AddOnSixGoesToFive();
  }

  lemma RunThree(s: State, a: Action, b: Action, c: Action)
    ensures Run(s, [a, b, c]) == Step(Step(Step(s, a), b), c)
  {
    RunSnoc(s, [a, b], c);
    RunSnoc(s, [a], b);
    assert Run(s, [a]) == Step(s, a);
    assert [a, b] + [c] == [a, b, c] && [a] + [b] == [a, b];
  }

  lemma ReadOnSixFindsNoFilter(s: State, h: HalFrame)
    requires s.recv == INIT.recv.(enabled := {5, 6}) && s.flags.receiveRunning && !s.flags.receivePaused
    requires h.len != 0 && h.canId !in s.reg.tables.port6.filters
    ensures Run(s, ReadOnSix(h)).recv.offers == [Offer(6, Decode(h), NoFilter)] && Run(s, ReadOnSix(h)).reg == s.reg
  {
    assert DecodeBatch([]) == [] && DecodeBatch([h]) == [Decode(h)];
    var none, one := ByReceiver([]), ByReceiver([h]);
    RunConcat(s, [none, none, none], [none, one, none]);
    RunThree(s, none, none, none);
    var s3 := Run(s, [none, none, none]);
    assert s3 == s.(recv := s.recv.(pc := Offering(5, []), portsRead := [5]));
    RunThree(s3, none, one, none);
  }

  /** A client asks for an identifier on port 6, which is enabled. The frame read there with that
      identifier is not matched, because the filter is in port 5's tables. */
  lemma PortSixSubscriptionIsNotServed(h: HalFrame)
    requires h.canId == 0x100 && h.len != 0
    ensures var s := Run(INIT, AskOnSix() + ReadOnSix(h));
            && Asks(s.reg.index.forward, 7, 0x100) && 0x100 in s.reg.tables.port5.filters
            && s.recv.offers == [Offer(6, Decode(h), NoFilter)]
  {
    RunConcat(INIT, AskOnSix(), ReadOnSix(h));
    AskOnSixIsServedOnFive();
    ReadOnSixFindsNoFilter(Run(INIT, AskOnSix()), h);
  }

  // ---------- a frame during an ADD ----------

  function ReadOnFive(h: HalFrame): seq<Action> {
    [ByReceiver([]), ByReceiver([]), ByReceiver([h])]
  }

  function HalfAdd(): seq<Action> {
    [ByClient(7, Arrive)] + ([ByClient(7, Submit(ADD))] + Proceeding(7, 3))
  }

  lemma ReadOnFiveOffers(h: HalFrame)
    requires h.len != 0
    ensures Run(INIT, ReadOnFive(h)) ==
            INIT.(recv := Receiving(Offering(5, [Decode(h)]), {5}, [5], 0, [Decode(h)], []))
  {
    assert DecodeBatch([h]) == [Decode(h)];
    var none, one := ByReceiver([]), ByReceiver([h]);
    RunThree(INIT, none, none, one);
  }

  lemma HalfAddAsks(s: State)
    requires s.reg == INIT.reg
    ensures var t := Run(s, HalfAdd());
            && Asks(t.reg.index.forward, 7, 0x100) && t.reg.tables == s.reg.tables && t.recv == s.recv
            && t.flags.receivePaused && t.flags.workPaused
  {
    RunCons(s, ByClient(7, Arrive), [ByClient(7, Submit(ADD))] + Proceeding(7, 3));
    PartOfOrder(Step(s, ByClient(7, Arrive)), 7, ADD, 3);
    assert 0x100 in IdSet([0x100]);
  }

  /** A receive thread that is past its gate when a client's ADD pauses it drops a frame that the
      client already asks for: the index is updated, the tables are not yet. */
  lemma FrameDuringAddIsDropped(h: HalFrame)
    requires h.canId == 0x100 && h.len != 0
    ensures var s := Run(INIT, ReadOnFive(h) + HalfAdd() + [ByReceiver([])]);
            && Asks(s.reg.index.forward, 7, 0x100) && s.flags.receivePaused && s.flags.workPaused
            && s.recv.offers == [Offer(5, Decode(h), NoFilter)]
  {
    RunConcat(INIT, ReadOnFive(h), HalfAdd());
    RunSnoc(INIT, ReadOnFive(h) + HalfAdd(), ByReceiver([]));
    ReadOnFiveOffers(h);
    HalfAddAsks(Run(INIT, ReadOnFive(h)));
  }

  // ---------- one order after another ----------

  lemma {:induction false} ProceedingIsBy(c: Client, n: nat)
    ensures forall a :: a in Proceeding(c, n) ==> a == ByClient(c, Proceed)
  {
    if n == 0 {
    } else {
      ProceedingIsBy(c, n - 1);
    }
  }

  lemma OrderIsBy(c: Client, order: Order, n: nat)
    ensures forall a :: a in [ByClient(c, Submit(order))] + Proceeding(c, n) ==>
              a.ByClient? && a.c == c
  {
    ProceedingIsBy(c, n);
  }

  lemma {:induction false} StaysAway(s: State, acts: seq<Action>, d: Client)
    requires d !in s.reg.clients && forall a :: a in acts ==> a.ByClient? && a.c != d
    ensures d !in Run(s, acts).reg.clients
    decreases |acts|
  {
    if acts == [] {
    } else {
      assert acts[0] in acts;
      StaysAway(Step(s, acts[0]), acts[1..], d);
    }
  }

  function OneAfterAnother(c: Client, o: Order, d: Client, q: Order): seq<Action> {
    ([ByClient(c, Arrive)] + OrderRun(c, o)) + ([ByClient(d, Arrive)] + OrderRun(d, q))
  }

  lemma ArriveAndServe(s: State, c: Client, order: Order)
    requires c >= 0 && (c !in s.reg.clients || IsIdle(s.reg, c))
    ensures var r := Run(s, [ByClient(c, Arrive)] + OrderRun(c, order)).reg;
            && IsIdle(r, c)
            && r.index == IndexAfter(s.reg.index, c, order) && r.tables == TablesAfter(s.reg.tables, order)
  {
    RunCons(s, ByClient(c, Arrive), OrderRun(c, order));
    OrderAlone(Step(s, ByClient(c, Arrive)), c, order);
  }

  lemma ServeTwo(c: Client, o: Order, d: Client, q: Order)
    requires c >= 0 && d >= 0
    ensures var r := Run(INIT, OneAfterAnother(c, o, d, q)).reg;
            && r.index == IndexAfter(IndexAfter(EMPTY_INDEX, c, o), d, q)
            && r.tables == TablesAfter(TablesAfter(NO_FILTERS, o), q)
  {
    var first := [ByClient(c, Arrive)] + OrderRun(c, o);
    RunConcat(INIT, first, [ByClient(d, Arrive)] + OrderRun(d, q));
    ArriveAndServe(INIT, c, o);
    if d != c {
      OrderIsBy(c, o, 7);
      StaysAway(INIT, first, d);
    }
    ArriveAndServe(Run(INIT, first), d, q);
  }

  // ---------- a subscription that is served ----------

  lemma {:induction false} AddsAreFair(s: State, acts: seq<Action>)
    requires forall a :: a in acts ==> a.ByClient? && (a.event.Submit? ==> a.event.order.Add?)
    ensures FairRun(s, acts)
    decreases |acts|
  {
    if acts == [] {
    } else {
      assert acts[0] in acts;
      AddsAreFair(Step(s, acts[0]), acts[1..]);
    }
  }

  function Subscribe(): seq<Action> { [ByClient(7, Arrive)] + OrderRun(7, ADD) }

  lemma SubscribeLeavesThreadsFree()
    ensures var s := Run(INIT, Subscribe());
            && s.recv == INIT.recv && s.work == INIT.work && s.queue == INIT.queue
            && ReceiverIsFree(s) && WorkerIsFree(s)
  {
    var s := Step(INIT, ByClient(7, Arrive));
    RunCons(INIT, ByClient(7, Arrive), OrderRun(7, ADD));
    PartOfOrder(s, 7, ADD, 7);
  }

  lemma SubscribeAsks()
    ensures var r := Run(INIT, Subscribe()).reg;
            && IsIdle(r, 7) && r.index == IndexAfter(EMPTY_INDEX, 7, ADD)
            && Asks(r.index.forward, 7, 0x100) && !Adding(r, 7, 0x100)
  {
    ArriveAndServe(INIT, 7, ADD);
    assert 0x100 in IdSet([0x100]);
  }

  /** Client 7 adds an identifier, the library delivers a frame with it on port 5, and both threads take
      their steps: the frame is delivered once, and to client 7 alone. */
  lemma FirstSubscriptionArrives(h: HalFrame) returns (acts: seq<Action>)
    requires h.canId == 0x100 && h.len != 0
    ensures forall a :: a in acts ==> a.ByReceiver? || a.ByWorker?
    ensures var ds := Run(INIT, Subscribe() + acts).work.delivered;
            |ds| == 1 && ds[0].task.frame == Decode(h) && ds[0].targets == {7}
  {
    OrderIsBy(7, ADD, 7);
    ProceedingIsBy(7, 7);
    AddsAreFair(INIT, Subscribe());
    SubscribeLeavesThreadsFree();
    SubscribeAsks();
    hide Run, Subscribe, Decode;
    acts := SubscribedFrameArrives(Subscribe(), 7, h);
    OnlyTarget(Run(INIT, Subscribe()).reg.index);
  }

  lemma OnlyTarget(x: Index)
    requires x == IndexAfter(EMPTY_INDEX, 7, ADD)
    ensures Targets(x, 0x100) == {7}
  {
    assert 0x100 in IdSet([0x100]);
    InverseInverts(x.forward);
    assert forall d: Client :: Listed(x.reverse, 0x100, d) <==> d == 7;
  }

  /** Client 8, which holds nothing, removes what client 7 has added: client 7 still asks for it and
      it has no filter. */
  lemma UnfairRemovalStarvesInRun()
    ensures var r := Run(INIT, OneAfterAnother(7, ADD, 8, REMOVE)).reg;
            Asks(r.index.forward, 7, 0x100) && 0x100 !in r.tables.port5.filters
  {
    ServeTwo(7, ADD, 8, REMOVE);
    UnfairRemovalStarves();
  }

  /** Client 7 adds an identifier twice and removes it once: it has a filter and nobody asks for it. */
  lemma RepeatedAddIsForgottenInRun()
    ensures var r := Run(INIT, OneAfterAnother(7, Add(0, [0x100, 0x100]), 7, REMOVE)).reg;
            !Asks(r.index.forward, 7, 0x100) && 0x100 in r.tables.port5.filters
  {
    ServeTwo(7, Add(0, [0x100, 0x100]), 7, REMOVE);
    RepeatedAddIsForgotten();
  }
}
