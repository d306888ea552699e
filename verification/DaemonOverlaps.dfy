/** Runs from the initial state in which two clients' orders, or an order and a departure, overlap. */
module DaemonOverlaps {
  import opened CanFrames
  import opened FilterTables
  import opened Receivers
  import opened ClientIndex
  import opened Daemon
  import opened DaemonOrders
  import opened DaemonSerial
  import opened DaemonExamples

  // ---------- two orders at once ----------

  lemma {:induction false} OthersKeepPc(s: State, acts: seq<Action>, c: Client)
    requires c in s.reg.clients && c in s.reg.held && forall a :: a in acts ==> a.ByClient? && a.c != c
    ensures var r := Run(s, acts).reg;
            c in r.clients && c in r.held && r.clients[c] == s.reg.clients[c]
    decreases |acts|
  {
    if acts == [] {
    } else {
      var a := acts[0];
      assert a in acts;
      OtherClientKeepsPc(s.reg, a.c, a.event, c);
      OthersKeepPc(Step(s, a), acts[1..], c);
    }
  }

  function BothArrive(): seq<Action> { [ByClient(7, Arrive), ByClient(8, Arrive)] }

  // Client 7 is about to resume the worker, client 8 about to update the index.
  function BothPause(): seq<Action> {
    ([ByClient(7, Submit(ADD))] + Proceeding(7, 5)) + ([ByClient(8, Submit(ADD))] + Proceeding(8, 2))
  }

  function ResumeBoth(): seq<Action> { [ByClient(7, Proceed), ByClient(7, Proceed)] }

  // Client c's order gets to its n-th step; client d stays where it is.
  lemma OrderReaches(s: State, c: Client, n: nat, d: Client)
    requires IsIdle(s.reg, c) && d != c && d in s.reg.clients && d in s.reg.held && n < 7
    ensures var t := Run(s, [ByClient(c, Submit(ADD))] + Proceeding(c, n));
            && IsServing(t.reg, c) && Progress(t.reg.clients[c]) == n && PhaseFlags(t.flags, n)
            && d in t.reg.clients && d in t.reg.held && t.reg.clients[d] == s.reg.clients[d]
  {
    ProceedingIsBy(c, n);
    PartOfOrder(s, c, ADD, n);
    OthersKeepPc(s, [ByClient(c, Submit(ADD))] + Proceeding(c, n), d);
  }

  lemma StageOf(r: Registry, c: Client)
    requires IsServing(r, c)
    ensures Progress(r.clients[c]) == 5 ==> IsAt(r, c, ResumeWork)
    ensures Progress(r.clients[c]) == 2 ==> IsAt(r, c, UpdateIndex)
  {
  }

  lemma FlagsAtTwo(flags: Flags)
    requires PhaseFlags(flags, 2)
    ensures flags.receivePaused && flags.workPaused
  {
  }

  lemma BothPauseOverlap(s: State)
    requires IsIdle(s.reg, 7) && IsIdle(s.reg, 8)
    ensures var t := Run(s, BothPause());
            && IsAt(t.reg, 7, ResumeWork) && IsAt(t.reg, 8, UpdateIndex)
            && t.flags.receivePaused && t.flags.workPaused
  {
    var first, second := [ByClient(7, Submit(ADD))] + Proceeding(7, 5), [ByClient(8, Submit(ADD))] + Proceeding(8, 2);
    RunConcat(s, first, second);
    hide Run, Proceeding, PhaseFlags, Progress;
    var s' := Run(s, first);
    OrderReaches(s, 7, 5, 8);
    StageOf(s'.reg, 7);
    OrderReaches(s', 8, 2, 7);
    StageOf(Run(s', second).reg, 8);
    FlagsAtTwo(Run(s', second).flags);
  }

  /** Two orders overlap. The first one's end takes both flags down while the second, which had
      raised them, is still about to update the index. */
  lemma OverlappingOrderIsUnpaused()
    ensures var before := Run(INIT, BothArrive() + BothPause());
            var s := Run(before, ResumeBoth());
            && IsAt(before.reg, 8, UpdateIndex) && before.flags.receivePaused && before.flags.workPaused
            && IsAt(s.reg, 8, UpdateIndex) && !s.flags.receivePaused && !s.flags.workPaused
  {
    hide Run, Step, BothPause;
    var arrived := Run(INIT, BothArrive());
    BothAreIdle();
    RunConcat(INIT, BothArrive(), BothPause());
    BothPauseOverlap(arrived);
    ResumesBoth(Run(arrived, BothPause()));
  }

  lemma BothAreIdle()
    ensures IsIdle(Run(INIT, BothArrive()).reg, 7) && IsIdle(Run(INIT, BothArrive()).reg, 8)
  {
    RunCons(INIT, ByClient(7, Arrive), [ByClient(8, Arrive)]);
  }

  lemma ResumesBoth(t: State)
    requires IsAt(t.reg, 7, ResumeWork) && IsAt(t.reg, 8, UpdateIndex)
    ensures var s := Run(t, ResumeBoth());
            IsAt(s.reg, 8, UpdateIndex) && !s.flags.receivePaused && !s.flags.workPaused
  {
    var turn := ByClient(7, Proceed);
    var t' := Step(t, turn);
    RunCons(t, turn, [turn]);
    assert Run(t', [turn]) == Step(t', turn);
    OtherClientKeepsPc(t.reg, 7, Proceed, 8);
    OtherClientKeepsPc(t'.reg, 7, Proceed, 8);
    OtherStageKeeps(t.reg, 7);
  }

  // ---------- a departure between two updates ----------

  const FIRST := Add(0, [0x100, 0x200])
  const SECOND := Remove(0, [0x100])
  const OTHER := Add(0, [0x100, 0x200, 0x300])

  // Client 8 updates the index. Before it updates the tables, client 7, which has added two
  // identifiers, hangs up, and the next owner of its descriptor removes one of them.
  function FirstOwner(): seq<Action> { [ByClient(7, Arrive)] + OrderRun(7, FIRST) }

  function OtherStarts(): seq<Action> {
    [ByClient(8, Arrive)] + ([ByClient(8, Submit(OTHER))] + Proceeding(8, 3))
  }

  function NextOwner(): seq<Action> { [ByClient(7, HangUp)] + ([ByClient(7, Arrive)] + OrderRun(7, SECOND)) }

  function Overlap(): seq<Action> { FirstOwner() + (OtherStarts() + (NextOwner() + [ByClient(8, Proceed)])) }

  lemma FirstOwnerAdds()
    ensures var r := Run(INIT, FirstOwner()).reg;
            && IsIdle(r, 7) && 8 !in r.clients
            && r.index == IndexAfter(EMPTY_INDEX, 7, FIRST) && r.tables == TablesAfter(NO_FILTERS, FIRST)
  {
    var s := Step(INIT, ByClient(7, Arrive));
    RunCons(INIT, ByClient(7, Arrive), OrderRun(7, FIRST));
    OrderAlone(s, 7, FIRST);
    OrderIsBy(7, FIRST, 7);
    StaysAway(s, OrderRun(7, FIRST), 8);
  }

  lemma OtherUpdatesIndex(s: State)
    requires IsIdle(s.reg, 7) && 8 !in s.reg.clients
    ensures var r := Run(s, OtherStarts()).reg;
            && IsIdle(r, 7) && IsAt(r, 8, UpdateTables) && r.clients[8].order == OTHER
            && r.index == IndexAfter(s.reg.index, 8, OTHER) && r.tables == s.reg.tables
  {
    var s' := Step(s, ByClient(8, Arrive));
    RunCons(s, ByClient(8, Arrive), [ByClient(8, Submit(OTHER))] + Proceeding(8, 3));
    PartOfOrder(s', 8, OTHER, 3);
    OrderIsBy(8, OTHER, 3);
    OthersKeepPc(s', [ByClient(8, Submit(OTHER))] + Proceeding(8, 3), 7);
  }

  lemma NextOwnerRemoves(s: State)
    requires IsIdle(s.reg, 7) && IsAt(s.reg, 8, UpdateTables)
    ensures var r := Run(s, NextOwner()).reg;
            && IsIdle(r, 7) && IsAt(r, 8, UpdateTables) && r.clients[8] == s.reg.clients[8]
            && r.index == IndexAfter(AfterClean(s.reg.index, 7), 7, SECOND)
            && r.tables == TablesAfter(s.reg.tables, SECOND)
  {
    var s1 := Step(s, ByClient(7, HangUp));
    var s2 := Step(s1, ByClient(7, Arrive));
    RunCons(s, ByClient(7, HangUp), [ByClient(7, Arrive)] + OrderRun(7, SECOND));
    RunCons(s1, ByClient(7, Arrive), OrderRun(7, SECOND));
    OrderAlone(s2, 7, SECOND);
    OrderIsBy(7, SECOND, 7);
    OthersKeepPc(s2, OrderRun(7, SECOND), 8);
  }

  lemma OthersAreAbsent(d: Client)
    requires d != 7 && d != 8
    ensures d !in Run(INIT, Overlap()).reg.clients
  {
    OrderIsBy(7, FIRST, 7);
    OrderIsBy(8, OTHER, 3);
    OrderIsBy(7, SECOND, 7);
    hide Run, Proceeding;
    assert forall a :: a in FirstOwner() ==> a.ByClient? && a.c != d;
    assert forall a :: a in OtherStarts() ==> a.ByClient? && a.c != d;
    assert forall a :: a in NextOwner() ==> a.ByClient? && a.c != d;
    hide FirstOwner, OtherStarts, NextOwner;
    StaysAway(INIT, Overlap(), d);
  }

  lemma OverlapEnds()
    ensures var s := Run(Run(Run(INIT, FirstOwner()), OtherStarts()), NextOwner());
            Run(INIT, Overlap()) == Step(s, ByClient(8, Proceed))
  {
    var s1 := Run(INIT, FirstOwner());
    var later := NextOwner() + [ByClient(8, Proceed)];
    RunConcat(INIT, FirstOwner(), OtherStarts() + later);
    RunConcat(s1, OtherStarts(), later);
    RunSnoc(Run(s1, OtherStarts()), NextOwner(), ByClient(8, Proceed));
  }

  lemma OverlapLeaves()
    ensures var r := Run(INIT, Overlap()).reg;
            var x := IndexAfter(IndexAfter(EMPTY_INDEX, 7, FIRST), 8, OTHER);
            && r.index == IndexAfter(AfterClean(x, 7), 7, SECOND)
            && r.tables == TablesAfter(TablesAfter(TablesAfter(NO_FILTERS, FIRST), SECOND), OTHER)
            && !IsAt(r, 7, UpdateTables) && !IsAt(r, 8, UpdateTables)
  {
    hide Run, FirstOwner, OtherStarts, NextOwner, Overlap, IndexAfter, TablesAfter, AfterClean;
    var s1 := Run(INIT, FirstOwner());
    var s2 := Run(s1, OtherStarts());
    var s3 := Run(s2, NextOwner());
    OverlapEnds();
    FirstOwnerAdds();
    OtherUpdatesIndex(s1);
    NextOwnerRemoves(s2);
    assert Step(s3, ByClient(8, Proceed)).reg == TablesUpdated(s3.reg, 8, OTHER);
  }

  lemma OverlapIsQuiet()
    ensures Quiet(Run(INIT, Overlap()).reg)
  {
    OverlapLeaves();
    forall d: Client
      ensures !IsAt(Run(INIT, Overlap()).reg, d, UpdateTables)
    {
      if d != 7 && d != 8 {
        OthersAreAbsent(d);
      }
    }
  }

  // The tables after an ADD, at one identifier of its list or of none.
  lemma AddStores(ts: Tables, ids: seq<CanId>, id: CanId)
    requires ids != []
    ensures var t, t' := ts.port5, TablesAfter(ts, Add(0, ids)).port5;
            && (id in t'.filters <==> id in t.filters || id in ids)
            && (id in t.filters ==> t'.filters[id] == t.filters[id])
            && (id !in t.filters && id in ids ==> t'.filters[id] == Filter(5, |ids|, SocketReceive))
            && CountOf(t', id) == CountOf(t, id) + multiset(ids)[id]
  {
    assert id in IdSet(ids) <==> id in ids;
    assert id in multiset(ids) <==> id in ids;
  }

  lemma RemoveKeeps(ts: Tables, ids: seq<CanId>, id: CanId)
    requires ids != [] && Consistent(ts.port5)
    ensures var t, t' := ts.port5, TablesAfter(ts, Remove(0, ids)).port5;
            && (id in t'.filters <==> CountOf(t, id) > multiset(ids)[id])
            && (id in t'.filters ==> id in t.filters && t'.filters[id] == t.filters[id])
            && (CountOf(t, id) > multiset(ids)[id] ==> CountOf(t', id) == CountOf(t, id) - multiset(ids)[id])
  {
  }

  // The effects of client 7 and its successor, in their order.
  function OwnEffects(): seq<Effect> { [Served(7, FIRST), Left(7), Served(7, SECOND)] }

  // The four ways of putting client 8's order among them.
  function SerialOrder(k: nat): seq<Effect>
    requires k <= 3
  {
    OwnEffects()[..k] + [Served(8, OTHER)] + OwnEffects()[k..]
  }

  lemma SerialOrders(x: Index, ts: Tables)
    ensures TablesSerial(ts, SerialOrder(0)) == TablesAfter(TablesAfter(TablesAfter(ts, OTHER), FIRST), SECOND)
    ensures TablesSerial(ts, SerialOrder(1)) == TablesAfter(TablesAfter(TablesAfter(ts, FIRST), OTHER), SECOND)
    ensures TablesSerial(ts, SerialOrder(2)) == TablesAfter(TablesAfter(TablesAfter(ts, FIRST), OTHER), SECOND)
    ensures IndexSerial(x, SerialOrder(3)) ==
            IndexAfter(IndexAfter(AfterClean(IndexAfter(x, 7, FIRST), 7), 7, SECOND), 8, OTHER)
  {
    hide IndexAfter, TablesAfter, AfterClean;
    assert SerialOrder(0) == [Served(8, OTHER), Served(7, FIRST), Left(7), Served(7, SECOND)];
    assert SerialOrder(1) == [Served(7, FIRST), Served(8, OTHER), Left(7), Served(7, SECOND)];
    assert SerialOrder(2) == [Served(7, FIRST), Left(7), Served(8, OTHER), Served(7, SECOND)];
    assert SerialOrder(3) == [Served(7, FIRST), Left(7), Served(7, SECOND), Served(8, OTHER)];
    FourEffects(x, ts, Served(8, OTHER), Served(7, FIRST), Left(7), Served(7, SECOND));
    FourEffects(x, ts, Served(7, FIRST), Served(8, OTHER), Left(7), Served(7, SECOND));
    FourEffects(x, ts, Served(7, FIRST), Left(7), Served(8, OTHER), Served(7, SECOND));
    FourEffects(x, ts, Served(7, FIRST), Left(7), Served(7, SECOND), Served(8, OTHER));
  }

  lemma FourEffects(x: Index, ts: Tables, a: Effect, b: Effect, c: Effect, d: Effect)
    ensures IndexSerial(x, [a, b, c, d]) == IndexOne(IndexOne(IndexOne(IndexOne(x, a), b), c), d)
    ensures TablesSerial(ts, [a, b, c, d]) == TablesOne(TablesOne(TablesOne(TablesOne(ts, a), b), c), d)
  {
    SerialOneMore(x, ts, [a, b, c], d);
    SerialOneMore(x, ts, [a, b], c);
    SerialOneMore(x, ts, [a], b);
    SerialOneMore(x, ts, [], a);
    assert [a, b, c] + [d] == [a, b, c, d] && [a, b] + [c] == [a, b, c] && [a] + [b] == [a, b] && [] + [a] == [a];
  }

  // In the overlapping run 0x200 keeps the filter of FIRST, and 0x100 has the filter of OTHER.
  lemma OverlapTables(ts: Tables)
    requires ts == TablesAfter(TablesAfter(TablesAfter(NO_FILTERS, FIRST), SECOND), OTHER)
    ensures 0x200 in ts.port5.filters && ts.port5.filters[0x200].idCount == 2
    ensures 0x100 in ts.port5.filters && ts.port5.filters[0x100].idCount == 3
  {
    var ts1 := TablesAfter(NO_FILTERS, FIRST);
    AddStores(NO_FILTERS, FIRST.ids, 0x100);
    AddStores(NO_FILTERS, FIRST.ids, 0x200);
    RemoveKeeps(ts1, SECOND.ids, 0x100);
    RemoveKeeps(ts1, SECOND.ids, 0x200);
    AddStores(TablesAfter(ts1, SECOND), OTHER.ids, 0x100);
    AddStores(TablesAfter(ts1, SECOND), OTHER.ids, 0x200);
    hide TablesAfter;
    assert multiset(FIRST.ids)[0x100] == 1 && multiset(FIRST.ids)[0x200] == 1;
    assert multiset(SECOND.ids)[0x100] == 1 && multiset(SECOND.ids)[0x200] == 0;
  }

  lemma OtherFirstTables(ts: Tables)
    requires ts == TablesAfter(TablesAfter(TablesAfter(NO_FILTERS, OTHER), FIRST), SECOND)
    ensures 0x200 in ts.port5.filters && ts.port5.filters[0x200].idCount == 3
  {
    var ts1 := TablesAfter(NO_FILTERS, OTHER);
    AddStores(NO_FILTERS, OTHER.ids, 0x200);
    AddStores(ts1, FIRST.ids, 0x200);
    RemoveKeeps(TablesAfter(ts1, FIRST), SECOND.ids, 0x200);
    hide TablesAfter;
    assert multiset(SECOND.ids)[0x200] == 0 && multiset(OTHER.ids)[0x200] == 1;
  }

  lemma OtherSecondTables(ts: Tables)
    requires ts == TablesAfter(TablesAfter(TablesAfter(NO_FILTERS, FIRST), OTHER), SECOND)
    ensures 0x100 in ts.port5.filters && ts.port5.filters[0x100].idCount == 2
  {
    var ts1 := TablesAfter(NO_FILTERS, FIRST);
    AddStores(NO_FILTERS, FIRST.ids, 0x100);
    AddStores(ts1, OTHER.ids, 0x100);
    RemoveKeeps(TablesAfter(ts1, OTHER), SECOND.ids, 0x100);
    hide TablesAfter;
    assert multiset(FIRST.ids)[0x100] == 1 && multiset(OTHER.ids)[0x100] == 1 && multiset(SECOND.ids)[0x100] == 1;
  }

  // The departed client is on the list in the overlapping run, and not if OTHER comes last.
  lemma OverlapIndex(x: Index, y: Index)
    requires x == IndexAfter(AfterClean(IndexAfter(IndexAfter(EMPTY_INDEX, 7, FIRST), 8, OTHER), 7), 7, SECOND)
    requires y == IndexAfter(IndexAfter(AfterClean(IndexAfter(EMPTY_INDEX, 7, FIRST), 7), 7, SECOND), 8, OTHER)
    ensures Listed(x.reverse, 0x200, 7) && !Listed(y.reverse, 0x200, 7)
  {
    var both := IndexAfter(IndexAfter(EMPTY_INDEX, 7, FIRST), 8, OTHER);
    assert 0x200 in IdSet(FIRST.ids);
    assert Asks(both.forward, 7, 0x200);
    InverseInverts(both.forward);
    InverseInverts(y.forward);
    assert 7 !in y.forward;
    assert Listed(both.reverse, 0x200, 7);
  }

  /** A client that asks for something hangs up while another client's order is between its two
      updates. The index and the tables match no order in which the same orders and the same
      departure could have come one after another. */
  lemma HangUpBetweenUpdatesIsNotSerial()
    ensures var r := Run(INIT, Overlap()).reg;
            && Quiet(r)
            && forall k: nat :: k <= 3 ==>
                 (r.index != IndexSerial(EMPTY_INDEX, SerialOrder(k))
                  || r.tables != TablesSerial(NO_FILTERS, SerialOrder(k)))
  {
    hide TablesAfter, IndexAfter, AfterClean, IndexSerial, TablesSerial, Overlap, SerialOrder;
    var r := Run(INIT, Overlap()).reg;
    OverlapIsQuiet();
    OverlapLeaves();
    SerialOrders(EMPTY_INDEX, NO_FILTERS);
    OverlapTables(r.tables);
    OtherFirstTables(TablesSerial(NO_FILTERS, SerialOrder(0)));
    OtherSecondTables(TablesSerial(NO_FILTERS, SerialOrder(1)));
    OverlapIndex(r.index, IndexSerial(EMPTY_INDEX, SerialOrder(3)));
    forall k: nat | k <= 3
      ensures (r.index != IndexSerial(EMPTY_INDEX, SerialOrder(k))
               || r.tables != TablesSerial(NO_FILTERS, SerialOrder(k)))
    {
      assert k == 0 || k == 1 || k == 2 || k == 3;
    }
  }
}
