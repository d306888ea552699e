/** Orders of different clients overlap, and each updates the index and the tables in two separate
    steps. When no client is between its two steps, index and tables are nevertheless what the
    controller leaves when it serves the orders one after another. */
module DaemonSerial {
  import opened CanFrames
  import opened Receivers
  import opened ClientIndex
  import opened Packages
  import opened Daemon
  import opened DaemonOrders
  import Controllers

  // ---------- one after another ----------

  // What takes effect: an order, when it reaches the tables, or a departure.
  datatype Effect = Served(c: Client, order: Order) | Left(c: Client)

  function IndexOne(x: Index, e: Effect): Index {
    match e
    case Served(c, order) => IndexAfter(x, c, order)
    case Left(c) => AfterClean(x, c)
  }

  function TablesOne(ts: Tables, e: Effect): Tables {
    match e
    case Served(_, order) => TablesAfter(ts, order)
    case Left(_) => ts
  }

  function IndexSerial(x: Index, es: seq<Effect>): Index {
    if es == [] then x else IndexOne(IndexSerial(x, es[..|es| - 1]), es[|es| - 1])
  }

  function TablesSerial(ts: Tables, es: seq<Effect>): Tables {
    if es == [] then ts else TablesOne(TablesSerial(ts, es[..|es| - 1]), es[|es| - 1])
  }

  lemma SerialOneMore(x: Index, ts: Tables, es: seq<Effect>, e: Effect)
    ensures IndexSerial(x, es + [e]) == IndexOne(IndexSerial(x, es), e)
    ensures TablesSerial(ts, es + [e]) == TablesOne(TablesSerial(ts, es), e)
  {
    assert (es + [e])[..|es|] == es;
  }

  lemma {:induction false} SerialConcat(x: Index, a: seq<Effect>, b: seq<Effect>)
    ensures IndexSerial(x, a + b) == IndexSerial(IndexSerial(x, a), b)
  {
    if b == [] {
      assert a + b == a;
    } else {
      assert (a + b)[..|a + b| - 1] == a + b[..|b| - 1];
      SerialConcat(x, a, b[..|b| - 1]);
    }
  }

  // ---------- what commutes ----------

  predicate Rebuilds(x: Index, c: Client, order: Order) { order.Add? || c in x.forward }

  function ForwardAfter(f: map<Client, set<CanId>>, c: Client, order: Order): map<Client, set<CanId>> {
    IndexAfter(Index(f, map[]), c, order).forward
  }

  lemma IndexAfterForward(x: Index, c: Client, order: Order)
    ensures IndexAfter(x, c, order) ==
            if Rebuilds(x, c, order) then Rebuilt(ForwardAfter(x.forward, c, order)) else x
  {
  }

  lemma ForwardsCommute(f: map<Client, set<CanId>>, c: Client, o: Order, d: Client, q: Order)
    requires c != d
    ensures ForwardAfter(ForwardAfter(f, c, o), d, q) == ForwardAfter(ForwardAfter(f, d, q), c, o)
  {
    ForwardEntry(f, c, o);
    ForwardEntry(f, d, q);
    ForwardEntry(ForwardAfter(f, c, o), d, q);
    ForwardEntry(ForwardAfter(f, d, q), c, o);
  }

  lemma ForwardEntry(f: map<Client, set<CanId>>, d: Client, q: Order)
    ensures var g := ForwardAfter(f, d, q);
            && g - {d} == f - {d}
            && (d in g <==> q.Add? || (d in f && f[d] - IdSet(q.ids) != {}))
            && IdsOf(g, d) == if q.Add? then IdsOf(f, d) + IdSet(q.ids) else IdsOf(f, d) - IdSet(q.ids)
  {
  }

  lemma ForwardOfOthers(f: map<Client, set<CanId>>, c: Client, d: Client, q: Order)
    requires c != d
    ensures c in ForwardAfter(f, d, q) <==> c in f
    ensures IdsOf(ForwardAfter(f, d, q), c) == IdsOf(f, c)
    ensures ForwardAfter(f - {c}, d, q) == ForwardAfter(f, d, q) - {c}
  {
  }

  /** Index updates of different clients commute. */
  lemma UpdatesCommute(x: Index, c: Client, o: Order, d: Client, q: Order)
    requires c != d
    ensures IndexAfter(IndexAfter(x, c, o), d, q) == IndexAfter(IndexAfter(x, d, q), c, o)
  {
    hide IndexAfter, ForwardAfter;
    ForwardsCommute(x.forward, c, o, d, q);
    ForwardOfOthers(x.forward, c, d, q);
    ForwardOfOthers(x.forward, d, c, o);
    IndexAfterForward(x, c, o);
    IndexAfterForward(x, d, q);
    IndexAfterForward(IndexAfter(x, c, o), d, q);
    IndexAfterForward(IndexAfter(x, d, q), c, o);
  }

  lemma InverseWithout(f: map<Client, set<CanId>>, c: Client)
    ensures Inverse(f - {c}) == Inverse(f) <==> IdsOf(f, c) == {}
  {
    InverseInverts(f);
    InverseInverts(f - {c});
    if IdsOf(f, c) == {} {
      assert forall id: CanId, d: Client :: Asks(f - {c}, d, id) <==> Asks(f, d, id);
      InverseIsUnique(Inverse(f - {c}), Inverse(f), f);
    } else {
      var id: CanId :| id in f[c];
      assert Listed(Inverse(f), id, c) && !Listed(Inverse(f - {c}), id, c);
    }
  }

  /** A departure commutes with another client's index update if and only if the departing client
      asks for nothing or the update does not rebuild the reverse index. */
  lemma DepartureCommutes(x: Index, c: Client, d: Client, q: Order)
    requires c != d
    ensures AfterClean(IndexAfter(x, d, q), c) == IndexAfter(AfterClean(x, c), d, q)
       <==> IdsOf(x.forward, c) == {} || !Rebuilds(x, d, q)
  {
    hide IndexAfter, ForwardAfter, Inverse;
    ForwardOfOthers(x.forward, c, d, q);
    IndexAfterForward(x, d, q);
    IndexAfterForward(AfterClean(x, c), d, q);
    InverseWithout(ForwardAfter(x.forward, d, q), c);
  }

  // ---------- moving an effect to the front ----------

  ghost predicate OthersOrders(es: seq<Effect>, c: Client) {
    forall i :: 0 <= i < |es| ==> es[i].Served? && es[i].c != c
  }

  lemma {:induction false} OthersKeepIds(x: Index, es: seq<Effect>, c: Client)
    requires OthersOrders(es, c)
    ensures IdsOf(IndexSerial(x, es).forward, c) == IdsOf(x.forward, c)
    ensures c in IndexSerial(x, es).forward <==> c in x.forward
  {
    if es == [] {
    } else {
      var init, e := es[..|es| - 1], es[|es| - 1];
      OthersKeepIds(x, init, c);
      ForwardOfOthers(IndexSerial(x, init).forward, c, e.c, e.order);
      IndexAfterForward(IndexSerial(x, init), e.c, e.order);
    }
  }

  lemma {:induction false} ToFront(x: Index, es: seq<Effect>, e: Effect)
    requires OthersOrders(es, e.c) && (e.Left? ==> IdsOf(x.forward, e.c) == {})
    ensures IndexOne(IndexSerial(x, es), e) == IndexSerial(IndexOne(x, e), es)
  {
    if es == [] {
    } else {
      var init, z := es[..|es| - 1], es[|es| - 1];
      var y := IndexSerial(x, init);
      hide IndexAfter, AfterClean;
      ToFront(x, init, e);
      OthersKeepIds(x, init, e.c);
      if e.Left? {
        DepartureCommutes(y, e.c, z.c, z.order);
      } else {
        UpdatesCommute(y, e.c, e.order, z.c, z.order);
      }
    }
  }

  lemma ForwardOnly(x: Index, y: Index, e: Effect)
    requires x.forward == y.forward
    ensures IndexOne(x, e).forward == IndexOne(y, e).forward
  {
  }

  lemma {:induction false} DepartureToFront(x: Index, es: seq<Effect>, c: Client)
    requires OthersOrders(es, c)
    ensures AfterClean(IndexSerial(x, es), c).forward == IndexSerial(AfterClean(x, c), es).forward
  {
    if es == [] {
    } else {
      var init, z := es[..|es| - 1], es[|es| - 1];
      DepartureToFront(x, init, c);
      ForwardOfOthers(IndexSerial(x, init).forward, c, z.c, z.order);
      ForwardOnly(AfterClean(IndexSerial(x, init), c), IndexSerial(AfterClean(x, c), init), z);
    }
  }

  // ---------- runs ----------

  // pend holds the orders that have reached the index but not the tables.
  ghost predicate Pending(r: Registry, pend: seq<Effect>) {
    && (forall i :: 0 <= i < |pend| ==>
          pend[i].Served? && IsAt(r, pend[i].c, UpdateTables) && r.clients[pend[i].c].order == pend[i].order)
    && Apart(pend)
    && (forall c: Client :: IsAt(r, c, UpdateTables) ==> exists i :: 0 <= i < |pend| && pend[i].c == c)
  }

  // Orders of different clients.
  ghost predicate Apart(es: seq<Effect>) {
    && (forall i :: 0 <= i < |es| ==> es[i].Served?)
    && (forall i, j :: 0 <= i < j < |es| ==> es[i].c != es[j].c)
  }

  ghost predicate SomeRebuilds(x: Index, es: seq<Effect>)
    requires Apart(es)
  {
    exists i :: 0 <= i < |es| && Rebuilds(x, es[i].c, es[i].order)
  }

  // Orders of different clients either rebuild the reverse index or do nothing at all.
  lemma {:induction false} RebuiltOrSame(x: Index, es: seq<Effect>)
    requires Apart(es)
    ensures var y := IndexSerial(x, es);
            if SomeRebuilds(x, es) then y.reverse == Inverse(y.forward) else y == x
  {
    if es == [] {
    } else {
      var init, z := es[..|es| - 1], es[|es| - 1];
      RebuiltOrSame(x, init);
      OthersKeepIds(x, init, z.c);
      IndexAfterForward(IndexSerial(x, init), z.c, z.order);
      assert SomeRebuilds(x, es) <==> SomeRebuilds(x, init) || Rebuilds(x, z.c, z.order) by {
        assert es[|es| - 1] == z && forall k :: 0 <= k < |init| ==> es[k] == init[k];
      }
    }
  }

  /** What there is to watch in a run: the clients whose order has rebuilt the reverse index and has
      not reached the tables, and whether, since the last rebuild, a client that asked for something
      has hung up while there was one. */
  datatype Watch = Watch(rebuilt: set<Client>, missed: bool)

  function WatchOne(r: Registry, a: Action, w: Watch): Watch {
    if !a.ByClient? then w
    else if a.event == Proceed && IsAt(r, a.c, UpdateIndex) then
      if Rebuilds(r.index, a.c, r.clients[a.c].order) then Watch(w.rebuilt + {a.c}, false) else w
    else if a.event == Proceed && IsAt(r, a.c, UpdateTables) then w.(rebuilt := w.rebuilt - {a.c})
    else if a.event == HangUp && IsIdle(r, a.c) && IdsOf(r.index.forward, a.c) != {} && w.rebuilt != {} then
      w.(missed := true)
    else w
  }

  function WatchRun(s: State, acts: seq<Action>, w: Watch): Watch
    decreases |acts|
  {
    if acts == [] then w else WatchRun(Step(s, acts[0]), acts[1..], WatchOne(s.reg, acts[0], w))
  }

  ghost predicate Watched(x: Index, pend: seq<Effect>, w: Watch) {
    && (forall i :: 0 <= i < |pend| ==>
          pend[i].Served? && (pend[i].c in w.rebuilt <==> Rebuilds(x, pend[i].c, pend[i].order)))
    && (forall c :: c in w.rebuilt ==> exists i :: 0 <= i < |pend| && pend[i].c == c)
  }

  // Some client is on a list of x that it is not on in y and would not be on after a rebuild.
  ghost predicate Exceeds(x: Index, y: Index) {
    exists id: CanId, c: Client ::
      Listed(x.reverse, id, c) && !Listed(y.reverse, id, c) && !Asks(y.forward, c, id)
  }

  ghost predicate Compares(x: Index, y: Index, missed: bool) {
    x.forward == y.forward && if missed then Exceeds(x, y) else x == y
  }

  // From x0 and ts0 the effects done have reached both, and pend only the index.
  ghost predicate Serialised(x0: Index, ts0: Tables, r: Registry, done: seq<Effect>, pend: seq<Effect>, w: Watch) {
    var x := IndexSerial(x0, done);
    && r.held.Keys == r.clients.Keys && Pending(r, pend)
    && r.tables == TablesSerial(ts0, done)
    && Watched(x, pend, w) && Compares(r.index, IndexSerial(x, pend), w.missed)
  }

  function EffectOf(r: Registry, a: Action): seq<Effect> {
    if a.ByClient? && a.event == Proceed && IsAt(r, a.c, UpdateTables) then [Served(a.c, r.clients[a.c].order)]
    else if a.ByClient? && a.event == HangUp && IsIdle(r, a.c) then [Left(a.c)]
    else []
  }

  function Effects(s: State, acts: seq<Action>): seq<Effect>
    decreases |acts|
  {
    if acts == [] then [] else EffectOf(s.reg, acts[0]) + Effects(Step(s, acts[0]), acts[1..])
  }

  // No client is between its two updates.
  ghost predicate Quiet(r: Registry) { forall c: Client :: !IsAt(r, c, UpdateTables) }

  lemma UpdateCompares(x: Index, y: Index, c: Client, order: Order, missed: bool)
    requires Compares(x, y, missed)
    ensures Compares(IndexAfter(x, c, order), IndexAfter(y, c, order), if Rebuilds(x, c, order) then false else missed)
  {
    IndexAfterForward(x, c, order);
    IndexAfterForward(y, c, order);
  }

  lemma PendingExcludes(r: Registry, pend: seq<Effect>, c: Client, x: Index, w: Watch)
    requires Pending(r, pend) && Watched(x, pend, w) && !IsAt(r, c, UpdateTables)
    ensures OthersOrders(pend, c) && c !in w.rebuilt && forall i :: 0 <= i < |pend| ==> pend[i].c != c
  {
  }

  lemma OneMoreWatched(x: Index, pend: seq<Effect>, e: Effect, w: Watch)
    requires Watched(x, pend, w) && e.Served? && e.c !in w.rebuilt && forall i :: 0 <= i < |pend| ==> pend[i].c != e.c
    ensures Watched(x, pend + [e], if Rebuilds(x, e.c, e.order) then Watch(w.rebuilt + {e.c}, false) else w)
  {
    assert (pend + [e])[|pend|] == e;
    forall c | c in w.rebuilt
      ensures exists i :: 0 <= i < |pend + [e]| && (pend + [e])[i].c == c
    {
      var i :| 0 <= i < |pend| && pend[i].c == c;
      assert (pend + [e])[i].c == c;
    }
  }

  lemma IndexStepSerialises(x0: Index, ts0: Tables, r: Registry, c: Client,
                            done: seq<Effect>, pend: seq<Effect>, w: Watch)
    requires Serialised(x0, ts0, r, done, pend, w) && IsAt(r, c, UpdateIndex)
    ensures Serialised(x0, ts0, ClientStep(r, c, Proceed), done, pend + [Served(c, r.clients[c].order)],
                       WatchOne(r, ByClient(c, Proceed), w))
  {
    var e, r', x := Served(c, r.clients[c].order), ClientStep(r, c, Proceed), IndexSerial(x0, done);
    var y := IndexSerial(x, pend);
    StartsPending(r, pend, c);
    hide IndexSerial, TablesSerial, IndexAfter, ClientStep, Pending, Compares, Watched, OthersOrders, Rebuilds;
    PendingExcludes(r, pend, c, x, w);
    SerialOneMore(x, ts0, pend, e);
    SameRebuild(r.index, x, pend, c, e.order, w.missed);
    UpdateCompares(r.index, y, c, e.order, w.missed);
    OneMoreWatched(x, pend, e, w);
  }

  lemma SameRebuild(x: Index, y: Index, pend: seq<Effect>, c: Client, order: Order, missed: bool)
    requires Compares(x, IndexSerial(y, pend), missed) && OthersOrders(pend, c)
    ensures Rebuilds(x, c, order) <==> Rebuilds(y, c, order)
  {
    hide IndexSerial;
    OthersKeepIds(y, pend, c);
  }

  lemma StartsPending(r: Registry, pend: seq<Effect>, c: Client)
    requires Pending(r, pend) && IsAt(r, c, UpdateIndex)
    ensures var r', e := ClientStep(r, c, Proceed), Served(c, r.clients[c].order);
            && Pending(r', pend + [e]) && (r.held.Keys == r.clients.Keys ==> r'.held.Keys == r'.clients.Keys)
            && r'.tables == r.tables && r'.index == IndexAfter(r.index, c, e.order)
  {
    var r', e := ClientStep(r, c, Proceed), Served(c, r.clients[c].order);
    assert r' == IndexUpdated(r, c, e.order);
    hide ClientStep, IndexAfter, Pending;
    OneMorePending(r, r', pend, e);
  }

  lemma OneMorePending(r: Registry, r': Registry, pend: seq<Effect>, e: Effect)
    requires Pending(r, pend) && e.Served? && !IsAt(r, e.c, UpdateTables)
    requires IsAt(r', e.c, UpdateTables) && r'.clients[e.c].order == e.order
    requires forall d: Client :: d != e.c ==> (IsAt(r', d, UpdateTables) <==> IsAt(r, d, UpdateTables))
    requires forall d: Client :: d != e.c && IsAt(r', d, UpdateTables) ==> r'.clients[d] == r.clients[d]
    ensures Pending(r', pend + [e])
  {
    forall d: Client | IsAt(r', d, UpdateTables)
      ensures exists i :: 0 <= i < |pend + [e]| && (pend + [e])[i].c == d
    {
      if d == e.c {
        assert (pend + [e])[|pend|].c == d;
      } else {
        assert IsAt(r, d, UpdateTables);
        var i :| 0 <= i < |pend| && pend[i].c == d;
        assert (pend + [e])[i].c == d;
      }
    }
  }

  lemma TablesStepSerialises(x0: Index, ts0: Tables, r: Registry, c: Client,
                             done: seq<Effect>, pend: seq<Effect>, w: Watch) returns (pend': seq<Effect>)
    requires Serialised(x0, ts0, r, done, pend, w) && IsAt(r, c, UpdateTables)
    ensures Serialised(x0, ts0, ClientStep(r, c, Proceed), done + [Served(c, r.clients[c].order)], pend',
                       w.(rebuilt := w.rebuilt - {c}))
  {
    var i :| 0 <= i < |pend| && pend[i].c == c;
    var e, x := pend[i], IndexSerial(x0, done);
    pend' := pend[..i] + pend[i + 1..];
    PendingIsApart(r, pend, i);
    EndsPending(r, pend, i);
    hide IndexSerial, TablesSerial, IndexAfter, TablesAfter, OthersOrders, Compares, ClientStep, Pending, Watched;
    MovedToFront(x, pend, i);
    SerialOneMore(x0, ts0, done, e);
    WithoutIsWatched(x, pend, i, w);
  }

  lemma EndsPending(r: Registry, pend: seq<Effect>, i: nat)
    requires Pending(r, pend) && i < |pend|
    ensures var r', e := ClientStep(r, pend[i].c, Proceed), pend[i];
            && e.order == r.clients[e.c].order
            && Pending(r', pend[..i] + pend[i + 1..])
            && (r.held.Keys == r.clients.Keys ==> r'.held.Keys == r'.clients.Keys)
            && r'.index == r.index && r'.tables == TablesAfter(r.tables, e.order)
  {
    var r', e := ClientStep(r, pend[i].c, Proceed), pend[i];
    assert r' == TablesUpdated(r, e.c, e.order);
    hide ClientStep, TablesAfter;
    WithoutIsPending(r, r', pend, i);
  }

  lemma WithoutIsWatched(x: Index, pend: seq<Effect>, i: nat, w: Watch)
    requires Watched(x, pend, w) && Apart(pend) && i < |pend|
    ensures Watched(IndexOne(x, pend[i]), pend[..i] + pend[i + 1..], w.(rebuilt := w.rebuilt - {pend[i].c}))
  {
    var e, pend' := pend[i], pend[..i] + pend[i + 1..];
    hide IndexAfter;
    forall k | 0 <= k < |pend'|
      ensures pend'[k].Served? && pend'[k].c != e.c
      ensures pend'[k].c in w.rebuilt <==> Rebuilds(IndexOne(x, e), pend'[k].c, pend'[k].order)
    {
      var m := if k < i then k else k + 1;
      assert pend'[k] == pend[m] && pend[m].c != e.c;
      OneKeepsEntry(x, e, pend[m].c);
    }
    forall c | c in w.rebuilt - {e.c}
      ensures exists k :: 0 <= k < |pend'| && pend'[k].c == c
    {
      var m :| 0 <= m < |pend| && pend[m].c == c;
      assert pend'[if m < i then m else m - 1] == pend[m];
    }
  }

  lemma OneKeepsEntry(x: Index, e: Effect, c: Client)
    requires e.c != c
    ensures c in IndexOne(x, e).forward <==> c in x.forward
  {
    if e.Served? {
      ForwardOfOthers(x.forward, c, e.c, e.order);
      IndexAfterForward(x, e.c, e.order);
    }
  }

  lemma PendingIsApart(r: Registry, pend: seq<Effect>, i: nat)
    requires Pending(r, pend) && i < |pend|
    ensures OthersOrders(pend[..i], pend[i].c) && pend[i].Served? && Apart(pend)
  {
  }

  lemma MovedToFront(x: Index, pend: seq<Effect>, i: nat)
    requires i < |pend| && OthersOrders(pend[..i], pend[i].c) && pend[i].Served?
    ensures IndexSerial(x, pend) == IndexSerial(IndexOne(x, pend[i]), pend[..i] + pend[i + 1..])
  {
    var e, before, after := pend[i], pend[..i], pend[i + 1..];
    assert pend == before + [e] + after;
    SerialConcat(x, before + [e], after);
    SerialConcat(IndexOne(x, e), before, after);
    assert (before + [e])[..i] == before;
    ToFront(x, before, e);
  }

  lemma WithoutIsPending(r: Registry, r': Registry, pend: seq<Effect>, i: nat)
    requires Pending(r, pend) && i < |pend| && !IsAt(r', pend[i].c, UpdateTables)
    requires forall d: Client :: d != pend[i].c ==> (IsAt(r', d, UpdateTables) <==> IsAt(r, d, UpdateTables))
    requires forall d: Client :: IsAt(r', d, UpdateTables) ==> r'.clients[d] == r.clients[d]
    ensures Pending(r', pend[..i] + pend[i + 1..])
  {
    var pend' := pend[..i] + pend[i + 1..];
    forall k | 0 <= k < |pend'|
      ensures var e := pend'[k];
              e.Served? && IsAt(r', e.c, UpdateTables) && r'.clients[e.c].order == e.order
    {
      var m := if k < i then k else k + 1;
      assert pend'[k] == pend[m] && pend[m].c != pend[i].c && IsAt(r, pend[m].c, UpdateTables);
    }
    forall d: Client | IsAt(r', d, UpdateTables)
      ensures exists k :: 0 <= k < |pend'| && pend'[k].c == d
    {
      assert IsAt(r, d, UpdateTables);
      var m :| 0 <= m < |pend| && pend[m].c == d;
      assert pend'[if m < i then m else m - 1] == pend[m];
    }
  }

  // A departure seen from the run, x, and from the serial execution, y followed by pend.
  lemma DepartureCompares(x: Index, y: Index, pend: seq<Effect>, c: Client, w: Watch)
    requires Compares(x, IndexSerial(y, pend), w.missed) && Apart(pend) && OthersOrders(pend, c) && Watched(y, pend, w)
    ensures Compares(AfterClean(x, c), IndexSerial(AfterClean(y, c), pend),
                     w.missed || (IdsOf(x.forward, c) != {} && w.rebuilt != {}))
  {
    var z, z' := IndexSerial(y, pend), IndexSerial(AfterClean(y, c), pend);
    RebuiltOrSame(y, pend);
    RebuiltOrSame(AfterClean(y, c), pend);
    WatchedRebuilds(y, pend, c, w);
    hide IndexSerial, Rebuilds;
    DepartureToFront(y, pend, c);
    OthersKeepIds(y, pend, c);
    InverseInverts(z.forward);
    InverseInverts(z'.forward);
    if IdsOf(x.forward, c) == {} {
      ToFront(y, pend, Left(c));
    } else if w.rebuilt != {} && !w.missed {
      var id :| id in x.forward[c];
      assert Listed(AfterClean(x, c).reverse, id, c) && !Listed(z'.reverse, id, c) && !Asks(z'.forward, c, id);
    }
  }

  lemma WatchedRebuilds(y: Index, pend: seq<Effect>, c: Client, w: Watch)
    requires Apart(pend) && OthersOrders(pend, c) && Watched(y, pend, w)
    ensures SomeRebuilds(y, pend) <==> w.rebuilt != {}
    ensures SomeRebuilds(AfterClean(y, c), pend) <==> w.rebuilt != {}
    ensures Watched(AfterClean(y, c), pend, w)
  {
    assert forall i :: 0 <= i < |pend| ==>
      (Rebuilds(AfterClean(y, c), pend[i].c, pend[i].order) <==> Rebuilds(y, pend[i].c, pend[i].order));
    if w.rebuilt != {} {
      var d :| d in w.rebuilt;
      var i :| 0 <= i < |pend| && pend[i].c == d;
      assert Rebuilds(y, pend[i].c, pend[i].order);
    }
  }

  lemma DepartureSerialises(x0: Index, ts0: Tables, r: Registry, c: Client,
                            done: seq<Effect>, pend: seq<Effect>, w: Watch)
    requires Serialised(x0, ts0, r, done, pend, w) && IsIdle(r, c)
    ensures Serialised(x0, ts0, Departed(r, c), done + [Left(c)], pend, WatchOne(r, ByClient(c, HangUp), w))
  {
    var x := IndexSerial(x0, done);
    assert OthersOrders(pend, c);
    SerialOneMore(x0, ts0, done, Left(c));
    SamePending(r, Departed(r, c), pend);
    hide TablesSerial, IndexSerial, IndexAfter, Compares, Watched;
    DepartureCompares(r.index, x, pend, c, w);
    WatchedRebuilds(x, pend, c, w);
    hide Apart, OthersOrders;
    WatchedIgnoresMissed(AfterClean(x, c), pend, w);
  }

  lemma WatchedIgnoresMissed(x: Index, pend: seq<Effect>, w: Watch)
    requires Watched(x, pend, w)
    ensures Watched(x, pend, w.(missed := true))
  {
  }

  lemma PendingIsNotQuiet(r: Registry, pend: seq<Effect>)
    requires Pending(r, pend) && pend != []
    ensures !Quiet(r)
  {
    assert IsAt(r, pend[0].c, UpdateTables);
  }

  lemma SamePending(r: Registry, r': Registry, pend: seq<Effect>)
    requires Pending(r, pend)
    requires forall d: Client :: IsAt(r', d, UpdateTables) <==> IsAt(r, d, UpdateTables)
    requires forall d: Client :: IsAt(r', d, UpdateTables) ==> r'.clients[d] == r.clients[d]
    ensures Pending(r', pend)
  {
  }

  lemma OtherEventsKeepStage(r: Registry, c: Client, event: Event, d: Client)
    requires r.held.Keys == r.clients.Keys
    requires event == Proceed ==> !IsAt(r, c, UpdateIndex) && !IsAt(r, c, UpdateTables)
    requires event == HangUp ==> !IsIdle(r, c)
    ensures var r' := ClientStep(r, c, event);
            && r'.index == r.index && r'.tables == r.tables && r'.held.Keys == r'.clients.Keys
            && (IsAt(r', d, UpdateTables) <==> IsAt(r, d, UpdateTables))
            && (IsAt(r', d, UpdateTables) ==> r'.clients[d] == r.clients[d])
  {
    if event == Proceed && c in r.clients && r.clients[c].Busy? {
      if IsAt(r, c, Acknowledge) {
        assert ClientStep(r, c, event) == Answered(r, c, r.clients[c].order);
      } else {
        OtherStageKeeps(r, c);
      }
    }
  }

  lemma OtherEventsSerialise(x0: Index, ts0: Tables, r: Registry, c: Client, event: Event,
                             done: seq<Effect>, pend: seq<Effect>, w: Watch)
    requires Serialised(x0, ts0, r, done, pend, w)
    requires event == Proceed ==> !IsAt(r, c, UpdateIndex) && !IsAt(r, c, UpdateTables)
    requires event == HangUp ==> !IsIdle(r, c)
    ensures Serialised(x0, ts0, ClientStep(r, c, event), done, pend, w)
  {
    hide ClientStep;
    forall d: Client {
      OtherEventsKeepStage(r, c, event, d);
    }
    OtherEventsKeepStage(r, c, event, c);
    SamePending(r, ClientStep(r, c, event), pend);
  }

  lemma EffectCases(r: Registry, c: Client, event: Event, w: Watch)
    ensures var e, w' := EffectOf(r, ByClient(c, event)), WatchOne(r, ByClient(c, event), w);
            if event == Proceed && IsAt(r, c, UpdateIndex) then e == []
            else if event == Proceed && IsAt(r, c, UpdateTables) then
              e == [Served(c, r.clients[c].order)] && w' == w.(rebuilt := w.rebuilt - {c})
            else if event == HangUp && IsIdle(r, c) then e == [Left(c)]
            else e == [] && w' == w
  {
  }

  lemma StepSerialises(x0: Index, ts0: Tables, s: State, a: Action,
                       done: seq<Effect>, pend: seq<Effect>, w: Watch) returns (pend': seq<Effect>)
    requires Serialised(x0, ts0, s.reg, done, pend, w)
    ensures Serialised(x0, ts0, Step(s, a).reg, done + EffectOf(s.reg, a), pend', WatchOne(s.reg, a, w))
  {
    pend' := pend;
    assert done + [] == done;
    if a.ByClient? {
      EffectCases(s.reg, a.c, a.event, w);
      hide Serialised, ClientStep, EffectOf, WatchOne;
      if a.event == Proceed && IsAt(s.reg, a.c, UpdateIndex) {
        IndexStepSerialises(x0, ts0, s.reg, a.c, done, pend, w);
        pend' := pend + [Served(a.c, s.reg.clients[a.c].order)];
      } else if a.event == Proceed && IsAt(s.reg, a.c, UpdateTables) {
        pend' := TablesStepSerialises(x0, ts0, s.reg, a.c, done, pend, w);
      } else if a.event == HangUp && IsIdle(s.reg, a.c) {
        DepartureSerialises(x0, ts0, s.reg, a.c, done, pend, w);
      } else {
        OtherEventsSerialise(x0, ts0, s.reg, a.c, a.event, done, pend, w);
      }
    }
  }

  lemma EffectsSplit(s: State, acts: seq<Action>, done: seq<Effect>)
    requires acts != []
    ensures done + Effects(s, acts) == done + EffectOf(s.reg, acts[0]) + Effects(Step(s, acts[0]), acts[1..])
  {
    hide EffectOf, Step;
  }

  lemma {:induction false} RunSerialises(x0: Index, ts0: Tables, s: State, acts: seq<Action>,
                                         done: seq<Effect>, pend: seq<Effect>, w: Watch) returns (pend': seq<Effect>)
    requires Serialised(x0, ts0, s.reg, done, pend, w)
    ensures Serialised(x0, ts0, Run(s, acts).reg, done + Effects(s, acts), pend', WatchRun(s, acts, w))
    decreases |acts|
  {
    if acts == [] {
      assert done + [] == done;
      pend' := pend;
    } else {
      var s', w' := Step(s, acts[0]), WatchOne(s.reg, acts[0], w);
      assert Run(s, acts) == Run(s', acts[1..]) && WatchRun(s, acts, w) == WatchRun(s', acts[1..], w');
      hide Serialised, EffectOf, Effects, Step, Run, WatchOne, WatchRun;
      pend' := StepSerialises(x0, ts0, s, acts[0], done, pend, w);
      pend' := RunSerialises(x0, ts0, s', acts[1..], done + EffectOf(s.reg, acts[0]), pend', w');
      EffectsSplit(s, acts, done);
    }
  }

  // A client that asked for something has hung up after the last rebuild of the reverse index, while
  // an order that had rebuilt it had not reached the tables.
  predicate Missed(s: State, acts: seq<Action>) { WatchRun(s, acts, Watch({}, false)).missed }

  /** However the orders of any number of clients overlap, with each other, with departures and with
      both threads, at every quiet point the tables and the forward map are those of the orders and
      departures one after another, each order where it reached the tables; and the reverse index is
      so if and only if no departure was missed. */
  lemma RunIsSerial(s: State, acts: seq<Action>)
    requires s.reg.held.Keys == s.reg.clients.Keys && Quiet(s.reg) && Quiet(Run(s, acts).reg)
    ensures var t, x := Run(s, acts).reg, IndexSerial(s.reg.index, Effects(s, acts));
            && t.tables == TablesSerial(s.reg.tables, Effects(s, acts))
            && t.index.forward == x.forward && (t.index == x <==> !Missed(s, acts))
  {
    assert Serialised(s.reg.index, s.reg.tables, s.reg, [], [], Watch({}, false));
    var pend := RunSerialises(s.reg.index, s.reg.tables, s, acts, [], [], Watch({}, false));
    if pend != [] {
      PendingIsNotQuiet(Run(s, acts).reg, pend);
    }
    assert [] + Effects(s, acts) == Effects(s, acts);
  }

  // ---------- the serial order is each client's own order ----------

  function OrdersOf(es: seq<Effect>, c: Client): seq<Order> {
    if es == [] then []
    else
      var e := es[|es| - 1];
      OrdersOf(es[..|es| - 1], c) + if e.Served? && e.c == c then [e.order] else []
  }

  // The order a client has submitted that has not reached the tables.
  function NotYet(r: Registry, c: Client): seq<Order> {
    if c in r.clients && r.clients[c].Busy? && Rank(r.clients[c].stage) <= 3 then [r.clients[c].order] else []
  }

  lemma OrdersOneMore(es: seq<Effect>, e: Effect, c: Client)
    ensures OrdersOf(es + [e], c) == OrdersOf(es, c) + if e.Served? && e.c == c then [e.order] else []
  {
    assert (es + [e])[..|es|] == es;
  }

  lemma StepKeepsOwnOrder(r: Registry, d: Client, event: Event, c: Client, done: seq<Effect>)
    requires r.held.Keys == r.clients.Keys
    requires OrdersOf(done, c) + NotYet(r, c) == RequestsOf(r.requests, c)
    ensures var r' := ClientStep(r, d, event);
            OrdersOf(done + EffectOf(r, ByClient(d, event)), c) + NotYet(r', c) == RequestsOf(r'.requests, c)
  {
    hide OrdersOf, EffectOf, NotYet, RequestsOf, ClientStep;
    var r', e := ClientStep(r, d, event), EffectOf(r, ByClient(d, event));
    var had := OrdersOf(done, c);
    if e != [] {
      EffectsKeepOrder(r, d, event, c);
      OrdersOneMore(done, e[0], c);
      var mine := if e[0].Served? && e[0].c == c then [e[0].order] else [];
      assert had + (mine + NotYet(r', c)) == had + mine + NotYet(r', c);
    } else {
      assert done + [] == done;
      if event.Submit? && IsIdle(r, d) {
        SubmitKeepsOrder(r, d, event.order, c);
        var mine := if c == d then [event.order] else [];
        assert had + (NotYet(r, c) + mine) == had + NotYet(r, c) + mine;
      } else {
        OtherEventsKeepNotYet(r, d, event, c);
      }
    }
  }

  lemma SubmitKeepsOrder(r: Registry, d: Client, order: Order, c: Client)
    requires IsIdle(r, d)
    ensures var r', mine := ClientStep(r, d, Submit(order)), if c == d then [order] else [];
            && RequestsOf(r'.requests, c) == RequestsOf(r.requests, c) + mine
            && NotYet(r', c) == NotYet(r, c) + mine
  {
    var r' := ClientStep(r, d, Submit(order));
    assert r'.requests[..|r.requests|] == r.requests;
  }

  lemma OtherEventsKeepNotYet(r: Registry, d: Client, event: Event, c: Client)
    requires r.held.Keys == r.clients.Keys
    requires EffectOf(r, ByClient(d, event)) == [] && (event.Submit? ==> !IsIdle(r, d))
    ensures var r' := ClientStep(r, d, event);
            r'.requests == r.requests && NotYet(r', c) == NotYet(r, c)
  {
    if event == Proceed && d in r.clients && r.clients[d].Busy? {
      var order := r.clients[d].order;
      if IsAt(r, d, UpdateIndex) {
        assert ClientStep(r, d, event) == IndexUpdated(r, d, order);
      } else if IsAt(r, d, Acknowledge) {
        assert ClientStep(r, d, event) == Answered(r, d, order);
      } else {
        OtherStageKeeps(r, d);
      }
    }
  }

  lemma EffectsKeepOrder(r: Registry, d: Client, event: Event, c: Client)
    requires r.held.Keys == r.clients.Keys && EffectOf(r, ByClient(d, event)) != []
    ensures var r', e := ClientStep(r, d, event), EffectOf(r, ByClient(d, event))[0];
            && EffectOf(r, ByClient(d, event)) == [e] && r'.requests == r.requests
            && NotYet(r, c) == (if e.Served? && e.c == c then [e.order] else []) + NotYet(r', c)
  {
  }

  ghost predicate OwnOrderKept(r: Registry, c: Client, done: seq<Effect>) {
    r.held.Keys == r.clients.Keys && OrdersOf(done, c) + NotYet(r, c) == RequestsOf(r.requests, c)
  }

  lemma ActionKeepsOwnOrder(s: State, a: Action, c: Client, done: seq<Effect>)
    requires OwnOrderKept(s.reg, c, done)
    ensures OwnOrderKept(Step(s, a).reg, c, done + EffectOf(s.reg, a))
  {
    if a.ByClient? {
      hide OrdersOf, NotYet, RequestsOf, EffectOf, ClientStep;
      ClientKeepsKeys(s.reg, a.c, a.event);
      StepKeepsOwnOrder(s.reg, a.c, a.event, c, done);
    } else {
      assert done + [] == done;
    }
  }

  lemma {:induction false} RunKeepsOwnOrder(s: State, acts: seq<Action>, c: Client, done: seq<Effect>)
    requires OwnOrderKept(s.reg, c, done)
    ensures OwnOrderKept(Run(s, acts).reg, c, done + Effects(s, acts))
    decreases |acts|
  {
    if acts == [] {
      assert done + [] == done;
    } else {
      hide OwnOrderKept, EffectOf, Step;
      ActionKeepsOwnOrder(s, acts[0], c, done);
      RunKeepsOwnOrder(Step(s, acts[0]), acts[1..], c, done + EffectOf(s.reg, acts[0]));
      EffectsSplit(s, acts, done);
    }
  }

  /** Every order submitted takes effect exactly once, a client's orders in the order in which it
      submitted them. */
  lemma EffectsAreTheOrders(acts: seq<Action>, c: Client)
    ensures var r := Run(INIT, acts).reg;
            OrdersOf(Effects(INIT, acts), c) + NotYet(r, c) == RequestsOf(r.requests, c)
  {
    RunKeepsOwnOrder(INIT, acts, c, []);
    assert [] + Effects(INIT, acts) == Effects(INIT, acts);
  }

  // ---------- the controller does the same ----------

  // The package that carries an order; a departure is the end of a session.
  ghost predicate Carried(es: seq<Effect>, ps: seq<Package>) {
    |ps| == |es| && forall i :: 0 <= i < |es| && es[i].Served? ==>
      WellFormed(ps[i]) && IsFilterOrder(ps[i]) && OrderOf(ps[i]) == es[i].order
  }

  ghost function Controlled(s: Controllers.Server, es: seq<Effect>, ps: seq<Package>,
                            clock: nat -> nat): Controllers.Server
    requires Carried(es, ps)
    decreases |es|
  {
    if es == [] then s
    else
      var k := |es| - 1;
      var t := Controlled(s, es[..k], ps[..k], clock);
      if es[k].Served? then Controllers.Serve(t, es[k].c, ps[k], clock)
      else Controllers.Session(t, es[k].c, [], clock)
  }

  lemma {:induction false} SerialIsControlled(s: Controllers.Server, es: seq<Effect>, ps: seq<Package>,
                                              clock: nat -> nat)
    requires Carried(es, ps)
    ensures var t := Controlled(s, es, ps, clock);
            t.index == IndexSerial(s.index, es) && t.tables == TablesSerial(s.tables, es)
    decreases |es|
  {
    if es == [] {
    } else {
      var k := |es| - 1;
      SerialIsControlled(s, es[..k], ps[..k], clock);
    }
  }

  /** So index and tables are what the controller leaves when it handles the same packages one at a
      time. */
  lemma RunIsControlled(acts: seq<Action>, ps: seq<Package>, clock: nat -> nat)
    requires Quiet(Run(INIT, acts).reg) && Carried(Effects(INIT, acts), ps)
    ensures var r := Run(INIT, acts).reg;
            var t := Controlled(Controllers.Server(EMPTY_INDEX, NO_FILTERS, []), Effects(INIT, acts), ps, clock);
            && r.tables == t.tables && r.index.forward == t.index.forward
            && (r.index == t.index <==> !Missed(INIT, acts))
  {
    RunIsSerial(INIT, acts);
    SerialIsControlled(Controllers.Server(EMPTY_INDEX, NO_FILTERS, []), Effects(INIT, acts), ps, clock);
  }
}
