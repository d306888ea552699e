/** What a client asks for against what it holds. The manager keeps a set and the receiver a
    multiset, so the two agree in every state only for clients that never add an identifier
    twice. */
module DaemonHoldings {
  import opened CanFrames
  import opened FilterTables
  import opened Receivers
  import opened ClientIndex
  import opened Daemon
  import opened DaemonCounts

  // The client discipline: add only what one does not hold, and nothing twice in a list.
  ghost predicate NoRepeat(held: multiset<CanId>, ids: seq<CanId>) {
    forall id: CanId :: held[id] + multiset(ids)[id] <= 1
  }

  ghost predicate Careful(r: Registry, a: Action) {
    (a.ByClient? && a.event.Submit? && a.event.order.Add? && IsIdle(r, a.c))
    ==> NoRepeat(r.held[a.c], a.event.order.ids)
  }

  ghost predicate CarefulRun(s: State, acts: seq<Action>)
    decreases |acts|
  {
    acts == [] || (Careful(s.reg, acts[0]) && CarefulRun(Step(s, acts[0]), acts[1..]))
  }

  // Nothing is held twice, and what is held is asked for unless it is about to be removed.
  ghost predicate HeldIsAsked(r: Registry, c: Client, id: CanId) {
    (c in r.clients && c in r.held) ==>
      && r.held[c][id] <= 1
      && (r.clients[c].Busy? && r.clients[c].order.Add? && Unfinished(r.clients[c].stage)
          ==> r.held[c][id] + multiset(r.clients[c].order.ids)[id] <= 1)
      && (id in r.held[c] && !Removing(r, c, id) ==> Asks(r.index.forward, c, id))
      && (Adding(r, c, id) ==> Asks(r.index.forward, c, id))
  }

  lemma IndexUpdateKeepsAsked(r: Registry, c: Client, d: Client, id: CanId)
    requires IsAt(r, c, UpdateIndex) && HeldIsAsked(r, d, id)
    ensures HeldIsAsked(ClientStep(r, c, Proceed), d, id)
  {
    AsksAfter(r.index, c, r.clients[c].order, d, id);
  }

  lemma TablesUpdateKeepsAsked(r: Registry, c: Client, d: Client, id: CanId)
    requires IsAt(r, c, UpdateTables) && HeldIsAsked(r, d, id)
    ensures HeldIsAsked(ClientStep(r, c, Proceed), d, id)
  {
    if d == c {
      var ids := r.clients[c].order.ids;
      assert id in multiset(ids) <==> id in ids;
    }
  }

  lemma DepartureKeepsAsked(r: Registry, c: Client, d: Client, id: CanId)
    requires IsIdle(r, c) && HeldIsAsked(r, d, id)
    ensures HeldIsAsked(Departed(r, c), d, id)
  {
  }

  lemma OtherStageKeepsAsked(r: Registry, c: Client, d: Client, id: CanId)
    requires !IsAt(r, c, UpdateIndex) && !IsAt(r, c, UpdateTables)
    requires r.held.Keys == r.clients.Keys && HeldIsAsked(r, d, id)
    ensures HeldIsAsked(ClientStep(r, c, Proceed), d, id)
  {
  }

  lemma OtherEventsKeepAsked(r: Registry, c: Client, event: Event, d: Client, id: CanId)
    requires event != Proceed || (!IsAt(r, c, UpdateIndex) && !IsAt(r, c, UpdateTables))
    requires r.held.Keys == r.clients.Keys && HeldIsAsked(r, d, id) && Careful(r, ByClient(c, event))
    ensures HeldIsAsked(ClientStep(r, c, event), d, id)
  {
    if event == Proceed {
      OtherStageKeepsAsked(r, c, d, id);
    } else if event == HangUp && IsIdle(r, c) {
      DepartureKeepsAsked(r, c, d, id);
    }
  }

  lemma {:induction false} RunKeepsAsked(s: State, acts: seq<Action>, d: Client, id: CanId)
    requires CarefulRun(s, acts) && s.reg.held.Keys == s.reg.clients.Keys && HeldIsAsked(s.reg, d, id)
    ensures HeldIsAsked(Run(s, acts).reg, d, id)
    decreases |acts|
  {
    if acts == [] {
    } else {
      var a := acts[0];
      if a.ByClient? {
        ClientKeepsKeys(s.reg, a.c, a.event);
        if a.event == Proceed && IsAt(s.reg, a.c, UpdateIndex) {
          IndexUpdateKeepsAsked(s.reg, a.c, d, id);
        } else if a.event == Proceed && IsAt(s.reg, a.c, UpdateTables) {
          TablesUpdateKeepsAsked(s.reg, a.c, d, id);
        } else {
          OtherEventsKeepAsked(s.reg, a.c, a.event, d, id);
        }
      }
      RunKeepsAsked(Step(s, a), acts[1..], d, id);
    }
  }

  /** In every run in which clients add only what they do not hold, without repeats, a client
      asks for exactly what it holds, give or take the order that is between its two updates. */
  lemma AskedIsExactlyHeld(acts: seq<Action>, c: Client, id: CanId)
    requires CarefulRun(INIT, acts) && c in Run(INIT, acts).reg.clients
    ensures var r := Run(INIT, acts).reg;
            && c in r.held
            && (Asks(r.index.forward, c, id) <==> (id in r.held[c] && !Removing(r, c, id)) || Adding(r, c, id))
  {
    RunKeepsCovered(INIT, acts);
    RunKeepsAsked(INIT, acts, c, id);
    assert CoveredAt(Run(INIT, acts).reg, c, id);
  }

  /** For any client that asks for all it holds, a REMOVE leaves that so if and only if, of each
      identifier it lists, it lists as many as the client holds. */
  lemma RemovalKeepsAskedExactly(x: Index, c: Client, held: multiset<CanId>, port: uint32, ids: seq<CanId>)
    requires forall id: CanId :: id in held ==> Asks(x.forward, c, id)
    ensures var order := Remove(port, ids);
            var y, left := IndexAfter(x, c, order), HeldAfter(held, order);
            (forall id: CanId :: id in left ==> Asks(y.forward, c, id))
            <==> forall id :: id in ids ==> held[id] <= multiset(ids)[id]
  {
    var order := Remove(port, ids);
    forall id: CanId
      ensures Asks(IndexAfter(x, c, order).forward, c, id) <==> Asks(x.forward, c, id) && id !in ids
      ensures id in HeldAfter(held, order) <==> held[id] > multiset(ids)[id]
      ensures id in ids <==> multiset(ids)[id] > 0
    {
      AsksAfter(x, c, order, c, id);
    }
  }

  /** Without the discipline this fails: a client adds an identifier twice and removes it once.
      It still holds it and its frames are still matched, but it is not written them. */
  lemma RepeatedAddIsForgotten()
    ensures var add, remove := Add(0, [0x100, 0x100]), Remove(0, [0x100]);
            var x := IndexAfter(IndexAfter(EMPTY_INDEX, 7, add), 7, remove);
            var ts := TablesAfter(TablesAfter(NO_FILTERS, add), remove);
            && HeldAfter(HeldAfter(multiset{}, add), remove) == multiset{0x100}
            && CountOf(ts.port5, 0x100) == 1 && 0x100 in ts.port5.filters
            && !Asks(x.forward, 7, 0x100)
  {
    var add, remove := Add(0, [0x100, 0x100]), Remove(0, [0x100]);
    assert multiset([0x100, 0x100])[0x100] == 2 && multiset([0x100])[0x100] == 1;
    AsksAfter(IndexAfter(EMPTY_INDEX, 7, add), 7, remove, 7, 0x100);
  }
}
