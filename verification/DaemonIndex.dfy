/** Who is written to: the reverse index against the forward map, over every run. */
module DaemonIndex {
  import opened CanFrames
  import opened ClientIndex
  import opened Daemon

  // The reverse index is exactly the forward map plus the entries dropped by disconnects since
  // it was last rebuilt; a client is never in both.
  ghost predicate IndexExact(r: Registry) {
    && (forall id: CanId, c: Client ::
          Listed(r.index.reverse, id, c) <==> Asks(r.index.forward, c, id) || Asks(r.stale, c, id))
    && (forall id: CanId :: id in r.index.reverse ==> r.index.reverse[id] != {})
    && r.stale.Keys !! r.index.forward.Keys
    && r.index.forward.Keys <= r.clients.Keys
    && (forall c: Client :: c in r.clients || c in r.stale ==> c >= 0)
  }

  lemma RebuildIsExact(r: Registry, c: Client)
    requires IndexExact(r) && IsAt(r, c, UpdateIndex)
    requires r.clients[c].order.Add? || c in r.index.forward
    ensures var r' := ClientStep(r, c, Proceed);
            IndexExact(r') && r'.stale == map[] && IsInverse(r'.index.reverse, r'.index.forward)
  {
    var r' := ClientStep(r, c, Proceed);
    InverseInverts(r'.index.forward);
    assert forall id: CanId, d: Client :: !Asks(r'.stale, d, id);
  }

  lemma DepartureIsExact(r: Registry, c: Client)
    requires IndexExact(r) && IsIdle(r, c)
    ensures IndexExact(Departed(r, c))
  {
  }

  lemma ClientKeepsIndex(r: Registry, c: Client, event: Event)
    requires IndexExact(r)
    ensures IndexExact(ClientStep(r, c, event))
  {
    if event == HangUp && IsIdle(r, c) {
      DepartureIsExact(r, c);
    } else if event == Proceed && IsAt(r, c, UpdateIndex) && (r.clients[c].order.Add? || c in r.index.forward) {
      RebuildIsExact(r, c);
    }
  }

  /** In every reachable state the reverse index holds every pair of the forward map, and any
      other pair belongs to a client that disconnected since the last rebuild. */
  lemma {:induction false} RunKeepsIndex(s: State, acts: seq<Action>)
    requires IndexExact(s.reg)
    ensures IndexExact(Run(s, acts).reg)
    decreases |acts|
  {
    if acts == [] {
    } else {
      var a := acts[0];
      if a.ByClient? {
        ClientKeepsIndex(s.reg, a.c, a.event);
      }
      RunKeepsIndex(Step(s, a), acts[1..]);
    }
  }

  function Subscribers(forward: map<Client, set<CanId>>, id: CanId): set<Client> {
    set c: Client | c in forward && id in forward[c]
  }

  lemma TargetsAreExact(r: Registry, id: CanId)
    requires IndexExact(r)
    ensures Targets(r.index, id) == Subscribers(r.index.forward, id) + Subscribers(r.stale, id)
    ensures Subscribers(r.index.forward, id) !! Subscribers(r.stale, id)
  {
    forall c: Client
      ensures c in Targets(r.index, id) <==> c in Subscribers(r.index.forward, id) + Subscribers(r.stale, id)
    {
      assert Listed(r.index.reverse, id, c) <==> Asks(r.index.forward, c, id) || Asks(r.stale, c, id);
    }
  }

  /** Every delivery of every run goes exactly to the clients that ask for the identifier when
      the callback runs, plus those that asked for it and disconnected since the last rebuild.
      It goes to exactly the askers if and only if no such client is left over. */
  lemma DeliveryIsExact(acts: seq<Action>)
    requires Run(INIT, acts).work.pc.Running?
    ensures var s := Run(INIT, acts);
            var id := s.work.pc.task.frame.id;
            var targets := Subscribers(s.reg.index.forward, id) + Subscribers(s.reg.stale, id);
            && Step(s, ByWorker).work.delivered == s.work.delivered + [Delivery(s.work.pc.task, targets)]
            && (targets == Subscribers(s.reg.index.forward, id) <==> Subscribers(s.reg.stale, id) == {})
  {
    RunKeepsIndex(INIT, acts);
    var s := Run(INIT, acts);
    TargetsAreExact(s.reg, s.work.pc.task.frame.id);
  }

  /** Once an ADD, or a REMOVE by a client that has an entry, has updated the index, the
      reverse index is the exact inverse of the forward map. */
  lemma UpdateMakesExactInverse(acts: seq<Action>, c: Client)
    requires var r := Run(INIT, acts).reg;
             IsAt(r, c, UpdateIndex) && (r.clients[c].order.Add? || c in r.index.forward)
    ensures var r' := Step(Run(INIT, acts), ByClient(c, Proceed)).reg;
            r'.stale == map[] && IsInverse(r'.index.reverse, r'.index.forward)
  {
    RunKeepsIndex(INIT, acts);
    RebuildIsExact(Run(INIT, acts).reg, c);
  }

  // ---------- removal is final ----------

  // Client c is not on id's recipient list and is not about to add id.
  ghost predicate Off(r: Registry, c: Client, id: CanId) {
    && !Listed(r.index.reverse, id, c)
    && !Asks(r.index.forward, c, id)
    && (c in r.clients && r.clients[c].Busy? && r.clients[c].order.Add? ==> id !in r.clients[c].order.ids)
  }

  predicate Adds(a: Action, c: Client, id: CanId) {
    a.ByClient? && a.c == c && a.event.Submit? && a.event.order.Add? && id in a.event.order.ids
  }

  lemma ClientKeepsOff(r: Registry, d: Client, event: Event, c: Client, id: CanId)
    requires Off(r, c, id) && !Adds(ByClient(d, event), c, id)
    ensures Off(ClientStep(r, d, event), c, id)
  {
    if event == Proceed && IsAt(r, d, UpdateIndex) {
      var r' := ClientStep(r, d, event);
      if r.clients[d].order.Add? || d in r.index.forward {
        InverseInverts(r'.index.forward);
        assert Listed(r'.index.reverse, id, c) <==> Asks(r'.index.forward, c, id);
      }
    }
  }

  // The deliveries made between two states, none of them of id to c.
  ghost predicate NoneTo(before: seq<Delivery>, after: seq<Delivery>, c: Client, id: CanId) {
    && |before| <= |after| && after[..|before|] == before
    && forall k :: |before| <= k < |after| && after[k].task.frame.id == id ==> c !in after[k].targets
  }

  lemma StepWritesNone(s: State, a: Action, c: Client, id: CanId)
    requires Off(s.reg, c, id)
    ensures NoneTo(s.work.delivered, Step(s, a).work.delivered, c, id)
  {
  }

  lemma {:induction false} OffStaysOff(s: State, acts: seq<Action>, c: Client, id: CanId)
    requires Off(s.reg, c, id) && forall a :: a in acts ==> !Adds(a, c, id)
    ensures Off(Run(s, acts).reg, c, id)
    ensures NoneTo(s.work.delivered, Run(s, acts).work.delivered, c, id)
    decreases |acts|
  {
    if acts == [] {
    } else {
      var a := acts[0];
      assert a in acts;
      if a.ByClient? {
        ClientKeepsOff(s.reg, a.c, a.event, c, id);
      }
      StepWritesNone(s, a, c, id);
      OffStaysOff(Step(s, a), acts[1..], c, id);
      NoneToTransitive(s.work.delivered, Step(s, a).work.delivered, Run(s, acts).work.delivered, c, id);
    }
  }

  lemma NoneToTransitive(x: seq<Delivery>, y: seq<Delivery>, z: seq<Delivery>, c: Client, id: CanId)
    requires NoneTo(x, y, c, id) && NoneTo(y, z, c, id)
    ensures NoneTo(x, z, c, id)
  {
  }

  /** Removal is final, even for frames that are already queued: once the index update of a
      REMOVE of id is done by a client that has an entry or is not on id's recipient list, no run
      in which that client does not add id again ever writes it a frame with that id. */
  lemma RemovalIsFinal(s: State, c: Client, id: CanId, acts: seq<Action>)
    requires IsAt(s.reg, c, UpdateIndex) && s.reg.clients[c].order.Remove? && id in s.reg.clients[c].order.ids
    requires c in s.reg.index.forward || !Listed(s.reg.index.reverse, id, c)
    requires forall a :: a in acts ==> !Adds(a, c, id)
    ensures NoneTo(s.work.delivered, Run(Step(s, ByClient(c, Proceed)), acts).work.delivered, c, id)
  {
    RemovedFromTargets(s.reg.index, c, s.reg.clients[c].order.ids, id);
    OffStaysOff(Step(s, ByClient(c, Proceed)), acts, c, id);
  }

  /** The condition is exact: when it fails, the very next step of a worker that is about to call
      back with a frame of that id writes it to the client. */
  lemma RemovalIsNotFinal(s: State, c: Client, id: CanId)
    requires IsAt(s.reg, c, UpdateIndex) && s.reg.clients[c].order.Remove? && id in s.reg.clients[c].order.ids
    requires !(c in s.reg.index.forward || !Listed(s.reg.index.reverse, id, c)) && c >= 0
    requires s.work.pc.Running? && s.work.pc.task.frame.id == id
    ensures var t := Run(Step(s, ByClient(c, Proceed)), [ByWorker]);
            !NoneTo(s.work.delivered, t.work.delivered, c, id)
  {
    var s' := Step(s, ByClient(c, Proceed));
    RemovedFromTargets(s.reg.index, c, s.reg.clients[c].order.ids, id);
    assert Run(s', [ByWorker]) == Step(s', ByWorker);
    var t := Step(s', ByWorker);
    assert t.work.delivered[|s.work.delivered|] == Delivery(s.work.pc.task, Targets(s'.reg.index, id));
  }
}
