/** What the threads get done: the worker drains its queue, a sweep reads every enabled port, and a
    frame that a client asks for reaches it. And what they no longer do after they are told to end. */
module DaemonProgress {
  import opened CanFrames
  import opened FilterTables
  import opened WorkQueues
  import opened Receivers
  import opened ClientIndex
  import opened Daemon
  import opened DaemonIndex
  import opened DaemonCounts
  import opened DaemonPause
  import opened DaemonPipeline

  // ---------- the worker ----------

  // Five steps a task: top, gate, dequeue, test, callback.
  function WorkerTurns(n: nat): seq<Action> {
    if n == 0 then [] else [ByWorker, ByWorker, ByWorker, ByWorker, ByWorker] + WorkerTurns(n - 1)
  }

  predicate WorkerIsFree(s: State) {
    s.work.pc.WorkTop? && s.flags.workRunning && !s.flags.workPaused && !s.queue.stopped
  }

  /** The worker alone takes the oldest task and calls back: it is delivered to those who are on the
      recipient list of its frame's identifier. */
  lemma WorkerServesOne(s: State)
    requires WorkerIsFree(s) && s.queue.items != []
    ensures var first := s.queue.items[0];
            Run(s, [ByWorker, ByWorker, ByWorker, ByWorker, ByWorker]) ==
            s.(queue := s.queue.(items := s.queue.items[1..]),
               work := s.work.(started := s.work.started + 1,
                               delivered := s.work.delivered + [Delivery(first, Targets(s.reg.index, first.frame.id))]))
  {
    hide Targets;
    var first, rest := s.queue.items[0], s.queue.(items := s.queue.items[1..]);
    var s1 := Step(s, ByWorker);
    var s2 := Step(s1, ByWorker);
    assert s2 == s.(work := s.work.(pc := Dequeuing));
    var s3 := Step(s2, ByWorker);
    assert s3 == s.(queue := rest, work := s.work.(pc := Got(Some(first))));
    var s4 := Step(s3, ByWorker);
    assert s4 == s.(queue := rest, work := s.work.(pc := Running(first), started := s.work.started + 1));
    var s5 := Step(s4, ByWorker);
    hide Step;
    RunCons(s, ByWorker, [ByWorker, ByWorker, ByWorker, ByWorker]);
    RunCons(s1, ByWorker, [ByWorker, ByWorker, ByWorker]);
    RunCons(s2, ByWorker, [ByWorker, ByWorker]);
    RunCons(s3, ByWorker, [ByWorker]);
    RunCons(s4, ByWorker, []);
  }

  function Deliveries(tasks: seq<Task>, index: Index): seq<Delivery> {
    seq(|tasks|, i requires 0 <= i < |tasks| => Delivery(tasks[i], Targets(index, tasks[i].frame.id)))
  }

  /** The worker alone drains the queue: every task is delivered once, in order. */
  lemma {:induction false} WorkerDrains(s: State)
    requires WorkerIsFree(s)
    ensures var n := |s.queue.items|;
            Run(s, WorkerTurns(n)) ==
            s.(queue := s.queue.(items := []),
               work := s.work.(started := s.work.started + n,
                               delivered := s.work.delivered + Deliveries(s.queue.items, s.reg.index)))
    decreases |s.queue.items|
  {
    var items, index, had := s.queue.items, s.reg.index, s.work.delivered;
    if items == [] {
      assert had + Deliveries(items, index) == had;
    } else {
      var five := [ByWorker, ByWorker, ByWorker, ByWorker, ByWorker];
      WorkerServesOne(s);
      var s' := Run(s, five);
      RunConcat(s, five, WorkerTurns(|items| - 1));
      WorkerDrains(s');
      var first := [Delivery(items[0], Targets(index, items[0].frame.id))];
      assert Deliveries(items, index) == first + Deliveries(items[1..], index);
      assert had + first + Deliveries(items[1..], index) == had + (first + Deliveries(items[1..], index));
    }
  }

  // ---------- a sweep ----------

  // The tasks that reading ports p to 9 gives rise to, and those of the ports that are read.
  function SweepTasks(ts: Tables, enabled: set<DevPort>, batch: DevPort -> seq<HalFrame>, p: int): seq<Task>
    requires 5 <= p <= 10
    decreases 10 - p
  {
    if p == 10 then []
    else
      (if p in enabled then Matching(ts.At(p), DecodeBatch(batch(p))) else [])
      + SweepTasks(ts, enabled, batch, p + 1)
  }

  function SweepPorts(enabled: set<DevPort>, p: int): seq<DevPort>
    requires 5 <= p <= 10
    decreases 10 - p
  {
    if p == 10 then [] else (if p in enabled then [p] else []) + SweepPorts(enabled, p + 1)
  }

  lemma {:induction false} EnqueuedInParts(q: Queue<Task>, a: seq<Task>, b: seq<Task>)
    ensures EnqueuedAll(q, a + b) == EnqueuedAll(EnqueuedAll(q, a), b)
  {
    if b == [] {
      assert a + b == a;
    } else {
      assert (a + b)[..|a + b| - 1] == a + b[..|b| - 1];
      EnqueuedInParts(q, a, b[..|b| - 1]);
    }
  }

  // From s the receive thread alone has read port p, or passed it, and come to t.
  ghost predicate PassedPort(s: State, t: State, batch: seq<HalFrame>, p: DevPort) {
    var read := p in s.recv.enabled;
    var tasks := if read then Matching(s.reg.tables.At(p), DecodeBatch(batch)) else [];
    && t == s.(recv := t.recv, queue := EnqueuedAll(s.queue, tasks))
    && t.recv.pc == (if p == 9 then Top else AtPort(p + 1)) && t.recv.enabled == s.recv.enabled
    && t.recv.sweeps == s.recv.sweeps + (if p == 9 then 1 else 0)
    && t.recv.portsRead == s.recv.portsRead + if read then [p] else []
  }

  // The same for port p and all after it.
  ghost predicate Swept(s: State, t: State, batch: DevPort -> seq<HalFrame>, p: DevPort) {
    && t == s.(recv := t.recv, queue := EnqueuedAll(s.queue, SweepTasks(s.reg.tables, s.recv.enabled, batch, p)))
    && t.recv.pc == Top && t.recv.enabled == s.recv.enabled && t.recv.sweeps == s.recv.sweeps + 1
    && t.recv.portsRead == s.recv.portsRead + SweepPorts(s.recv.enabled, p)
  }

  lemma PortAlone(s: State, batch: seq<HalFrame>) returns (acts: seq<Action>)
    requires s.recv.pc.AtPort?
    ensures AllReceive(acts)
    ensures PassedPort(s, Run(s, acts), batch, s.recv.pc.port)
    ensures s.recv.pc.port < 9 ==> Run(s, acts).recv.pc == AtPort(s.recv.pc.port + 1)
  {
    var p := s.recv.pc.port;
    if p in s.recv.enabled {
      acts := ReceiverAlone(s, batch);
    } else {
      acts := [ByReceiver([])];
      RunCons(s, ByReceiver([]), []);
      assert s.recv.portsRead + [] == s.recv.portsRead;
    }
  }

  lemma LastPort(s: State, t: State, batch: DevPort -> seq<HalFrame>)
    requires PassedPort(s, t, batch(9), 9)
    ensures Swept(s, t, batch, 9)
  {
    hide EnqueuedAll, Matching, DecodeBatch;
    var tasks := if 9 in s.recv.enabled then Matching(s.reg.tables.At(9), DecodeBatch(batch(9))) else [];
    var ports: seq<DevPort> := if 9 in s.recv.enabled then [9] else [];
    assert SweepTasks(s.reg.tables, s.recv.enabled, batch, 9) == tasks + [] == tasks;
    assert SweepPorts(s.recv.enabled, 9) == ports + [] == ports;
  }

  lemma PortThenRest(s: State, s': State, t: State, batch: DevPort -> seq<HalFrame>, p: DevPort)
    requires p < 9 && PassedPort(s, s', batch(p), p) && Swept(s', t, batch, p + 1)
    ensures Swept(s, t, batch, p)
  {
    hide EnqueuedAll, Matching, DecodeBatch;
    var ts, enabled, had := s.reg.tables, s.recv.enabled, s.recv.portsRead;
    var tasks := if p in enabled then Matching(ts.At(p), DecodeBatch(batch(p))) else [];
    var ports := if p in enabled then [p] else [];
    EnqueuedInParts(s.queue, tasks, SweepTasks(ts, enabled, batch, p + 1));
    assert had + ports + SweepPorts(enabled, p + 1) == had + (ports + SweepPorts(enabled, p + 1));
  }

  lemma {:induction false} SweepFrom(s: State, batch: DevPort -> seq<HalFrame>, p: DevPort) returns (acts: seq<Action>)
    requires s.recv.pc == AtPort(p)
    ensures AllReceive(acts)
    ensures Swept(s, Run(s, acts), batch, p)
    decreases 10 - p
  {
    acts := PortAlone(s, batch(p));
    var s' := Run(s, acts);
    if p == 9 {
      LastPort(s, s', batch);
    } else {
      hide Run, PassedPort, Swept, AllReceive;
      var later := SweepFrom(s', batch, p + 1);
      RunConcat(s, acts, later);
      AllReceiveBoth(acts, later);
      PortThenRest(s, s', Run(s', later), batch, p);
      acts := acts + later;
    }
  }

  predicate ReceiverIsFree(s: State) { s.recv.pc.Top? && s.flags.receiveRunning && !s.flags.receivePaused }

  /** The receive thread alone, whatever the library delivers on each port: one sweep reads the enabled
      ports in ascending order, offers the queue the matching frames of each in order, and comes back
      to the top. */
  lemma SweepAlone(s: State, batch: DevPort -> seq<HalFrame>) returns (acts: seq<Action>)
    requires ReceiverIsFree(s)
    ensures AllReceive(acts)
    ensures var t := Run(s, acts);
            && t == s.(recv := t.recv,
                       queue := EnqueuedAll(s.queue, SweepTasks(s.reg.tables, s.recv.enabled, batch, 5)))
            && t.recv.pc == Top && t.recv.enabled == s.recv.enabled && t.recv.sweeps == s.recv.sweeps + 1
            && t.recv.portsRead == s.recv.portsRead + SweepPorts(s.recv.enabled, 5)
  {
    var none := ByReceiver([]);
    var s1 := Step(s, none);
    var s2 := Step(s1, none);
    assert s2 == s.(recv := s.recv.(pc := AtPort(5)));
    var later := SweepFrom(s2, batch, 5);
    RunCons(s1, none, later);
    RunCons(s, none, [none] + later);
    acts := [none] + ([none] + later);
  }

  lemma {:induction false} SweepPortsAreEnabled(enabled: set<DevPort>, p: int, q: DevPort)
    requires 5 <= p <= 10
    ensures q in SweepPorts(enabled, p) <==> q in enabled && q >= p
    decreases 10 - p
  {
    if p == 10 {
    } else {
      SweepPortsAreEnabled(enabled, p + 1, q);
    }
  }

  // ---------- from the library to the clients ----------

  /** One sweep and then the worker: every matching frame of the enabled ports, in order and once, is
      delivered to those on its identifier's list, as long as there are at most ten thousand. */
  lemma SweepIsDelivered(s: State, batch: DevPort -> seq<HalFrame>) returns (acts: seq<Action>)
    requires ReceiverIsFree(s) && WorkerIsFree(s) && s.queue.items == []
    requires |SweepTasks(s.reg.tables, s.recv.enabled, batch, 5)| <= 10000
    ensures forall a :: a in acts ==> a.ByReceiver? || a.ByWorker?
    ensures var t, tasks := Run(s, acts), SweepTasks(s.reg.tables, s.recv.enabled, batch, 5);
            && t.work.delivered == s.work.delivered + Deliveries(tasks, s.reg.index)
            && t.queue == s.queue && t.reg == s.reg && t.flags == s.flags && WorkerIsFree(t) && ReceiverIsFree(t)
  {
    var tasks := SweepTasks(s.reg.tables, s.recv.enabled, batch, 5);
    var sweep := SweepAlone(s, batch);
    var s' := Run(s, sweep);
    CapacityIsTenThousand(tasks);
    EnqueuedKeepsStop(s.queue, tasks);
    assert s.queue == Queue([], false) && s'.queue == Queue(tasks, false);
    hide Run, EnqueuedAll;
    WorkerDrains(s');
    RunConcat(s, sweep, WorkerTurns(|tasks|));
    WorkerTurnsAreWorkers(|tasks|);
    acts := sweep + WorkerTurns(|tasks|);
  }

  lemma {:induction false} EnqueuedKeepsStop(q: Queue<Task>, xs: seq<Task>)
    ensures EnqueuedAll(q, xs).stopped == q.stopped
  {
    if xs == [] {
    } else {
      EnqueuedKeepsStop(q, xs[..|xs| - 1]);
    }
  }

  lemma {:induction false} WorkerTurnsAreWorkers(n: nat)
    ensures forall a :: a in WorkerTurns(n) ==> a.ByWorker?
  {
    if n == 0 {
    } else {
      WorkerTurnsAreWorkers(n - 1);
    }
  }

  lemma OneFrameSweep(ts: Tables, enabled: set<DevPort>, h: HalFrame)
    requires 5 in enabled && h.len != 0 && h.canId in ts.port5.filters
    ensures SweepTasks(ts, enabled, (p: DevPort) => if p == 5 then [h] else [], 5) ==
            [Task(ts.port5.filters[h.canId], Decode(h))]
  {
    var batch := (p: DevPort) => if p == 5 then [h] else [];
    var fs := DecodeBatch([h]);
    assert DecodeBatch([]) == [] && fs == [Decode(h)] && fs[..0] == [];
    assert SweepTasks(ts, enabled, batch, 10) == [];
    assert SweepTasks(ts, enabled, batch, 9) == [];
    assert SweepTasks(ts, enabled, batch, 8) == [];
    assert SweepTasks(ts, enabled, batch, 7) == [];
    assert SweepTasks(ts, enabled, batch, 6) == [];
    assert Matching(ts.port5, fs) == [Task(ts.port5.filters[h.canId], Decode(h))];
  }

  /** After any run in which clients remove no more than they hold, a client whose ADD is complete and
      who still asks for an identifier is written the next frame with it that port 5 delivers: both
      threads, free to run, need only take their steps. */
  lemma SubscribedFrameArrives(before: seq<Action>, c: Client, h: HalFrame) returns (acts: seq<Action>)
    requires FairRun(INIT, before) && h.len != 0
    requires var s := Run(INIT, before);
             && ReceiverIsFree(s) && WorkerIsFree(s) && s.queue.items == [] && 5 in s.recv.enabled
             && Asks(s.reg.index.forward, c, h.canId) && !Adding(s.reg, c, h.canId)
    ensures forall a :: a in acts ==> a.ByReceiver? || a.ByWorker?
    ensures var s, t := Run(INIT, before), Run(INIT, before + acts);
            && |t.work.delivered| == |s.work.delivered| + 1 && s.work.delivered <= t.work.delivered
            && var last := t.work.delivered[|s.work.delivered|];
               && last.task.frame == Decode(h) && last.task.filter.callback == SocketReceive && c in last.targets
               && last.targets == Targets(s.reg.index, h.canId)
  {
    var s, id := Run(INIT, before), h.canId;
    AskedIsFiltered(before, c, id);
    RunKeepsRouted(INIT, before);
    assert Routed(s);
    RunKeepsIndex(INIT, before);
    var batch := (p: DevPort) => if p == 5 then [h] else [];
    OneFrameSweep(s.reg.tables, s.recv.enabled, h);
    hide Run, SweepTasks, Decode;
    acts := SweepIsDelivered(s, batch);
    RunConcat(INIT, before, acts);
    TargetsAreExact(s.reg, id);
    assert Decode(h).id == id by {
      DecodePads(h, 0);
    }
  }

  // ---------- being told to end ----------

  lemma StepAfterShutdown(s: State, a: Action)
    requires !s.flags.workRunning && !s.flags.receiveRunning
    ensures var t := Step(s, a);
            && !t.flags.workRunning && !t.flags.receiveRunning && t.work.started == s.work.started
            && |t.work.delivered| + (if t.work.pc.Running? then 1 else 0)
                 <= |s.work.delivered| + (if s.work.pc.Running? then 1 else 0)
            && t.recv.sweeps + (if t.recv.pc.Top? || t.recv.pc.Ended? then 0 else 1)
                 <= s.recv.sweeps + (if s.recv.pc.Top? || s.recv.pc.Ended? then 0 else 1)
            && (s.work.pc.WorkEnded? ==> t.work == s.work) && (s.recv.pc.Ended? ==> t.recv.pc.Ended?)
  {
  }

  lemma {:induction false} RunAfterShutdown(s: State, acts: seq<Action>)
    requires !s.flags.workRunning && !s.flags.receiveRunning
    ensures var t := Run(s, acts);
            && !t.flags.workRunning && !t.flags.receiveRunning && t.work.started == s.work.started
            && |t.work.delivered| + (if t.work.pc.Running? then 1 else 0)
                 <= |s.work.delivered| + (if s.work.pc.Running? then 1 else 0)
            && t.recv.sweeps + (if t.recv.pc.Top? || t.recv.pc.Ended? then 0 else 1)
                 <= s.recv.sweeps + (if s.recv.pc.Top? || s.recv.pc.Ended? then 0 else 1)
            && (s.work.pc.WorkEnded? ==> t.work == s.work) && (s.recv.pc.Ended? ==> t.recv.pc.Ended?)
    decreases |acts|
  {
    if acts == [] {
    } else {
      StepAfterShutdown(s, acts[0]);
      RunAfterShutdown(Step(s, acts[0]), acts[1..]);
    }
  }

  /** After the receiver is destroyed, whatever any thread does: no further callback is started, at most
      the one that is running is finished, at most one more sweep is finished, and both threads are told
      to pause. */
  lemma ShutdownIsFinal(s: State, acts: seq<Action>)
    ensures var s', t := Step(s, Shutdown), Run(Step(s, Shutdown), acts);
            && s'.flags.receivePaused && s'.flags.workPaused
            && s'.recv == s.recv && s'.work == s.work && s'.queue == s.queue && s'.reg == s.reg
            && t.work.started == s.work.started
            && |t.work.delivered| <= |s.work.delivered| + (if s.work.pc.Running? then 1 else 0)
            && t.recv.sweeps <= s.recv.sweeps + 1
  {
    RunAfterShutdown(Step(s, Shutdown), acts);
  }

  /** A thread at the top of its loop ends with its next step if and only if it is told to, and once
      ended it stays so. */
  lemma ThreadsEndAtTheTop(s: State, batch: seq<HalFrame>)
    ensures s.work.pc.WorkTop? ==> (Step(s, ByWorker).work.pc.WorkEnded? <==> !s.flags.workRunning)
    ensures s.recv.pc.Top? ==> (Step(s, ByReceiver(batch)).recv.pc.Ended? <==> !s.flags.receiveRunning)
    ensures s.work.pc.WorkEnded? ==> Step(s, ByWorker) == s
    ensures s.recv.pc.Ended? ==> Step(s, ByReceiver(batch)) == s
  {
  }

  /** A worker at its gate, whether told to end or not, does not leave it while it is flagged paused,
      and leaves it with its next step when it is not; and so for the receive thread. */
  lemma GatesFollowFlags(s: State, batch: seq<HalFrame>)
    ensures s.work.pc.WorkGate? ==> (Step(s, ByWorker).work.pc.Dequeuing? <==> !s.flags.workPaused)
    ensures s.work.pc.WorkGate? && s.flags.workPaused ==> Step(s, ByWorker) == s
    ensures s.recv.pc.Gate? ==> (Step(s, ByReceiver(batch)).recv.pc == AtPort(5) <==> !s.flags.receivePaused)
    ensures s.recv.pc.Gate? && s.flags.receivePaused ==> Step(s, ByReceiver(batch)) == s
  {
  }

  /** A worker in its dequeue waits while the queue is empty, stopped or not; of a stopped queue it gets
      nothing and starts over; and a task that it gets after it was told to end it drops. */
  lemma WorkerOutsideWork(s: State)
    ensures s.work.pc.Dequeuing? && s.queue.items == [] ==> Step(s, ByWorker) == s
    ensures s.work.pc.Dequeuing? && s.queue.items != [] && s.queue.stopped ==>
              Run(s, [ByWorker, ByWorker]) == s.(work := s.work.(pc := WorkTop))
    ensures s.work.pc.Got? && s.work.pc.found.Some? && !s.flags.workRunning ==>
              Step(s, ByWorker) == s.(work := s.work.(pc := WorkTop, lost := s.work.lost + [s.work.pc.found.value]))
  {
    RunCons(s, ByWorker, [ByWorker]);
    RunCons(Step(s, ByWorker), ByWorker, []);
  }

  // ---------- being abandoned ----------

  predicate IsAbandoned(r: Registry, c: Client) { c in r.clients && c in r.held && r.clients[c].Abandoned? }

  lemma OthersKeepAbandoned(r: Registry, d: Client, event: Event, c: Client)
    requires IsAbandoned(r, c)
    ensures var r' := ClientStep(r, d, event);
            && IsAbandoned(r', c) && r'.held[c] == r.held[c]
            && IdsOf(r'.index.forward, c) == IdsOf(r.index.forward, c)
            && (d == c ==> r' == r)
  {
    if d != c {
      if event == Proceed && IsAt(r, d, UpdateIndex) {
        var order := r.clients[d].order;
        assert ClientStep(r, d, event) == IndexUpdated(r, d, order);
        hide ClientStep;
        OthersKeepTheirIds(r.index, d, order, c);
      } else {
        OtherEventsKeepIds(r, d, event, c);
      }
    }
  }

  lemma OthersKeepTheirIds(x: Index, d: Client, order: Order, c: Client)
    requires d != c
    ensures IdsOf(IndexAfter(x, d, order).forward, c) == IdsOf(x.forward, c)
  {
  }

  lemma OtherEventsKeepIds(r: Registry, d: Client, event: Event, c: Client)
    requires IsAbandoned(r, c) && d != c && !(event == Proceed && IsAt(r, d, UpdateIndex))
    ensures var r' := ClientStep(r, d, event);
            && IsAbandoned(r', c) && r'.held[c] == r.held[c]
            && IdsOf(r'.index.forward, c) == IdsOf(r.index.forward, c)
  {
  }

  /** A client that has sent a bad magic code is served no more, in no run: its orders are not taken,
      and what it asks for and holds stays as it was. */
  lemma {:induction false} AbandonedIsForever(s: State, acts: seq<Action>, c: Client)
    requires IsAbandoned(s.reg, c)
    ensures var r := Run(s, acts).reg;
            && IsAbandoned(r, c) && r.held[c] == s.reg.held[c]
            && IdsOf(r.index.forward, c) == IdsOf(s.reg.index.forward, c)
    decreases |acts|
  {
    if acts == [] {
    } else {
      if acts[0].ByClient? {
        OthersKeepAbandoned(s.reg, acts[0].c, acts[0].event, c);
      }
      AbandonedIsForever(Step(s, acts[0]), acts[1..], c);
    }
  }

  lemma BadMagicAbandons(s: State, c: Client)
    requires IsIdle(s.reg, c)
    ensures var r := Step(s, ByClient(c, BadMagic)).reg;
            && IsAbandoned(r, c) && r.held == s.reg.held && r.index == s.reg.index && r.tables == s.reg.tables
  {
  }
}
