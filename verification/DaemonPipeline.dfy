/** From the frames the library delivers to the frames handed to clients: the daemon's threads
    use the work queue as a single producer and a single consumer, so the queue's own theorems
    give order, conservation and capacity over every run. */
module DaemonPipeline {
  import opened CanFrames
  import opened FilterTables
  import opened WorkQueues
  import opened Receivers
  import opened ClientIndex
  import opened Daemon
  import QT = QueueThreads

  // ---------- histories as sequences ----------

  function AcceptedTasks(offers: seq<Offer>): seq<Task> {
    if offers == [] then []
    else
      var o := offers[|offers| - 1];
      AcceptedTasks(offers[..|offers| - 1]) + if o.verdict.Accepted? then [o.verdict.task] else []
  }

  function DeliveredTasks(ds: seq<Delivery>): seq<Task> {
    seq(|ds|, i requires 0 <= i < |ds| => ds[i].task)
  }

  function InFlight(pc: WorkPc): seq<Task> {
    match pc
    case Got(Some(task)) => [task]
    case Running(task) => [task]
    case _ => []
  }

  function HandedOut(w: Working): seq<Task> {
    DeliveredTasks(w.delivered) + w.lost + InFlight(w.pc)
  }

  // ---------- refinement ----------

  function QueueView(s: State): QT.State<Task> {
    QT.State(s.queue, PastCheck(s.recv.pc), AcceptedTasks(s.recv.offers), HandedOut(s.work), HandedOut(s.work))
  }

  function PastCheck(pc: ReceivePc): map<nat, Task> {
    if pc.Pushing? then map[0 := pc.task] else map[]
  }

  // The queue step that a step of the daemon amounts to, if any.
  function QueueAction(s: State, a: Action): seq<QT.Action<Task>> {
    match a
    case ByReceiver(_) =>
      if s.recv.pc.Checking? then [QT.Check(0, s.recv.pc.task)]
      else if s.recv.pc.Pushing? then [QT.Push(0)]
      else []
    case ByWorker => if s.work.pc.Dequeuing? then [QT.TakeBlocking] else []
    case StopQueue => [QT.Stop]
    case _ => []
  }

  function QueueRun(s: State, acts: seq<Action>): seq<QT.Action<Task>>
    decreases |acts|
  {
    if acts == [] then [] else QueueAction(s, acts[0]) + QueueRun(Step(s, acts[0]), acts[1..])
  }

  // A task is dropped only when the worker has been told to end, and it is the last one taken.
  ghost predicate DropsOnlyAtEnd(s: State) {
    s.work.lost != [] ==> !s.flags.workRunning && |s.work.lost| == 1 && (s.work.pc.WorkTop? || s.work.pc.WorkEnded?)
  }

  lemma StepKeepsDrops(s: State, a: Action)
    requires DropsOnlyAtEnd(s)
    ensures DropsOnlyAtEnd(Step(s, a))
  {
  }

  lemma ReceiveRefines(s: State, batch: seq<HalFrame>)
    ensures var a := ByReceiver(batch);
            QueueView(Step(s, a)) == QT.Run(QueueView(s), QueueAction(s, a))
  {
    hide HandedOut, DecodeBatch;
    if s.recv.pc.Checking? {
      CheckRefines(s, batch);
    } else if s.recv.pc.Pushing? {
      PushRefines(s, batch);
    } else {
      OtherReceiveRefines(s, batch);
    }
  }

  lemma AcceptedTasksOneMore(offers: seq<Offer>, o: Offer)
    ensures AcceptedTasks(offers + [o]) == AcceptedTasks(offers) + if o.verdict.Accepted? then [o.verdict.task] else []
  {
    assert (offers + [o])[..|offers|] == offers;
  }

  lemma CheckRefines(s: State, batch: seq<HalFrame>)
    requires s.recv.pc.Checking?
    ensures QueueView(Step(s, ByReceiver(batch))) == QT.Run(QueueView(s), [QT.Check(0, s.recv.pc.task)])
  {
    hide HandedOut, AcceptedTasks;
    var accepted := AcceptedTasks(s.recv.offers);
    AcceptedTasksOneMore(s.recv.offers, Offer(s.recv.pc.port, s.recv.pc.task.frame, QueueFull));
    assert accepted + [] == accepted;
    QT.RunOne(QueueView(s), QT.Check(0, s.recv.pc.task));
    assert map[][0 := s.recv.pc.task] == map[0 := s.recv.pc.task];
  }

  lemma PushRefines(s: State, batch: seq<HalFrame>)
    requires s.recv.pc.Pushing?
    ensures QueueView(Step(s, ByReceiver(batch))) == QT.Run(QueueView(s), [QT.Push(0)])
  {
    hide HandedOut, AcceptedTasks;
    var accepted, task := AcceptedTasks(s.recv.offers), s.recv.pc.task;
    var verdict := if s.queue.stopped then QueueStopped else Accepted(task);
    AcceptedTasksOneMore(s.recv.offers, Offer(s.recv.pc.port, task.frame, verdict));
    assert accepted + [] == accepted;
    QT.RunOne(QueueView(s), QT.Push(0));
    assert map[0 := task] - {0} == map[];
  }

  lemma OtherReceiveRefines(s: State, batch: seq<HalFrame>)
    requires !s.recv.pc.Checking? && !s.recv.pc.Pushing?
    ensures QueueView(Step(s, ByReceiver(batch))) == QueueView(s)
  {
    hide HandedOut, AcceptedTasks, DecodeBatch;
    if s.recv.pc.Offering? && s.recv.pc.rest != [] {
      var accepted := AcceptedTasks(s.recv.offers);
      AcceptedTasksOneMore(s.recv.offers, Offer(s.recv.pc.port, s.recv.pc.rest[0], NoFilter));
      assert accepted + [] == accepted;
    }
  }

  lemma WorkRefines(s: State)
    requires DropsOnlyAtEnd(s)
    ensures QueueView(Step(s, ByWorker)) == QT.Run(QueueView(s), QueueAction(s, ByWorker))
  {
    HandedOutAfter(s);
    if s.work.pc.Dequeuing? {
      QT.RunOne(QueueView(s), QT.TakeBlocking);
    }
  }

  lemma HandedOutAfter(s: State)
    requires DropsOnlyAtEnd(s)
    ensures var out, out' := HandedOut(s.work), HandedOut(Step(s, ByWorker).work);
            out' == if s.work.pc.Dequeuing? && Taken(s.queue).Some? then out + [Taken(s.queue).value] else out
  {
  }

  lemma StepRefines(s: State, a: Action)
    requires DropsOnlyAtEnd(s)
    ensures QueueView(Step(s, a)) == QT.Run(QueueView(s), QueueAction(s, a))
    ensures QT.By(QueueAction(s, a), {0}) && forall q :: q in QueueAction(s, a) ==> !q.Clear?
  {
    match a {
      case ByReceiver(batch) => ReceiveRefines(s, batch);
      case ByWorker => WorkRefines(s);
      case StopQueue => QT.RunOne(QueueView(s), QT.Stop);
      case _ =>
    }
  }

  /** Every run of the daemon is a run of the shared queue with one producer, one consumer and
      no clearing. */
  lemma {:induction false} RunRefines(s: State, acts: seq<Action>)
    requires DropsOnlyAtEnd(s)
    ensures DropsOnlyAtEnd(Run(s, acts))
    ensures QueueView(Run(s, acts)) == QT.Run(QueueView(s), QueueRun(s, acts))
    ensures QT.By(QueueRun(s, acts), {0}) && forall q :: q in QueueRun(s, acts) ==> !q.Clear?
    decreases |acts|
  {
    if acts == [] {
    } else {
      var a, s' := acts[0], Step(s, acts[0]);
      StepKeepsDrops(s, a);
      StepRefines(s, a);
      RunRefines(s', acts[1..]);
      QT.RunConcat(QueueView(s), QueueAction(s, a), QueueRun(s', acts[1..]));
    }
  }

  /** With a single receive thread the split between size check and push does no harm. */
  lemma QueueNeverExceedsMaximum(acts: seq<Action>)
    ensures |Run(INIT, acts).queue.items| <= MAX_WORK_QUEUE_TASKS
  {
    RunRefines(INIT, acts);
    QT.CapacityBound(QueueView(INIT), QueueRun(INIT, acts), {0});
  }

  // ---------- order of frames ----------

  function Frames(ts: seq<Task>): seq<CanFrame> {
    seq(|ts|, i requires 0 <= i < |ts| => ts[i].frame)
  }

  function OfferedFrames(offers: seq<Offer>): seq<CanFrame> {
    seq(|offers|, i requires 0 <= i < |offers| => offers[i].frame)
  }

  // The decoded frames that the receive thread has not disposed of yet.
  function Undisposed(pc: ReceivePc): seq<CanFrame> {
    match pc
    case Offering(_, rest) => rest
    case Checking(_, task, rest) => [task.frame] + rest
    case Pushing(_, task, rest) => [task.frame] + rest
    case _ => []
  }

  ghost predicate OffersInOrder(r: Receiving) {
    OfferedFrames(r.offers) + Undisposed(r.pc) == r.decoded
  }

  ghost predicate TasksKeepFrames(offers: seq<Offer>) {
    forall o :: o in offers && o.verdict.Accepted? ==> o.verdict.task.frame == o.frame
  }

  lemma OfferedOneMore(offers: seq<Offer>, o: Offer)
    ensures OfferedFrames(offers + [o]) == OfferedFrames(offers) + [o.frame]
  {
  }

  // A step disposes of the next frame, or reads a batch, or neither.
  lemma ReceiveMoves(s: State, batch: seq<HalFrame>)
    ensures var r, r' := s.recv, Step(s, ByReceiver(batch)).recv;
            if r'.offers != r.offers then
              && |r'.offers| == |r.offers| + 1 && r'.offers == r.offers + [r'.offers[|r.offers|]]
              && Undisposed(r.pc) == [r'.offers[|r.offers|].frame] + Undisposed(r'.pc) && r'.decoded == r.decoded
            else if r'.decoded != r.decoded then
              Undisposed(r.pc) == [] && r'.decoded == r.decoded + Undisposed(r'.pc)
            else Undisposed(r'.pc) == Undisposed(r.pc)
  {
    hide DecodeBatch;
  }

  lemma ReceiveKeepsOrder(s: State, batch: seq<HalFrame>)
    requires OffersInOrder(s.recv)
    ensures OffersInOrder(Step(s, ByReceiver(batch)).recv)
  {
    ReceiveMoves(s, batch);
    hide DecodeBatch, OfferedFrames, Step, Undisposed;
    var r, r' := s.recv, Step(s, ByReceiver(batch)).recv;
    var dealt := OfferedFrames(r.offers);
    if r'.offers != r.offers {
      var o := r'.offers[|r.offers|];
      OfferedOneMore(r.offers, o);
      assert dealt + ([o.frame] + Undisposed(r'.pc)) == dealt + [o.frame] + Undisposed(r'.pc);
    } else if r'.decoded != r.decoded {
      assert dealt + [] + Undisposed(r'.pc) == dealt + Undisposed(r'.pc);
    }
  }

  lemma StepKeepsFrames(s: State, a: Action)
    requires TasksKeepFrames(s.recv.offers)
    ensures TasksKeepFrames(Step(s, a).recv.offers)
    ensures !a.ByReceiver? && OffersInOrder(s.recv) ==> OffersInOrder(Step(s, a).recv)
  {
    hide OfferedFrames, Undisposed;
  }

  lemma {:induction false} RunKeepsOrder(s: State, acts: seq<Action>)
    requires OffersInOrder(s.recv) && TasksKeepFrames(s.recv.offers)
    ensures OffersInOrder(Run(s, acts).recv) && TasksKeepFrames(Run(s, acts).recv.offers)
    decreases |acts|
  {
    if acts == [] {
    } else {
      if acts[0].ByReceiver? {
        ReceiveKeepsOrder(s, acts[0].batch);
      }
      StepKeepsFrames(s, acts[0]);
      hide OffersInOrder, TasksKeepFrames, ReceiveStep;
      RunKeepsOrder(Step(s, acts[0]), acts[1..]);
    }
  }

  ghost predicate IsSubsequence<T>(a: seq<T>, b: seq<T>) {
    || a == []
    || (b != [] && (IsSubsequence(a, b[..|b| - 1])
                    || (a[|a| - 1] == b[|b| - 1] && IsSubsequence(a[..|a| - 1], b[..|b| - 1]))))
  }

  lemma {:induction false} SubsequenceOfLonger<T>(a: seq<T>, b: seq<T>, more: seq<T>)
    requires IsSubsequence(a, b)
    ensures IsSubsequence(a, b + more)
    decreases |more|
  {
    if more == [] {
      assert b + more == b;
    } else {
      SubsequenceOfLonger(a, b, more[..|more| - 1]);
      assert (b + more)[..|b + more| - 1] == b + more[..|more| - 1];
    }
  }

  lemma SubsequenceOneMore<T>(a: seq<T>, b: seq<T>, x: T)
    requires IsSubsequence(a, b)
    ensures IsSubsequence(a, b + [x]) && IsSubsequence(a + [x], b + [x])
  {
    assert (a + [x])[..|a|] == a && (b + [x])[..|b|] == b;
  }

  lemma {:induction false} SubsequenceOfItself<T>(a: seq<T>)
    ensures IsSubsequence(a, a)
  {
    if a == [] {
    } else {
      SubsequenceOfItself(a[..|a| - 1]);
    }
  }

  lemma {:induction false} SubsequenceTransitive<T>(a: seq<T>, b: seq<T>, c: seq<T>)
    requires IsSubsequence(a, b) && IsSubsequence(b, c)
    ensures IsSubsequence(a, c)
    decreases |c|
  {
    if a == [] || b == [] || c == [] {
    } else {
      var b', c' := b[..|b| - 1], c[..|c| - 1];
      if IsSubsequence(b, c') {
        SubsequenceTransitive(a, b, c');
      } else if IsSubsequence(a, b') {
        SubsequenceTransitive(a, b', c');
      } else {
        SubsequenceTransitive(a[..|a| - 1], b', c');
      }
    }
  }

  // The offered frames that had a filter.
  function MatchedFrames(offers: seq<Offer>): seq<CanFrame> {
    if offers == [] then []
    else
      var o := offers[|offers| - 1];
      MatchedFrames(offers[..|offers| - 1]) + if o.verdict.NoFilter? then [] else [o.frame]
  }

  lemma AcceptedOneMore(offers: seq<Offer>, o: Offer)
    requires o.verdict.Accepted? ==> o.verdict.task.frame == o.frame
    ensures Frames(AcceptedTasks(offers + [o])) ==
            Frames(AcceptedTasks(offers)) + if o.verdict.Accepted? then [o.frame] else []
  {
    AcceptedTasksOneMore(offers, o);
  }

  lemma MatchedOneMore(offers: seq<Offer>, o: Offer)
    ensures MatchedFrames(offers + [o]) == MatchedFrames(offers) + if o.verdict.NoFilter? then [] else [o.frame]
  {
    assert (offers + [o])[..|offers|] == offers;
  }

  lemma {:induction false} AcceptedAreMatched(offers: seq<Offer>)
    requires TasksKeepFrames(offers)
    ensures IsSubsequence(Frames(AcceptedTasks(offers)), MatchedFrames(offers))
    ensures IsSubsequence(MatchedFrames(offers), OfferedFrames(offers))
  {
    if offers == [] {
    } else {
      var init, o := offers[..|offers| - 1], offers[|offers| - 1];
      AcceptedAreMatched(init);
      var a, m, b := Frames(AcceptedTasks(init)), MatchedFrames(init), OfferedFrames(init);
      assert offers == init + [o] && (o.verdict.Accepted? ==> o.verdict.task.frame == o.frame);
      OfferedOneMore(init, o);
      AcceptedOneMore(init, o);
      MatchedOneMore(init, o);
      hide IsSubsequence, Frames, AcceptedTasks, OfferedFrames, MatchedFrames, TasksKeepFrames;
      SubsequenceOneMore(a, m, o.frame);
      SubsequenceOneMore(m, b, o.frame);
      assert a + [] == a && m + [] == m;
    }
  }

  // The frames that have been written to a client.
  function WrittenTo(ds: seq<Delivery>, c: Client): seq<CanFrame> {
    if ds == [] then []
    else
      var d := ds[|ds| - 1];
      WrittenTo(ds[..|ds| - 1], c) + if c in d.targets then [d.task.frame] else []
  }

  lemma {:induction false} WrittenAreDelivered(ds: seq<Delivery>, c: Client)
    ensures IsSubsequence(WrittenTo(ds, c), Frames(DeliveredTasks(ds)))
  {
    if ds == [] {
    } else {
      var init, d := ds[..|ds| - 1], ds[|ds| - 1];
      WrittenAreDelivered(init, c);
      var a, b := WrittenTo(init, c), Frames(DeliveredTasks(init));
      assert Frames(DeliveredTasks(ds)) == b + [d.task.frame];
      SubsequenceOneMore(a, b, d.task.frame);
      assert a + [] == a;
    }
  }

  /** Nothing is duplicated or reordered between decoding and delivery: in every reachable state
      the accepted tasks are, in order, those delivered, one that was dropped if the worker has
      been told to end, the one in flight, and those still queued. Their frames are a subsequence
      of those that had a filter, and these of the decoded ones. */
  lemma DeliveryKeepsOrder(acts: seq<Action>)
    ensures var s := Run(INIT, acts);
            && AcceptedTasks(s.recv.offers) ==
                 DeliveredTasks(s.work.delivered) + s.work.lost + InFlight(s.work.pc) + s.queue.items
            && (s.flags.workRunning ==> s.work.lost == []) && |s.work.lost| <= 1
            && IsSubsequence(Frames(AcceptedTasks(s.recv.offers)), MatchedFrames(s.recv.offers))
            && IsSubsequence(MatchedFrames(s.recv.offers), s.recv.decoded)
  {
    var s := Run(INIT, acts);
    RunRefines(INIT, acts);
    QT.RunsAreFifo(QueueView(INIT), QueueRun(INIT, acts));
    RunKeepsOrder(INIT, acts);
    AcceptedAreMatched(s.recv.offers);
    SubsequenceOfLonger(MatchedFrames(s.recv.offers), OfferedFrames(s.recv.offers), Undisposed(s.recv.pc));
  }

  /** Every client is written frames in the order in which they were decoded, none twice. */
  lemma EveryClientSeesOrder(acts: seq<Action>, c: Client)
    ensures var s := Run(INIT, acts);
            IsSubsequence(WrittenTo(s.work.delivered, c), s.recv.decoded)
  {
    var s := Run(INIT, acts);
    DeliveryKeepsOrder(acts);
    var delivered := Frames(DeliveredTasks(s.work.delivered));
    var later := Frames(s.work.lost + InFlight(s.work.pc) + s.queue.items);
    var accepted, matched := Frames(AcceptedTasks(s.recv.offers)), MatchedFrames(s.recv.offers);
    assert accepted == delivered + later;
    WrittenAreDelivered(s.work.delivered, c);
    SubsequenceOfItself(delivered);
    SubsequenceOfLonger(delivered, delivered, later);
    SubsequenceTransitive(WrittenTo(s.work.delivered, c), delivered, accepted);
    SubsequenceTransitive(WrittenTo(s.work.delivered, c), accepted, matched);
    SubsequenceTransitive(WrittenTo(s.work.delivered, c), matched, s.recv.decoded);
  }

  // ---------- one batch, as the receiver object handles it ----------

  predicate AllReceive(acts: seq<Action>) { forall a :: a in acts ==> a.ByReceiver? }

  lemma AllReceiveBoth(a: seq<Action>, b: seq<Action>)
    requires AllReceive(a) && AllReceive(b)
    ensures AllReceive(a + b)
  {
  }

  // The receive thread alone offers one frame: one step, or two, or three.
  lemma OfferFrame(s: State) returns (acts: seq<Action>)
    requires s.recv.pc.Offering? && s.recv.pc.rest != []
    ensures AllReceive(acts)
    ensures var t, p, f := Run(s, acts), s.recv.pc.port, s.recv.pc.rest[0];
            var filters := s.reg.tables.At(p).filters;
            && t == s.(recv := t.recv, queue := t.queue)
            && t.recv == s.recv.(pc := Offering(p, s.recv.pc.rest[1..]), offers := t.recv.offers)
            && t.queue == if f.id in filters then Enqueued(s.queue, Task(filters[f.id], f)) else s.queue
  {
    var a := ByReceiver([]);
    var s1 := Step(s, a);
    var s2 := Step(s1, a);
    RunCons(s, a, []);
    RunCons(s1, a, []);
    RunCons(s2, a, []);
    RunCons(s, a, [a]);
    RunCons(s1, a, [a]);
    RunCons(s, a, [a, a]);
    if s1.recv.pc.Offering? {
      acts := [a];
    } else if s2.recv.pc.Offering? {
      acts := [a, a];
    } else {
      acts := [a, a, a];
    }
  }

  lemma NextPortFrom(r: Receiving, r': Receiving, p: DevPort)
    requires r' == r.(pc := r'.pc, offers := r'.offers)
    ensures NextPort(r', p) == NextPort(r, p).(offers := r'.offers)
  {
  }

  lemma LeavePort(s: State) returns (acts: seq<Action>)
    requires s.recv.pc.Offering? && s.recv.pc.rest == []
    ensures AllReceive(acts)
    ensures Run(s, acts) == s.(recv := NextPort(s.recv, s.recv.pc.port))
  {
    acts := [ByReceiver([])];
    RunCons(s, ByReceiver([]), []);
  }

  lemma {:induction false} OfferRest(s: State, q: Queue<Task>, fs: seq<CanFrame>, k: nat) returns (acts: seq<Action>)
    requires s.recv.pc.Offering? && k <= |fs| && s.recv.pc.rest == fs[k..]
    requires s.queue == EnqueuedAll(q, Matching(s.reg.tables.At(s.recv.pc.port), fs[..k]))
    ensures AllReceive(acts)
    ensures var t, p := Run(s, acts), s.recv.pc.port;
            && t == s.(recv := t.recv, queue := EnqueuedAll(q, Matching(s.reg.tables.At(p), fs)))
            && t.recv == NextPort(s.recv, p).(offers := t.recv.offers)
    decreases |fs| - k
  {
    if k == |fs| {
      acts := LeavePort(s);
      assert fs[..k] == fs;
    } else {
      hide EnqueuedAll, Matching, Enqueued, Step, Run, NextPort, AllReceive;
      var first := OfferFrame(s);
      var s' := Run(s, first);
      OfferOne(q, s.reg.tables.At(s.recv.pc.port), fs[..k], fs[k]);
      assert fs[..k + 1] == fs[..k] + [fs[k]] && fs[k..][1..] == fs[k + 1..];
      var later := OfferRest(s', q, fs, k + 1);
      RunConcat(s, first, later);
      NextPortFrom(s.recv, s'.recv, s.recv.pc.port);
      AllReceiveBoth(first, later);
      acts := first + later;
    }
  }

  /** The receive thread alone, from the read of an enabled port to the next port, does to the
      queue what the receiver object's batch loop does. */
  lemma ReceiverAlone(s: State, batch: seq<HalFrame>) returns (acts: seq<Action>)
    requires s.recv.pc.AtPort? && s.recv.pc.port in s.recv.enabled
    ensures acts != [] && acts[0] == ByReceiver(batch) && AllReceive(acts)
    ensures var t, p := Run(s, acts), s.recv.pc.port;
            && t == s.(recv := t.recv, queue := EnqueuedAll(s.queue, Matching(s.reg.tables.At(p), DecodeBatch(batch))))
            && t.recv.pc == (if p == 9 then Top else AtPort(p + 1)) && t.recv.enabled == s.recv.enabled
            && t.recv.sweeps == s.recv.sweeps + (if p == 9 then 1 else 0)
            && t.recv.portsRead == s.recv.portsRead + [p]
            && t.recv.decoded == s.recv.decoded + DecodeBatch(batch)
  {
    var s' := Step(s, ByReceiver(batch));
    var later := OfferRest(s', s.queue, DecodeBatch(batch), 0);
    RunCons(s, ByReceiver(batch), later);
    acts := [ByReceiver(batch)] + later;
  }
}
