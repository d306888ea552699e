/** The running daemon as a step machine: one receive thread, one worker, and one thread per
    connected client, interleaved at every lock acquisition, flag access, table update and
    index update. A step of a thread that is blocked leaves the state alone. */
module Daemon {
  import opened CanFrames
  import opened FilterTables
  import opened WorkQueues
  import opened Receivers
  import opened ClientIndex
  import opened Routing

  datatype Order = Add(port: uint32, ids: seq<CanId>) | Remove(port: uint32, ids: seq<CanId>)

  // The steps of handling one filter order.
  datatype Stage = PauseReceive | PauseWork | UpdateIndex | UpdateTables | Acknowledge | ResumeWork | ResumeReceive

  // A client whose package has a bad magic code is abandoned: its thread is gone, its socket
  // stays open and its entries stay.
  datatype ClientPc = Idle | Busy(order: Order, stage: Stage) | Abandoned

  datatype ReceivePc =
    | Top
    | Gate
    | AtPort(port: DevPort)
    | Offering(port: DevPort, rest: seq<CanFrame>)
    | Checking(port: DevPort, task: Task, rest: seq<CanFrame>)
    | Pushing(port: DevPort, task: Task, rest: seq<CanFrame>)
    | Ended

  datatype WorkPc = WorkTop | WorkGate | Dequeuing | Got(found: Option<Task>) | Running(task: Task) | WorkEnded

  datatype Request = Request(c: Client, order: Order)

  datatype Answer = Answer(c: Client, order: Order, okay: bool)

  datatype Delivery = Delivery(task: Task, targets: set<Client>)

  datatype Verdict = NoFilter | QueueFull | QueueStopped | Accepted(task: Task)

  datatype Offer = Offer(port: DevPort, frame: CanFrame, verdict: Verdict)

  /** The clients and everything their orders change. held, orphaned and stale are histories:
      what each connected client has registered, what departed clients left registered, and the
      forward entries dropped since the reverse index was last rebuilt. requests and answers are
      the orders submitted and the replies written. */
  datatype Registry = Registry(
    index: Index,
    tables: Tables,
    clients: map<Client, ClientPc>,
    held: map<Client, multiset<CanId>>,
    orphaned: multiset<CanId>,
    stale: map<Client, set<CanId>>,
    requests: seq<Request>,
    answers: seq<Answer>)

  datatype Flags = Flags(receivePaused: bool, workPaused: bool, receiveRunning: bool, workRunning: bool)

  /** The receive thread with the ports it has read, the sweeps it has finished, the frames it
      has decoded and what became of each frame it offered to the filters. */
  datatype Receiving = Receiving(
    pc: ReceivePc,
    enabled: set<DevPort>,
    portsRead: seq<DevPort>,
    sweeps: nat,
    decoded: seq<CanFrame>,
    offers: seq<Offer>)

  /** The worker with the number of callbacks started, the frames delivered, and the tasks it
      dropped because it was told to end. */
  datatype Working = Working(pc: WorkPc, started: nat, delivered: seq<Delivery>, lost: seq<Task>)

  datatype State = State(reg: Registry, flags: Flags, queue: Queue<Task>, recv: Receiving, work: Working)

  const INIT := State(
    Registry(EMPTY_INDEX, NO_FILTERS, map[], map[], multiset{}, map[], [], []),
    Flags(false, false, true, true),
    Queue([], false),
    Receiving(Top, {5}, [], 0, [], []),
    Working(WorkTop, 0, [], []))

  datatype Event = Arrive | Submit(order: Order) | Proceed | HangUp | BadMagic

  datatype Action =
    | ByReceiver(batch: seq<HalFrame>)  // the batch is what the library delivers if the step reads
    | ByWorker
    | ByClient(c: Client, event: Event)
    | Enable(port: DevPort)
    | Shutdown
    | StopQueue

  function Step(s: State, a: Action): State {
    match a
    case ByReceiver(batch) =>
      s.(recv := ReceiveStep(s.recv, s.flags, s.reg.tables, s.queue, batch),
         queue := if s.recv.pc.Pushing? then Pushed(s.queue, s.recv.pc.task) else s.queue)
    case ByWorker =>
      s.(work := WorkStep(s.work, s.flags, s.reg.index, s.queue),
         queue := if s.work.pc.Dequeuing? then AfterTake(s.queue) else s.queue)
    case ByClient(c, event) =>
      s.(reg := ClientStep(s.reg, c, event), flags := FlagsAfter(s.flags, s.reg, c, event))
    case Enable(p) => s.(recv := s.recv.(enabled := s.recv.enabled + {p}))
    case Shutdown => s.(flags := Flags(true, true, false, false))
    case StopQueue => s.(queue := s.queue.(stopped := true))
  }

  function Run(s: State, acts: seq<Action>): State
    decreases |acts|
  {
    if acts == [] then s else Run(Step(s, acts[0]), acts[1..])
  }

  // ---------- the receive thread ----------

  function ReceiveStep(r: Receiving, flags: Flags, tables: Tables, q: Queue<Task>, batch: seq<HalFrame>): Receiving {
    match r.pc
    case Top => r.(pc := if flags.receiveRunning then Gate else Ended)
    case Gate => if flags.receivePaused then r else r.(pc := AtPort(5))
    case AtPort(p) =>
      if p in r.enabled then
        r.(pc := Offering(p, DecodeBatch(batch)),
           portsRead := r.portsRead + [p],
           decoded := r.decoded + DecodeBatch(batch))
      else NextPort(r, p)
    case Offering(p, rest) => if rest == [] then NextPort(r, p) else MatchFrame(r, tables.At(p), p, rest[0], rest[1..])
    case Checking(p, task, rest) =>
      if HasRoom(q) then r.(pc := Pushing(p, task, rest))
      else r.(pc := Offering(p, rest), offers := r.offers + [Offer(p, task.frame, QueueFull)])
    case Pushing(p, task, rest) =>
      r.(pc := Offering(p, rest),
         offers := r.offers + [Offer(p, task.frame, if q.stopped then QueueStopped else Accepted(task))])
    case Ended => r
  }

  function NextPort(r: Receiving, p: DevPort): Receiving {
    if p == 9 then r.(pc := Top, sweeps := r.sweeps + 1) else r.(pc := AtPort(p + 1))
  }

  function MatchFrame(r: Receiving, t: PortTable, p: DevPort, f: CanFrame, rest: seq<CanFrame>): Receiving {
    if f.id in t.filters then r.(pc := Checking(p, Task(t.filters[f.id], f), rest))
    else r.(pc := Offering(p, rest), offers := r.offers + [Offer(p, f, NoFilter)])
  }

  // ---------- the worker ----------

  function WorkStep(w: Working, flags: Flags, index: Index, q: Queue<Task>): Working {
    match w.pc
    case WorkTop => w.(pc := if flags.workRunning then WorkGate else WorkEnded)
    case WorkGate => if flags.workPaused then w else w.(pc := Dequeuing)
    case Dequeuing => if q.items == [] then w else w.(pc := Got(Taken(q)))
    case Got(found) =>
      if found.None? then w.(pc := WorkTop)
      else if flags.workRunning then w.(pc := Running(found.value), started := w.started + 1)
      else w.(pc := WorkTop, lost := w.lost + [found.value])
    case Running(task) =>
      // the recipients are looked up when the callback runs
      w.(pc := WorkTop, delivered := w.delivered + [Delivery(task, Targets(index, task.frame.id))])
    case WorkEnded => w
  }

  // ---------- the client threads ----------

  predicate IsIdle(r: Registry, c: Client) { c in r.clients && c in r.held && r.clients[c] == Idle }

  predicate IsAt(r: Registry, c: Client, stage: Stage) {
    c in r.clients && c in r.held && r.clients[c].Busy? && r.clients[c].stage == stage
  }

  function ClientStep(r: Registry, c: Client, event: Event): Registry {
    match event
    case Arrive =>
      if c in r.clients || c < 0 then r
      else r.(clients := r.clients[c := Idle], held := r.held[c := multiset{}])
    case Submit(order) =>
      if IsIdle(r, c)
      then r.(clients := r.clients[c := Busy(order, PauseReceive)], requests := r.requests + [Request(c, order)])
      else r
    case BadMagic =>
      if IsIdle(r, c) then r.(clients := r.clients[c := Abandoned]) else r
    case HangUp => if IsIdle(r, c) then Departed(r, c) else r
    case Proceed =>
      if IsAt(r, c, UpdateIndex) then IndexUpdated(r, c, r.clients[c].order)
      else if IsAt(r, c, UpdateTables) then TablesUpdated(r, c, r.clients[c].order)
      else if IsAt(r, c, Acknowledge) then Answered(r, c, r.clients[c].order)
      else if c in r.clients && r.clients[c].Busy? then r.(clients := r.clients[c := NextPc(r.clients[c])])
      else r
  }

  function NextPc(pc: ClientPc): ClientPc
    requires pc.Busy?
  {
    match pc.stage
    case PauseReceive => pc.(stage := PauseWork)
    case PauseWork => pc.(stage := UpdateIndex)
    case UpdateIndex => pc.(stage := UpdateTables)
    case UpdateTables => pc.(stage := Acknowledge)
    case Acknowledge => pc.(stage := ResumeWork)
    case ResumeWork => pc.(stage := ResumeReceive)
    case ResumeReceive => Idle
  }

  function FlagsAfter(flags: Flags, r: Registry, c: Client, event: Event): Flags {
    if event != Proceed then flags
    else if IsAt(r, c, PauseReceive) then flags.(receivePaused := true)
    else if IsAt(r, c, PauseWork) then flags.(workPaused := true)
    else if IsAt(r, c, ResumeWork) then flags.(workPaused := false)
    else if IsAt(r, c, ResumeReceive) then flags.(receivePaused := false)
    else flags
  }

  // Disconnecting drops the forward entry and touches neither the reverse index nor the tables.
  function Departed(r: Registry, c: Client): Registry
    requires c in r.held
  {
    r.(clients := r.clients - {c},
       index := AfterClean(r.index, c),
       stale := if c in r.index.forward then r.stale[c := r.index.forward[c]] else r.stale,
       held := r.held - {c},
       orphaned := r.orphaned + r.held[c])
  }

  function IndexUpdated(r: Registry, c: Client, order: Order): Registry {
    r.(index := IndexAfter(r.index, c, order),
       stale := if order.Add? || c in r.index.forward then map[] else r.stale,
       clients := r.clients[c := Busy(order, UpdateTables)])
  }

  function TablesUpdated(r: Registry, c: Client, order: Order): Registry
    requires c in r.held
  {
    r.(tables := TablesAfter(r.tables, order),
       held := r.held[c := HeldAfter(r.held[c], order)],
       clients := r.clients[c := Busy(order, Acknowledge)])
  }

  // The receiver rejects nothing but an empty list.
  function Answered(r: Registry, c: Client, order: Order): Registry {
    r.(answers := r.answers + [Answer(c, order, order.ids != [])],
       clients := r.clients[c := Busy(order, ResumeWork)])
  }

  function IndexAfter(x: Index, c: Client, order: Order): Index {
    match order
    case Add(_, ids) => AfterRegister(x, c, ids)
    case Remove(_, ids) => AfterDeregister(x, c, ids)
  }

  // An empty list is rejected.
  function TablesAfter(ts: Tables, order: Order): Tables {
    var p := LibGetCanDevPort(order.port);
    if order.ids == [] then ts
    else match order
      case Add(_, ids) => ts.With(p, Registered(ts.At(p), Filter(p, |ids|, SocketReceive), ids))
      case Remove(_, ids) => ts.With(p, Deregistered(ts.At(p), ids))
  }

  function HeldAfter(m: multiset<CanId>, order: Order): multiset<CanId> {
    match order
    case Add(_, ids) => m + multiset(ids)
    case Remove(_, ids) => m - multiset(ids)
  }

  // ---------- runs ----------

  lemma ClientKeepsKeys(r: Registry, c: Client, event: Event)
    requires r.held.Keys == r.clients.Keys
    ensures ClientStep(r, c, event).held.Keys == ClientStep(r, c, event).clients.Keys
  {
  }

  lemma RunCons(s: State, a: Action, acts: seq<Action>)
    ensures Run(s, [a] + acts) == Run(Step(s, a), acts)
  {
    assert ([a] + acts)[1..] == acts;
  }

  lemma {:induction false} RunConcat(s: State, a: seq<Action>, b: seq<Action>)
    ensures Run(s, a + b) == Run(Run(s, a), b)
    decreases |a|
  {
    if a == [] {
      assert a + b == b;
    } else {
      assert (a + b)[1..] == a[1..] + b;
      RunConcat(Step(s, a[0]), a[1..], b);
    }
  }

  lemma RunSnoc(s: State, acts: seq<Action>, a: Action)
    ensures Run(s, acts + [a]) == Step(Run(s, acts), a)
  {
    RunConcat(s, acts, [a]);
    assert Run(Run(s, acts), [a]) == Step(Run(s, acts), a);
  }
}
