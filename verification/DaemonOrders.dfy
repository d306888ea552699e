/** The step machine and the controller agree: an order that no other order or departure comes
    between does what the controller does for the package that carried it, whatever the receive
    thread, the worker and the other clients' arrivals do meanwhile. And under every
    interleaving each client's orders are answered one by one, in order. */
module DaemonOrders {
  import opened ClientIndex
  import opened Packages
  import opened Daemon
  import opened DaemonPause
  import Controllers

  function OrderOf(p: Package): Order
    requires IsFilterOrder(p) && WellFormed(p)
  {
    if p.order == ORDER_ADD_FILTER then Add(p.port, FilterIds(p)) else Remove(p.port, FilterIds(p))
  }

  // ---------- one order among other threads' steps ----------

  // The client only proceeds; no other client proceeds with an order or hangs up. Everything
  // else is free: both threads, arrivals, submissions, bad packages, ports, shutting down.
  predicate Undisturbed(a: Action, c: Client) {
    a.ByClient? ==> if a.c == c then a.event == Proceed else a.event != Proceed && a.event != HangUp
  }

  function Rank(stage: Stage): nat {
    match stage
    case PauseReceive => 0
    case PauseWork => 1
    case UpdateIndex => 2
    case UpdateTables => 3
    case Acknowledge => 4
    case ResumeWork => 5
    case ResumeReceive => 6
  }

  function Progress(pc: ClientPc): nat {
    match pc
    case Busy(_, stage) => Rank(stage)
    case _ => 7
  }

  // How far an order submitted by c in registry r0 has come, and what it has done so far.
  ghost predicate Phase(r0: Registry, r: Registry, c: Client, order: Order) {
    && c in r.clients && c in r.held
    && (r.clients[c] == Idle || (r.clients[c].Busy? && r.clients[c].order == order))
    && var k := Progress(r.clients[c]);
       && r.index == (if k <= 2 then r0.index else IndexAfter(r0.index, c, order))
       && r.tables == (if k <= 3 then r0.tables else TablesAfter(r0.tables, order))
       && r.answers == (if k <= 4 then r0.answers else r0.answers + [Answer(c, order, order.ids != [])])
  }

  // Both threads are paused before the index is touched and until the reply is written.
  predicate PhaseFlags(flags: Flags, k: nat) {
    && (1 <= k <= 6 ==> flags.receivePaused)
    && (2 <= k <= 5 ==> flags.workPaused)
    && (6 <= k && flags.workRunning ==> !flags.workPaused)
    && (7 <= k && flags.receiveRunning ==> !flags.receivePaused)
  }

  lemma OwnStepKeepsPhase(r0: Registry, r: Registry, c: Client, order: Order)
    requires Phase(r0, r, c, order)
    ensures var r', k := ClientStep(r, c, Proceed), Progress(r.clients[c]);
            Phase(r0, r', c, order) && Progress(r'.clients[c]) == if k < 7 then k + 1 else 7
  {
    if IsAt(r, c, UpdateIndex) {
      assert ClientStep(r, c, Proceed) == IndexUpdated(r, c, order);
    } else if IsAt(r, c, UpdateTables) {
      assert ClientStep(r, c, Proceed) == TablesUpdated(r, c, order);
    } else if IsAt(r, c, Acknowledge) {
      assert ClientStep(r, c, Proceed) == Answered(r, c, order);
    } else {
      OtherStageKeeps(r, c);
    }
  }

  lemma OtherStageKeeps(r: Registry, c: Client)
    requires c in r.clients && c in r.held
    requires !IsAt(r, c, UpdateIndex) && !IsAt(r, c, UpdateTables) && !IsAt(r, c, Acknowledge)
    ensures ClientStep(r, c, Proceed) ==
            if r.clients[c].Busy? then r.(clients := r.clients[c := NextPc(r.clients[c])]) else r
  {
  }

  lemma OwnStepKeepsFlags(r: Registry, flags: Flags, c: Client)
    requires c in r.clients && c in r.held && PhaseFlags(flags, Progress(r.clients[c]))
    requires r.clients[c] == Idle || r.clients[c].Busy?
    ensures var k := Progress(r.clients[c]);
            PhaseFlags(FlagsAfter(flags, r, c, Proceed), if k < 7 then k + 1 else 7)
  {
  }

  lemma OtherClientKeepsPhase(r0: Registry, r: Registry, d: Client, event: Event, c: Client, order: Order)
    requires Phase(r0, r, c, order) && d != c && event != Proceed && event != HangUp
    ensures Phase(r0, ClientStep(r, d, event), c, order) && ClientStep(r, d, event).clients[c] == r.clients[c]
  {
  }

  lemma StepKeepsPhase(r0: Registry, s: State, a: Action, c: Client, order: Order)
    requires Phase(r0, s.reg, c, order) && PhaseFlags(s.flags, Progress(s.reg.clients[c])) && Undisturbed(a, c)
    ensures var s', k := Step(s, a), Progress(s.reg.clients[c]);
            var k' := if a.ByClient? && a.c == c && k < 7 then k + 1 else k;
            Phase(r0, s'.reg, c, order) && Progress(s'.reg.clients[c]) == k' && PhaseFlags(s'.flags, k')
  {
    if a.ByClient? {
      if a.c == c {
        OwnStepKeepsPhase(r0, s.reg, c, order);
        OwnStepKeepsFlags(s.reg, s.flags, c);
      } else {
        OtherClientKeepsPhase(r0, s.reg, a.c, a.event, c, order);
      }
    }
  }

  // How often the client's thread takes a step.
  function Turns(acts: seq<Action>, c: Client): nat {
    if acts == [] then 0 else (if acts[0] == ByClient(c, Proceed) then 1 else 0) + Turns(acts[1..], c)
  }

  lemma {:induction false} RunKeepsPhase(r0: Registry, s: State, acts: seq<Action>, c: Client, order: Order)
    requires Phase(r0, s.reg, c, order) && PhaseFlags(s.flags, Progress(s.reg.clients[c]))
    requires forall a :: a in acts ==> Undisturbed(a, c)
    ensures Phase(r0, Run(s, acts).reg, c, order)
    ensures var t, k := Run(s, acts), Progress(s.reg.clients[c]) + Turns(acts, c);
            Progress(t.reg.clients[c]) == (if k < 7 then k else 7) && PhaseFlags(t.flags, if k < 7 then k else 7)
    decreases |acts|
  {
    if acts == [] {
    } else {
      assert acts[0] in acts;
      StepKeepsPhase(r0, s, acts[0], c, order);
      RunKeepsPhase(r0, Step(s, acts[0]), acts[1..], c, order);
    }
  }

  lemma EffectIsServed(r: Registry, c: Client, p: Package, clock: nat -> nat)
    requires WellFormed(p) && IsFilterOrder(p)
    ensures var served := Controllers.Serve(Controllers.Server(r.index, r.tables, []), c, p, clock);
            IndexAfter(r.index, c, OrderOf(p)) == served.index && TablesAfter(r.tables, OrderOf(p)) == served.tables
    ensures OrderOf(p).ids != [] <==> ReplyFor(p).ack == ACK_OKAY
  {
  }

  /** However the receive thread, the worker and other clients' arrivals run in between, an order
      that no other order or departure comes between is finished after exactly seven turns of its
      client's thread; then index and tables are as the controller leaves them and it has been
      answered, once. Until it is answered both threads are paused around its updates. */
  lemma OrderIsServed(s: State, c: Client, p: Package, acts: seq<Action>, clock: nat -> nat)
    requires IsIdle(s.reg, c) && WellFormed(p) && IsFilterOrder(p)
    requires forall a :: a in acts ==> Undisturbed(a, c)
    ensures var t := Run(Step(s, ByClient(c, Submit(OrderOf(p)))), acts);
            var served := Controllers.Serve(Controllers.Server(s.reg.index, s.reg.tables, []), c, p, clock);
            && (IsIdle(t.reg, c) <==> Turns(acts, c) >= 7)
            && (IsIdle(t.reg, c) ==>
                  && t.reg.index == served.index && t.reg.tables == served.tables
                  && t.reg.answers == s.reg.answers + [Answer(c, OrderOf(p), ReplyFor(p).ack == ACK_OKAY)]
                  && (t.flags.workRunning ==> !t.flags.workPaused)
                  && (t.flags.receiveRunning ==> !t.flags.receivePaused))
            && (IsAt(t.reg, c, UpdateIndex) || IsAt(t.reg, c, UpdateTables) || IsAt(t.reg, c, Acknowledge)
                ==> t.flags.receivePaused && t.flags.workPaused)
  {
    var order := OrderOf(p);
    var s1 := Step(s, ByClient(c, Submit(order)));
    assert Phase(s.reg, s1.reg, c, order);
    RunKeepsPhase(s.reg, s1, acts, c, order);
    EffectIsServed(s.reg, c, p, clock);
  }

  // ---------- how long a pause lasts ----------

  ghost predicate NoOtherResumes(s: State, acts: seq<Action>, c: Client, stage: Stage)
    decreases |acts|
  {
    acts == []
    || (!(Resumes(s.reg, acts[0], stage) && acts[0].c != c) && NoOtherResumes(Step(s, acts[0]), acts[1..], c, stage))
  }

  predicate IsServing(r: Registry, c: Client) { c in r.clients && c in r.held && r.clients[c].Busy? }

  lemma OtherClientKeepsPc(r: Registry, d: Client, event: Event, c: Client)
    requires d != c && c in r.clients && c in r.held
    ensures var r' := ClientStep(r, d, event);
            c in r'.clients && c in r'.held && r'.clients[c] == r.clients[c]
  {
  }

  lemma ServingIgnores(r: Registry, c: Client, event: Event)
    requires IsServing(r, c) && event != Proceed
    ensures ClientStep(r, c, event) == r
  {
  }

  lemma OwnProceed(r: Registry, c: Client)
    requires IsServing(r, c) && Progress(r.clients[c]) < 6
    ensures var r' := ClientStep(r, c, Proceed);
            IsServing(r', c) && Progress(r'.clients[c]) == Progress(r.clients[c]) + 1
  {
    var order := r.clients[c].order;
    if IsAt(r, c, UpdateIndex) {
      assert ClientStep(r, c, Proceed) == IndexUpdated(r, c, order);
    } else if IsAt(r, c, UpdateTables) {
      assert ClientStep(r, c, Proceed) == TablesUpdated(r, c, order);
    } else if IsAt(r, c, Acknowledge) {
      assert ClientStep(r, c, Proceed) == Answered(r, c, order);
    } else {
      OtherStageKeeps(r, c);
    }
  }

  lemma StepKeepsServing(s: State, a: Action, c: Client)
    requires IsServing(s.reg, c) && (a == ByClient(c, Proceed) ==> Progress(s.reg.clients[c]) < 6)
    ensures var r, r' := s.reg, Step(s, a).reg;
            && IsServing(r', c)
            && Progress(r'.clients[c]) == Progress(r.clients[c]) + if a == ByClient(c, Proceed) then 1 else 0
  {
    hide ClientStep, Progress;
    if a.ByClient? {
      if a.c != c {
        OtherClientKeepsPc(s.reg, a.c, a.event, c);
      } else if a.event == Proceed {
        OwnProceed(s.reg, c);
      } else {
        ServingIgnores(s.reg, c, a.event);
      }
    }
  }

  // A client whose thread does not get past a resume does not take it.
  lemma {:induction false} OwnResumeIsAhead(s: State, acts: seq<Action>, c: Client, stage: Stage)
    requires IsServing(s.reg, c) && Progress(s.reg.clients[c]) + Turns(acts, c) <= Rank(stage)
    ensures NoneResumes(s, acts, stage) <==> NoOtherResumes(s, acts, c, stage)
    decreases |acts|
  {
    if acts == [] {
    } else {
      StepKeepsServing(s, acts[0], c);
      OwnResumeIsAhead(Step(s, acts[0]), acts[1..], c, stage);
    }
  }

  /** From the step in which an order pauses the worker until its reply is written, whatever else
      happens, the worker stays flagged paused if and only if no other client's order comes to
      the step that resumes it. */
  lemma WorkPauseHoldsExactly(s: State, acts: seq<Action>, c: Client)
    requires IsAt(s.reg, c, PauseWork) && Turns(acts, c) <= 3
    ensures var t := Step(s, ByClient(c, Proceed));
            WorkPausedThroughout(t, acts) <==> NoOtherResumes(t, acts, c, ResumeWork)
  {
    var t := Step(s, ByClient(c, Proceed));
    FlagsStayUpExactly(t, acts);
    OwnResumeIsAhead(t, acts, c, ResumeWork);
  }

  /** The same for the receive thread, until the order itself has resumed the worker. */
  lemma ReceivePauseHoldsExactly(s: State, acts: seq<Action>, c: Client)
    requires IsAt(s.reg, c, PauseReceive) && Turns(acts, c) <= 5
    ensures var t := Step(s, ByClient(c, Proceed));
            ReceivePausedThroughout(t, acts) <==> NoOtherResumes(t, acts, c, ResumeReceive)
  {
    var t := Step(s, ByClient(c, Proceed));
    FlagsStayUpExactly(t, acts);
    OwnResumeIsAhead(t, acts, c, ResumeReceive);
  }

  // ---------- the two ends of a session ----------

  /** A client's departure and its abandonment do to the index and the tables what the two ends
      of a session do: only the first drops the forward entry, and neither deregisters. */
  lemma EndsAreServed(s: State, c: Client, p: Package, clock: nat -> nat)
    requires IsIdle(s.reg, c) && p.magic != SOCKET_MAGIC_CODE
    ensures var server := Controllers.Server(s.reg.index, s.reg.tables, []);
            var gone, left := Step(s, ByClient(c, HangUp)).reg, Step(s, ByClient(c, BadMagic)).reg;
            && Controllers.Session(server, c, [], clock) == Controllers.Server(gone.index, gone.tables, [])
            && Controllers.Session(server, c, [p], clock) == Controllers.Server(left.index, left.tables, [])
            && c !in gone.index.forward && gone.index.reverse == s.reg.index.reverse && left.index == s.reg.index
            && gone.tables == s.reg.tables && left.tables == s.reg.tables
  {
  }

  // ---------- answers under every interleaving ----------

  function RequestsOf(requests: seq<Request>, c: Client): seq<Order> {
    if requests == [] then []
    else
      var x := requests[|requests| - 1];
      RequestsOf(requests[..|requests| - 1], c) + if x.c == c then [x.order] else []
  }

  function AnswersTo(answers: seq<Answer>, c: Client): seq<Order> {
    if answers == [] then []
    else
      var x := answers[|answers| - 1];
      AnswersTo(answers[..|answers| - 1], c) + if x.c == c then [x.order] else []
  }

  // The order a client has submitted and not been answered.
  function Unanswered(r: Registry, c: Client): seq<Order> {
    if c in r.clients && r.clients[c].Busy? && Rank(r.clients[c].stage) <= 4 then [r.clients[c].order] else []
  }

  ghost predicate AnsweredInOrder(r: Registry, c: Client) {
    AnswersTo(r.answers, c) + Unanswered(r, c) == RequestsOf(r.requests, c)
  }

  ghost predicate AnswersAreRight(r: Registry) {
    forall x :: x in r.answers ==> (x.okay <==> x.order.ids != [])
  }

  lemma ClientKeepsAnswers(r: Registry, d: Client, event: Event, c: Client)
    requires AnsweredInOrder(r, c) && r.held.Keys == r.clients.Keys
    ensures AnsweredInOrder(ClientStep(r, d, event), c)
  {
    hide ClientStep, Unanswered, AnswersTo, RequestsOf;
    var r' := ClientStep(r, d, event);
    var had, left, left' := AnswersTo(r.answers, c), Unanswered(r, c), Unanswered(r', c);
    if event == Proceed && IsAt(r, d, Acknowledge) {
      var mine := if d == c then [r.clients[d].order] else [];
      ReplyIsNext(r, d, c);
      assert had + (mine + left') == had + mine + left';
    } else if event.Submit? && IsIdle(r, d) {
      var mine := if d == c then [event.order] else [];
      SubmitIsLast(r, d, event.order, c);
      assert had + (left + mine) == had + left + mine;
    } else {
      OtherEventsKeepAnswers(r, d, event, c);
    }
  }

  lemma ReplyIsNext(r: Registry, d: Client, c: Client)
    requires IsAt(r, d, Acknowledge)
    ensures var r', mine := ClientStep(r, d, Proceed), if d == c then [r.clients[d].order] else [];
            && AnswersTo(r'.answers, c) == AnswersTo(r.answers, c) + mine
            && Unanswered(r, c) == mine + Unanswered(r', c) && r'.requests == r.requests
  {
    var r', order := ClientStep(r, d, Proceed), r.clients[d].order;
    assert r' == Answered(r, d, order);
    hide ClientStep;
    assert r'.answers[..|r.answers|] == r.answers;
  }

  lemma SubmitIsLast(r: Registry, d: Client, order: Order, c: Client)
    requires IsIdle(r, d)
    ensures var r', mine := ClientStep(r, d, Submit(order)), if d == c then [order] else [];
            && RequestsOf(r'.requests, c) == RequestsOf(r.requests, c) + mine
            && Unanswered(r', c) == Unanswered(r, c) + mine && r'.answers == r.answers
  {
    var r' := ClientStep(r, d, Submit(order));
    assert r'.requests[..|r.requests|] == r.requests;
  }

  lemma OtherEventsKeepAnswers(r: Registry, d: Client, event: Event, c: Client)
    requires r.held.Keys == r.clients.Keys
    requires event == Proceed ==> !IsAt(r, d, Acknowledge)
    requires event.Submit? ==> !IsIdle(r, d)
    ensures var r' := ClientStep(r, d, event);
            r'.answers == r.answers && r'.requests == r.requests && Unanswered(r', c) == Unanswered(r, c)
  {
    if event == Proceed && d in r.clients && r.clients[d].Busy? {
      var order := r.clients[d].order;
      if IsAt(r, d, UpdateIndex) {
        assert ClientStep(r, d, event) == IndexUpdated(r, d, order);
      } else if IsAt(r, d, UpdateTables) {
        assert ClientStep(r, d, event) == TablesUpdated(r, d, order);
      } else {
        OtherStageKeeps(r, d);
      }
    }
  }

  lemma ClientAnswersRight(r: Registry, c: Client, event: Event)
    requires AnswersAreRight(r)
    ensures AnswersAreRight(ClientStep(r, c, event))
  {
  }

  lemma {:induction false} RunKeepsAnswers(s: State, acts: seq<Action>, c: Client)
    requires s.reg.held.Keys == s.reg.clients.Keys && AnsweredInOrder(s.reg, c) && AnswersAreRight(s.reg)
    ensures AnsweredInOrder(Run(s, acts).reg, c) && AnswersAreRight(Run(s, acts).reg)
    decreases |acts|
  {
    if acts == [] {
    } else {
      var a := acts[0];
      if a.ByClient? {
        ClientKeepsKeys(s.reg, a.c, a.event);
        ClientKeepsAnswers(s.reg, a.c, a.event, c);
        ClientAnswersRight(s.reg, a.c, a.event);
      }
      RunKeepsAnswers(Step(s, a), acts[1..], c);
    }
  }

  /** Under every interleaving of any number of clients, the answers a client has got are, in
      order, one for each order it has submitted except the one it is waiting for, and each says
      okay exactly if the list was not empty. */
  lemma EveryOrderIsAnswered(acts: seq<Action>, c: Client)
    ensures var r := Run(INIT, acts).reg;
            && AnswersTo(r.answers, c) + Unanswered(r, c) == RequestsOf(r.requests, c)
            && forall x :: x in r.answers ==> (x.okay <==> x.order.ids != [])
  {
    RunKeepsAnswers(INIT, acts, c);
  }
}
