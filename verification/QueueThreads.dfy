/** Any number of threads sharing the work queue. Each critical section is one atomic step, so
    other threads can run between an enqueue's size check and its push. */
module QueueThreads {
  import opened WorkQueues

  /** past: producers that passed the size check and have not pushed yet.
      accepted, gone and taken are histories: what was pushed, what left the queue, and what a
      dequeue handed out. */
  datatype State<T> = State(queue: Queue<T>, past: map<nat, T>, accepted: seq<T>, gone: seq<T>, taken: seq<T>)

  datatype Action<T> =
    | Check(producer: nat, x: T)
    | Push(producer: nat)
    | TakeBlocking
    | TakeNonblocking
    | Clear
    | Stop

  function Init<T>(): State<T> { State(Queue([], false), map[], [], [], []) }

  // A step of a thread that cannot take it leaves the state alone.
  function Step<T>(s: State<T>, a: Action<T>): State<T> {
    match a
    case Check(p, x) =>
      if p !in s.past && HasRoom(s.queue) then s.(past := s.past[p := x]) else s
    case Push(p) =>
      if p !in s.past then s
      else s.(queue := Pushed(s.queue, s.past[p]),
              past := s.past - {p},
              accepted := if s.queue.stopped then s.accepted else s.accepted + [s.past[p]])
    case TakeBlocking => if s.queue.items == [] then s else Take(s)
    case TakeNonblocking => Take(s)
    case Clear => s.(queue := s.queue.(items := []), gone := s.gone + s.queue.items)
    case Stop => s.(queue := s.queue.(stopped := true))
  }

  function Take<T>(s: State<T>): State<T> {
    match Taken(s.queue)
    case None => s
    case Some(x) => s.(queue := AfterTake(s.queue), gone := s.gone + [x], taken := s.taken + [x])
  }

  function Run<T>(s: State<T>, acts: seq<Action<T>>): State<T>
    decreases |acts|
  {
    if acts == [] then s else Run(Step(s, acts[0]), acts[1..])
  }

  /** A producer whose two critical sections are not interleaved with anything does what the
      queue object's enqueue does. */
  lemma EnqueueAlone<T>(s: State<T>, p: nat, x: T)
    requires p !in s.past
    ensures var t := Run(s, [Check(p, x), Push(p)]);
            t.queue == Enqueued(s.queue, x) && t.past == s.past
  {
    RunTwo(s, Check(p, x), Push(p));
    assert s.past[p := x] - {p} == s.past;
  }

  // ---------- capacity ----------

  ghost predicate By<T>(acts: seq<Action<T>>, producers: set<nat>) {
    forall a :: a in acts && a.Check? ==> a.producer in producers
  }

  ghost predicate Bounded<T>(s: State<T>, producers: set<nat>) {
    && s.past.Keys <= producers
    && |s.queue.items| + |s.past| <= MAX_WORK_QUEUE_TASKS - 1 + |producers|
  }

  lemma CheckKeepsBound<T>(s: State<T>, p: nat, x: T, producers: set<nat>)
    requires Bounded(s, producers) && p in producers
    ensures Bounded(Step(s, Check(p, x)), producers)
  {
    if p !in s.past && HasRoom(s.queue) {
      Smaller(s.past.Keys, producers, p);
      assert |s.past.Keys| == |s.past| && s.past[p := x].Keys == s.past.Keys + {p};
      assert |s.past[p := x]| == |s.past.Keys + {p}| == |s.past| + 1;
    }
  }

  lemma PushKeepsBound<T>(s: State<T>, p: nat, producers: set<nat>)
    requires Bounded(s, producers)
    ensures Bounded(Step(s, Push(p)), producers)
  {
  }

  lemma StepKeepsBound<T>(s: State<T>, a: Action<T>, producers: set<nat>)
    requires producers != {} && Bounded(s, producers)
    requires a.Check? ==> a.producer in producers
    ensures Bounded(Step(s, a), producers)
  {
    match a {
      case Check(p, x) => CheckKeepsBound(s, p, x, producers);
      case Push(p) => PushKeepsBound(s, p, producers);
      case _ =>
    }
  }

  lemma Smaller(some: set<nat>, all: set<nat>, p: nat)
    requires some <= all && p in all && p !in some
    ensures |some| < |all|
  {
    assert some <= all - {p};
    Subset(some, all - {p});
  }

  lemma {:induction false} Subset(a: set<nat>, b: set<nat>)
    requires a <= b
    ensures |a| <= |b|
  {
    if a == {} {
    } else {
      var x :| x in a;
      Subset(a - {x}, b - {x});
    }
  }

  /** However the steps of P producers, any dequeuers and any clears interleave, the queue never
      holds more than its maximum plus P - 1 tasks; so never more than its maximum for P = 1. */
  lemma {:induction false} CapacityBound<T>(s: State<T>, acts: seq<Action<T>>, producers: set<nat>)
    requires producers != {} && Bounded(s, producers) && By(acts, producers)
    ensures Bounded(Run(s, acts), producers)
    ensures |Run(s, acts).queue.items| <= MAX_WORK_QUEUE_TASKS - 1 + |producers|
    decreases |acts|
  {
    if acts == [] {
    } else {
      StepKeepsBound(s, acts[0], producers);
      CapacityBound(Step(s, acts[0]), acts[1..], producers);
    }
  }

  lemma {:induction false} RunConcat<T>(s: State<T>, a: seq<Action<T>>, b: seq<Action<T>>)
    ensures Run(s, a + b) == Run(Run(s, a), b)
    decreases |a|
  {
    if a == [] {
      assert a + b == b;
    } else {
      assert (a + b)[1..] == a[1..] + b;
      RunConcat(Step(s, a[0]), a[1..], b);
    }
  }

  // One producer alone fills the queue up to n tasks.
  lemma {:induction false} Fill<T>(p: nat, x: T, n: nat) returns (acts: seq<Action<T>>)
    requires n < MAX_WORK_QUEUE_TASKS
    ensures By(acts, {p})
    ensures var s := Run(Init<T>(), acts); |s.queue.items| == n && s.past == map[] && !s.queue.stopped
  {
    if n == 0 {
      acts := [];
    } else {
      var before := Fill<T>(p, x, n - 1);
      var s := Run(Init<T>(), before);
      var more := [Check(p, x), Push(p)];
      acts := before + more;
      RunConcat(Init<T>(), before, more);
      RunTwo(s, more[0], more[1]);
      assert map[p := x] - {p} == map[];
    }
  }

  lemma RunTwo<T>(s: State<T>, a: Action<T>, b: Action<T>)
    ensures Run(s, [a, b]) == Step(Step(s, a), b)
  {
    assert [a, b][1..] == [b];
    assert Run(Step(s, a), [b]) == Step(Step(s, a), b);
  }

  lemma RunOne<T>(s: State<T>, a: Action<T>)
    ensures Run(s, [a]) == Step(s, a)
  {
  }

  // Producers check one after the other while there is room for one more task.
  lemma {:induction false} AllCheck<T>(s: State<T>, ps: set<nat>, x: T) returns (acts: seq<Action<T>>)
    requires HasRoom(s.queue) && s.past.Keys !! ps
    ensures By(acts, ps)
    ensures Run(s, acts) == s.(past := s.past + map p | p in ps :: x)
    decreases |ps|
  {
    if ps == {} {
      acts := [];
      assert s.past + (map p | p in ps :: x) == s.past;
    } else {
      var p :| p in ps;
      var a: Action<T> := Check(p, x);
      var rest := AllCheck(Step(s, a), ps - {p}, x);
      acts := [a] + rest;
      assert acts[1..] == rest;
      assert s.past[p := x] + (map q | q in ps - {p} :: x) == s.past + (map q | q in ps :: x);
    }
  }

  // ... and then all of them push.
  lemma {:induction false} AllPush<T>(s: State<T>) returns (acts: seq<Action<T>>)
    requires !s.queue.stopped
    ensures forall a :: a in acts ==> a.Push?
    ensures |Run(s, acts).queue.items| == |s.queue.items| + |s.past|
    decreases |s.past|
  {
    if s.past.Keys == {} {
      assert |s.past| == |s.past.Keys|;
      acts := [];
    } else {
      var p :| p in s.past.Keys;
      var a: Action<T> := Push(p);
      assert (s.past - {p}).Keys == s.past.Keys - {p};
      assert |s.past| == |s.past.Keys| && |s.past - {p}| == |(s.past - {p}).Keys|;
      var rest := AllPush(Step(s, a));
      acts := [a] + rest;
      assert acts[1..] == rest;
    }
  }

  /** The bound is tight: for every set of producers some interleaving reaches it. */
  lemma CapacityBoundIsReached<T>(producers: set<nat>, x: T) returns (acts: seq<Action<T>>)
    requires producers != {}
    ensures By(acts, producers)
    ensures |Run(Init<T>(), acts).queue.items| == MAX_WORK_QUEUE_TASKS - 1 + |producers|
  {
    var p :| p in producers;
    var fill := Fill<T>(p, x, MAX_WORK_QUEUE_TASKS - 1);
    var s0 := Run(Init<T>(), fill);
    var check := AllCheck(s0, producers, x);
    var s1 := Run(s0, check);
    var push := AllPush(s1);
    acts := fill + check + push;
    RunConcat(Init<T>(), fill + check, push);
    RunConcat(Init<T>(), fill, check);
    assert s1.past.Keys == producers;
    assert |s1.past| == |s1.past.Keys|;
  }

  // ---------- order and conservation ----------

  /** What was accepted is, in order, what left the queue and then what it still holds. */
  ghost predicate Fifo<T>(s: State<T>) {
    s.accepted == s.gone + s.queue.items
  }

  lemma StepKeepsFifo<T>(s: State<T>, a: Action<T>)
    requires Fifo(s)
    ensures Fifo(Step(s, a))
  {
  }

  lemma {:induction false} RunsAreFifo<T>(s: State<T>, acts: seq<Action<T>>)
    requires Fifo(s)
    ensures Fifo(Run(s, acts))
    ensures (forall a :: a in acts ==> !a.Clear?) && s.gone == s.taken ==> Run(s, acts).gone == Run(s, acts).taken
    decreases |acts|
  {
    if acts == [] {
    } else {
      StepKeepsFifo(s, acts[0]);
      RunsAreFifo(Step(s, acts[0]), acts[1..]);
    }
  }

  // ---------- stop ----------

  /** Once the queue is stopped nothing is accepted or handed out any more, and its contents
      change only by being cleared. */
  lemma {:induction false} StopFreezes<T>(s: State<T>, acts: seq<Action<T>>)
    requires s.queue.stopped
    ensures var t := Run(s, acts);
            && t.queue.stopped && t.taken == s.taken && t.accepted == s.accepted
            && t.queue.items == if Clear in acts then [] else s.queue.items
    decreases |acts|
  {
    if acts == [] {
    } else {
      StopFreezes(Step(s, acts[0]), acts[1..]);
      assert Clear in acts <==> acts[0] == Clear || Clear in acts[1..];
    }
  }
}
