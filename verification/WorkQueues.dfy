/** The bounded work queue, as the value it holds and as the object that updates it. */
module WorkQueues {

  datatype Option<+T> = None | Some(value: T)

  const MAX_WORK_QUEUE_TASKS: nat := 10000

  datatype Queue<T> = Queue(items: seq<T>, stopped: bool)

  predicate HasRoom<T>(q: Queue<T>) { |q.items| < MAX_WORK_QUEUE_TASKS }

  // The second critical section of enqueue: it tests only the stop flag.
  function Pushed<T>(q: Queue<T>, x: T): Queue<T> {
    if q.stopped then q else q.(items := q.items + [x])
  }

  // What a dequeue hands out, and what it leaves.
  function Taken<T>(q: Queue<T>): Option<T> {
    if q.stopped || q.items == [] then None else Some(q.items[0])
  }

  function AfterTake<T>(q: Queue<T>): Queue<T> {
    if q.stopped || q.items == [] then q else q.(items := q.items[1..])
  }

  // Both critical sections of enqueue with nothing between them.
  function Enqueued<T>(q: Queue<T>, x: T): Queue<T> {
    if HasRoom(q) then Pushed(q, x) else q
  }

  function EnqueuedAll<T>(q: Queue<T>, xs: seq<T>): Queue<T> {
    if xs == [] then q else Enqueued(EnqueuedAll(q, xs[..|xs| - 1]), xs[|xs| - 1])
  }

  function RoomFor<T>(q: Queue<T>, xs: seq<T>): (n: nat)
    ensures n <= |xs|
  {
    if q.stopped || |q.items| >= MAX_WORK_QUEUE_TASKS then 0
    else if |q.items| + |xs| <= MAX_WORK_QUEUE_TASKS then |xs|
    else MAX_WORK_QUEUE_TASKS - |q.items|
  }

  /** Offering a list to the queue appends the longest prefix that fits, and nothing else. */
  lemma {:induction false} EnqueuedAllAppendsPrefix<T>(q: Queue<T>, xs: seq<T>)
    ensures EnqueuedAll(q, xs) == q.(items := q.items + xs[..RoomFor(q, xs)])
  {
    if xs == [] {
      assert q.items + [] == q.items;
    } else {
      var init, x := xs[..|xs| - 1], xs[|xs| - 1];
      EnqueuedAllAppendsPrefix(q, init);
      assert xs[..|xs|] == init + [x];
      assert init[..RoomFor(q, init)] == xs[..RoomFor(q, init)];
      assert q.items + init + [x] == q.items + (init + [x]);
    }
  }

  /** An empty queue takes ten thousand tasks and no more. */
  lemma CapacityIsTenThousand<T>(xs: seq<T>)
    ensures EnqueuedAll(Queue([], false), xs).items == if |xs| <= 10000 then xs else xs[..10000]
  {
    EnqueuedAllAppendsPrefix(Queue([], false), xs);
  }

  class WorkQueue<T> {
    var items: seq<T>
    var stopped: bool

    ghost function State(): Queue<T>
      reads this
    {
      Queue(items, stopped)
    }

    constructor ()
      ensures State() == Queue([], false)
    {
      items, stopped := [], false;
    }

    method Size() returns (n: nat)
      ensures n == |items|
    {
      n := |items|;
    }

    method Enqueue(x: T) returns (accepted: bool)
      modifies this
      ensures State() == Enqueued(old(State()), x)
      ensures accepted <==> |old(items)| < MAX_WORK_QUEUE_TASKS && !old(stopped)
    {
      var n := Size();
      if n >= MAX_WORK_QUEUE_TASKS {
        return false;
      }
      if stopped {
        return false;
      }
      items := items + [x];
      return true;
    }

    // The call returns only once the queue is non-empty, which is the condition waited for.
    method DequeueBlocking() returns (r: Option<T>)
      requires items != []
      modifies this
      ensures r == Taken(old(State())) && State() == AfterTake(old(State()))
    {
      if stopped {
        return None;
      }
      r := Some(items[0]);
      items := items[1..];
    }

    method DequeueNonblocking() returns (r: Option<T>)
      modifies this
      ensures r == Taken(old(State())) && State() == AfterTake(old(State()))
    {
      if stopped {
        return None;
      }
      if |items| == 0 {
        return None;
      }
      r := Some(items[0]);
      items := items[1..];
    }

    method ClearQueue()
      modifies this`items
      ensures items == []
    {
      while |items| != 0
        decreases |items|
      {
        items := items[1..];
      }
    }

    method Stop()
      modifies this`stopped
      ensures stopped
    {
      stopped := true;
    }
  }
}
