/** The receiver object: a pair of tables per CAN port, the work queue it feeds, and the flags
    that pause its two threads. */
module Receivers {
  import opened CanFrames
  import opened FilterTables
  import opened WorkQueues

  const SUCCESS := 0
  const INVALID_ARG := -4

  // The queued closure: the matched filter and the frame it is to be called with.
  datatype Task = Task(filter: Filter, frame: CanFrame)

  datatype Tables = Tables(port5: PortTable, port6: PortTable, port7: PortTable, port8: PortTable, port9: PortTable) {
    function At(p: DevPort): PortTable {
      if p == 5 then port5 else if p == 6 then port6 else if p == 7 then port7 else if p == 8 then port8 else port9
    }

    function With(p: DevPort, t: PortTable): Tables {
      if p == 5 then this.(port5 := t)
      else if p == 6 then this.(port6 := t)
      else if p == 7 then this.(port7 := t)
      else if p == 8 then this.(port8 := t)
      else this.(port9 := t)
    }
  }

  const NO_FILTERS := Tables(EMPTY_TABLE, EMPTY_TABLE, EMPTY_TABLE, EMPTY_TABLE, EMPTY_TABLE)

  ghost predicate AllConsistent(ts: Tables) {
    Consistent(ts.port5) && Consistent(ts.port6) && Consistent(ts.port7) && Consistent(ts.port8) && Consistent(ts.port9)
  }

  // The tasks that a list of received frames gives rise to, in order.
  function Matching(t: PortTable, fs: seq<CanFrame>): seq<Task> {
    if fs == [] then []
    else
      var f := fs[|fs| - 1];
      Matching(t, fs[..|fs| - 1]) + if f.id in t.filters then [Task(t.filters[f.id], f)] else []
  }

  class PortFilter {
    const port: DevPort
    var idMap: map<CanId, int>
    var filterMap: map<CanId, Filter>

    ghost function Table(): PortTable
      reads this
    {
      PortTable(idMap, filterMap)
    }

    constructor (port: DevPort)
      ensures this.port == port && Table() == EMPTY_TABLE
    {
      this.port := port;
      idMap, filterMap := map[], map[];
    }

    method Register(f: Filter, ids: seq<CanId>)
      requires Consistent(Table())
      modifies this
      ensures Table() == Registered(old(Table()), f, ids)
    {
      for i := 0 to |ids|
        invariant idMap == old(idMap)
        invariant filterMap == Stored(old(filterMap), f, ids[..i])
      {
        StoreOneMore(old(filterMap), f, ids, i);
        if ids[i] !in filterMap {
          filterMap := filterMap[ids[i] := f];
        }
      }
      assert ids[..|ids|] == ids;
      for i := 0 to |ids|
        invariant filterMap == Stored(old(filterMap), f, ids)
        invariant idMap == Counted(old(idMap), ids[..i])
      {
        CountOneMore(old(idMap), ids, i);
        if ids[i] in idMap {
          idMap := idMap[ids[i] := idMap[ids[i]] + 1];
        } else {
          idMap := idMap[ids[i] := 1];
        }
      }
      assert ids[..|ids|] == ids;
    }

    method Deregister(ids: seq<CanId>)
      requires Consistent(Table())
      modifies this
      ensures Table() == Deregistered(old(Table()), ids)
    {
      ghost var t := Table();
      assert Deregistered(t, ids[..0]) == t;
      for i := 0 to |ids|
        invariant idMap == Deregistered(t, ids[..i]).counts
        invariant filterMap == Deregistered(t, ids[..i]).filters
      {
        OneMore(t, ids, i);
        RemoveOne(ids[i]);
      }
      assert ids[..|ids|] == ids;
    }

    // The body of the loop: take one from the count, and drop the identifier at zero.
    method RemoveOne(id: CanId)
      requires id in idMap ==> id in filterMap && idMap[id] >= 1
      modifies this
      ensures idMap == (if id !in old(idMap) then old(idMap)
                        else if old(idMap)[id] == 1 then old(idMap) - {id}
                        else old(idMap)[id := old(idMap)[id] - 1])
      ensures filterMap == if id in old(idMap) && old(idMap)[id] == 1 then old(filterMap) - {id} else old(filterMap)
    {
      if id in idMap && idMap[id] != 0 {
        idMap := idMap[id := idMap[id] - 1];
      }
      if id in idMap && idMap[id] == 0 {
        assert id in filterMap;  // the lookup below always succeeds
        if id in filterMap {
          filterMap := filterMap - {id};
          idMap := idMap - {id};
        }
      }
    }
  }

  // Storing the filter for, and then counting, one more identifier of the list.
  lemma StoreOneMore(m: map<CanId, Filter>, f: Filter, ids: seq<CanId>, i: nat)
    requires i < |ids|
    ensures var before := Stored(m, f, ids[..i]);
            Stored(m, f, ids[..i + 1]) == if ids[i] in before then before else before[ids[i] := f]
  {
  }

  lemma CountOneMore(m: map<CanId, int>, ids: seq<CanId>, i: nat)
    requires i < |ids|
    ensures var before := Counted(m, ids[..i]);
            Counted(m, ids[..i + 1]) == before[ids[i] := if ids[i] in before then before[ids[i]] + 1 else 1]
  {
    var before, after, id := Counted(m, ids[..i]), Counted(m, ids[..i + 1]), ids[i];
    forall x: CanId
      ensures x in after <==> x in before || x == id
      ensures x in after ==> after[x] == if x != id then before[x] else if id in before then before[id] + 1 else 1
    {
      OneMoreId(ids, i, x);
    }
  }

  // Deregistering one more identifier of the list.
  lemma UncountOneMore(m: map<CanId, int>, ids: seq<CanId>, i: nat)
    requires i < |ids|
    ensures var before, id := Uncounted(m, ids[..i]), ids[i];
            && (id in before ==> before[id] >= 1)
            && Uncounted(m, ids[..i + 1]) == if id !in before then before
                                             else if before[id] == 1 then before - {id}
                                             else before[id := before[id] - 1]
  {
    var before, after, id := Uncounted(m, ids[..i]), Uncounted(m, ids[..i + 1]), ids[i];
    forall x: CanId
      ensures x in after <==> x in before && (x == id ==> before[x] > 1)
      ensures x in after ==> after[x] == if x == id then before[x] - 1 else before[x]
    {
      OneMoreId(ids, i, x);
    }
  }

  lemma OneMore(t: PortTable, ids: seq<CanId>, i: nat)
    requires Consistent(t) && i < |ids|
    ensures var u, v, id := Deregistered(t, ids[..i]), Deregistered(t, ids[..i + 1]), ids[i];
            && (id in u.counts ==> id in u.filters && u.counts[id] >= 1)
            && v.counts == (if id !in u.counts then u.counts
                            else if u.counts[id] == 1 then u.counts - {id}
                            else u.counts[id := u.counts[id] - 1])
            && v.filters == if id in u.counts && u.counts[id] == 1 then u.filters - {id} else u.filters
  {
    UncountOneMore(t.counts, ids, i);
  }

  class CanIpcReceiver {
    const port5: PortFilter
    const port6: PortFilter
    const port7: PortFilter
    const port8: PortFilter
    const port9: PortFilter
    const queue: WorkQueue<Task>
    var receivePaused: bool
    var workPaused: bool

    ghost predicate Valid()
      reads port5, port6, port7, port8, port9
    {
      && port5.port == 5 && port6.port == 6 && port7.port == 7 && port8.port == 8 && port9.port == 9
      && AllConsistent(State())
    }

    ghost function State(): Tables
      reads port5, port6, port7, port8, port9
    {
      Tables(port5.Table(), port6.Table(), port7.Table(), port8.Table(), port9.Table())
    }

    function Select(p: DevPort): PortFilter {
      if p == 5 then port5 else if p == 6 then port6 else if p == 7 then port7 else if p == 8 then port8 else port9
    }

    constructor (queue: WorkQueue<Task>)
      ensures Valid() && this.queue == queue && State() == NO_FILTERS
      ensures fresh(port5) && fresh(port6) && fresh(port7) && fresh(port8) && fresh(port9)
    {
      this.queue := queue;
      var p5 := new PortFilter(5);
      var p6 := new PortFilter(6);
      var p7 := new PortFilter(7);
      var p8 := new PortFilter(8);
      var p9 := new PortFilter(9);
      port5, port6, port7, port8, port9 := p5, p6, p7, p8, p9;
      receivePaused, workPaused := true, true;
    }

    method ReturnCanIpcReceiverFilter(port: int) returns (r: PortFilter?)
      ensures r == if 5 <= port <= 9 then Select(port) else null
    {
      match port
      case 5 => r := port5;
      case 6 => r := port6;
      case 7 => r := port7;
      case 8 => r := port8;
      case 9 => r := port9;
      case _ => r := null;
    }

    /** ids is None for a null pointer. Only the table pair of the given port changes. */
    method RegisterCanFilter(port: int, ids: Option<seq<CanId>>, callback: Callback) returns (ret: int)
      requires Valid()
      modifies port5, port6, port7, port8, port9
      ensures Valid()
      ensures ret == if ids.Some? && ids.value != [] && 5 <= port <= 9 then 0 else -4
      ensures State() ==
        if ret == SUCCESS
        then old(State()).With(port, Registered(old(State()).At(port), Filter(port, |ids.value|, callback), ids.value))
        else old(State())
    {
      if ids.Some? && |ids.value| == 0 {
        return INVALID_ARG;
      }
      if ids.None? {
        return INVALID_ARG;
      }
      var target := ReturnCanIpcReceiverFilter(port);
      if target == null {
        return INVALID_ARG;
      }
      ghost var f := Filter(port, |ids.value|, callback);
      RegisterKeepsConsistent(target.Table(), f, ids.value);
      target.Register(Filter(port, |ids.value|, callback), ids.value);
      OnlyOneChanged(port);
      return SUCCESS;
    }

    method DeregisterCanFilter(port: int, ids: Option<seq<CanId>>) returns (ret: int)
      requires Valid()
      modifies port5, port6, port7, port8, port9
      ensures Valid()
      ensures ret == if ids.Some? && ids.value != [] && 5 <= port <= 9 then 0 else -4
      ensures State() ==
        if ret == SUCCESS then old(State()).With(port, Deregistered(old(State()).At(port), ids.value)) else old(State())
    {
      if ids.Some? && |ids.value| == 0 {
        return INVALID_ARG;
      }
      if ids.None? {
        return INVALID_ARG;
      }
      var target := ReturnCanIpcReceiverFilter(port);
      if target == null {
        return INVALID_ARG;
      }
      DeregisterKeepsConsistent(target.Table(), ids.value);
      target.Deregister(ids.value);
      OnlyOneChanged(port);
      return SUCCESS;
    }

    twostate lemma OnlyOneChanged(port: DevPort)
      requires old(Valid()) && Consistent(Select(port).Table())
      requires (port != 5 ==> unchanged(port5)) && (port != 6 ==> unchanged(port6)) && (port != 7 ==> unchanged(port7))
      requires (port != 8 ==> unchanged(port8)) && (port != 9 ==> unchanged(port9))
      ensures Valid() && State() == old(State()).With(port, Select(port).Table())
    {
    }

    method MatchCanFilter(port: int, frame: CanFrame) returns (ret: int)
      requires Valid()
      modifies queue
      ensures Valid() && State() == old(State())
      ensures ret == if 5 <= port <= 9 then 0 else -4
      ensures queue.State() ==
        if 5 <= port <= 9 && frame.id in State().At(port).filters
        then Enqueued(old(queue.State()), Task(State().At(port).filters[frame.id], frame))
        else old(queue.State())
    {
      var target := ReturnCanIpcReceiverFilter(port);
      if target == null {
        return INVALID_ARG;
      }
      if frame.id in target.filterMap {
        var accepted := queue.Enqueue(Task(target.filterMap[frame.id], frame));
      }
      return SUCCESS;
    }

    /** The batch loop. Its continue does not advance the frame pointer, so it sticks at the
        first frame of length zero; the frames before it are matched in order. */
    method GetRawCanData(port: DevPort, rxFrame: array<HalFrame>, dataNum: nat)
      requires Valid() && dataNum <= rxFrame.Length
      modifies queue
      ensures Valid() && State() == old(State())
      ensures queue.State() ==
        EnqueuedAll(old(queue.State()), Matching(State().At(port), DecodeBatch(old(rxFrame[..dataNum]))))
    {
      ghost var q, t := queue.State(), State().At(port);
      ghost var batch := rxFrame[..dataNum];
      var single := 0;
      for i := 0 to dataNum
        invariant single <= i && single <= LivePrefix(batch)
        invariant single < i ==> single == LivePrefix(batch)
        invariant Valid() && State() == old(State())
        invariant queue.State() == EnqueuedAll(q, Matching(t, DecodeBatch(batch)[..single]))
      {
        assert batch[single] == rxFrame[single];
        LiveStep(batch, single);
        if rxFrame[single].len == 0 {
          continue;
        }
        var frame := Decode(rxFrame[single]);
        OfferOne(q, t, DecodeBatch(batch)[..single], frame);
        var ret := MatchCanFilter(port, frame);
        single := single + 1;
      }
      assert DecodeBatch(batch)[..single] == DecodeBatch(batch);
    }

    method PauseCanIpcReceiver()
      modifies this`receivePaused, this`workPaused
      ensures receivePaused && workPaused
    {
      receivePaused := true;
      workPaused := true;
    }

    method ResumeCanIpcReceiver()
      modifies this`receivePaused, this`workPaused
      ensures !receivePaused && !workPaused
    {
      workPaused := false;
      receivePaused := false;
    }
  }

  lemma RegisterKeepsConsistent(t: PortTable, f: Filter, ids: seq<CanId>)
    requires Consistent(t)
    ensures Consistent(Registered(t, f, ids))
  {
  }

  lemma DeregisterKeepsConsistent(t: PortTable, ids: seq<CanId>)
    requires Consistent(t)
    ensures Consistent(Deregistered(t, ids))
  {
  }

  lemma OfferOne(q: Queue<Task>, t: PortTable, fs: seq<CanFrame>, f: CanFrame)
    ensures EnqueuedAll(q, Matching(t, fs + [f])) ==
            var before := EnqueuedAll(q, Matching(t, fs));
            if f.id in t.filters then Enqueued(before, Task(t.filters[f.id], f)) else before
  {
    assert (fs + [f])[..|fs|] == fs;
    if f.id in t.filters {
      var x := Task(t.filters[f.id], f);
      assert (Matching(t, fs) + [x])[..|Matching(t, fs)|] == Matching(t, fs);
    } else {
      assert Matching(t, fs) + [] == Matching(t, fs);
    }
  }

  /** The whole batch: the queue gains, in order, the matching frames of the live prefix for as
      long as there is room. */
  lemma BatchAppendsMatchingPrefix(q: Queue<Task>, t: PortTable, batch: seq<HalFrame>)
    ensures var tasks := Matching(t, DecodeBatch(batch));
            EnqueuedAll(q, tasks) == q.(items := q.items + tasks[..RoomFor(q, tasks)])
  {
    EnqueuedAllAppendsPrefix(q, Matching(t, DecodeBatch(batch)));
  }
}
