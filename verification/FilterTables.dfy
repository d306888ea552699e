/** The receiver's two tables for one CAN port: how often each identifier is registered, and
    the filter stored for it. */
module FilterTables {
  import opened CanFrames

  datatype Callback = NullCallback | SocketReceive | UserFunction(address: nat)

  type DevPort = p: int | 5 <= p <= 9 witness 5

  datatype Filter = Filter(port: DevPort, idCount: nat, callback: Callback)

  datatype PortTable = PortTable(counts: map<CanId, int>, filters: map<CanId, Filter>)

  const EMPTY_TABLE := PortTable(map[], map[])

  predicate Consistent(t: PortTable) {
    t.counts.Keys == t.filters.Keys && forall id :: id in t.counts ==> t.counts[id] >= 1
  }

  // The count table is the multiset of outstanding registrations.
  ghost predicate Represents(t: PortTable, m: multiset<CanId>) {
    && t.counts.Keys == t.filters.Keys
    && (forall id: CanId :: id in t.counts <==> id in m)
    && (forall id: CanId :: id in t.counts ==> t.counts[id] == m[id])
  }

  function CountOf(t: PortTable, id: CanId): int {
    if id in t.counts then t.counts[id] else 0
  }

  // Every listed identifier gains its multiplicity; a stored filter is never replaced.
  function Registered(t: PortTable, f: Filter, ids: seq<CanId>): PortTable {
    PortTable(Counted(t.counts, ids), Stored(t.filters, f, ids))
  }

  function Counted(counts: map<CanId, int>, ids: seq<CanId>): map<CanId, int> {
    map id | id in counts.Keys + IdSet(ids) :: (if id in counts then counts[id] else 0) + multiset(ids)[id]
  }

  function Stored(filters: map<CanId, Filter>, f: Filter, ids: seq<CanId>): map<CanId, Filter> {
    map id | id in filters.Keys + IdSet(ids) :: if id in filters then filters[id] else f
  }

  // Every listed identifier loses its multiplicity; one that has nothing left is dropped.
  function Deregistered(t: PortTable, ids: seq<CanId>): PortTable {
    PortTable(Uncounted(t.counts, ids), map id | id in t.filters && id in Uncounted(t.counts, ids) :: t.filters[id])
  }

  function Uncounted(counts: map<CanId, int>, ids: seq<CanId>): map<CanId, int> {
    map id | id in counts && counts[id] > multiset(ids)[id] :: counts[id] - multiset(ids)[id]
  }

  lemma MembersOf(ids: seq<CanId>)
    ensures forall id: CanId :: id in IdSet(ids) <==> id in multiset(ids)
    ensures forall id: CanId :: id in IdSet(ids) <==> multiset(ids)[id] > 0
  {
  }

  lemma OneMoreId(ids: seq<CanId>, i: nat, x: CanId)
    requires i < |ids|
    ensures x in IdSet(ids[..i + 1]) <==> x in IdSet(ids[..i]) || x == ids[i]
    ensures multiset(ids[..i + 1])[x] == multiset(ids[..i])[x] + if x == ids[i] then 1 else 0
    ensures x in IdSet(ids[..i]) <==> multiset(ids[..i])[x] > 0
  {
    assert ids[..i + 1] == ids[..i] + [ids[i]];
    assert multiset(ids[..i + 1]) == multiset(ids[..i]) + multiset{ids[i]};
  }

  // ---------- one multiset per port ----------

  lemma RegisterAddsMultiset(t: PortTable, m: multiset<CanId>, f: Filter, ids: seq<CanId>)
    requires Represents(t, m)
    ensures Represents(Registered(t, f, ids), m + multiset(ids))
  {
  }

  /** Deregistering is truncated multiset difference. */
  lemma DeregisterSubtractsMultiset(t: PortTable, m: multiset<CanId>, ids: seq<CanId>)
    requires Represents(t, m)
    ensures Represents(Deregistered(t, ids), m - multiset(ids))
  {
  }

  /** Only the multiset of listed identifiers matters, not the order of the list. */
  lemma OrderIsIrrelevant(t: PortTable, f: Filter, ids: seq<CanId>, ids': seq<CanId>)
    requires multiset(ids) == multiset(ids')
    ensures Registered(t, f, ids) == Registered(t, f, ids')
    ensures Deregistered(t, ids) == Deregistered(t, ids')
  {
    MembersOf(ids);
    MembersOf(ids');
    assert IdSet(ids) == IdSet(ids');
  }

  /** Registering a list and then deregistering it restores both tables. */
  lemma DeregisterUndoesRegister(t: PortTable, f: Filter, ids: seq<CanId>)
    requires Consistent(t)
    ensures Deregistered(Registered(t, f, ids), ids) == t
  {
  }

  // ---------- histories ----------

  datatype Op = Register(f: Filter, ids: seq<CanId>) | Deregister(ids: seq<CanId>)

  function Apply(t: PortTable, op: Op): PortTable {
    match op
    case Register(f, ids) => Registered(t, f, ids)
    case Deregister(ids) => Deregistered(t, ids)
  }

  function Replay(ops: seq<Op>): PortTable {
    if ops == [] then EMPTY_TABLE else Apply(Replay(ops[..|ops| - 1]), ops[|ops| - 1])
  }

  lemma ReplayOneMore(ops: seq<Op>, op: Op)
    ensures Replay(ops + [op]) == Apply(Replay(ops), op)
  {
    assert (ops + [op])[..|ops|] == ops;
  }

  // An empty list, which the receiver rejects, would not have changed anything.
  lemma EmptyListChangesNothing(t: PortTable, f: Filter)
    requires Consistent(t)
    ensures Registered(t, f, []) == t && Deregistered(t, []) == t
  {
    DeregisterUndoesRegister(t, f, []);
    assert Counted(t.counts, []) == t.counts;
    assert Stored(t.filters, f, []) == t.filters;
  }

  // The outstanding count of one identifier, computed from the history alone.
  function Outstanding(ops: seq<Op>, id: CanId): nat {
    if ops == [] then 0
    else
      var before := Outstanding(ops[..|ops| - 1], id);
      match ops[|ops| - 1]
      case Register(_, ids) => before + multiset(ids)[id]
      case Deregister(ids) => if before < multiset(ids)[id] then 0 else before - multiset(ids)[id]
  }

  // Operation j is the registration that took id's count from zero, and it has stayed up since.
  ghost predicate FirstWriter(ops: seq<Op>, id: CanId, j: nat) {
    && j < |ops| && ops[j].Register? && id in ops[j].ids
    && Outstanding(ops[..j], id) == 0
    && forall k :: j < k <= |ops| ==> Outstanding(ops[..k], id) > 0
  }

  lemma {:induction false} ReplayCounts(ops: seq<Op>, id: CanId)
    ensures Consistent(Replay(ops))
    ensures CountOf(Replay(ops), id) == Outstanding(ops, id)
    ensures id in Replay(ops).filters <==> Outstanding(ops, id) > 0
  {
    if ops == [] {
    } else {
      var before, op := ops[..|ops| - 1], ops[|ops| - 1];
      ReplayCounts(before, id);
      MembersOf(op.ids);
    }
  }

  lemma {:induction false} FirstWriterExists(ops: seq<Op>, id: CanId) returns (j: nat)
    requires Outstanding(ops, id) > 0
    ensures FirstWriter(ops, id, j)
  {
    var n := |ops| - 1;
    var before := ops[..n];
    MembersOf(ops[n].ids);
    assert ops[..|ops|] == ops;
    if Outstanding(before, id) == 0 {
      j := n;
    } else {
      j := FirstWriterExists(before, id);
      assert forall k :: 0 <= k <= n ==> before[..k] == ops[..k];
    }
  }

  lemma ApplyKeepsFirst(t: PortTable, op: Op, id: CanId)
    requires Consistent(t) && CountOf(Apply(t, op), id) > 0
    ensures id in Apply(t, op).filters
    ensures CountOf(t, id) > 0 ==> id in t.filters && Apply(t, op).filters[id] == t.filters[id]
    ensures CountOf(t, id) == 0 ==> op.Register? && Apply(t, op).filters[id] == op.f
  {
  }

  lemma {:induction false} FirstWriterStored(ops: seq<Op>, id: CanId, j: nat)
    requires FirstWriter(ops, id, j)
    ensures id in Replay(ops).filters && Replay(ops).filters[id] == ops[j].f
  {
    assert ops[..|ops|] == ops;
    LastStep(ops, id);
    if j < |ops| - 1 {
      FirstWriterOfPrefix(ops, id, j);
      FirstWriterStored(ops[..|ops| - 1], id, j);
    }
  }

  lemma LastStep(ops: seq<Op>, id: CanId)
    requires ops != [] && Outstanding(ops, id) > 0
    ensures id in Replay(ops).filters
    ensures var before, op := ops[..|ops| - 1], ops[|ops| - 1];
            if Outstanding(before, id) > 0
            then id in Replay(before).filters && Replay(ops).filters[id] == Replay(before).filters[id]
            else op.Register? && Replay(ops).filters[id] == op.f
  {
    ReplayCounts(ops, id);
    ReplayCounts(ops[..|ops| - 1], id);
    ApplyKeepsFirst(Replay(ops[..|ops| - 1]), ops[|ops| - 1], id);
  }

  lemma FirstWriterOfPrefix(ops: seq<Op>, id: CanId, j: nat)
    requires FirstWriter(ops, id, j) && j < |ops| - 1
    ensures FirstWriter(ops[..|ops| - 1], id, j)
    ensures Outstanding(ops[..|ops| - 1], id) > 0
  {
    var n := |ops| - 1;
    assert forall k :: 0 <= k <= n ==> ops[..n][..k] == ops[..k];
  }

  /** After any history the filter stored for an identifier, if there is one, is the one given
      by the earliest registration since the identifier's count was last zero. */
  lemma FirstWriterWins(ops: seq<Op>, id: CanId)
    ensures id in Replay(ops).filters <==> exists j: nat :: FirstWriter(ops, id, j)
    ensures forall j: nat ::
      FirstWriter(ops, id, j) ==> id in Replay(ops).filters && Replay(ops).filters[id] == ops[j].f
  {
    ReplayCounts(ops, id);
    if Outstanding(ops, id) > 0 {
      var j := FirstWriterExists(ops, id);
    }
    forall j: nat | FirstWriter(ops, id, j)
      ensures id in Replay(ops).filters && Replay(ops).filters[id] == ops[j].f
    {
      FirstWriterStored(ops, id, j);
    }
  }

  // ---------- several clients share a table ----------

  /** A client that deregisters a list takes exactly its own share out of the table if and only
      if, for each listed identifier, it holds enough of it or nobody else holds any. */
  lemma RemovalTakesOwnShare(t: PortTable, held: multiset<CanId>, others: multiset<CanId>, ids: seq<CanId>)
    requires Represents(t, held + others)
    ensures Represents(Deregistered(t, ids), (held - multiset(ids)) + others)
       <==> forall id :: id in ids ==> multiset(ids)[id] <= held[id] || others[id] == 0
  {
    DeregisterSubtractsMultiset(t, held + others, ids);
    MembersOf(ids);
    var t', gone := Deregistered(t, ids), multiset(ids);
    forall id: CanId
      ensures (held + others - gone)[id] == (held - gone + others)[id]
         <==> id !in ids || gone[id] <= held[id] || others[id] == 0
    {
    }
    if forall id :: id in ids ==> gone[id] <= held[id] || others[id] == 0 {
      assert held + others - gone == held - gone + others;
    } else {
      var id :| id in ids && gone[id] > held[id] && others[id] > 0;
      assert (held + others - gone)[id] != (held - gone + others)[id];
    }
  }
}
