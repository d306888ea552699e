/** The client manager: which identifiers each client asked for, and the reverse index from an
    identifier to the clients that asked for it. */
module ClientIndex {
  import opened CanFrames

  // A client is named by the descriptor of its socket.
  newtype Client = x: int | -0x8000_0000 <= x < 0x8000_0000

  datatype Index = Index(forward: map<Client, set<CanId>>, reverse: map<CanId, set<Client>>)

  const EMPTY_INDEX := Index(map[], map[])

  predicate Asks(forward: map<Client, set<CanId>>, c: Client, id: CanId) {
    c in forward && id in forward[c]
  }

  predicate Listed(reverse: map<CanId, set<Client>>, id: CanId, c: Client) {
    id in reverse && c in reverse[id]
  }

  // The relational inverse, with no empty bucket.
  ghost predicate IsInverse(reverse: map<CanId, set<Client>>, forward: map<Client, set<CanId>>) {
    && (forall id: CanId, c: Client :: Listed(reverse, id, c) <==> Asks(forward, c, id))
    && (forall id: CanId :: id in reverse ==> reverse[id] != {})
  }

  function AllIds(forward: map<Client, set<CanId>>): set<CanId> {
    set c: Client, id: CanId | c in forward.Keys && id in forward[c] :: id
  }

  function Inverse(forward: map<Client, set<CanId>>): map<CanId, set<Client>> {
    map id: CanId | id in AllIds(forward) :: set c: Client | c in forward.Keys && id in forward[c]
  }

  lemma InverseInverts(forward: map<Client, set<CanId>>)
    ensures IsInverse(Inverse(forward), forward)
  {
    var reverse := Inverse(forward);
    forall id: CanId | id in reverse
      ensures reverse[id] != {}
    {
      var c :| c in forward.Keys && id in forward[c];
      assert c in reverse[id];
    }
    forall id: CanId, c: Client
      ensures Listed(reverse, id, c) <==> Asks(forward, c, id)
    {
    }
  }

  /** Being the inverse without empty buckets leaves no freedom. */
  lemma InverseIsUnique(r0: map<CanId, set<Client>>, r1: map<CanId, set<Client>>, forward: map<Client, set<CanId>>)
    requires IsInverse(r0, forward) && IsInverse(r1, forward)
    ensures r0 == r1
  {
    SameDomain(r0, r1, forward);
    SameDomain(r1, r0, forward);
    forall id: CanId | id in r0
      ensures r0[id] == r1[id]
    {
      forall c: Client
        ensures c in r0[id] <==> c in r1[id]
      {
        assert Listed(r0, id, c) <==> Listed(r1, id, c);
      }
    }
  }

  lemma SameDomain(r0: map<CanId, set<Client>>, r1: map<CanId, set<Client>>, forward: map<Client, set<CanId>>)
    requires IsInverse(r0, forward) && IsInverse(r1, forward)
    ensures r0.Keys <= r1.Keys
  {
    forall id: CanId | id in r0
      ensures id in r1
    {
      var c :| c in r0[id];
      assert Listed(r0, id, c);
    }
  }

  // ---------- the manager's operations ----------

  function IdsOf(forward: map<Client, set<CanId>>, c: Client): set<CanId> {
    if c in forward then forward[c] else {}
  }

  function Rebuilt(forward: map<Client, set<CanId>>): Index { Index(forward, Inverse(forward)) }

  // An empty list still leaves the client with an (empty) entry.
  function AfterRegister(x: Index, c: Client, ids: seq<CanId>): Index {
    Rebuilt(x.forward[c := IdsOf(x.forward, c) + IdSet(ids)])
  }

  // A client without an entry returns early: the reverse index is not rebuilt.
  function AfterDeregister(x: Index, c: Client, ids: seq<CanId>): Index {
    if c !in x.forward then x
    else
      var left := x.forward[c] - IdSet(ids);
      Rebuilt(if left == {} then x.forward - {c} else x.forward[c := left])
  }

  // Disconnecting drops the entry and leaves the reverse index as it was.
  function AfterClean(x: Index, c: Client): Index {
    x.(forward := x.forward - {c})
  }

  // The clients that a frame with this identifier is written to.
  function Targets(x: Index, id: CanId): set<Client> {
    if id in x.reverse then set c: Client | c in x.reverse[id] && c >= 0 else {}
  }

  /** Adding and then removing the same list leaves the client what it had before minus the
      list, drops an entry that becomes empty, and leaves an exact inverse. */
  lemma DeregisterAfterRegister(x: Index, c: Client, ids: seq<CanId>)
    ensures var y := AfterDeregister(AfterRegister(x, c, ids), c, ids);
            && IsInverse(y.reverse, y.forward)
            && IdsOf(y.forward, c) == IdsOf(x.forward, c) - IdSet(ids)
            && (c in y.forward <==> IdsOf(x.forward, c) - IdSet(ids) != {})
            && y.forward - {c} == x.forward - {c}
  {
    var had := IdsOf(x.forward, c);
    var y := AfterDeregister(AfterRegister(x, c, ids), c, ids);
    assert had + IdSet(ids) - IdSet(ids) == had - IdSet(ids);
    InverseInverts(y.forward);
  }

  /** After removing an identifier a client is off its recipient list if and only if it had an
      entry (so that the index was rebuilt) or was not on the list to begin with. */
  lemma RemovedFromTargets(x: Index, c: Client, ids: seq<CanId>, id: CanId)
    requires id in ids
    ensures !Listed(AfterDeregister(x, c, ids).reverse, id, c) <==> c in x.forward || !Listed(x.reverse, id, c)
  {
  }

  /** Disconnecting does not stop deliveries: a client that added an identifier and went away
      is still written to, although no client asks for anything. */
  lemma DisconnectedClientIsStillWrittenTo()
    ensures var x := AfterClean(AfterRegister(EMPTY_INDEX, 7, [0x100]), 7);
            x.forward == map[] && Targets(x, 0x100) == {7}
  {
    var y := AfterRegister(EMPTY_INDEX, 7, [0x100]);
    InverseInverts(y.forward);
    assert 0x100 in IdSet([0x100]);
    assert Asks(y.forward, 7, 0x100) && Listed(y.reverse, 0x100, 7);
    forall c: Client | c in y.reverse[0x100]
      ensures c == 7
    {
      assert Listed(y.reverse, 0x100, c);
    }
  }

  // ---------- the object ----------

  class ClientManager {
    var socketClientIndex: map<Client, set<CanId>>
    var socketClientReverseIndex: map<CanId, set<Client>>

    ghost function State(): Index
      reads this
    {
      Index(socketClientIndex, socketClientReverseIndex)
    }

    constructor ()
      ensures State() == EMPTY_INDEX
    {
      socketClientIndex, socketClientReverseIndex := map[], map[];
    }

    method ClientManagerRegister(ids: seq<CanId>, c: Client)
      modifies this
      ensures State() == AfterRegister(old(State()), c, ids)
    {
      if c !in socketClientIndex {
        socketClientIndex := socketClientIndex[c := {}];
      }
      ghost var had := IdsOf(old(socketClientIndex), c);
      for i := 0 to |ids|
        invariant c in socketClientIndex
        invariant socketClientIndex == old(socketClientIndex)[c := socketClientIndex[c]]
        invariant socketClientIndex[c] == had + IdSet(ids[..i])
      {
        assert IdSet(ids[..i + 1]) == IdSet(ids[..i]) + {ids[i]} by {
          assert ids[..i + 1] == ids[..i] + [ids[i]];
        }
        socketClientIndex := socketClientIndex[c := socketClientIndex[c] + {ids[i]}];
      }
      assert ids[..|ids|] == ids;
      UpdateSocketClientReserveIndex();
    }

    method ClientManagerDeregister(ids: seq<CanId>, c: Client)
      modifies this
      ensures State() == AfterDeregister(old(State()), c, ids)
    {
      if c !in socketClientIndex {
        return;
      }
      ghost var had := socketClientIndex[c];
      for i := 0 to |ids|
        invariant c in socketClientIndex
        invariant socketClientIndex == old(socketClientIndex)[c := socketClientIndex[c]]
        invariant socketClientIndex[c] == had - IdSet(ids[..i])
      {
        assert IdSet(ids[..i + 1]) == IdSet(ids[..i]) + {ids[i]} by {
          assert ids[..i + 1] == ids[..i] + [ids[i]];
        }
        socketClientIndex := socketClientIndex[c := socketClientIndex[c] - {ids[i]}];
      }
      assert ids[..|ids|] == ids;
      assert socketClientIndex == old(socketClientIndex)[c := had - IdSet(ids)];
      if socketClientIndex[c] == {} {
        assert socketClientIndex - {c} == old(socketClientIndex) - {c};
        CleanSocketClientIndex(c);
      }
      UpdateSocketClientReserveIndex();
    }

    /** The nested loops, in whatever order the hash tables are walked. */
    method UpdateSocketClientReserveIndex()
      modifies this`socketClientReverseIndex
      ensures socketClientReverseIndex == Inverse(socketClientIndex)
    {
      socketClientReverseIndex := map[];
      var clients := socketClientIndex.Keys;
      while clients != {}
        invariant clients <= socketClientIndex.Keys
        invariant IsInverse(socketClientReverseIndex, Walked(socketClientIndex, clients))
        decreases |clients|
      {
        var c :| c in clients;
        var ids := socketClientIndex[c];
        ghost var done := Walked(socketClientIndex, clients);
        ghost var walked: set<CanId> := {};
        InverseOfEmptyEntry(socketClientReverseIndex, done, c);
        while ids != {}
          invariant walked + ids == socketClientIndex[c]
          invariant IsInverse(socketClientReverseIndex, done[c := walked])
          decreases |ids|
        {
          var id :| id in ids;
          InsertPair(socketClientReverseIndex, done, walked, c, id);
          var bucket := if id in socketClientReverseIndex then socketClientReverseIndex[id] else {};
          socketClientReverseIndex := socketClientReverseIndex[id := bucket + {c}];
          ids, walked := ids - {id}, walked + {id};
        }
        WalkedOneMore(socketClientIndex, clients, c, walked);
        clients := clients - {c};
      }
      WalkedAll(socketClientReverseIndex, socketClientIndex);
    }

    method CleanSocketClientIndex(c: Client)
      modifies this`socketClientIndex
      ensures State() == AfterClean(old(State()), c)
    {
      socketClientIndex := socketClientIndex - {c};
    }
  }

  lemma InverseOfEmptyEntry(reverse: map<CanId, set<Client>>, forward: map<Client, set<CanId>>, c: Client)
    requires IsInverse(reverse, forward) && c !in forward
    ensures IsInverse(reverse, forward[c := {}])
  {
  }

  // The part of the forward map whose clients are not to be walked any more.
  ghost function Walked(forward: map<Client, set<CanId>>, left: set<Client>): map<Client, set<CanId>> {
    map c: Client | c in forward && c !in left :: forward[c]
  }

  lemma WalkedOneMore(forward: map<Client, set<CanId>>, left: set<Client>, c: Client, walked: set<CanId>)
    requires c in forward && c in left && walked + {} == forward[c]
    ensures Walked(forward, left - {c}) == Walked(forward, left)[c := walked]
  {
    assert walked == forward[c];
  }

  lemma WalkedAll(reverse: map<CanId, set<Client>>, forward: map<Client, set<CanId>>)
    requires IsInverse(reverse, Walked(forward, {}))
    ensures reverse == Inverse(forward)
  {
    assert Walked(forward, {}) == forward;
    InverseInverts(forward);
    InverseIsUnique(reverse, Inverse(forward), forward);
  }

  lemma InsertPair(reverse: map<CanId, set<Client>>, forward: map<Client, set<CanId>>, walked: set<CanId>,
                   c: Client, id: CanId)
    requires IsInverse(reverse, forward[c := walked])
    ensures IsInverse(reverse[id := (if id in reverse then reverse[id] else {}) + {c}],
                      forward[c := walked + {id}])
  {
    var r := reverse[id := (if id in reverse then reverse[id] else {}) + {c}];
    var f := forward[c := walked + {id}];
    forall i: CanId, d: Client
      ensures Listed(r, i, d) <==> Asks(f, d, i)
    {
      assert Listed(reverse, i, d) <==> Asks(forward[c := walked], d, i);
    }
  }
}
