/** The connections a node keeps, at most one to each peer. */
module LinkRegistry {
  import opened Common

  /** A connection as the table holds it. Its identity is this node's own counter. */
  datatype Registered = Registered(id: nat, generation: nat, dialer: NodeName)

  datatype PeerEvent = Disconnected(node: NodeName, generation: nat)

  /** What became of every connection that was ever kept, for stating properties; no step
      looks at it. `missed` were replaced without the event that reports a loss. */
  datatype Ledger = Ledger(kept: map<nat, NodeName>, reported: seq<nat>, forgotten: set<nat>, missed: set<nat>)

  /** `closed` are the connections that look closed from this end. */
  datatype Registry = Registry(
    local: NodeName, conns: map<NodeName, Registered>, closed: set<nat>, events: seq<PeerEvent>, ledger: Ledger)

  datatype Action =
    | Register(peer: NodeName, conn: Registered)
    | ReceiveEnds(peer: NodeName, id: nat)
    | Forget(peer: NodeName, generation: nat)
    | Close(id: nat)

  function NewRegistry(local: NodeName): Registry {
    Registry(local, map[], {}, [], Ledger(map[], [], {}, {}))
  }

  /** Whether the new connection to `peer` is preferred to the one that is open. */
  predicate Prefers(local: NodeName, peer: NodeName, new_: Registered, old_: Registered) {
    if new_.generation > old_.generation then true
    else if new_.generation < old_.generation then false
    else if new_.dialer == old_.dialer then true
    else new_.dialer == if local <= peer then local else peer
  }

  function Report(r: Registry, peer: NodeName, lost: Registered): Registry {
    r.(events := r.events + [Disconnected(peer, lost.generation)],
       ledger := r.ledger.(reported := r.ledger.reported + [lost.id]))
  }

  function Insert(r: Registry, peer: NodeName, conn: Registered): Registry {
    r.(conns := r.conns[peer := conn], ledger := r.ledger.(kept := r.ledger.kept[conn.id := peer]))
  }

  /** Makes `conn` the connection to `peer`, unless the one there is preferred; tells whether it did. */
  function RegisterConn(r: Registry, peer: NodeName, conn: Registered): (Registry, bool) {
    if peer !in r.conns then (Insert(r, peer, conn), true)
    else
      var existing := r.conns[peer];
      if existing.id in r.closed then
        (Insert(r.(ledger := r.ledger.(missed := r.ledger.missed + {existing.id})), peer, conn), true)
      else if !Prefers(r.local, peer, conn, existing) then (r, false)
      else (Insert(Report(r.(closed := r.closed + {existing.id}), peer, existing), peer, conn), true)
  }

  /** Forgets the connection `id` if it is still the one to `peer`, and reports it lost. */
  function Unregister(r: Registry, peer: NodeName, id: nat): Registry {
    if peer in r.conns && r.conns[peer].id == id then
      Report(r.(conns := r.conns - {peer}), peer, r.conns[peer])
    else r
  }

  /** Closes the connection to `peer` if it belongs to that generation or an older one. */
  function ForgetPeer(r: Registry, peer: NodeName, generation: nat): Registry {
    if peer in r.conns && r.conns[peer].generation <= generation then
      var id := r.conns[peer].id;
      r.(conns := r.conns - {peer}, closed := r.closed + {id},
         ledger := r.ledger.(forgotten := r.ledger.forgotten + {id}))
    else r
  }

  function Do(r: Registry, a: Action): Registry {
    match a
    case Register(peer, conn) => RegisterConn(r, peer, conn).0
    case ReceiveEnds(peer, id) => Unregister(r, peer, id)
    case Forget(peer, generation) => ForgetPeer(r, peer, generation)
    case Close(id) => r.(closed := r.closed + {id})
  }

  /** Ids are fresh, and a connection's receive loop ends only once it is closed. */
  predicate Possible(r: Registry, a: Action) {
    match a
    case Register(_, conn) => conn.id !in r.ledger.kept
    case ReceiveEnds(peer, id) => id in r.closed
    case _ => true
  }

  ghost predicate PossibleRun(r: Registry, actions: seq<Action>)
    decreases |actions|
  {
    actions != [] ==> Possible(r, actions[0]) && PossibleRun(Do(r, actions[0]), actions[1..])
  }

  ghost function DoAll(r: Registry, actions: seq<Action>): Registry
    decreases |actions|
  {
    if actions == [] then r else DoAll(Do(r, actions[0]), actions[1..])
  }

  // ----- Conservation of connections -----

  ghost predicate IsCurrent(r: Registry, id: nat) {
    id in r.ledger.kept && r.ledger.kept[id] in r.conns && r.conns[r.ledger.kept[id]].id == id
  }

  /** How often `id` left the table, in one way or another. */
  ghost function Losses(r: Registry, id: nat): nat {
    multiset(r.ledger.reported)[id] + (if id in r.ledger.forgotten then 1 else 0) + (if id in r.ledger.missed then 1 else 0)
  }

  /** Each report names the peer of the connection it stands for. */
  ghost predicate Matched(r: Registry) {
    && |r.events| == |r.ledger.reported|
    && forall k :: 0 <= k < |r.events| ==>
         r.ledger.reported[k] in r.ledger.kept && r.events[k].node == r.ledger.kept[r.ledger.reported[k]]
  }

  /** Every connection that was kept is still the one to its peer, or left the table just once;
      one that is open is still there; and each report stands for one that left. */
  ghost predicate Accounted(r: Registry) {
    && (forall peer :: peer in r.conns ==> r.conns[peer].id in r.ledger.kept && r.ledger.kept[r.conns[peer].id] == peer)
    && (forall id :: Losses(r, id) == if id in r.ledger.kept && !IsCurrent(r, id) then 1 else 0)
    && (forall id :: id in r.ledger.kept && id !in r.closed ==> IsCurrent(r, id))
    && Matched(r)
  }

  lemma ReportCounts(reported: seq<nat>, lost: nat, id: nat)
    ensures multiset(reported + [lost])[id] == multiset(reported)[id] + if id == lost then 1 else 0
  {
  }

  /** The connection to `peer` leaves the table, closed, and that is put down somewhere once. */
  lemma LeavingAccounts(r: Registry, r': Registry, peer: NodeName)
    requires Accounted(r) && peer in r.conns
    requires r'.conns == r.conns - {peer} && r'.closed == r.closed + {r.conns[peer].id}
    requires r'.ledger.kept == r.ledger.kept && Matched(r')
    requires forall j :: Losses(r', j) == Losses(r, j) + if j == r.conns[peer].id then 1 else 0
    ensures Accounted(r')
  {
    hide Losses, Matched;
    var id := r.conns[peer].id;
    forall j ensures Losses(r', j) == if j in r'.ledger.kept && !IsCurrent(r', j) then 1 else 0 {
      assert IsCurrent(r', j) <==> IsCurrent(r, j) && j != id;
    }
  }

  lemma EnteringMatched(r: Registry, peer: NodeName, conn: Registered)
    requires Matched(r) && conn.id !in r.ledger.kept
    ensures Matched(Insert(r, peer, conn))
  {
  }

  /** A connection never seen before enters the table, where there was none. */
  lemma EnteringAccounts(r: Registry, peer: NodeName, conn: Registered)
    requires Accounted(r) && peer !in r.conns && conn.id !in r.ledger.kept
    ensures Accounted(Insert(r, peer, conn))
  {
    EnteringMatched(r, peer, conn);
    hide Matched;
    var r' := Insert(r, peer, conn);
    forall j ensures Losses(r', j) == Losses(r, j) {}
    hide Losses;
    forall j ensures IsCurrent(r', j) <==> IsCurrent(r, j) || j == conn.id {}
  }

  function Missing(r: Registry, peer: NodeName): Registry
    requires peer in r.conns
  {
    r.(conns := r.conns - {peer}, ledger := r.ledger.(missed := r.ledger.missed + {r.conns[peer].id}))
  }

  function Reporting(r: Registry, peer: NodeName): Registry
    requires peer in r.conns
  {
    Report(r.(conns := r.conns - {peer}, closed := r.closed + {r.conns[peer].id}), peer, r.conns[peer])
  }

  lemma MissingAccounts(r: Registry, peer: NodeName)
    requires Accounted(r) && peer in r.conns && r.conns[peer].id in r.closed
    ensures Accounted(Missing(r, peer))
  {
    var id, r' := r.conns[peer].id, Missing(r, peer);
    assert r.closed + {id} == r.closed;
    assert Losses(r, id) == 0;
    forall j ensures Losses(r', j) == Losses(r, j) + if j == id then 1 else 0 {}
    LeavingAccounts(r, r', peer);
  }

  lemma ReportingAccounts(r: Registry, peer: NodeName)
    requires Accounted(r) && peer in r.conns
    ensures Accounted(Reporting(r, peer))
  {
    var id, r' := r.conns[peer].id, Reporting(r, peer);
    forall j ensures Losses(r', j) == Losses(r, j) + if j == id then 1 else 0 {
      ReportCounts(r.ledger.reported, id, j);
    }
    LeavingAccounts(r, r', peer);
  }

  /** Replacing a connection is losing it and then inserting the other. */
  lemma ReplacingIs(r: Registry, peer: NodeName, conn: Registered)
    requires peer in r.conns && RegisterConn(r, peer, conn).1
    ensures RegisterConn(r, peer, conn).0
            == Insert(if r.conns[peer].id in r.closed then Missing(r, peer) else Reporting(r, peer), peer, conn)
  {
    assert (r.conns - {peer})[peer := conn] == r.conns[peer := conn];
  }

  lemma RegisterAccounts(r: Registry, peer: NodeName, conn: Registered)
    requires Accounted(r) && conn.id !in r.ledger.kept
    ensures Accounted(RegisterConn(r, peer, conn).0)
  {
    hide Accounted, Insert, Prefers;
    if peer !in r.conns {
      EnteringAccounts(r, peer, conn);
    } else if RegisterConn(r, peer, conn).1 {
      ReplacingIs(r, peer, conn);
      if r.conns[peer].id in r.closed {
        MissingAccounts(r, peer);
        EnteringAccounts(Missing(r, peer), peer, conn);
      } else {
        ReportingAccounts(r, peer);
        EnteringAccounts(Reporting(r, peer), peer, conn);
      }
    }
  }

  lemma UnregisterAccounts(r: Registry, peer: NodeName, id: nat)
    requires Accounted(r) && id in r.closed
    ensures Accounted(Unregister(r, peer, id))
  {
    hide Accounted;
    if peer in r.conns && r.conns[peer].id == id {
      assert r.closed + {id} == r.closed;
      ReportingAccounts(r, peer);
    }
  }

  lemma ForgetAccounts(r: Registry, peer: NodeName, generation: nat)
    requires Accounted(r)
    ensures Accounted(ForgetPeer(r, peer, generation))
  {
    if peer in r.conns && r.conns[peer].generation <= generation {
      var r' := ForgetPeer(r, peer, generation);
      forall j ensures Losses(r', j) == Losses(r, j) + if j == r.conns[peer].id then 1 else 0 {
        assert Losses(r, r.conns[peer].id) == 0;
      }
      LeavingAccounts(r, r', peer);
    }
  }

  /** Main result: over any run nothing is leaked. There is at most one open connection among
      those kept for a peer, it is the one in the table, and every other was reported,
      forgotten or missed, just once and in one way. */
  lemma {:induction false} NothingLeaks(r: Registry, actions: seq<Action>)
    requires Accounted(r) && PossibleRun(r, actions)
    ensures Accounted(DoAll(r, actions))
    decreases |actions|
  {
    hide Accounted, RegisterConn, Unregister, ForgetPeer;
    if actions != [] {
      match actions[0] {
        case Register(peer, conn) => RegisterAccounts(r, peer, conn);
        case ReceiveEnds(peer, id) => UnregisterAccounts(r, peer, id);
        case Forget(peer, generation) => ForgetAccounts(r, peer, generation);
        case Close(id) => CloseAccounts(r, id);
      }
      NothingLeaks(Do(r, actions[0]), actions[1..]);
    }
  }

  lemma CloseAccounts(r: Registry, id: nat)
    requires Accounted(r)
    ensures Accounted(r.(closed := r.closed + {id}))
  {
    var r' := r.(closed := r.closed + {id});
    forall j ensures Losses(r', j) == Losses(r, j) && (IsCurrent(r', j) <==> IsCurrent(r, j)) {}
  }

  /** After forgetting a peer up to a generation no connection to it of that generation or an
      older one is in the table, and none but the one in the table is open; a newer one stays as
      it was, and so do those to all other peers. Nothing is reported. */
  lemma ForgetMeans(r: Registry, peer: NodeName, generation: nat)
    requires Accounted(r)
    ensures var r' := ForgetPeer(r, peer, generation);
            && (peer in r'.conns ==> r'.conns[peer].generation > generation)
            && (forall id :: id in r'.ledger.kept && r'.ledger.kept[id] == peer && id !in r'.closed ==>
                  peer in r'.conns && r'.conns[peer].id == id)
            && (peer in r.conns && r.conns[peer].generation > generation ==> r' == r)
            && (forall p :: p != peer ==> (p in r'.conns <==> p in r.conns) && (p in r.conns ==> r'.conns[p] == r.conns[p]))
            && r.closed <= r'.closed
            && (forall id :: id in r'.closed && id !in r.closed ==> id in r.ledger.kept && r.ledger.kept[id] == peer)
            && r'.events == r.events
  {
    ForgetAccounts(r, peer, generation);
    hide Losses, Matched;
  }

  /** When a connection's receive loop ends the connection leaves the table, if it is still there,
      and its loss is reported once; if another took its place nothing changes. */
  lemma EndMeans(r: Registry, peer: NodeName, id: nat)
    ensures var r' := Unregister(r, peer, id);
            && (peer in r'.conns ==> r'.conns[peer].id != id)
            && (forall p :: p in r.conns && (p != peer || r.conns[p].id != id) ==> p in r'.conns && r'.conns[p] == r.conns[p])
            && r'.conns.Keys <= r.conns.Keys && r'.closed == r.closed
            && r'.events == r.events + if peer in r.conns && r.conns[peer].id == id
                                       then [Disconnected(peer, r.conns[peer].generation)] else []
  {
  }

  // ----- Which connection is kept -----

  /** `d` dialed in vain when `c` is there: `c` is of a later incarnation or, within one, was
      dialed by the smaller name while `d` was not. */
  ghost predicate Outranks(local: NodeName, peer: NodeName, c: Registered, d: Registered) {
    var smaller := if local <= peer then local else peer;
    c.generation > d.generation || (c.generation == d.generation && c.dialer == smaller && d.dialer != smaller)
  }

  /** Connections to `peer`, dialed by either end, with numbers never used before. */
  ghost predicate AllNew(r: Registry, peer: NodeName, conns: seq<Registered>) {
    && (forall k :: 0 <= k < |conns| ==> conns[k].dialer in {r.local, peer} && conns[k].id !in r.closed)
    && (forall j, k :: 0 <= j < k < |conns| ==> conns[j].id != conns[k].id)
  }

  ghost function RegisterAll(r: Registry, peer: NodeName, conns: seq<Registered>): Registry {
    if conns == [] then r
    else RegisterConn(RegisterAll(r, peer, conns[..|conns| - 1]), peer, conns[|conns| - 1]).0
  }

  /** Main result: of any connections to one peer, registered in any order and with none closed
      from outside, the table ends up with one that no other outranks, and it is open. */
  lemma {:induction false} TableHoldsBest(r: Registry, peer: NodeName, conns: seq<Registered>)
    requires peer !in r.conns && AllNew(r, peer, conns) && conns != []
    ensures var r' := RegisterAll(r, peer, conns);
            && r'.local == r.local && peer in r'.conns && r'.conns[peer] in conns
            && r'.conns[peer].id !in r'.closed
            && (forall id :: id in r'.closed ==> id in r.closed || exists k :: 0 <= k < |conns| && conns[k].id == id)
            && (forall c :: c in conns ==> !Outranks(r.local, peer, c, r'.conns[peer]))
  {
    hide RegisterConn, Outranks;
    var init, last := conns[..|conns| - 1], conns[|conns| - 1];
    assert conns == init + [last];
    assert forall k :: 0 <= k < |init| ==> conns[k] == init[k];
    if init == [] {
      assert RegisterAll(r, peer, init) == r;
      FirstIsKept(r, peer, last);
    } else {
      TableHoldsBest(r, peer, init);
      var r1 := RegisterAll(r, peer, init);
      forall k | 0 <= k < |init| ensures init[k].id != last.id {}
      KeepsBetter(r1, peer, last);
      RegisterCloses(r1, peer, last);
      forall c | c in init && RegisterConn(r1, peer, last).1 ensures !Outranks(r.local, peer, c, last) {
        OutranksTransitive(r.local, peer, c, r1.conns[peer], last);
      }
      NeverBothOutrank(r.local, peer, last, last);
      NeverBothOutrank(r.local, peer, last, r1.conns[peer]);
    }
  }

  lemma FirstIsKept(r: Registry, peer: NodeName, conn: Registered)
    requires peer !in r.conns
    ensures var r' := RegisterConn(r, peer, conn).0;
            r'.local == r.local && peer in r'.conns && r'.conns[peer] == conn && r'.closed == r.closed
    ensures !Outranks(r.local, peer, conn, conn)
  {
  }

  lemma NeverBothOutrank(local: NodeName, peer: NodeName, c: Registered, d: Registered)
    ensures !Outranks(local, peer, c, d) || !Outranks(local, peer, d, c)
  {
  }

  /** Registering closes at most the connection that was there, and then the new one is kept. */
  lemma RegisterCloses(r: Registry, peer: NodeName, conn: Registered)
    requires peer in r.conns && r.conns[peer].id !in r.closed && conn.id != r.conns[peer].id && conn.id !in r.closed
    ensures var (r', kept) := RegisterConn(r, peer, conn);
            && r'.local == r.local && peer in r'.conns && conn.id !in r'.closed
            && r'.closed == if kept then r.closed + {r.conns[peer].id} else r.closed
  {
  }

  /** A connection is refused just if the one there outranks it. */
  lemma KeepsBetter(r: Registry, peer: NodeName, conn: Registered)
    requires peer in r.conns && r.conns[peer].id !in r.closed && conn.id != r.conns[peer].id
    requires conn.dialer in {r.local, peer} && r.conns[peer].dialer in {r.local, peer}
    ensures RegisterConn(r, peer, conn).1 <==> !Outranks(r.local, peer, r.conns[peer], conn)
    ensures RegisterConn(r, peer, conn).0.conns[peer] == if RegisterConn(r, peer, conn).1 then conn else r.conns[peer]
  {
  }

  lemma OutranksTransitive(local: NodeName, peer: NodeName, c: Registered, d: Registered, e: Registered)
    requires c.dialer in {local, peer} && d.dialer in {local, peer} && e.dialer in {local, peer}
    requires !Outranks(local, peer, c, d) && !Outranks(local, peer, d, e)
    ensures !Outranks(local, peer, c, e)
  {
  }

  /** A connection that replaces another reports the loss, except of one that was closed already
      and whose receive loop had yet to notice. */
  lemma ReplacementMissedIff(r: Registry, peer: NodeName, conn: Registered)
    requires peer in r.conns && RegisterConn(r, peer, conn).1
    ensures var r' := RegisterConn(r, peer, conn).0;
            && r'.conns[peer] == conn
            && (r'.events == r.events <==> r.conns[peer].id in r.closed)
            && (r.conns[peer].id !in r.closed ==>
                  r'.events == r.events + [Disconnected(peer, r.conns[peer].generation)])
  {
  }

  /** A loss that is never reported: the connection is closed from the other end, is replaced
      before its receive loop notices, and the loop then finds another in its place. */
  lemma LossNeverReported(local: NodeName, peer: NodeName, old_: Registered, new_: Registered)
    requires old_.id != new_.id
    ensures var r := DoAll(NewRegistry(local), [Register(peer, old_), Close(old_.id), Register(peer, new_),
                                                ReceiveEnds(peer, old_.id)]);
            r.events == [] && r.conns == map[peer := new_] && r.ledger.missed == {old_.id}
  {
    var r0 := NewRegistry(local);
    var r1, r2 := Do(r0, Register(peer, old_)), Do(Do(r0, Register(peer, old_)), Close(old_.id));
    var r3 := Do(r2, Register(peer, new_));
    var a := [Register(peer, old_), Close(old_.id), Register(peer, new_), ReceiveEnds(peer, old_.id)];
    assert a[1..][1..][1..][1..] == [];
    assert a[1..][0] == a[1] && a[1..][1..][0] == a[2] && a[1..][1..][1..][0] == a[3];
    assert r1.conns == map[peer := old_] && r2.closed == {old_.id} && r3.conns == map[peer := new_];
    assert r3.ledger.missed == {old_.id} && Do(r3, a[3]) == r3;
    hide Do;
    assert DoAll(r0, a) == DoAll(r1, a[1..]) == DoAll(r2, a[1..][1..]) == DoAll(r3, a[1..][1..][1..]);
  }

  // ----- The table itself -----

  class Links {
    const local: NodeName
    var conns: map<NodeName, Registered>
    var closed: set<nat>
    var events: seq<PeerEvent>
    ghost var ledger: Ledger

    ghost function View(): Registry
      reads this
    {
      Registry(local, conns, closed, events, ledger)
    }

    constructor (name: NodeName)
      ensures View() == NewRegistry(name) && Accounted(View())
    {
      local := name;
      conns := map[];
      closed := {};
      events := [];
      ledger := Ledger(map[], [], {}, {});
    }

    method Register(peer: NodeName, generation: nat, id: nat, dialer: NodeName) returns (kept: bool)
      modifies this
      ensures (View(), kept) == RegisterConn(old(View()), peer, Registered(id, generation, dialer))
    {
      if peer in conns {
        var existing := conns[peer];
        if existing.id in closed {
          ledger := ledger.(missed := ledger.missed + {existing.id});
        } else {
          var keepNew: bool;
          if generation > existing.generation {
            keepNew := true;
          } else if generation < existing.generation {
            keepNew := false;
          } else if dialer == existing.dialer {
            keepNew := true;
          } else {
            var smaller := if local <= peer then local else peer;
            keepNew := dialer == smaller;
          }
          if !keepNew { return false; }
          closed := closed + {existing.id};
          events := events + [Disconnected(peer, existing.generation)];
          ledger := ledger.(reported := ledger.reported + [existing.id]);
        }
      }
      conns := conns[peer := Registered(id, generation, dialer)];
      ledger := ledger.(kept := ledger.kept[id := peer]);
      return true;
    }

    method UnregisterConn(peer: NodeName, id: nat)
      modifies this
      ensures View() == Unregister(old(View()), peer, id)
    {
      if peer in conns && conns[peer].id == id {
        events := events + [Disconnected(peer, conns[peer].generation)];
        conns := conns - {peer};
        ledger := ledger.(reported := ledger.reported + [id]);
      }
    }

    method Forget(peer: NodeName, generation: nat)
      modifies this
      ensures View() == ForgetPeer(old(View()), peer, generation)
    {
      if peer in conns && conns[peer].generation <= generation {
        var id := conns[peer].id;
        conns := conns - {peer};
        closed := closed + {id};
        ledger := ledger.(forgotten := ledger.forgotten + {id});
      }
    }
  }
}
