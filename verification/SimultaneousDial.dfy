/** Two nodes that dial each other at once: one connection from each side, whose registrations
    and closings at the two ends happen in any order. */
module SimultaneousDial {
  import opened Common
  import opened LinkRegistry

  datatype End = Near | Far {
    function Other(): End { if this.Near? then Far else Near }
  }

  datatype Two<T> = Two(near: T, far: T) {
    function Of(e: End): T { if e.Near? then near else far }
    function With(e: End, t: T): Two<T> { if e.Near? then this.(near := t) else this.(far := t) }
  }

  /** What one end has yet to do about one connection. A `Refused` one has still to be closed,
      and a `Kept` one has its receive loop running. */
  datatype Task = Pending | Refused | Kept | Done

  /** One end: its table, and its tasks by who dialed the connection. */
  datatype Side = Side(registry: Registry, tasks: Two<Task>)

  /** The two nodes by name and generation, and the number each end gave each connection. */
  datatype Nodes = Nodes(name: Two<NodeName>, generation: Two<nat>, nearId: Two<nat>, farId: Two<nat>) {
    ghost predicate Ok() { name.near != name.far && nearId.near != nearId.far && farId.near != farId.far }

    function Peer(e: End): NodeName { name.Of(e.Other()) }

    function Id(e: End, dialer: End): nat { if e.Near? then nearId.Of(dialer) else farId.Of(dialer) }

    function Entry(e: End, dialer: End): Registered {
      Registered(Id(e, dialer), generation.Of(e.Other()), name.Of(dialer))
    }

    function Smaller(): End { if name.near < name.far then Near else Far }
  }

  datatype Step =
    | Handshake(end: End, dialer: End)
    | HandshakeFails(end: End, dialer: End)
    | CloseRefused(end: End, dialer: End)
    | HearClose(end: End, dialer: End)
    | LoopEnds(end: End, dialer: End)

  predicate LooksClosed(n: Nodes, s: Two<Side>, e: End, dialer: End) {
    n.Id(e, dialer) in s.Of(e).registry.closed
  }

  predicate Enabled(n: Nodes, s: Two<Side>, a: Step) {
    var task := s.Of(a.end).tasks.Of(a.dialer);
    match a
    case Handshake(_, _) => task.Pending?
    case HandshakeFails(e, d) => task.Pending? && LooksClosed(n, s, e, d)
    case CloseRefused(_, _) => task.Refused?
    case HearClose(e, d) => LooksClosed(n, s, e.Other(), d) && !LooksClosed(n, s, e, d)
    case LoopEnds(e, d) => task.Kept? && LooksClosed(n, s, e, d)
  }

  /** What a step does at the end it happens at. */
  function ApplySide(n: Nodes, side: Side, a: Step): Side {
    var id := n.Id(a.end, a.dialer);
    match a
    case Handshake(e, d) =>
      var (r, kept) := RegisterConn(side.registry, n.Peer(e), n.Entry(e, d));
      Side(r, side.tasks.With(d, if kept then Kept else Refused))
    case HandshakeFails(_, d) => side.(tasks := side.tasks.With(d, Done))
    case CloseRefused(_, d) => Side(Do(side.registry, Close(id)), side.tasks.With(d, Done))
    case HearClose(_, _) => side.(registry := Do(side.registry, Close(id)))
    case LoopEnds(e, d) => Side(Unregister(side.registry, n.Peer(e), id), side.tasks.With(d, Done))
  }

  function Apply(n: Nodes, s: Two<Side>, a: Step): Two<Side> {
    s.With(a.end, ApplySide(n, s.Of(a.end), a))
  }

  function Start(n: Nodes): Two<Side> {
    Two(Side(NewRegistry(n.name.near), Two(Pending, Pending)), Side(NewRegistry(n.name.far), Two(Pending, Pending)))
  }

  ghost predicate EnabledRun(n: Nodes, s: Two<Side>, steps: seq<Step>)
    decreases |steps|
  {
    steps != [] ==> Enabled(n, s, steps[0]) && EnabledRun(n, Apply(n, s, steps[0]), steps[1..])
  }

  ghost function ApplyAll(n: Nodes, s: Two<Side>, steps: seq<Step>): Two<Side>
    decreases |steps|
  {
    if steps == [] then s else ApplyAll(n, Apply(n, s, steps[0]), steps[1..])
  }

  /** At each end the connection dialed by the smaller name is never closed and, once it is
      registered, is the one in the table. Until then the other may be there. */
  ghost predicate SideOk(n: Nodes, side: Side, e: End) {
    var (w, l) := (n.Smaller(), n.Smaller().Other());
    && side.registry.local == n.name.Of(e)
    && side.registry.closed <= {n.Id(e, l)}
    && side.tasks.Of(w) in {Pending, Kept}
    && side.registry.conns == (if side.tasks.Of(w).Kept? then map[n.Peer(e) := n.Entry(e, w)]
                               else if side.tasks.Of(l).Kept? then map[n.Peer(e) := n.Entry(e, l)]
                               else map[])
    && (side.tasks.Of(l).Refused? ==> side.tasks.Of(w).Kept?)
    && (side.tasks.Of(l).Done? || (side.tasks.Of(w).Kept? && side.tasks.Of(l).Kept?) ==>
          n.Id(e, l) in side.registry.closed)
  }

  ghost predicate Inv(n: Nodes, s: Two<Side>) {
    SideOk(n, s.near, Near) && SideOk(n, s.far, Far)
  }

  /** The handshake of the preferred connection: it takes the place of the other. */
  lemma WinnerRegisters(n: Nodes, side: Side, e: End)
    requires n.Ok() && SideOk(n, side, e) && side.tasks.Of(n.Smaller()).Pending?
    ensures SideOk(n, ApplySide(n, side, Handshake(e, n.Smaller())), e)
  {
    var (w, l) := (n.Smaller(), n.Smaller().Other());
    var peer := n.Peer(e);
    assert map[peer := n.Entry(e, l)][peer := n.Entry(e, w)] == map[peer := n.Entry(e, w)];
    assert map[][peer := n.Entry(e, w)] == map[peer := n.Entry(e, w)];
    assert n.Id(e, w) != n.Id(e, l);
  }

  /** The handshake of the other: it is kept only where the preferred one has yet to come. */
  lemma LoserRegisters(n: Nodes, side: Side, e: End)
    requires n.Ok() && SideOk(n, side, e) && side.tasks.Of(n.Smaller().Other()).Pending?
    ensures SideOk(n, ApplySide(n, side, Handshake(e, n.Smaller().Other())), e)
  {
    var (w, l) := (n.Smaller(), n.Smaller().Other());
    var peer := n.Peer(e);
    assert map[][peer := n.Entry(e, l)] == map[peer := n.Entry(e, l)];
    assert n.Id(e, w) != n.Id(e, l);
  }

  /** The receive loop of the other ends: the preferred one, if it is there, stays. */
  lemma LoserUnregisters(n: Nodes, side: Side, e: End)
    requires n.Ok() && SideOk(n, side, e) && side.tasks.Of(n.Smaller().Other()).Kept?
    requires n.Id(e, n.Smaller().Other()) in side.registry.closed
    ensures SideOk(n, ApplySide(n, side, LoopEnds(e, n.Smaller().Other())), e)
    ensures side.tasks.Of(n.Smaller()).Kept? ==>
              ApplySide(n, side, LoopEnds(e, n.Smaller().Other())).registry == side.registry
  {
    var (w, l) := (n.Smaller(), n.Smaller().Other());
    assert n.Id(e, w) != n.Id(e, l);
    assert map[n.Peer(e) := n.Entry(e, l)] - {n.Peer(e)} == map[];
  }

  /** The preferred connection never looks closed. */
  lemma WinnerStaysOpen(n: Nodes, s: Two<Side>, e: End)
    requires n.Ok() && Inv(n, s)
    ensures !LooksClosed(n, s, e, n.Smaller())
  {
    assert SideOk(n, s.Of(e), e);
  }

  lemma SideKeeps(n: Nodes, s: Two<Side>, a: Step)
    requires n.Ok() && Inv(n, s) && Enabled(n, s, a)
    ensures SideOk(n, ApplySide(n, s.Of(a.end), a), a.end)
  {
    hide RegisterConn, Unregister;
    WinnerStaysOpen(n, s, Near);
    WinnerStaysOpen(n, s, Far);
    var side := s.Of(a.end);
    assert SideOk(n, side, a.end);
    match a {
      case Handshake(e, d) =>
        if d == n.Smaller() { WinnerRegisters(n, side, e); } else { LoserRegisters(n, side, e); }
      case LoopEnds(e, d) => LoserUnregisters(n, side, e);
      case _ =>
    }
  }

  /** Main result, one step: the invariant holds, and there is less left to do. */
  lemma StepKeeps(n: Nodes, s: Two<Side>, a: Step)
    requires n.Ok() && Inv(n, s) && Enabled(n, s, a)
    ensures Inv(n, Apply(n, s, a))
    ensures Rank(n, Apply(n, s, a)) < Rank(n, s)
  {
    SideKeeps(n, s, a);
    StepDescends(n, s, a);
    hide SideOk, ApplySide, Rank;
  }

  lemma ClosedGrows(n: Nodes, side: Side, a: Step)
    ensures side.registry.closed <= ApplySide(n, side, a).registry.closed
    ensures a.CloseRefused? || a.HearClose? ==> n.Id(a.end, a.dialer) in ApplySide(n, side, a).registry.closed
    ensures ApplySide(n, side, a).tasks
            == if a.HearClose? then side.tasks
               else side.tasks.With(a.dialer, ApplySide(n, side, a).tasks.Of(a.dialer))
    ensures match ApplySide(n, side, a).tasks.Of(a.dialer)
            case Pending => a.HearClose? && side.tasks.Of(a.dialer).Pending?
            case Done => a.HandshakeFails? || a.CloseRefused? || a.LoopEnds? || (a.HearClose? && side.tasks.Of(a.dialer).Done?)
            case _ => a.Handshake? || (a.HearClose? && side.tasks.Of(a.dialer) !in {Pending, Done})
  {
    hide Prefers;
  }

  lemma StepDescends(n: Nodes, s: Two<Side>, a: Step)
    requires Enabled(n, s, a)
    ensures Rank(n, Apply(n, s, a)) < Rank(n, s)
  {
    ClosedGrows(n, s.Of(a.end), a);
    hide ApplySide;
  }

  function TaskRank(t: Task): nat {
    match t
    case Pending => 2
    case Done => 0
    case _ => 1
  }

  function SideRank(n: Nodes, s: Two<Side>, e: End, d: End): nat {
    TaskRank(s.Of(e).tasks.Of(d)) + if LooksClosed(n, s, e, d) then 0 else 1
  }

  /** How much there is left to do. */
  function Rank(n: Nodes, s: Two<Side>): nat {
    SideRank(n, s, Near, Near) + SideRank(n, s, Near, Far) + SideRank(n, s, Far, Near) + SideRank(n, s, Far, Far)
  }

  lemma {:induction false} RunKeeps(n: Nodes, s: Two<Side>, steps: seq<Step>)
    requires n.Ok() && Inv(n, s) && EnabledRun(n, s, steps)
    ensures Inv(n, ApplyAll(n, s, steps)) && Rank(n, ApplyAll(n, s, steps)) + |steps| <= Rank(n, s)
    decreases |steps|
  {
    if steps != [] {
      StepKeeps(n, s, steps[0]);
      hide Apply, Inv, Rank, Enabled;
      RunKeeps(n, Apply(n, s, steps[0]), steps[1..]);
    }
  }

  ghost predicate Agreed(n: Nodes, s: Two<Side>) {
    forall e: End ::
      && s.Of(e).registry.conns == map[n.Peer(e) := n.Entry(e, n.Smaller())]
      && !LooksClosed(n, s, e, n.Smaller())
  }

  /** Main result: in every interleaving, once each end has gone through the handshakes of both
      connections, both hold the one dialed by the smaller name, and it is open. */
  lemma BothAgree(n: Nodes, steps: seq<Step>)
    requires n.Ok() && EnabledRun(n, Start(n), steps)
    requires forall e: End, d: End :: !ApplyAll(n, Start(n), steps).Of(e).tasks.Of(d).Pending?
    ensures Agreed(n, ApplyAll(n, Start(n), steps))
  {
    RunKeeps(n, Start(n), steps);
    var s := ApplyAll(n, Start(n), steps);
    hide ApplyAll, EnabledRun;
    forall e: End
      ensures s.Of(e).registry.conns == map[n.Peer(e) := n.Entry(e, n.Smaller())]
      ensures !LooksClosed(n, s, e, n.Smaller())
    {
      WinnerStaysOpen(n, s, e);
      assert SideOk(n, s.Of(e), e);
    }
  }

  /** Main result: no interleaving has more than twelve steps. When nothing is left to be done,
      the two ends agree, and the other connection is closed at both. */
  lemma AlwaysSettles(n: Nodes, steps: seq<Step>)
    requires n.Ok() && EnabledRun(n, Start(n), steps)
    ensures |steps| <= 12
    ensures var s := ApplyAll(n, Start(n), steps);
            (forall a :: !Enabled(n, s, a)) ==>
              Agreed(n, s) && forall e: End :: LooksClosed(n, s, e, n.Smaller().Other())
  {
    RunKeeps(n, Start(n), steps);
    var s := ApplyAll(n, Start(n), steps);
    if forall a :: !Enabled(n, s, a) {
      forall e: End, d: End ensures !s.Of(e).tasks.Of(d).Pending? && !s.Of(e).tasks.Of(d).Refused? {
        assert !Enabled(n, s, Handshake(e, d)) && !Enabled(n, s, CloseRefused(e, d));
      }
      BothAgree(n, steps);
      hide ApplyAll, EnabledRun, Agreed;
      forall e: End ensures LooksClosed(n, s, e, n.Smaller().Other()) {
        assert SideOk(n, s.Of(e), e);
      }
    }
  }

  /** Main result: the receive loop of the other connection ending late changes no table. */
  lemma LateUnregisterHarmless(n: Nodes, s: Two<Side>, e: End)
    requires n.Ok() && Inv(n, s) && Enabled(n, s, LoopEnds(e, n.Smaller().Other()))
    requires s.Of(e).tasks.Of(n.Smaller()).Kept?
    ensures Apply(n, s, LoopEnds(e, n.Smaller().Other())).Of(e).registry == s.Of(e).registry
  {
    assert SideOk(n, s.Of(e), e);
    LoserUnregisters(n, s.Of(e), e);
  }
}
