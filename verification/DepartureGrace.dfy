/** The grace a node gives a member that was declared down: its failure is reported only if no
    goodbye, return or restart comes before the grace runs out. */
module DepartureGrace {
  import opened Common
  import opened ClusterView

  /** A key of the delay queue; once its entry is gone it may be handed out again. */
  type Key = nat

  /** `queue` holds the members whose failure is yet to be reported, `keys` where each is. */
  datatype State = State(view: View, log: seq<Event>, queue: map<Key, Member>, keys: map<NodeName, Key>)

  /** What the driver handles. `Down` comes with whatever free key the queue gives its entry. */
  datatype Input =
    | NotifyUp(member: Member)
    | NotifyDown(member: Member, key: Key)
    | NotifyRename(before: Member, after: Member)
    | Departure(from: NodeName, generation: nat)
    | GraceOver(key: Key)
    | LinkDown(node: NodeName)
    | LinkUp(node: NodeName)

  function Call(s: State, op: Op): State {
    var (v, events) := Mutate(s.view, op);
    s.(view := v, log := s.log + events)
  }

  /** Forgets a node's pending failure report. */
  function CancelPending(s: State, n: NodeName): State {
    if n in s.keys then s.(queue := s.queue - {s.keys[n]}, keys := s.keys - {n}) else s
  }

  function Handle(s: State, i: Input): State {
    match i
    case NotifyUp(m) => Call(CancelPending(s, m.name), MemberUp(m))
    case NotifyDown(m, key) =>
      if !Contains(s.view, m) then s
      else
        var queue := s.queue[key := m];
        s.(queue := if m.name in s.keys then queue - {s.keys[m.name]} else queue, keys := s.keys[m.name := key])
    case NotifyRename(before, after) => Call(CancelPending(s, before.name), MemberRenamed(before, after))
    case Departure(from, generation) =>
      var s1 := Call(s, MemberLeft(from, generation));
      if from in s.view.members && s.view.members[from].generation == generation
      then CancelPending(s1, s.view.members[from].name) else s1
    case GraceOver(key) =>
      if key !in s.queue then s
      else
        var m := s.queue[key];
        Call(s.(queue := s.queue - {key}, keys := s.keys - {m.name}), MemberFailed(m))
    case LinkDown(n) => Call(s, MemberUnreachable(n))
    case LinkUp(n) => Call(s, MemberReachable(n))
  }

  /** The queue hands out free keys only, and a rename keeps the node's name. */
  predicate Possible(s: State, i: Input) {
    match i
    case NotifyDown(_, key) => key !in s.queue
    case NotifyRename(before, after) => before.name == after.name
    case _ => true
  }

  /** Names and queue entries belong together one to one, and each pending member is the one the
      cluster knows. */
  ghost predicate Paired(s: State) {
    && (forall n :: n in s.keys ==> s.keys[n] in s.queue && s.queue[s.keys[n]].name == n)
    && (forall k :: k in s.queue ==> s.queue[k].name in s.keys && s.keys[s.queue[k].name] == k)
    && (forall k :: k in s.queue ==> Contains(s.view, s.queue[k]))
  }

  ghost predicate Inv(s: State) {
    ViewOk(s.view) && Paired(s)
  }

  predicate IsGone(e: Event, m: Member) {
    e == Left(m) || e == Failed(m)
  }

  function Ups(log: seq<Event>, m: Member): nat {
    if log == [] then 0
    else Ups(log[..|log| - 1], m) + if log[|log| - 1] == Up(m) then 1 else 0
  }

  function Gones(log: seq<Event>, m: Member): nat {
    if log == [] then 0
    else Gones(log[..|log| - 1], m) + if IsGone(log[|log| - 1], m) then 1 else 0
  }

  lemma {:induction false} CountsSplit(log: seq<Event>, more: seq<Event>, m: Member)
    ensures Ups(log + more, m) == Ups(log, m) + Ups(more, m)
    ensures Gones(log + more, m) == Gones(log, m) + Gones(more, m)
  {
    if more == [] {
      assert log + more == log;
    } else {
      var init, last := more[..|more| - 1], more[|more| - 1];
      assert (log + more)[..|log + more| - 1] == log + init;
      CountsSplit(log, init, m);
    }
  }

  function Here(v: View, m: Member): nat {
    if Contains(v, m) then 1 else 0
  }

  /** A mutator reports an incarnation gone only as it leaves, and it comes back only by an `Up`. */
  lemma MutateCounts(v: View, op: Op, m: Member)
    requires ViewOk(v) && Keeps(op)
    ensures var (v', events) := Mutate(v, op);
            && Gones(events, m) + Here(v', m) <= Ups(events, m) + Here(v, m)
            && (Ups(events, m) > 0 ==> op == MemberUp(m) || (op.MemberRenamed? && op.after == m))
            && (op.MemberLeft? ==> Failed(m) !in events)
  {
    var (v', events) := Mutate(v, op);
    if |events| == 1 {
      CountOne(events[0], m);
      assert events == [events[0]];
    } else if |events| == 2 {
      CountOne(events[0], m);
      CountOne(events[1], m);
      CountsSplit([events[0]], [events[1]], m);
      assert events == [events[0]] + [events[1]];
    }
  }

  lemma CountOne(e: Event, m: Member)
    ensures Ups([e], m) == if e == Up(m) then 1 else 0
    ensures Gones([e], m) == if IsGone(e, m) then 1 else 0
  {
    assert [e][..0] == [];
  }

  lemma CallCounts(s: State, op: Op, m: Member)
    requires ViewOk(s.view) && Keeps(op)
    ensures var s' := Call(s, op);
            Gones(s'.log, m) + Here(s'.view, m) + Ups(s.log, m) <= Ups(s'.log, m) + Gones(s.log, m) + Here(s.view, m)
  {
    MutateCounts(s.view, op, m);
    CountsSplit(s.log, Mutate(s.view, op).1, m);
  }

  lemma CancelKeeps(s: State, n: NodeName)
    requires Inv(s)
    ensures Inv(CancelPending(s, n)) && n !in CancelPending(s, n).keys
    ensures forall k :: k in CancelPending(s, n).queue ==> CancelPending(s, n).queue[k].name != n
  {
  }

  /** A mutator that leaves the pending members alone. */
  lemma CallKeeps(s: State, op: Op)
    requires Inv(s) && Keeps(op)
    requires forall k :: k in s.queue && Contains(s.view, s.queue[k]) ==> Contains(Mutate(s.view, op).0, s.queue[k])
    ensures Inv(Call(s, op))
  {
    MutateFollows(s.view, op);
    hide Mutate;
  }

  /** Main result, one step: the books stay paired. */
  lemma HandleKeeps(s: State, i: Input)
    requires Inv(s) && Possible(s, i)
    ensures Inv(Handle(s, i))
  {
    match i {
      case NotifyUp(m) =>
        CancelKeeps(s, m.name);
        CallKeeps(CancelPending(s, m.name), MemberUp(m));
      case NotifyDown(m, key) =>
      case NotifyRename(before, after) =>
        CancelKeeps(s, before.name);
        CallKeeps(CancelPending(s, before.name), MemberRenamed(before, after));
      case Departure(from, generation) => DepartureKeeps(s, from, generation);
      case GraceOver(key) => ExpiryKeeps(s, key);
      case LinkDown(n) => CallKeeps(s, MemberUnreachable(n));
      case LinkUp(n) => CallKeeps(s, MemberReachable(n));
    }
  }

  lemma DepartureKeeps(s: State, from: NodeName, generation: nat)
    requires Inv(s)
    ensures Inv(Handle(s, Departure(from, generation)))
  {
    if from in s.view.members && s.view.members[from].generation == generation {
      CancelKeeps(s, from);
      var s1 := CancelPending(s, from);
      CallKeeps(s1, MemberLeft(from, generation));
      assert Handle(s, Departure(from, generation)) == Call(s1, MemberLeft(from, generation));
    }
  }

  lemma ExpiryKeeps(s: State, key: Key)
    requires Inv(s)
    ensures Inv(Handle(s, GraceOver(key)))
  {
    if key in s.queue {
      var m := s.queue[key];
      CancelKeeps(s, m.name);
      CallKeeps(CancelPending(s, m.name), MemberFailed(m));
    }
  }

  ghost predicate PossibleRun(s: State, inputs: seq<Input>)
    decreases |inputs|
  {
    inputs != [] ==> Possible(s, inputs[0]) && PossibleRun(Handle(s, inputs[0]), inputs[1..])
  }

  function HandleAll(s: State, inputs: seq<Input>): State
    decreases |inputs|
  {
    if inputs == [] then s else HandleAll(Handle(s, inputs[0]), inputs[1..])
  }

  /** The counts of one incarnation, and whether it is here, over one input. */
  ghost predicate Balanced(s: State, s': State, m: Member) {
    Gones(s'.log, m) + Here(s'.view, m) + Ups(s.log, m) <= Ups(s'.log, m) + Gones(s.log, m) + Here(s.view, m)
  }

  lemma HandleBalances(s: State, i: Input, m: Member)
    requires Inv(s) && Possible(s, i)
    ensures Balanced(s, Handle(s, i), m)
  {
    hide Paired, Mutate, Gones, Ups;
    match i {
      case NotifyUp(u) => CallCounts(CancelPending(s, u.name), MemberUp(u), m);
      case NotifyDown(_, _) =>
      case NotifyRename(before, after) => CallCounts(CancelPending(s, before.name), MemberRenamed(before, after), m);
      case Departure(from, generation) => CallCounts(s, MemberLeft(from, generation), m);
      case GraceOver(key) =>
        if key in s.queue {
          var d := s.queue[key];
          CallCounts(s.(queue := s.queue - {key}, keys := s.keys - {d.name}), MemberFailed(d), m);
        }
      case LinkDown(n) => CallCounts(s, MemberUnreachable(n), m);
      case LinkUp(n) => CallCounts(s, MemberReachable(n), m);
    }
  }

  /** Main result, whole runs: the books stay paired, and an incarnation is reported gone at most
      once for each time it comes up. */
  lemma {:induction false} GoneOncePerUp(s: State, inputs: seq<Input>, m: Member)
    requires Inv(s) && PossibleRun(s, inputs)
    ensures Inv(HandleAll(s, inputs)) && Balanced(s, HandleAll(s, inputs), m)
    decreases |inputs|
  {
    if inputs != [] {
      HandleKeeps(s, inputs[0]);
      HandleBalances(s, inputs[0], m);
      hide Inv, Handle, Possible;
      GoneOncePerUp(Handle(s, inputs[0]), inputs[1..], m);
    }
  }

  /** `m` comes up again. */
  predicate Returns(i: Input, m: Member) {
    i == NotifyUp(m) || (i.NotifyRename? && i.after == m)
  }

  /** An incarnation that is not here stays away, and nothing more is said of it, until it comes
      up again. */
  lemma {:induction false} SilentWhileAway(s: State, inputs: seq<Input>, m: Member)
    requires Inv(s) && PossibleRun(s, inputs) && !Contains(s.view, m)
    requires forall i :: i in inputs ==> !Returns(i, m)
    ensures Gones(HandleAll(s, inputs).log, m) == Gones(s.log, m)
    decreases |inputs|
  {
    if inputs != [] {
      var s1 := Handle(s, inputs[0]);
      HandleKeeps(s, inputs[0]);
      AwayStep(s, inputs[0], m);
      hide Inv, Handle, Possible;
      SilentWhileAway(s1, inputs[1..], m);
    }
  }

  lemma AwayStep(s: State, i: Input, m: Member)
    requires Inv(s) && Possible(s, i) && !Contains(s.view, m) && !Returns(i, m)
    ensures !Contains(Handle(s, i).view, m) && Gones(Handle(s, i).log, m) == Gones(s.log, m)
  {
    hide Paired, Mutate, Gones, Ups;
    match i {
      case NotifyUp(u) => AwayCall(CancelPending(s, u.name), MemberUp(u), m);
      case NotifyDown(_, _) =>
      case NotifyRename(before, after) => AwayCall(CancelPending(s, before.name), MemberRenamed(before, after), m);
      case Departure(from, generation) => AwayCall(s, MemberLeft(from, generation), m);
      case GraceOver(key) =>
        if key in s.queue {
          var d := s.queue[key];
          AwayCall(s.(queue := s.queue - {key}, keys := s.keys - {d.name}), MemberFailed(d), m);
        }
      case LinkDown(n) => AwayCall(s, MemberUnreachable(n), m);
      case LinkUp(n) => AwayCall(s, MemberReachable(n), m);
    }
  }

  lemma AwayCall(s: State, op: Op, m: Member)
    requires ViewOk(s.view) && Keeps(op) && !Contains(s.view, m)
    requires op != MemberUp(m) && !(op.MemberRenamed? && op.after == m)
    ensures !Contains(Call(s, op).view, m) && Gones(Call(s, op).log, m) == Gones(s.log, m)
  {
    MutateCounts(s.view, op, m);
    CountsSplit(s.log, Mutate(s.view, op).1, m);
  }

  /** Main result: a member declared down whose goodbye comes before the grace is over is
      reported as having left, and unless it comes up again never as failed. */
  lemma GoodbyeMeansLeft(s: State, n: NodeName, later: seq<Input>)
    requires Inv(s) && n in s.keys
    requires var m := s.queue[s.keys[n]];
             && PossibleRun(Handle(s, Departure(n, m.generation)), later)
             && forall i :: i in later ==> !Returns(i, m)
    ensures var m := s.queue[s.keys[n]];
            var s1 := Handle(s, Departure(n, m.generation));
            && s1.log == s.log + [Left(m)] && n !in s1.keys
            && Gones(HandleAll(s1, later).log, m) == Gones(s.log, m) + 1
  {
    var m := s.queue[s.keys[n]];
    var s1 := Handle(s, Departure(n, m.generation));
    assert Contains(s.view, m) && m.name == n;
    HandleKeeps(s, Departure(n, m.generation));
    CountsSplit(s.log, [Left(m)], m);
    CountOne(Left(m), m);
    SilentWhileAway(s1, later, m);
  }

  /** Main result: when the grace is over without one, the failure is reported: no pending entry
      runs out in silence. */
  lemma SilenceMeansFailed(s: State, key: Key)
    requires Inv(s) && key in s.queue
    ensures var m := s.queue[key];
            var s' := Handle(s, GraceOver(key));
            && s'.log == s.log + [Failed(m)] && m.name !in s'.view.members
            && s'.queue == s.queue - {key} && s'.keys == s.keys - {m.name}
  {
    assert Contains(s.view, s.queue[key]);
  }

  // ----- Who is pending -----

  predicate Pending(s: State, m: Member) {
    exists k :: k in s.queue && s.queue[k] == m
  }

  /** Neither table has anything on the node `n`. */
  ghost predicate NothingOn(s: State, n: NodeName) {
    n !in s.keys && forall k :: k in s.queue ==> s.queue[k].name != n
  }

  /** A node that is back, or was renamed, is no longer pending; nor is anyone else affected. */
  lemma BackCancels(s: State, i: Input)
    requires Inv(s) && Possible(s, i) && (i.NotifyUp? || i.NotifyRename?)
    ensures var n := if i.NotifyUp? then i.member.name else i.before.name;
            var s' := Handle(s, i);
            && NothingOn(s', n)
            && (forall k :: k in s.queue && s.queue[k].name != n ==> k in s'.queue && s'.queue[k] == s.queue[k])
            && s'.keys == s.keys - {n}
            && (i.NotifyUp? ==> Contains(s'.view, i.member))
            && (i.NotifyRename? && Contains(s.view, i.before) ==> Contains(s'.view, i.after))
  {
    hide ViewOk;
  }

  /** Declaring a member down leaves exactly the entry `k` for its node, and publishes nothing;
      of a node the cluster does not know so, nothing is noted. */
  lemma DownIsPending(s: State, m: Member, k: Key)
    requires Inv(s) && Possible(s, NotifyDown(m, k))
    ensures var s' := Handle(s, NotifyDown(m, k));
            && s'.view == s.view && s'.log == s.log
            && (!Contains(s.view, m) ==> s' == s)
            && (Contains(s.view, m) ==>
                  && s'.keys == s.keys[m.name := k]
                  && forall j :: j in s'.queue <==> j == k || (j in s.queue && s.queue[j].name != m.name))
            && (Contains(s.view, m) ==>
                  forall j :: j in s'.queue ==> s'.queue[j] == if j == k then m else s.queue[j])
  {
    hide ViewOk;
  }

  /** What the other inputs do: a link that goes down or comes up changes only whether its node
      counts as reachable; a goodbye from the incarnation that is known is the end of it, and one
      from any other changes nothing. */
  lemma OtherInputs(s: State, i: Input)
    requires Inv(s) && (i.LinkDown? || i.LinkUp? || i.Departure?)
    ensures var s' := Handle(s, i);
            match i
            case LinkDown(n) =>
              && s' == s.(view := s'.view, log := s'.log) && s'.view.members == s.view.members
              && s'.view.unreachable == s.view.unreachable + if n in s.view.members then {n} else {}
            case LinkUp(n) =>
              && s' == s.(view := s'.view, log := s'.log) && s'.view.members == s.view.members
              && s'.view.unreachable == s.view.unreachable - {n}
            case Departure(n, generation) =>
              if n in s.view.members && s.view.members[n].generation == generation then
                s'.log == s.log + [Left(s.view.members[n])] && n !in s'.view.members && NothingOn(s', n)
              else s' == s
            case _ => true
  {
    assert s.log + [] == s.log;
  }

  function Failures(log: seq<Event>, m: Member): nat {
    if log == [] then 0
    else Failures(log[..|log| - 1], m) + if log[|log| - 1] == Failed(m) then 1 else 0
  }

  /** The input declares the member `m` down, or renames it. */
  predicate Declares(s: State, i: Input, m: Member) {
    Contains(s.view, m) && ((i.NotifyDown? && i.member == m) || (i.NotifyRename? && i.before == m))
  }

  ghost predicate NeverDeclared(s: State, inputs: seq<Input>, m: Member)
    decreases |inputs|
  {
    inputs != [] ==> !Declares(s, inputs[0], m) && NeverDeclared(Handle(s, inputs[0]), inputs[1..], m)
  }

  lemma NoFailureAdded(log: seq<Event>, events: seq<Event>, m: Member)
    requires |events| <= 2 && Failed(m) !in events
    ensures Failures(log + events, m) == Failures(log, m)
  {
    if events == [] {
      assert log + events == log;
    } else {
      var init, last := events[..|events| - 1], events[|events| - 1];
      assert (log + events)[..|log + events| - 1] == log + init;
      NoFailureAdded(log, init, m);
    }
  }

  lemma CallFailsNobody(s: State, op: Op, m: Member)
    requires Contains(s.view, m) ==> op != MemberFailed(m) && !(op.MemberRenamed? && op.before == m)
    ensures Failures(Call(s, op).log, m) == Failures(s.log, m)
  {
    NoFailureAdded(s.log, Mutate(s.view, op).1, m);
    hide Failures;
  }

  lemma NotPendingStep(s: State, i: Input, m: Member)
    requires Inv(s) && Possible(s, i) && !Pending(s, m) && !Declares(s, i, m)
    ensures Failures(Handle(s, i).log, m) == Failures(s.log, m) && !Pending(Handle(s, i), m)
  {
    hide ViewOk, Mutate, Failures;
    match i {
      case NotifyUp(u) => CallFailsNobody(CancelPending(s, u.name), MemberUp(u), m);
      case NotifyDown(_, _) =>
      case NotifyRename(before, after) => CallFailsNobody(CancelPending(s, before.name), MemberRenamed(before, after), m);
      case Departure(from, generation) => CallFailsNobody(s, MemberLeft(from, generation), m);
      case GraceOver(key) =>
        if key in s.queue {
          var d := s.queue[key];
          CallFailsNobody(s.(queue := s.queue - {key}, keys := s.keys - {d.name}), MemberFailed(d), m);
        }
      case LinkDown(n) => CallFailsNobody(s, MemberUnreachable(n), m);
      case LinkUp(n) => CallFailsNobody(s, MemberReachable(n), m);
    }
  }

  /** A member that is not pending is not reported failed, over any run that does not declare it
      down or rename it while the cluster knows it. */
  lemma {:induction false} NoFailureUndeclared(s: State, inputs: seq<Input>, m: Member)
    requires Inv(s) && PossibleRun(s, inputs) && !Pending(s, m) && NeverDeclared(s, inputs, m)
    ensures Failures(HandleAll(s, inputs).log, m) == Failures(s.log, m) && !Pending(HandleAll(s, inputs), m)
    decreases |inputs|
  {
    if inputs != [] {
      NotPendingStep(s, inputs[0], m);
      HandleKeeps(s, inputs[0]);
      hide Inv, Handle, Possible, Pending, Declares;
      NoFailureUndeclared(Handle(s, inputs[0]), inputs[1..], m);
    }
  }

  /** Main result: a member that comes back before its grace is over is not reported failed, then
      or later, unless it is declared down again or renamed; and it is a member. */
  lemma ReturnCancelsFailure(s: State, m: Member, later: seq<Input>)
    requires Inv(s) && PossibleRun(Handle(s, NotifyUp(m)), later) && NeverDeclared(Handle(s, NotifyUp(m)), later, m)
    ensures Contains(Handle(s, NotifyUp(m)).view, m)
    ensures Failures(HandleAll(Handle(s, NotifyUp(m)), later).log, m) == Failures(s.log, m)
  {
    var s1 := Handle(s, NotifyUp(m));
    BackCancels(s, NotifyUp(m));
    HandleKeeps(s, NotifyUp(m));
    CallFailsNobody(CancelPending(s, m.name), MemberUp(m), m);
    hide Inv, Failures;
    NoFailureUndeclared(s1, later, m);
  }

  // ----- The driver itself -----

  class Driver {
    const cluster: Cluster
    var pendingDown: map<Key, Member>
    var pendingKeys: map<NodeName, Key>

    ghost function Now(): State
      reads this, cluster
    {
      State(cluster.Now(), cluster.published, pendingDown, pendingKeys)
    }

    constructor ()
      ensures fresh(cluster) && Now() == State(View(map[], {}), [], map[], map[])
    {
      cluster := new Cluster();
      pendingDown := map[];
      pendingKeys := map[];
    }

    method Cancel(n: NodeName)
      modifies this
      ensures Now() == CancelPending(old(Now()), n)
    {
      if n in pendingKeys {
        pendingDown := pendingDown - {pendingKeys[n]};
        pendingKeys := pendingKeys - {n};
      }
    }

    method Notified(i: Input)
      requires i.NotifyUp? || i.NotifyDown? || i.NotifyRename?
      modifies this, cluster
      ensures Now() == Handle(old(Now()), i)
    {
      match i {
        case NotifyUp(m) =>
          Cancel(m.name);
          cluster.Up(m);
        case NotifyDown(m, key) =>
          if m.name in cluster.members && cluster.members[m.name] == m {
            pendingDown := pendingDown[key := m];
            if m.name in pendingKeys {
              var stale := pendingKeys[m.name];
              pendingKeys := pendingKeys[m.name := key];
              pendingDown := pendingDown - {stale};
            } else {
              pendingKeys := pendingKeys[m.name := key];
            }
          }
        case NotifyRename(before, after) =>
          Cancel(before.name);
          cluster.Renamed(before, after);
      }
    }

    method OnDeparture(from: NodeName, generation: nat)
      modifies this, cluster
      ensures Now() == Handle(old(Now()), Departure(from, generation))
    {
      if from in cluster.members {
        var m := cluster.members[from];
        var known := cluster.Departed(from, generation);
        if known { Cancel(m.name); }
      }
    }

    method OnGraceOver(key: Key)
      requires key in pendingDown
      modifies this, cluster
      ensures Now() == Handle(old(Now()), GraceOver(key))
    {
      var m := pendingDown[key];
      pendingDown := pendingDown - {key};
      pendingKeys := pendingKeys - {m.name};
      cluster.DeclaredDown(m);
    }
  }
}
