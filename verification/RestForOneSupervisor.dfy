/** The rest-for-one supervisor as it runs: fields updated in place, queues popped in loops.
    Every method is proved to do what the corresponding function of `RestForOne` says. */
module RestForOneSupervisors {
  import opened Common
  import opened RestartBudget
  import opened Supervisees
  import opened Rosters
  import opened Supervision
  import RestForOne
  import opened RestForOneSafety

  type Cascade = RestForOne.Cascade
  type State = RestForOne.State

  /** The position of `n` in `xs`, as `Iterator::position` finds it. */
  method Position(xs: seq<Name>, n: Name) returns (at: Option<nat>)
    ensures at.None? <==> n !in xs
    ensures at.Some? ==> at.value < |xs| && xs[at.value] == n
  {
    for i := 0 to |xs|
      invariant n !in xs[..i]
    {
      if xs[i] == n { return Some(i); }
    }
    return None;
  }

  /** `ys` holds the names of `xs`, each placed no earlier than the one before it. */
  ghost predicate SortedCopy(ys: seq<Name>, xs: seq<Name>, all: seq<Name>) {
    && (forall n :: n in ys <==> n in xs)
    && forall i, j :: 0 <= i <= j < |ys| ==> Place(all, ys[i]) <= Place(all, ys[j])
  }

  /** Puts `n` where it belongs in a sorted list. */
  method Insert(all: seq<Name>, ys: seq<Name>, n: Name, ghost xs: seq<Name>) returns (zs: seq<Name>)
    requires Distinct(all) && SortedCopy(ys, xs, all) && n in all && forall m :: m in ys ==> m in all
    ensures SortedCopy(zs, xs + [n], all)
  {
    var p := Position(all, n);
    PlaceUnique(all, p.value);
    var k := |ys|;
    while k > 0
      invariant 0 <= k <= |ys|
      invariant forall i :: k <= i < |ys| ==> Place(all, n) < Place(all, ys[i])
      decreases k
    {
      assert ys[k - 1] in ys;
      var q := Position(all, ys[k - 1]);
      PlaceUnique(all, q.value);
      if q.value <= p.value { break; }
      k := k - 1;
    }
    zs := ys[..k] + [n] + ys[k..];
    assert ys == ys[..k] + ys[k..];
  }

  method SortByPlace(all: seq<Name>, xs: seq<Name>) returns (ys: seq<Name>)
    requires Distinct(all) && forall n :: n in xs ==> n in all
    ensures SortedCopy(ys, xs, all)
  {
    ys := [];
    for i := 0 to |xs|
      invariant SortedCopy(ys, xs[..i], all)
    {
      assert xs[..i + 1] == xs[..i] + [xs[i]];
      assert forall m :: m in ys ==> m in xs;
      ys := Insert(all, ys, xs[i], xs[..i]);
    }
    assert xs[..|xs|] == xs;
  }

  /** Drops every name that repeats the one before it. */
  method Dedup(all: seq<Name>, ys: seq<Name>, ghost xs: seq<Name>) returns (zs: seq<Name>)
    requires SortedCopy(ys, xs, all) && forall n :: n in xs ==> n in all
    ensures Sorted(zs, all) && forall n :: n in zs <==> n in xs
  {
    zs := [];
    for i := 0 to |ys|
      invariant Sorted(zs, all)
      invariant forall n :: n in zs <==> n in ys[..i]
      invariant i == 0 ==> zs == []
      invariant i > 0 ==> zs != [] && zs[|zs| - 1] == ys[i - 1]
    {
      assert ys[..i + 1] == ys[..i] + [ys[i]];
      if zs == [] || zs[|zs| - 1] != ys[i] {
        if zs != [] { LastBefore(all, zs, ys, i); }
        zs := zs + [ys[i]];
      }
    }
    assert ys[..|ys|] == ys;
  }

  lemma LastBefore(all: seq<Name>, zs: seq<Name>, ys: seq<Name>, i: nat)
    requires Sorted(zs, all) && 0 < i < |ys| && zs != [] && zs[|zs| - 1] == ys[i - 1] != ys[i]
    requires Place(all, ys[i - 1]) <= Place(all, ys[i]) && ys[i - 1] in all && ys[i] in all
    ensures Sorted(zs + [ys[i]], all)
  {
    PlacesDiffer(all, ys[i - 1], ys[i]);
    forall k | 0 <= k < |zs| ensures Place(all, zs[k]) < Place(all, ys[i]) {
      SortedReflects(zs, all, k, |zs| - 1);
    }
  }

  lemma DedupIsInOrder(r: Roster, xs: seq<Name>, zs: seq<Name>)
    requires RosterOk(r) && Known(xs, r.kids) && |xs| >= 2
    requires Sorted(zs, Names(r)) && forall n :: n in zs <==> n in xs
    ensures zs == RestForOne.InOrder(Names(r), xs)
  {
    var all := Names(r);
    NamesAreKids(r);
    NamesDistinct(r);
    var wanted := set n | n in xs;
    PresentIsSorted(all, wanted);
    SortedUnique(zs, Present(all, wanted), all);
  }

  lemma NamesDistinct(r: Roster)
    requires RosterOk(r)
    ensures Distinct(Names(r))
  {
    NamesAreKids(r);
  }

  class RestForOneSupervisor {
    var roster: Roster
    var restarter: Limiter
    var exiting: bool
    var cascade: Cascade
    ghost var history: RestForOne.History

    ghost function View(): State
      reads this
    {
      RestForOne.State(roster, restarter, exiting, cascade, history)
    }

    constructor (specs: seq<ChildSpec>, intensity: Intensity)
      ensures View() == RestForOne.Initial(specs, intensity)
    {
      roster := StartAll(RosterOf(specs)).0;
      restarter := Fresh(intensity);
      exiting := false;
      cascade := RestForOne.Idle;
      history := RestForOne.History([], [], {});
    }

    method Stop(n: Name) returns (stopping: bool)
      requires n in roster.kids
      modifies this
      ensures (View(), stopping) == RestForOne.Stop(old(View()), n)
    {
      var (r, outcome) := StopKid(roster, n);
      roster := r;
      stopping := outcome.Stopping?;
      history := history.(stopped := history.stopped + [n], launched := RestForOne.Without(history.launched, n));
    }

    method Launch(n: Name) returns (answer: StartAnswer)
      requires n in roster.kids
      modifies this
      ensures (View(), answer) == RestForOne.Launch(old(View()), n)
    {
      var (r, a) := StartKid(roster, n);
      roster, answer := r, a;
      history := history.(launched := if answer.Spawned? then history.launched + {n} else history.launched);
    }

    method AcquireRestartPermit(n: Name, now: int) returns (granted: bool)
      requires n in roster.kids
      modifies this
      ensures (View(), granted) == RestForOne.Permitted(old(View()), n, now)
    {
      var (r, g) := KidPermit(roster, n, now);
      roster, granted := r, g;
    }

    method Drop(n: Name)
      modifies this
      ensures View() == RestForOne.Drop(old(View()), n)
    {
      roster := Remove(roster, n);
      history := history.(launched := RestForOne.Without(history.launched, n));
    }

    method AdvanceRestart(queue: seq<Name>) returns (flow: Flow)
      modifies this
      ensures (View(), flow) == RestForOne.AdvanceRestart(old(View()), queue)
    {
      var pending := queue;
      while pending != []
        invariant RestForOne.AdvanceRestart(View(), pending) == RestForOne.AdvanceRestart(old(View()), queue)
        decreases |pending|
      {
        var next := pending[0];
        pending := pending[1..];
        if next !in roster.kids { continue; }
        var answer := Launch(next);
        if answer.Spawned? {
          cascade := RestForOne.Restarting(next, pending);
          return Continue;
        }
      }
      cascade := RestForOne.Idle;
      return Continue;
    }

    method AdvanceShutdown(queue: seq<Name>) returns (flow: Flow)
      modifies this
      ensures (View(), flow) == RestForOne.AdvanceShutdown(old(View()), queue)
    {
      var pending := queue;
      while pending != []
        invariant RestForOne.AdvanceShutdown(View(), pending) == RestForOne.AdvanceShutdown(old(View()), queue)
        decreases |pending|
      {
        var next := pending[|pending| - 1];
        pending := pending[..|pending| - 1];
        if next !in roster.kids { continue; }
        var stopping := Stop(next);
        if stopping {
          cascade := RestForOne.Closing(next, pending);
          return Continue;
        }
      }
      cascade := RestForOne.Idle;
      return Break;
    }

    method Shutdown() returns (flow: Flow)
      modifies this
      ensures (View(), flow) == RestForOne.Shutdown(old(View()))
    {
      if cascade.Closing? { return Continue; }
      exiting := true;
      history := history.(triggers := [], stopped := []);
      flow := AdvanceShutdown(Names(roster));
    }

    /** The stop loop. It is only entered with the cascade taken out, so that removing a child
        at its end cannot set the cascade going again. */
    method AdvanceStop(pending0: seq<Name>, toRestart0: seq<Name>, toDrop0: seq<Name>, now: int) returns (flow: Flow)
      modifies this
      ensures (View(), flow) == RestForOne.AdvanceStop(old(View()), pending0, toRestart0, toDrop0, now)
    {
      var pending, toRestart, toDrop := pending0, toRestart0, toDrop0;
      while pending != []
        invariant RestForOne.AdvanceStop(View(), pending, toRestart, toDrop, now)
               == RestForOne.AdvanceStop(old(View()), pending0, toRestart0, toDrop0, now)
        decreases |pending|
      {
        var next := pending[|pending| - 1];
        pending := pending[..|pending| - 1];
        if next !in roster.kids { continue; }
        var stopping: bool;
        if roster.kids[next].mode == Never {
          toDrop := toDrop + [next];
          stopping := Stop(next);
        } else {
          var granted := AcquireRestartPermit(next, now);
          if !granted {
            flow := Shutdown();
            return;
          }
          toRestart := toRestart + [next];
          stopping := Stop(next);
        }
        if stopping {
          cascade := RestForOne.Exiting(next, pending, toRestart, toDrop);
          return Continue;
        }
      }
      DropEach(toDrop);
      flow := AdvanceRestart(RestForOne.Reverse(toRestart));
    }

    method DropEach(names: seq<Name>)
      modifies this
      ensures View() == RestForOne.DropAll(old(View()), names)
    {
      for i := 0 to |names|
        invariant RestForOne.DropAll(View(), names[i..]) == RestForOne.DropAll(old(View()), names)
      {
        assert names[i..][1..] == names[i + 1..];
        Drop(names[i]);
      }
      assert names[|names|..] == [];
    }

    /** Takes the cascade out and resumes whichever phase it was in. */
    method AdvanceCascade(now: int) returns (flow: Flow)
      modifies this
      ensures (View(), flow) == RestForOne.AdvanceCascade(old(View()), now)
    {
      var taken := cascade;
      cascade := RestForOne.Idle;
      match taken {
        case Idle => flow := Continue;
        case Exiting(_, pending, toRestart, toDrop) => flow := AdvanceStop(pending, toRestart, toDrop, now);
        case Restarting(_, pending) => flow := AdvanceRestart(pending);
        case Closing(_, pending) => flow := AdvanceShutdown(pending);
      }
    }

    method RemoveSpec(n: Name, now: int)
      modifies this
      ensures View() == RestForOne.RemoveSpec(old(View()), n, now)
    {
      if n !in roster.kids { return; }
      Drop(n);
      if RestForOne.CurrentOf(cascade) == Some(n) {
        var _ := AdvanceCascade(now);
      }
    }

    method StartCascade(trigger: Name, now: int) returns (flow: Flow)
      requires RosterOk(roster)
      modifies this
      ensures (View(), flow) == RestForOne.StartCascade(old(View()), trigger, now)
    {
      var all := Names(roster);
      NamesDistinct(roster);
      var at := Position(all, trigger);
      if at.None? { return Panic; }
      PlaceUnique(all, at.value);
      history := history.(triggers := [trigger], stopped := []);
      flow := AdvanceStop(all[at.value + 1..], [trigger], [], now);
    }

    method MergeIntoStopping(trigger: Name) returns (flow: Flow)
      requires RosterOk(roster) && cascade.Exiting?
      modifies this
      ensures (View(), flow) == RestForOne.MergeIntoStopping(old(View()), trigger)
    {
      var all := Names(roster);
      var t := Position(all, trigger);
      var u := Position(all, cascade.current);
      if t.None? || u.None? { return Panic; }
      NamesDistinct(roster);
      PlaceUnique(all, t.value);
      PlaceUnique(all, u.value);
      var low, high := RestForOne.Min(t.value, u.value), RestForOne.Max(t.value, u.value);
      var between := if low == high then [] else all[low + 1..high];
      var collected := RestForOne.Unsettled(between, cascade.toRestart + cascade.toDrop) + cascade.pending;
      assert collected == RestForOne.Collected(all, trigger, cascade);
      var pending := SortAndDedup(roster, collected);
      if pending.None? { return Panic; }
      cascade := RestForOne.Exiting(cascade.current, pending.value, cascade.toRestart + [trigger], cascade.toDrop);
      history := history.(triggers := history.triggers + [trigger]);
      return Continue;
    }

    method HandleCurrentExit(n: Name, reason: ExitReason, now: int) returns (flow: Flow)
      requires RosterOk(roster)
      modifies this
      ensures (View(), flow) == RestForOne.HandleCurrentExit(old(View()), n, reason, now)
    {
      if !cascade.Restarting? {
        flow := AdvanceCascade(now);
        return;
      }
      if reason.ExitOf? { return Panic; }
      if n !in roster.kids {
        flow := AdvanceCascade(now);
        return;
      }
      if !RequiresRestart(roster.kids[n].mode, reason) {
        RemoveSpec(n, now);
        return Continue;
      }
      var granted := AcquireRestartPermit(n, now);
      if !granted {
        flow := Shutdown();
        return;
      }
      var _ := Launch(n);
      return Continue;
    }

    method HandleExit(n: Name, reason: ExitReason, now: int) returns (flow: Flow)
      requires RosterOk(roster)
      modifies this
      ensures (View(), flow) == RestForOne.HandleExit(old(View()), n, reason, now)
    {
      if RestForOne.CurrentOf(cascade) == Some(n) {
        flow := HandleCurrentExit(n, reason, now);
        return;
      }
      if RestForOne.PendingContains(cascade, n) || n !in roster.kids { return Continue; }
      if !RequiresRestart(roster.kids[n].mode, reason) {
        RemoveSpec(n, now);
        return Continue;
      }
      var (limiter, shared) := Permit(restarter, now);
      restarter := limiter;
      if !shared {
        flow := Shutdown();
        return;
      }
      var own := AcquireRestartPermit(n, now);
      if !own {
        flow := Shutdown();
        return;
      }
      match cascade {
        case Idle => flow := StartCascade(n, now);
        case Exiting(_, _, _, _) => flow := MergeIntoStopping(n);
        case Restarting(_, _) =>
          cascade := RestForOne.Idle;
          flow := StartCascade(n, now);
        case Closing(_, _) => flow := Panic;
      }
    }

    method AfterInitialized(n: Name, now: int) returns (flow: Flow)
      modifies this
      ensures (View(), flow) == RestForOne.AfterInitialized(old(View()), n, now)
    {
      if RestForOne.CurrentOf(cascade) == Some(n) {
        flow := AdvanceCascade(now);
      } else {
        flow := Continue;
      }
    }

    method HandleNext(e: TimedEvent) returns (flow: Flow)
      requires RosterOk(roster)
      modifies this
      ensures (View(), flow) == RestForOne.Step(old(View()), e)
    {
      flow := Continue;
      match e.event {
        case Signal(isShutdown) => if isShutdown { flow := Shutdown(); }
        case Register(name, mode, intensity) => roster := AddSpec(roster, exiting, name, mode, intensity);
        case Deregister(name) => RemoveSpec(name, e.now);
        case Poll(name, ready) =>
          var (r, item) := PollKid(roster, name, ready);
          if item.None? { return Continue; }
          roster := r;
          flow := HandleItem(name, item.value, e.now);
      }
    }

    method HandleItem(n: Name, item: Item, now: int) returns (flow: Flow)
      requires RosterOk(roster)
      modifies this
      ensures (View(), flow) == match item
                                case Started(true) => (old(View()), Continue)
                                case Initialized(None) =>
                                  RestForOne.AfterInitialized(RestForOne.Settle(old(View()), n), n, now)
                                case _ =>
                                  RestForOne.HandleExit(RestForOne.Settle(old(View()), n), n, ReasonOf(item).value, now)
    {
      if item == Started(true) { return Continue; }
      history := history.(launched := RestForOne.Without(history.launched, n));
      if item == Initialized(None) {
        flow := AfterInitialized(n, now);
      } else {
        flow := HandleExit(n, ReasonOf(item).value, now);
      }
    }

    /** The event loop, up to the event that ends it. Along every allowed run it never fails,
        and keeps the invariant or ends with every child dead. */
    method Run(events: seq<TimedEvent>) returns (flow: Flow)
      requires Inv(View()) && AllowedRun(View(), events)
      modifies this
      ensures (View(), flow) == RestForOne.Run(old(View()), events)
      ensures Good((View(), flow))
    {
      RunGood(View(), events);
      for i := 0 to |events|
        invariant Inv(View()) && AllowedRun(View(), events[i..])
        invariant RestForOne.Run(View(), events[i..]) == RestForOne.Run(old(View()), events)
      {
        StepGood(View(), events[i]);
        assert events[i..][0] == events[i] && events[i..][1..] == events[i + 1..];
        flow := HandleNext(events[i]);
        if !flow.Continue? { return; }
      }
      assert events[|events|..] == [];
      return Continue;
    }
  }

  /** Sorts by place and drops repetitions, or fails if a name to sort is unknown. */
  method SortAndDedup(r: Roster, xs: seq<Name>) returns (sorted: Option<seq<Name>>)
    requires RosterOk(r)
    ensures sorted.None? <==> RestForOne.SortFails(Names(r), xs)
    ensures sorted.Some? ==> sorted.value == RestForOne.InOrder(Names(r), xs)
  {
    if |xs| < 2 { return Some(xs); }
    var all := Names(r);
    if exists n :: n in xs && n !in all { return None; }
    NamesDistinct(r);
    NamesAreKids(r);
    var ys := SortByPlace(all, xs);
    var zs := Dedup(all, ys, xs);
    DedupIsInOrder(r, xs, zs);
    return Some(zs);
  }
}
