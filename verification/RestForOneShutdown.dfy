/** The shutdown of a rest-for-one supervisor, from whatever phase it was in. */
module RestForOneShutdown {
  import opened Common
  import opened RestartBudget
  import opened Supervisees
  import opened Rosters
  import opened Supervision
  import opened RestForOne
  import opened RestForOneSafety
  import opened RestForOneStopPhase

  /** A shutdown under way: what it told to stop came in descending order, ending with the
      child it waits for, and the rest comes before all of it. */
  ghost predicate ClosingPhase(s: State) {
    && Inv(s) && s.cascade.Closing?
    && Descending(s.history.stopped, s.roster.order)
    && AllBefore(s.cascade.pending, s.history.stopped, s.roster.order)
    && s.history.stopped != [] && s.history.stopped[|s.history.stopped| - 1] == s.cascade.current
  }

  /** From `s` on nobody joined, nobody left, and nobody who was dead came back. */
  ghost predicate NobodyStarted(s: State, s': State) {
    && s'.roster.order == s.roster.order && s'.roster.kids.Keys == s.roster.kids.Keys
    && forall n :: n in s.roster.kids && s.roster.kids[n].life == Dead ==> s'.roster.kids[n].life == Dead
  }

  ghost predicate ClosingOutcome(s: State, result: (State, Flow)) {
    && NobodyStarted(s, result.0)
    && s.history.stopped <= result.0.history.stopped
    && Descending(result.0.history.stopped, s.roster.order)
    && match result.1
       case Continue => ClosingPhase(result.0)
       case Break => AllDead(result.0.roster.kids)
       case Panic => false
  }

  /** The shutdown loop, entered with nobody owing an exit that is not still pending. */
  ghost predicate ClosingReady(s: State, pending: seq<Name>) {
    && RosterOk(s.roster) && s.exiting && Covered(s.roster, None, pending)
    && Descending(s.history.stopped, s.roster.order)
    && AllBefore(pending, s.history.stopped, s.roster.order)
  }

  lemma StopClosing(s: State, pending: seq<Name>)
    requires ClosingReady(s, pending) && pending != []
    ensures var next, rest := pending[|pending| - 1], pending[..|pending| - 1];
            && next in s.roster.kids
            && var (s1, stopping) := Stop(s, next);
            && NobodyStarted(s, s1) && s.history.stopped <= s1.history.stopped
            && if stopping then ClosingPhase(s1.(cascade := Closing(next, rest))) else ClosingReady(s1, rest)
  {
    var next, rest := pending[|pending| - 1], pending[..|pending| - 1];
    LastIsPlacedLast(pending, s.roster.order);
    SortedInit(pending, s.roster.order, next);
    var (s1, stopping) := Stop(s, next);
    StopOrders(s.history.stopped, rest, next, s.roster.order, pending);
    hide Sorted, Descending, AllBefore, Distinct;
  }

  lemma StopOrders(stopped: seq<Name>, rest: seq<Name>, next: Name, order: seq<Name>, pending: seq<Name>)
    requires Descending(stopped, order) && AllBefore(pending, stopped, order) && next in pending
    requires forall n :: n in rest ==> n in pending && Place(order, n) < Place(order, next)
    ensures Descending(stopped + [next], order) && AllBefore(rest, stopped + [next], order)
  {
    forall i | 0 <= i < |stopped| ensures Place(order, next) < Place(order, stopped[i]) {}
  }

  lemma {:induction false} AdvanceClosing(s: State, pending: seq<Name>)
    requires ClosingReady(s, pending)
    ensures ClosingOutcome(s, AdvanceShutdown(s, pending))
    decreases |pending|
  {
    if pending != [] {
      var next, rest := pending[|pending| - 1], pending[..|pending| - 1];
      StopClosing(s, pending);
      var (s1, stopping) := Stop(s, next);
      if stopping {
        hide NobodyStarted, Inv;
      } else {
        hide NobodyStarted, ClosingReady, ClosingPhase, ClosingOutcome;
        AdvanceClosing(s1, rest);
        ClosingFromEarlier(s, s1, AdvanceShutdown(s1, rest));
      }
    }
  }

  lemma ClosingFromEarlier(s: State, s1: State, result: (State, Flow))
    requires NobodyStarted(s, s1) && s.history.stopped <= s1.history.stopped
    requires ClosingOutcome(s1, result)
    ensures ClosingOutcome(s, result)
  {
    hide ClosingPhase, AllDead;
  }

  /** Main result: a shutdown may begin in any phase. It is then under way, or done with
      everyone dead, and it starts nobody. */
  lemma ShutdownFromAnyPhase(s: State, now: int)
    requires Inv(s) && !s.cascade.Closing?
    ensures var begun := s.(exiting := true, history := s.history.(triggers := [], stopped := []));
            ClosingOutcome(begun, Step(s, At(now, Signal(true))))
  {
    NamesAreKids(s.roster);
    AdvanceClosing(s.(exiting := true, history := s.history.(triggers := [], stopped := [])), Names(s.roster));
  }

  /** The child a shutdown waits for has exited. */
  lemma CurrentGoneClosing(s: State, ready: Ready)
    requires ClosingPhase(s)
    requires PollKid(s.roster, s.cascade.current, ready).1.Some?
    ensures var s1 := Settle(s.(roster := PollKid(s.roster, s.cascade.current, ready).0), s.cascade.current);
            && NobodyStarted(s, s1) && ReasonOf(PollKid(s.roster, s.cascade.current, ready).1.value).Some?
            && ClosingReady(s1.(cascade := Idle), s.cascade.pending)
  {
  }

  /** Any other child makes progress: it is among the pending ones. */
  lemma OtherMovesClosing(s: State, n: Name, ready: Ready)
    requires ClosingPhase(s) && n != s.cascade.current && PollKid(s.roster, n, ready).1.Some?
    ensures var r := PollKid(s.roster, n, ready).0;
            && n in s.cascade.pending
            && ClosingOutcome(s, (s.(roster := r), Continue))
            && ClosingOutcome(s, (Settle(s.(roster := r), n), Continue))
  {
    var r := PollKid(s.roster, n, ready).0;
    assert NobodyStarted(s, s.(roster := r));
    assert Inv(s.(roster := r));
  }

  /** Main result, one step of a shutdown: the arm of the exit handler that is said to be
      unreachable is not reached, nobody is started, stops go on in reverse start order, and
      the loop ends only with everyone dead. Signalling again changes nothing. */
  lemma ClosingStep(s: State, e: TimedEvent)
    requires ClosingPhase(s) && !e.event.Deregister?
    ensures ClosingOutcome(s, Step(s, e))
    ensures e.event.Signal? ==> Step(s, e) == (s, Continue)
  {
    hide AdvanceCascade, HandleExit, AfterInitialized, AddSpec;
    ClosingNow(s);
    if e.event.Poll? {
      var n, ready := e.event.name, e.event.ready;
      var (r, item) := PollKid(s.roster, n, ready);
      hide ClosingPhase, ClosingOutcome;
      if item.Some? {
        if n == s.cascade.current {
          CurrentGoneClosing(s, ready);
          CurrentExitCloses(s, e);
        } else {
          OtherMovesClosing(s, n, ready);
          OtherReportsClosing(Settle(s.(roster := r), n), n, item.value, e.now);
        }
      }
    } else {
      hide ClosingPhase;
      NobodyJoins(s, e);
    }
  }

  lemma ClosingNow(s: State)
    requires ClosingPhase(s)
    ensures s.cascade.Closing? && s.exiting && ClosingOutcome(s, (s, Continue))
  {
    hide Covered, Descending, AllBefore;
  }

  /** What others report during a shutdown is passed over. */
  lemma OtherReportsClosing(s: State, n: Name, item: Item, now: int)
    requires s.cascade.Closing? && n != s.cascade.current && n in s.cascade.pending
    ensures AfterInitialized(s, n, now) == (s, Continue)
    ensures ReasonOf(item).Some? ==> HandleExit(s, n, ReasonOf(item).value, now) == (s, Continue)
  {
  }

  lemma NobodyJoins(s: State, e: TimedEvent)
    requires s.cascade.Closing? && s.exiting && (e.event.Signal? || e.event.Register?)
    ensures Step(s, e) == (s, Continue)
  {
    hide AdvanceShutdown;
  }

  lemma CurrentExitCloses(s: State, e: TimedEvent)
    requires s.cascade.Closing? && e.event.Poll? && e.event.name == s.cascade.current
    requires var (r, item) := PollKid(s.roster, s.cascade.current, e.event.ready);
             && item.Some? && ReasonOf(item.value).Some?
             && var s1 := Settle(s.(roster := r), s.cascade.current);
             && NobodyStarted(s, s1) && ClosingReady(s1.(cascade := Idle), s.cascade.pending)
    ensures ClosingOutcome(s, Step(s, e))
  {
    hide NobodyStarted, ClosingReady, ClosingOutcome;
    var (r, item) := PollKid(s.roster, s.cascade.current, e.event.ready);
    var s1 := Settle(s.(roster := r), s.cascade.current);
    ExitOfCurrentAdvances(s1, s.cascade.current, ReasonOf(item.value).value, e.now);
    AdvanceClosing(s1.(cascade := Idle), s.cascade.pending);
    hide HandleExit, AdvanceShutdown;
    IdleSameRoster(s, s1);
    ClosingFromEarlier(s, s1.(cascade := Idle), AdvanceShutdown(s1.(cascade := Idle), s.cascade.pending));
  }

  lemma IdleSameRoster(s: State, s1: State)
    requires NobodyStarted(s, s1)
    ensures NobodyStarted(s, s1.(cascade := Idle))
  {
  }

  ghost predicate NoDeregister(events: seq<TimedEvent>) {
    forall i :: 0 <= i < |events| ==> !events[i].event.Deregister?
  }

  /** Main result, whole shutdowns, over any events but deregistration. */
  lemma {:induction false} ClosingRun(s: State, events: seq<TimedEvent>)
    requires ClosingPhase(s) && NoDeregister(events)
    ensures ClosingOutcome(s, Run(s, events))
    decreases |events|
  {
    if events != [] {
      ClosingStep(s, events[0]);
      if Step(s, events[0]).1.Continue? {
        ClosingRun(Step(s, events[0]).0, events[1..]);
        ClosingFromEarlier(s, Step(s, events[0]).0, Run(Step(s, events[0]).0, events[1..]));
      }
    }
  }

  /** Main result: from any phase, a shutdown signal and whatever follows it. */
  lemma SignalledRun(s: State, now: int, events: seq<TimedEvent>)
    requires Inv(s) && !s.cascade.Closing? && NoDeregister(events)
    ensures var begun := s.(exiting := true, history := s.history.(triggers := [], stopped := []));
            ClosingOutcome(begun, Run(s, [At(now, Signal(true))] + events))
  {
    var signal := At(now, Signal(true));
    assert ([signal] + events)[1..] == events;
    ShutdownFromAnyPhase(s, now);
    var (s1, flow) := Step(s, signal);
    if flow.Continue? {
      ClosingRun(s1, events);
      hide Step;
      ClosingFromEarlier(s.(exiting := true, history := s.history.(triggers := [], stopped := [])),
                         s1, Run(s1, events));
    }
  }

  // ----- However a shutdown begins -----

  /** A shutdown has begun from `s`: it is under way, or done with everyone dead, what it told to
      stop came in descending order, and nobody who was dead came back. */
  ghost predicate Begun(s: State, result: (State, Flow)) {
    && NobodyStarted(s, result.0)
    && Descending(result.0.history.stopped, s.roster.order)
    && match result.1
       case Continue => ClosingPhase(result.0)
       case Break => AllDead(result.0.roster.kids)
       case Panic => false
  }

  lemma BegunFromEarlier(s: State, s1: State, result: (State, Flow))
    requires NobodyStarted(s, s1) && Begun(s1, result)
    ensures Begun(s, result)
  {
    hide ClosingPhase, AllDead;
  }

  lemma ShutdownBegun(s: State)
    requires RosterOk(s.roster) && !s.cascade.Closing?
    ensures Begun(s, Shutdown(s))
  {
    NamesAreKids(s.roster);
    var begun := s.(exiting := true, history := s.history.(triggers := [], stopped := []));
    hide ClosingPhase, AdvanceShutdown, AllDead;
    AdvanceClosing(begun, Names(s.roster));
  }

  lemma {:induction false} AdvanceRestartStaysOpen(s: State, pending: seq<Name>)
    ensures AdvanceRestart(s, pending).0.exiting == s.exiting
    decreases |pending|
  {
    if pending != [] {
      var next, rest := pending[0], pending[1..];
      if next in s.roster.kids { AdvanceRestartStaysOpen(Launch(s, next).0, rest); } else { AdvanceRestartStaysOpen(s, rest); }
    }
  }

  lemma StopsNobodyStarts(s: State, n: Name, now: int)
    requires n in s.roster.kids && RosterOk(s.roster)
    ensures NobodyStarted(s, Stop(s, n).0) && RosterOk(Stop(s, n).0.roster)
    ensures NobodyStarted(s, Permitted(s, n, now).0) && RosterOk(Permitted(s, n, now).0.roster)
    ensures var s1 := Permitted(s, n, now).0;
            s1.exiting == s.exiting && s1.cascade == s.cascade && n in s1.roster.kids
  {
    hide Distinct;
  }

  /** The stop loop: if a budget refuses, what it begins is a shutdown of everyone. */
  lemma {:induction false} AdvanceStopBegins(
    s: State, pending: seq<Name>, toRestart: seq<Name>, toDrop: seq<Name>, now: int)
    requires RosterOk(s.roster) && !s.exiting && !s.cascade.Closing?
    ensures var result := AdvanceStop(s, pending, toRestart, toDrop, now);
            result.0.exiting ==> Begun(s, result)
    decreases |pending|
  {
    hide RosterOk, NobodyStarted, Begun, Shutdown, Reverse, DropAll, Permitted;
    if pending == [] {
      DropAllFacts(s, toDrop);
      AdvanceRestartStaysOpen(DropAll(s, toDrop), Reverse(toRestart));
    } else {
      var next, rest := pending[|pending| - 1], pending[..|pending| - 1];
      if next !in s.roster.kids {
        AdvanceStopBegins(s, rest, toRestart, toDrop, now);
      } else if s.roster.kids[next].mode == Never {
        StopsNobodyStarts(s, next, now);
        var (s1, stopping) := Stop(s, next);
        if !stopping {
          AdvanceStopBegins(s1, rest, toRestart, toDrop + [next], now);
          var result := AdvanceStop(s1, rest, toRestart, toDrop + [next], now);
          if result.0.exiting { BegunFromEarlier(s, s1, result); }
        }
      } else {
        StopsNobodyStarts(s, next, now);
        var (s1, granted) := Permitted(s, next, now);
        if !granted {
          ShutdownBegun(s1);
          BegunFromEarlier(s, s1, Shutdown(s1));
        } else {
          StopsNobodyStarts(s1, next, now);
          var (s2, stopping) := Stop(s1, next);
          NobodyStartedTransitive(s, s1, s2);
          if !stopping {
            AdvanceStopBegins(s2, rest, toRestart + [next], toDrop, now);
            var result := AdvanceStop(s2, rest, toRestart + [next], toDrop, now);
            if result.0.exiting { BegunFromEarlier(s, s2, result); }
          }
        }
      }
    }
  }

  lemma NobodyStartedTransitive(s: State, s1: State, s2: State)
    requires NobodyStarted(s, s1) && NobodyStarted(s1, s2)
    ensures NobodyStarted(s, s2)
  {
  }

  lemma CurrentExitBegins(s: State, n: Name, reason: ExitReason, now: int)
    requires RosterOk(s.roster) && !s.exiting && !s.cascade.Closing?
    ensures var result := HandleCurrentExit(s, n, reason, now);
            result.0.exiting ==> Begun(s, result)
  {
    hide RosterOk, NobodyStarted, Begun, Shutdown, AdvanceStop, AdvanceRestart, Permitted;
    var idle := s.(cascade := Idle);
    AdvanceCascadeBegins(s, now);
    AdvanceCascadeBegins(Drop(s, n), now) by { DropOk(s, n); }
    if s.cascade.Restarting? {
      AdvanceRestartStaysOpen(Drop(s, n).(cascade := Idle), s.cascade.pending);
      if n in s.roster.kids {
        StopsNobodyStarts(s, n, now);
        var s1 := Permitted(s, n, now).0;
        ShutdownBegun(s1);
        BegunFromEarlier(s, s1, Shutdown(s1));
      }
    }
  }

  lemma DropOk(s: State, n: Name)
    requires RosterOk(s.roster)
    ensures RosterOk(Drop(s, n).roster)
  {
  }

  lemma AdvanceCascadeBegins(s: State, now: int)
    requires RosterOk(s.roster) && !s.exiting && !s.cascade.Closing?
    ensures var result := AdvanceCascade(s, now);
            result.0.exiting ==> Begun(s, result)
  {
    hide RosterOk, AdvanceStop, AdvanceRestart, ClosingPhase, AllDead;
    var idle := s.(cascade := Idle);
    match s.cascade {
      case Exiting(_, pending, toRestart, toDrop) => AdvanceStopBegins(idle, pending, toRestart, toDrop, now);
      case Restarting(_, pending) => AdvanceRestartStaysOpen(idle, pending);
      case _ =>
    }
  }

  lemma StartCascadeBegins(s: State, trigger: Name, now: int)
    requires RosterOk(s.roster) && !s.exiting && !s.cascade.Closing?
    ensures var result := StartCascade(s, trigger, now);
            result.0.exiting ==> Begun(s, result)
  {
    hide RosterOk, AdvanceStop, ClosingPhase, AllDead, Names, Tail;
    if trigger in Names(s.roster) {
      var s0 := s.(history := s.history.(triggers := [trigger], stopped := []));
      AdvanceStopBegins(s0, Tail(s.roster, trigger), [trigger], [], now);
    }
  }

  lemma MergeStaysOpen(s: State, trigger: Name)
    requires s.cascade.Exiting?
    ensures MergeIntoStopping(s, trigger).0.exiting == s.exiting
  {
    hide Names, Collected, SortFails, InOrder;
  }

  lemma ExitBegins(s: State, n: Name, reason: ExitReason, now: int)
    requires RosterOk(s.roster) && !s.exiting && !s.cascade.Closing?
    ensures var result := HandleExit(s, n, reason, now);
            result.0.exiting ==> Begun(s, result)
  {
    hide RosterOk, NobodyStarted, Begun, Shutdown, StartCascade, MergeIntoStopping, Permitted, Permit, AdvanceCascade,
      HandleCurrentExit;
    if CurrentOf(s.cascade) == Some(n) {
      CurrentExitBegins(s, n, reason, now);
    } else if !PendingContains(s.cascade, n) && n in s.roster.kids && RequiresRestart(s.roster.kids[n].mode, reason) {
      var s1 := s.(restarter := Permit(s.restarter, now).0);
      SameRosterStarted(s, s1);
      ShutdownBegun(s1);
      BegunFromEarlier(s, s1, Shutdown(s1));
      StopsNobodyStarts(s1, n, now);
      var s2 := Permitted(s1, n, now).0;
      NobodyStartedTransitive(s, s1, s2);
      ShutdownBegun(s2);
      BegunFromEarlier(s, s2, Shutdown(s2));
      var s3 := s2.(cascade := Idle);
      SameRosterStarted(s2, s3);
      NobodyStartedTransitive(s, s2, s3);
      StartCascadeBegins(s3, n, now);
      if s2.cascade.Exiting? {
        MergeStaysOpen(s2, n);
      } else {
        assert s2.cascade.Idle? ==> s3 == s2;
        if StartCascade(s3, n, now).0.exiting { BegunFromEarlier(s, s3, StartCascade(s3, n, now)); }
      }
    }
  }

  lemma SameRosterStarted(s: State, s1: State)
    requires s1.roster == s.roster
    ensures NobodyStarted(s, s1)
  {
  }

  lemma PollStartsNobody(s: State, n: Name, ready: Ready)
    requires RosterOk(s.roster)
    ensures var s1 := s.(roster := PollKid(s.roster, n, ready).0);
            && NobodyStarted(s, s1) && NobodyStarted(s, Settle(s1, n)) && RosterOk(s1.roster)
  {
    hide Distinct;
  }

  /** Main result: whatever begins a shutdown, be it a signal or a budget that refuses a restart
      (of the child that exited, of a sibling to be stopped, or in place), from then on it is a
      shutdown like any other, or it is done with everyone dead; and the step that begins it
      starts nobody. */
  lemma ShutdownBegins(s: State, e: TimedEvent)
    requires Inv(s) && Allowed(s, e) && !s.exiting && Step(s, e).0.exiting
    ensures Begun(s, Step(s, e))
  {
    OpenNow(s);
    hide Inv, RosterOk, NobodyStarted, Begun, Shutdown, HandleExit, AfterInitialized, RemoveSpec, AddSpec, PollKid;
    match e.event {
      case Signal(_) => ShutdownBegun(s);
      case Register(_, _, _) =>
      case Deregister(name) => DeregisterStaysOpen(s, name, e.now);
      case Poll(n, ready) =>
        var (r, item) := PollKid(s.roster, n, ready);
        PollStartsNobody(s, n, ready);
        var s1 := Settle(s.(roster := r), n);
        if item.Some? && ReasonOf(item.value).Some? {
          ExitBegins(s1, n, ReasonOf(item.value).value, e.now);
          BegunFromEarlier(s, s1, Step(s, e));
        } else if item.Some? {
          InitializedBegins(s1, n, e.now);
          if item.value.Initialized? { BegunFromEarlier(s, s1, Step(s, e)); }
        }
    }
  }

  lemma OpenNow(s: State)
    requires Inv(s) && !s.exiting
    ensures RosterOk(s.roster) && !s.cascade.Closing?
  {
  }

  lemma DeregisterStaysOpen(s: State, n: Name, now: int)
    requires !s.exiting && (s.cascade.Idle? || s.cascade.Restarting?)
    ensures !RemoveSpec(s, n, now).exiting
  {
    hide AdvanceRestart;
    if s.cascade.Restarting? { AdvanceRestartStaysOpen(Drop(s, n).(cascade := Idle), s.cascade.pending); }
  }

  lemma InitializedBegins(s: State, n: Name, now: int)
    requires RosterOk(s.roster) && !s.exiting && !s.cascade.Closing?
    ensures AfterInitialized(s, n, now).0.exiting ==> Begun(s, AfterInitialized(s, n, now))
  {
    hide RosterOk, Begun, AdvanceCascade;
    AdvanceCascadeBegins(s, now);
  }

  /** Main result, whole runs: once a shutdown has begun, in whatever way, and until it is over,
      nobody is started, stops go on in reverse start order, and it ends only with everyone
      dead; over any events but deregistration. */
  lemma ShutdownRun(s: State, e: TimedEvent, events: seq<TimedEvent>)
    requires Inv(s) && Allowed(s, e) && !s.exiting && Step(s, e).0.exiting && NoDeregister(events)
    ensures Begun(s, Run(s, [e] + events))
    ensures Step(s, e).1.Continue? ==> ClosingOutcome(Step(s, e).0, Run(s, [e] + events))
  {
    ShutdownBegins(s, e);
    assert ([e] + events)[1..] == events && ([e] + events)[0] == e;
    var (s1, flow) := Step(s, e);
    if flow.Continue? {
      ClosingRun(s1, events);
      hide Step;
      ClosingIsBegun(s1, Run(s1, events));
      BegunFromEarlier(s, s1, Run(s1, events));
    }
  }

  lemma ClosingIsBegun(s: State, result: (State, Flow))
    requires ClosingOutcome(s, result)
    ensures Begun(s, result)
  {
    hide ClosingPhase, AllDead, NobodyStarted;
  }
}
