/** The shutdown of a rest-for-one supervisor over any events whatever, deregistration included. */
module RestForOneClosing {
  import opened Common
  import opened RestartBudget
  import opened Supervisees
  import opened Rosters
  import opened Supervision
  import opened RestForOne
  import opened RestForOneSafety
  import opened RestForOneStopPhase
  import opened RestForOneShutdown
  import opened RestForOneAnyEvents

  /** The supervisor is exiting: what it told to stop came in descending order, ending with the
      child it waits for, and what is still pending is in order and comes before all of it. */
  ghost predicate Ending(s: State) {
    && Sound(s) && s.exiting
    && Descending(s.history.stopped, s.roster.order)
    && (s.cascade.Closing? ==>
          && Sorted(s.cascade.pending, s.roster.order)
          && AllBefore(s.cascade.pending, s.history.stopped, s.roster.order)
          && s.history.stopped != [] && s.history.stopped[|s.history.stopped| - 1] == s.cascade.current)
  }

  /** From `s` on nobody joined, and nobody who was dead came back. */
  ghost predicate NobodyRevived(s: State, s': State) {
    && s'.roster.order == s.roster.order && s'.roster.kids.Keys <= s.roster.kids.Keys
    && forall n :: n in s'.roster.kids && s.roster.kids[n].life == Dead ==> s'.roster.kids[n].life == Dead
  }

  ghost predicate EndingOutcome(s: State, result: (State, Flow)) {
    && NobodyRevived(s, result.0)
    && Descending(result.0.history.stopped, s.roster.order)
    && match result.1
       case Continue => Ending(result.0)
       case Break => RosterOk(result.0.roster) && result.0.exiting && result.0.cascade.Idle? && AllDead(result.0.roster.kids)
       case Panic => false
  }

  lemma Later(s: State, s1: State, result: (State, Flow))
    requires NobodyRevived(s, s1) && EndingOutcome(s1, result)
    ensures EndingOutcome(s, result)
  {
    hide Ending, AllDead, RosterOk, Descending;
  }

  // ----- The loop -----

  /** Where the shutdown loop is entered. */
  ghost predicate Entering(s: State, pending: seq<Name>) {
    && RosterOk(s.roster) && s.exiting && Tracks(s.roster.kids, None, pending)
    && Sorted(pending, s.roster.order)
    && Descending(s.history.stopped, s.roster.order)
    && AllBefore(pending, s.history.stopped, s.roster.order)
  }

  lemma StopEnds(s: State, pending: seq<Name>)
    requires Entering(s, pending) && pending != [] && pending[|pending| - 1] in s.roster.kids
    ensures var next, rest := pending[|pending| - 1], pending[..|pending| - 1];
            var (s1, stopping) := Stop(s, next);
            && NobodyRevived(s, s1) && s1.history.stopped == s.history.stopped + [next]
            && if stopping then Ending(s1.(cascade := Closing(next, rest))) else Entering(s1, rest)
  {
    var next, rest := pending[|pending| - 1], pending[..|pending| - 1];
    LastIsPlacedLast(pending, s.roster.order);
    SortedInit(pending, s.roster.order, next);
    SortedIsDistinct(pending, s.roster.order);
    PopLast(pending);
    StopKeepsRoster(s, next);
    StopOrders(s.history.stopped, rest, next, s.roster.order, pending);
    hide Sorted, Descending, AllBefore, Distinct, RosterOk;
  }

  lemma SkipEnds(s: State, pending: seq<Name>)
    requires Entering(s, pending) && pending != [] && pending[|pending| - 1] !in s.roster.kids
    ensures Entering(s, pending[..|pending| - 1])
  {
    LastIsPlacedLast(pending, s.roster.order);
    SortedInit(pending, s.roster.order, pending[|pending| - 1]);
    hide Sorted, Descending, Distinct, RosterOk;
  }

  lemma {:induction false} LoopEnds(s: State, pending: seq<Name>)
    requires Entering(s, pending)
    ensures EndingOutcome(s, AdvanceShutdown(s, pending))
    ensures s.history.stopped <= AdvanceShutdown(s, pending).0.history.stopped
    decreases |pending|
  {
    hide NobodyRevived, EndingOutcome, Ending, Stop;
    if pending == [] {
      NothingPending(s);
    } else {
      hide Entering;
      var next, rest := pending[|pending| - 1], pending[..|pending| - 1];
      if next !in s.roster.kids {
        SkipEnds(s, pending);
        LoopEnds(s, rest);
      } else {
        StopEnds(s, pending);
        var (s1, stopping) := Stop(s, next);
        if stopping {
          WaitsFor(s, s1, next, rest);
        } else {
          LoopEnds(s1, rest);
          Later(s, s1, AdvanceShutdown(s1, rest));
        }
      }
    }
  }

  lemma NothingPending(s: State)
    requires Entering(s, [])
    ensures EndingOutcome(s, (s.(cascade := Idle), Break))
  {
    hide RosterOk, Descending;
  }

  lemma WaitsFor(s: State, s1: State, next: Name, rest: seq<Name>)
    requires NobodyRevived(s, s1) && Ending(s1.(cascade := Closing(next, rest)))
    ensures EndingOutcome(s, (s1.(cascade := Closing(next, rest)), Continue))
  {
    hide Descending;
  }

  // ----- Every step -----

  lemma SameRoster(s: State, s1: State)
    requires s1.roster == s.roster
    ensures NobodyRevived(s, s1)
  {
  }

  /** A signal that finds the end lost ends the loop. */
  lemma SignalEnds(s: State)
    requires Ending(s)
    ensures EndingOutcome(s, Shutdown(s))
    ensures s.cascade.Closing? ==> Shutdown(s) == (s, Continue)
    ensures s.cascade.Idle? ==> Shutdown(s).1.Break?
  {
    if s.cascade.Idle? {
      var begun := s.(exiting := true, history := s.history.(triggers := [], stopped := []));
      NamesAreKids(s.roster);
      NamesTrackAll(s.roster);
      ShutdownEndsIff(begun, Names(s.roster));
      hide AdvanceShutdown, Names, Sorted, Distinct;
      LoopEnds(begun, Names(s.roster));
      SameRoster(s, begun);
      Later(s, begun, AdvanceShutdown(begun, Names(s.roster)));
    }
  }

  /** The child waited for is gone from the roster, or dead. */
  lemma CurrentGoes(s: State, s1: State, now: int)
    requires Ending(s) && s.cascade.Closing? && NobodyRevived(s, s1) && RosterOk(s1.roster)
    requires s1.cascade == s.cascade && s1.exiting && s1.history.stopped == s.history.stopped
    requires Tracks(s1.roster.kids, None, s.cascade.pending)
    ensures EndingOutcome(s, AdvanceCascade(s1, now))
    ensures s.history.stopped <= AdvanceCascade(s1, now).0.history.stopped
  {
    hide NobodyRevived, Tracks, RosterOk, AdvanceShutdown, EndingOutcome;
    var idle := s1.(cascade := Idle);
    SameOrder(s, s1);
    LoopEnds(idle, s.cascade.pending);
    SameRoster(s1, idle);
    Later(s1, idle, AdvanceShutdown(idle, s.cascade.pending));
    Later(s, s1, AdvanceShutdown(idle, s.cascade.pending));
  }

  lemma SameOrder(s: State, s1: State)
    requires NobodyRevived(s, s1)
    ensures s1.roster.order == s.roster.order
  {
  }

  /** An end that is not passed on leaves the supervisor ending all the same. */
  lemma EndLost(s: State, result: (State, Flow))
    requires EndingOutcome(s, result)
    ensures EndingOutcome(s, (result.0, Continue))
  {
    hide Descending;
  }

  lemma DeregisterEnds(s: State, n: Name, now: int)
    requires Ending(s)
    ensures EndingOutcome(s, (RemoveSpec(s, n, now), Continue))
    ensures s.history.stopped <= RemoveSpec(s, n, now).history.stopped
  {
    hide AdvanceCascade, Sorted, Descending, AllBefore, Distinct;
    if n in s.roster.kids {
      var dropped := Drop(s, n);
      if CurrentOf(s.cascade) == Some(n) {
        CurrentGoes(s, dropped, now);
        EndLost(s, AdvanceCascade(dropped, now));
      } else {
        DropOtherSound(s, n);
      }
    }
  }

  lemma CurrentReports(s: State, ready: Ready, now: int)
    requires Ending(s) && s.cascade.Closing? && PollKid(s.roster, s.cascade.current, ready).1.Some?
    ensures var (r, item) := PollKid(s.roster, s.cascade.current, ready);
            var s1 := Settle(s.(roster := r), s.cascade.current);
            && ReasonOf(item.value).Some?
            && EndingOutcome(s, AdvanceCascade(s1, now))
            && s.history.stopped <= AdvanceCascade(s1, now).0.history.stopped
  {
    hide AdvanceCascade, Sorted, Descending, AllBefore, Distinct;
    CurrentGoes(s, Settle(s.(roster := PollKid(s.roster, s.cascade.current, ready).0), s.cascade.current), now);
  }

  lemma OtherReports(s: State, n: Name, ready: Ready)
    requires Ending(s) && CurrentOf(s.cascade) != Some(n) && PollKid(s.roster, n, ready).1.Some?
    ensures s.cascade.Closing? && n in s.cascade.pending
    ensures var r := PollKid(s.roster, n, ready).0;
            && EndingOutcome(s, (s.(roster := r), Continue))
            && EndingOutcome(s, (Settle(s.(roster := r), n), Continue))
  {
    hide Sorted, Descending, AllBefore, Distinct;
  }

  lemma StaysEnding(s: State)
    requires Ending(s)
    ensures EndingOutcome(s, (s, Continue))
  {
    SameRoster(s, s);
    hide Descending;
  }

  lemma IdleOrClosing(s: State)
    requires Ending(s)
    ensures s.exiting && (s.cascade.Idle? || s.cascade.Closing?)
  {
  }

  /** What a report does, told from the state `s1` with the report made. */
  lemma ReportEnds(s: State, e: TimedEvent, s1: State, item: Item)
    requires e.event.Poll? && (s.cascade.Idle? || s.cascade.Closing?)
    requires PollKid(s.roster, e.event.name, e.event.ready) == (s1.roster, Some(item))
    requires s1 == Settle(s.(roster := s1.roster), e.event.name)
    requires CurrentOf(s.cascade) != Some(e.event.name) ==> s.cascade.Closing? && e.event.name in s.cascade.pending
    requires CurrentOf(s.cascade) == Some(e.event.name) ==> ReasonOf(item).Some?
    ensures Step(s, e) == if CurrentOf(s.cascade) == Some(e.event.name) then AdvanceCascade(s1, e.now)
                          else if item == Started(true) then (s.(roster := s1.roster), Continue) else (s1, Continue)
  {
    var n := e.event.name;
    if CurrentOf(s.cascade) == Some(n) {
      ExitOfCurrentAdvances(s1, n, ReasonOf(item).value, e.now);
    } else {
      OtherReportsClosing(s1, n, item, e.now);
    }
    hide AdvanceCascade, HandleExit, AfterInitialized, PollKid;
  }

  lemma PollEnds(s: State, e: TimedEvent)
    requires Ending(s) && e.event.Poll? && PollKid(s.roster, e.event.name, e.event.ready).1.Some?
    ensures EndingOutcome(s, Step(s, e))
    ensures s.cascade.Closing? ==> s.history.stopped <= Step(s, e).0.history.stopped
  {
    IdleOrClosing(s);
    hide Ending, EndingOutcome, AdvanceCascade, Step, PollKid;
    var n, ready := e.event.name, e.event.ready;
    var (r, item) := PollKid(s.roster, n, ready);
    if CurrentOf(s.cascade) == Some(n) { CurrentReports(s, ready, e.now); } else { OtherReports(s, n, ready); }
    ReportEnds(s, e, Settle(s.(roster := r), n), item.value);
  }

  lemma SilentPoll(s: State, e: TimedEvent)
    requires e.event.Poll? && PollKid(s.roster, e.event.name, e.event.ready).1.None?
    ensures Step(s, e) == (s, Continue)
  {
  }

  lemma RegisterRefused(s: State, e: TimedEvent)
    requires s.exiting && e.event.Register?
    ensures Step(s, e) == (s, Continue)
  {
  }

  /** Main result, one step of a shutdown, over any event whatever: nobody joins or comes back,
      stops go on in reverse start order, nothing fails, and the loop ends only with everyone
      dead. */
  lemma EndingStep(s: State, e: TimedEvent)
    requires Ending(s)
    ensures EndingOutcome(s, Step(s, e))
    ensures s.cascade.Closing? ==> s.history.stopped <= Step(s, e).0.history.stopped
  {
    StaysEnding(s);
    IdleOrClosing(s);
    match e.event {
      case Signal(_) =>
        SignalEnds(s);
        hide Ending, EndingOutcome, Shutdown;
      case Register(_, _, _) =>
        RegisterRefused(s, e);
        hide *;
      case Deregister(n) =>
        DeregisterEnds(s, n, e.now);
        hide Ending, EndingOutcome, RemoveSpec;
      case Poll(n, ready) =>
        if PollKid(s.roster, n, ready).1.Some? { PollEnds(s, e); } else { SilentPoll(s, e); }
        hide *;
    }
  }

  /** Main result, whole runs, over any events whatever. */
  lemma {:induction false} EndingRun(s: State, events: seq<TimedEvent>)
    requires Ending(s)
    ensures EndingOutcome(s, Run(s, events))
    decreases |events|
  {
    hide Ending, EndingOutcome, Step;
    if events == [] {
      StaysEnding(s);
    } else {
      EndingStep(s, events[0]);
      var (s1, flow) := Step(s, events[0]);
      if flow.Continue? {
        GoesOn(s, s1);
        EndingRun(s1, events[1..]);
        Later(s, s1, Run(s1, events[1..]));
      }
    }
  }

  lemma GoesOn(s: State, s1: State)
    requires EndingOutcome(s, (s1, Continue))
    ensures Ending(s1) && NobodyRevived(s, s1)
  {
  }

  // ----- However it begins -----

  /** A shutdown has begun from `s`, or is over. */
  ghost predicate EndingBegan(s: State, result: (State, Flow)) {
    && NobodyRevived(s, result.0)
    && Descending(result.0.history.stopped, s.roster.order)
    && match result.1
       case Continue => Ending(result.0)
       case Break => AllDead(result.0.roster.kids)
       case Panic => false
  }

  lemma BegunIsEnding(s: State, result: (State, Flow))
    requires Begun(s, result) && (result.1.Continue? ==> result.0.exiting)
    ensures EndingBegan(s, result)
  {
    if result.1.Continue? { InvIsSound(result.0); }
    hide Descending, AllBefore, Sorted, Distinct;
  }

  lemma BeganFromEarlier(s: State, s1: State, result: (State, Flow))
    requires NobodyRevived(s, s1) && EndingBegan(s1, result)
    ensures EndingBegan(s, result)
  {
    hide Ending, AllDead, Descending;
  }

  /** A deregistration that begins a shutdown, and does not pass its end on. */
  lemma DeregisterBegins(s: State, n: Name, now: int)
    requires Sound(s) && !s.exiting && RemoveSpec(s, n, now).exiting
    ensures EndingBegan(s, (RemoveSpec(s, n, now), Continue))
  {
    var dropped := Drop(s, n);
    RemoveSpecSound(s, n, now);
    NotClosingYet(s);
    DropOk(s, n);
    AdvanceCascadeBegins(dropped, now);
    hide AdvanceCascade, Sound;
    BegunLost(dropped, AdvanceCascade(dropped, now));
    DropRevivesNobody(s, n);
    BeganFromEarlier(s, dropped, (AdvanceCascade(dropped, now).0, Continue));
  }

  lemma BegunLost(s: State, result: (State, Flow))
    requires Begun(s, result) && Sound(result.0) && result.0.exiting
    ensures EndingBegan(s, (result.0, Continue))
  {
    hide Descending, AllBefore, Sorted, Distinct;
  }

  lemma DropRevivesNobody(s: State, n: Name)
    ensures NobodyRevived(s, Drop(s, n))
  {
  }

  lemma NotClosingYet(s: State)
    requires Sound(s) && !s.exiting
    ensures RosterOk(s.roster) && !s.cascade.Closing?
  {
  }

  /** Main result: whatever event begins a shutdown, deregistrations included, nobody who was
      dead comes back, and the shutdown is under way or everyone is dead. */
  lemma EndingBegins(s: State, e: TimedEvent)
    requires Sound(s) && !s.exiting && Step(s, e).0.exiting
    ensures EndingBegan(s, Step(s, e))
  {
    NotClosingYet(s);
    hide Sound, RosterOk, NobodyStarted, Begun, Shutdown, HandleExit, AfterInitialized, RemoveSpec, AddSpec, PollKid,
      EndingBegan;
    match e.event {
      case Signal(_) =>
        ShutdownBegun(s);
        BegunIsEnding(s, Shutdown(s));
      case Register(_, _, _) =>
      case Deregister(name) => DeregisterBegins(s, name, e.now);
      case Poll(n, ready) =>
        var (r, item) := PollKid(s.roster, n, ready);
        PollStartsNobody(s, n, ready);
        var s1 := Settle(s.(roster := r), n);
        if item.Some? && ReasonOf(item.value).Some? {
          ExitBegins(s1, n, ReasonOf(item.value).value, e.now);
          BegunFromEarlier(s, s1, Step(s, e));
          BegunIsEnding(s, Step(s, e));
        } else if item.Some? {
          InitializedBegins(s1, n, e.now);
          if item.value.Initialized? {
            BegunFromEarlier(s, s1, Step(s, e));
            BegunIsEnding(s, Step(s, e));
          }
        }
    }
  }

  /** Main result, whole shutdowns: from the event that begins it, over any events whatever,
      nobody who was dead comes back, stops come in reverse start order, nothing fails, and the
      loop ends only with everyone dead. */
  lemma WholeShutdown(s: State, e: TimedEvent, events: seq<TimedEvent>)
    requires Sound(s) && !s.exiting && Step(s, e).0.exiting
    ensures EndingBegan(s, Run(s, [e] + events))
  {
    EndingBegins(s, e);
    assert ([e] + events)[1..] == events && ([e] + events)[0] == e;
    var (s1, flow) := Step(s, e);
    hide Step;
    if flow.Continue? {
      EndingRun(s1, events);
      OutcomeBegan(s, s1, Run(s1, events));
    }
  }

  lemma OutcomeBegan(s: State, s1: State, result: (State, Flow))
    requires NobodyRevived(s, s1) && EndingOutcome(s1, result)
    ensures EndingBegan(s, result)
  {
    hide Ending, AllDead, Descending, RosterOk;
  }
}
