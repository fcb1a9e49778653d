/** The restart phase over whole runs: which children a cascade loses track of, and when more
    than one restart is under way at a time. Both come about in one way only, an exit that
    interrupts a restart phase, and here it is told exactly when. */
module RestForOneTidiness {
  import opened Common
  import opened RestartBudget
  import opened Supervisees
  import opened Rosters
  import opened Supervision
  import opened RestForOne
  import opened RestForOneSafety
  import opened RestForOneStopPhase
  import opened RestForOneRestart

  /** The exit that `e` brings about, of a child other than the one being waited for, calls for
      a restart while a restart phase is under way. */
  ghost predicate Interrupts(s: State, e: TimedEvent) {
    && s.cascade.Restarting? && e.event.Poll? && e.event.name != s.cascade.current
    && var (_, item) := PollKid(s.roster, e.event.name, e.event.ready);
    && item.Some? && ReasonOf(item.value).Some?
    && RequiresRestart(s.roster.kids[e.event.name].mode, ReasonOf(item.value).value)
  }

  /** The queued children an interruption forgets: those placed before the one that exited. */
  ghost function Lost(s: State, e: TimedEvent): set<Name>
    requires Interrupts(s, e)
  {
    set n | n in s.cascade.pending && n in s.roster.kids && s.roster.kids[n].life == Dead
            && IsBefore(s.roster, n, e.event.name)
  }

  /** The child in flight, if an interruption leaves it to itself. */
  ghost function Adrift(s: State, e: TimedEvent): set<Name>
    requires Interrupts(s, e)
  {
    if IsBefore(s.roster, s.cascade.current, e.event.name) then {s.cascade.current} else {}
  }

  ghost predicate TidyOutcome(s: State, e: TimedEvent, s': State) {
    !s'.exiting ==>
      && Orphans(s') == (if Interrupts(s, e) then Lost(s, e) else {})
      && Loose(s') == (if Interrupts(s, e) then Adrift(s, e) else {})
      && (s'.cascade.Restarting? ==> s'.cascade.current in s'.history.launched)
  }

  /** The state in which the exit of `n` is handled. */
  ghost predicate ExitTidy(s: State, n: Name) {
    && ExitReady(s, n)
    && Orphans(s) <= {n} && n !in s.history.launched
    && (s.cascade.Exiting? && s.cascade.current == n ==> Orphans(s) == {})
    && Loose(s) == {}
    && (s.cascade.Restarting? && s.cascade.current != n ==> s.cascade.current in s.history.launched)
    && (s.cascade.Restarting? ==> n !in s.cascade.pending || s.cascade.current != n)
  }

  lemma ExitTidies(s: State, n: Name, ready: Ready)
    requires Inv(s) && Tidy(s) && !s.exiting
    requires var (_, item) := PollKid(s.roster, n, ready); item.Some? && ReasonOf(item.value).Some?
    ensures ExitTidy(Settle(s.(roster := PollKid(s.roster, n, ready).0), n), n)
  {
    PollGood(s, n, ready);
    hide Inv, ExitReady;
  }

  lemma LaunchedArePending(s: State, pending: seq<Name>, toRestart: seq<Name>, toDrop: seq<Name>)
    requires s.history.launched - SetOf(pending) == {}
    requires Disjoint(pending, toRestart) && Disjoint(pending, toDrop)
    ensures SettledNotLaunched(s, toRestart, toDrop)
  {
    forall n | n in s.history.launched ensures n in pending {
      assert n !in s.history.launched - SetOf(pending);
    }
  }

  lemma CurrentExitTidies(s: State, n: Name, reason: ExitReason, now: int)
    requires ExitTidy(s, n) && CurrentOf(s.cascade) == Some(n)
    requires s.cascade.Restarting? ==> !reason.ExitOf?
    ensures var s' := HandleCurrentExit(s, n, reason, now).0;
            !s'.exiting ==> Tidy(s')
  {
    match s.cascade {
      case Exiting(_, pending, toRestart, toDrop) =>
        LaunchedArePending(s, pending, toRestart, toDrop);
        assert DeadOutside(s.roster, pending, toRestart, toDrop) == Orphans(s);
        AdvanceStopTidies(s.(cascade := Idle), pending, toRestart, toDrop, now);
      case Restarting(_, pending) =>
        if !RequiresRestart(s.roster.kids[n].mode, reason) {
          AdvanceRestartTidies(Drop(s, n).(cascade := Idle), pending);
        } else {
          var (s1, granted) := Permitted(s, n, now);
          if !granted {
            ShutdownExits(s1);
          } else {
            var s' := Launch(s1, n).0;
            assert Orphans(s') == {};
          }
        }
      case Closing(_, pending) =>
        AdvanceShutdownExits(s.(cascade := Idle), pending);
    }
  }

  lemma TriggerTidies(s: State, n: Name, now: int)
    requires ExitTidy(s, n) && CurrentOf(s.cascade) != Some(n) && !PendingContains(s.cascade, n)
    requires s.roster.kids[n].mode != Never
    requires s.cascade.Exiting?
    ensures MergeIntoStopping(s, n).1.Continue? ==> Tidy(MergeIntoStopping(s, n).0)
  {
    CollectedFacts(s, n);
    NamesAreKids(s.roster);
    var collected := Collected(Names(s.roster), n, s.cascade);
    hide Collected, Names;
    assert Known(collected, s.roster.kids);
    InOrderFacts(s.roster, collected);
    hide InOrder;
    var (s', flow) := MergeIntoStopping(s, n);
    if flow.Continue? {
      forall m | m in s.cascade.pending ensures m in s'.cascade.pending {
        assert m in collected;
      }
      MergeTracks(s, s', n);
    }
  }

  lemma MergeTracks(s: State, s': State, n: Name)
    requires s.cascade.Exiting? && s'.cascade.Exiting? && Orphans(s) <= {n} && Loose(s) == {}
    requires s'.roster == s.roster && s'.history.launched == s.history.launched
    requires forall m :: m in s.cascade.pending ==> m in s'.cascade.pending
    requires s'.cascade.toRestart == s.cascade.toRestart + [n] && s'.cascade.toDrop == s.cascade.toDrop
    ensures Tidy(s')
  {
    assert n in s'.cascade.toRestart;
    assert Orphans(s') <= Orphans(s) - {n};
    assert Loose(s') <= Loose(s);
  }

  ghost predicate OtherExitOutcome(s: State, n: Name, reason: ExitReason, s': State)
    requires n in s.roster.kids
  {
    var interrupts := s.cascade.Restarting? && RequiresRestart(s.roster.kids[n].mode, reason);
    !s'.exiting ==>
      && (!interrupts ==> Tidy(s'))
      && (interrupts ==>
            && Orphans(s') == (set m | m in s.roster.kids && s.roster.kids[m].life == Dead && IsBefore(s.roster, m, n))
            && Loose(s') == (if IsBefore(s.roster, s.cascade.current, n) then {s.cascade.current} else {})
            && (s'.cascade.Restarting? ==> s'.cascade.current in s'.history.launched))
  }

  /** Both budgets allow it, and no stop phase or shutdown is under way. */
  lemma FreshTriggerTidies(s: State, s2: State, n: Name, reason: ExitReason, now: int)
    requires ExitTidy(s, n) && CurrentOf(s.cascade) != Some(n)
    requires s.cascade.Idle? || s.cascade.Restarting?
    requires RequiresRestart(s.roster.kids[n].mode, reason)
    requires s2 == Permitted(s.(restarter := Permit(s.restarter, now).0), n, now).0
    ensures OtherExitOutcome(s, n, reason, StartCascade(s2.(cascade := Idle), n, now).0)
  {
    TriggerReady(s, s2, n, reason, now);
    TriggerLeaves(s, n);
    hide StartCascade, ExitTidy, ExitReady, RosterOk, NoneStopping, IsBefore;
    StartCascadeTidies(s2.(cascade := Idle), n, now);
  }

  /** The two permits leave nothing in the way of a cascade. */
  lemma TriggerReady(s: State, s2: State, n: Name, reason: ExitReason, now: int)
    requires ExitTidy(s, n) && CurrentOf(s.cascade) != Some(n)
    requires s.cascade.Idle? || s.cascade.Restarting?
    requires RequiresRestart(s.roster.kids[n].mode, reason)
    requires s2 == Permitted(s.(restarter := Permit(s.restarter, now).0), n, now).0
    ensures RosterOk(s2.roster) && !s2.exiting && NoneStopping(s2.roster.kids)
    ensures n in s2.roster.kids && s2.roster.kids[n].life == Dead && s2.roster.kids[n].mode != Never
    ensures n !in s2.history.launched && s2.history == s.history && s2.history.launched <= s2.roster.kids.Keys
    ensures (set m | m in s2.roster.kids && s2.roster.kids[m].life == Dead && IsBefore(s2.roster, m, n))
            == (set m | m in s.roster.kids && s.roster.kids[m].life == Dead && IsBefore(s.roster, m, n))
    ensures (set m | m in s2.history.launched && IsBefore(s2.roster, m, n))
            == (set m | m in s.history.launched && IsBefore(s.roster, m, n))
  {
    hide Sorted, Distinct, Orphans;
    forall m | m in s.history.launched ensures m in s.roster.kids {
      assert m !in Loose(s);
    }
  }

  /** Who is dead or on the way before the trigger, where the cascade was idle or restarting. */
  lemma TriggerLeaves(s: State, n: Name)
    requires ExitTidy(s, n) && CurrentOf(s.cascade) != Some(n)
    ensures s.cascade.Idle? ==>
              && (set m | m in s.roster.kids && s.roster.kids[m].life == Dead && IsBefore(s.roster, m, n)) == {}
              && (set m | m in s.history.launched && IsBefore(s.roster, m, n)) == {}
    ensures s.cascade.Restarting? ==>
              (set m | m in s.history.launched && IsBefore(s.roster, m, n))
              == (if IsBefore(s.roster, s.cascade.current, n) then {s.cascade.current} else {})
  {
    hide ExitReady;
    if s.cascade.Idle? {
      assert (set m | m in s.roster.kids && s.roster.kids[m].life == Dead && IsBefore(s.roster, m, n))
             <= Orphans(s) - {n};
      assert (set m | m in s.history.launched && IsBefore(s.roster, m, n)) <= Loose(s);
    } else if s.cascade.Restarting? {
      assert s.history.launched == {s.cascade.current} by { assert s.history.launched - {s.cascade.current} == {}; }
    }
  }

  /** The exit of a child other than the one the cascade waits for. */
  lemma OtherExitTidies(s: State, n: Name, reason: ExitReason, now: int)
    requires ExitTidy(s, n) && CurrentOf(s.cascade) != Some(n)
    ensures HandleExit(s, n, reason, now).1.Continue? ==>
              OtherExitOutcome(s, n, reason, HandleExit(s, n, reason, now).0)
  {
    if PendingContains(s.cascade, n) {
      assert !s.exiting ==> Tidy(s);
    } else if !RequiresRestart(s.roster.kids[n].mode, reason) {
      assert !s.exiting ==> Tidy(Drop(s, n));
    } else {
      var (restarter, shared) := Permit(s.restarter, now);
      var s1 := s.(restarter := restarter);
      var (s2, own) := Permitted(s1, n, now);
      ShutdownExits(s1);
      ShutdownExits(s2);
      if shared && own {
        if s2.cascade.Exiting? {
          BudgetKeepsTidy(s, s2, n);
          TriggerTidies(s2, n, now);
          hide MergeIntoStopping, ExitTidy, ExitReady, Tidy;
        } else if !s2.cascade.Closing? {
          FreshTriggerTidies(s, s2, n, reason, now);
          hide StartCascade, ExitTidy, ExitReady, OtherExitOutcome;
        } else {
          hide ExitTidy;
        }
      } else {
        hide Shutdown, ExitTidy, ExitReady;
      }
    }
  }

  lemma BudgetKeepsTidy(s: State, s2: State, n: Name)
    requires ExitTidy(s, n) && s.cascade.Exiting? && s.cascade.current != n
    requires s2.roster.order == s.roster.order && s2.roster.kids.Keys == s.roster.kids.Keys
    requires forall m :: m in s.roster.kids ==>
               s2.roster.kids[m].life == s.roster.kids[m].life && s2.roster.kids[m].mode == s.roster.kids[m].mode
    requires s2.cascade == s.cascade && s2.history == s.history && s2.exiting == s.exiting
    ensures ExitTidy(s2, n)
  {
    assert Orphans(s2) == Orphans(s);
  }

  /** Main result, one step: a step that does not shut the supervisor down forgets exactly the
      queued children that an interruption passes over, and sets adrift exactly the child in
      flight if the interruption comes from a child placed after it. No other step forgets
      anyone or starts a second restart beside the first. */
  lemma StepTidies(s: State, e: TimedEvent)
    requires Inv(s) && Tidy(s) && Allowed(s, e)
    ensures Step(s, e).1.Continue? ==> TidyOutcome(s, e, Step(s, e).0)
  {
    match e.event {
      case Signal(isShutdown) => if isShutdown { ShutdownExits(s); }
      case Register(name, mode, intensity) => RegisterTidies(s, name, mode, intensity);
      case Deregister(name) => DeregisterTidies(s, name, e.now);
      case Poll(n, ready) =>
        var (r, item) := PollKid(s.roster, n, ready);
        if s.exiting {
          ClosingStays(s, e);
        } else if item.Some? {
          if ReasonOf(item.value).Some? {
            ExitTidies(s, n, ready);
            PollGood(s, n, ready);
            StepExitTidies(s, e, Settle(s.(roster := r), n), ReasonOf(item.value).value);
          } else {
            PollSuccessTidies(s, n, ready, e.now);
          }
        }
    }
  }

  lemma RegisterTidies(s: State, name: Name, mode: RestartMode, intensity: Option<Intensity>)
    requires Inv(s) && Tidy(s)
    ensures Tidy(s.(roster := AddSpec(s.roster, s.exiting, name, mode, intensity)))
  {
    assert Orphans(s.(roster := AddSpec(s.roster, s.exiting, name, mode, intensity))) <= Orphans(s);
  }

  lemma DeregisterTidies(s: State, name: Name, now: int)
    requires Inv(s) && Tidy(s) && (s.cascade.Idle? || s.cascade.Restarting?)
    ensures Tidy(RemoveSpec(s, name, now))
  {
    if name in s.roster.kids {
      var s1 := Drop(s, name);
      assert Orphans(s1) <= Orphans(s) && Loose(s1) <= Loose(s);
      if CurrentOf(s.cascade) == Some(name) {
        assert s1.history.launched == {};
        AdvanceRestartTidies(s1.(cascade := Idle), s.cascade.pending);
        assert (set n | n in s1.roster.kids && s1.roster.kids[n].life == Dead && n !in s.cascade.pending) <= Orphans(s);
      }
    }
  }

  lemma PollSuccessTidies(s: State, n: Name, ready: Ready, now: int)
    requires Inv(s) && Tidy(s) && !s.exiting
    requires var (_, item) := PollKid(s.roster, n, ready); item.Some? && ReasonOf(item.value).None?
    ensures var (r, item) := PollKid(s.roster, n, ready);
            && (item.value.Started? ==> Tidy(s.(roster := r)))
            && (item.value.Initialized? ==> Tidy(AfterInitialized(Settle(s.(roster := r), n), n, now).0))
  {
    var (r, item) := PollKid(s.roster, n, ready);
    var s1 := s.(roster := r);
    assert Orphans(s1) <= Orphans(s);
    if item.value.Initialized? {
      var s2 := Settle(s1, n);
      if CurrentOf(s.cascade) == Some(n) {
        assert s2.history.launched == {} by { assert s2.history.launched <= Loose(s); }
        AdvanceRestartTidies(s2.(cascade := Idle), s.cascade.pending);
      } else {
        assert Orphans(s2) == Orphans(s1) && Loose(s2) <= Loose(s);
      }
    }
  }

  lemma ClosingStays(s: State, e: TimedEvent)
    requires Inv(s) && s.exiting && e.event.Poll?
    ensures Step(s, e).0.exiting
  {
    hide Covered, AdvanceShutdown, Permitted, DropAll;
    var (r, item) := PollKid(s.roster, e.event.name, e.event.ready);
    if item.Some? {
      var s1 := Settle(s.(roster := r), e.event.name);
      AdvanceShutdownExits(s1.(cascade := Idle), s.cascade.pending);
      if ReasonOf(item.value).Some? {
        ClosingExitStays(s1, e.event.name, ReasonOf(item.value).value, e.now);
      }
      hide HandleExit;
    }
  }

  lemma ClosingExitStays(s: State, n: Name, reason: ExitReason, now: int)
    requires s.cascade.Closing? && s.exiting
    ensures HandleExit(s, n, reason, now).0.exiting
  {
    hide AdvanceShutdown, StartCascade, MergeIntoStopping;
    AdvanceShutdownExits(s.(cascade := Idle), s.cascade.pending);
  }

  lemma StepExitTidies(s: State, e: TimedEvent, s1: State, reason: ExitReason)
    requires Inv(s) && Tidy(s) && !s.exiting && e.event.Poll?
    requires var (r, item) := PollKid(s.roster, e.event.name, e.event.ready);
             item.Some? && ReasonOf(item.value) == Some(reason) && s1 == Settle(s.(roster := r), e.event.name)
    requires ExitTidy(s1, e.event.name)
    requires s.cascade.Restarting? && s.cascade.current == e.event.name ==> !reason.ExitOf?
    ensures HandleExit(s1, e.event.name, reason, e.now).1.Continue? ==>
              TidyOutcome(s, e, HandleExit(s1, e.event.name, reason, e.now).0)
  {
    hide Inv, ExitTidy, HandleCurrentExit, StartCascade, MergeIntoStopping, RemoveSpec, IsBefore, Orphans, Loose;
    var n := e.event.name;
    if CurrentOf(s.cascade) == Some(n) {
      CurrentExitTidies(s1, n, reason, e.now);
    } else {
      OtherExitTidies(s1, n, reason, e.now);
      InterruptSeen(s, e, s1, reason);
    }
    hide HandleExit;
  }

  /** An interruption finds the dead children placed before it in the queue. */
  lemma InterruptSeen(s: State, e: TimedEvent, s1: State, reason: ExitReason)
    requires Inv(s) && Tidy(s) && !s.exiting && e.event.Poll? && CurrentOf(s.cascade) != Some(e.event.name)
    requires var (r, item) := PollKid(s.roster, e.event.name, e.event.ready);
             item.Some? && ReasonOf(item.value) == Some(reason) && s1 == Settle(s.(roster := r), e.event.name)
    ensures e.event.name in s1.roster.kids
    ensures Interrupts(s, e) <==> s1.cascade.Restarting? && RequiresRestart(s1.roster.kids[e.event.name].mode, reason)
    ensures var n := e.event.name;
            Interrupts(s, e) ==>
              && (set m | m in s1.roster.kids && s1.roster.kids[m].life == Dead && IsBefore(s1.roster, m, n)) == Lost(s, e)
              && (IsBefore(s1.roster, s.cascade.current, n) <==> IsBefore(s.roster, s.cascade.current, n))
  {
    hide Inv, Loose;
    if Interrupts(s, e) {
      forall m | m in s.roster.kids && s.roster.kids[m].life == Dead ensures m in s.cascade.pending {
        assert m !in Orphans(s);
      }
    }
  }

  /** An interruption that leaves somebody behind: a queued child, or the one in flight, is
      placed before the child whose exit interrupts. */
  ghost predicate LeavesBehind(s: State, e: TimedEvent) {
    Interrupts(s, e) && (Lost(s, e) != {} || Adrift(s, e) != {})
  }

  /** Main result: short of a shutdown, restarts stay one at a time with nobody forgotten just
      when no interruption leaves anybody behind. */
  lemma TidyIff(s: State, e: TimedEvent)
    requires Inv(s) && Tidy(s) && Allowed(s, e)
    requires Step(s, e).1.Continue? && !Step(s, e).0.exiting
    ensures Tidy(Step(s, e).0) <==> !LeavesBehind(s, e)
  {
    StepTidies(s, e);
  }

  ghost predicate NobodyLeftBehind(s: State, events: seq<TimedEvent>)
    decreases |events|
  {
    events != [] ==>
      && Allowed(s, events[0]) && !LeavesBehind(s, events[0])
      && (Step(s, events[0]).1.Continue? ==> NobodyLeftBehind(Step(s, events[0]).0, events[1..]))
  }

  lemma {:induction false} TidyRun(s: State, events: seq<TimedEvent>)
    requires Inv(s) && (!s.exiting ==> Tidy(s)) && NobodyLeftBehind(s, events)
    ensures Run(s, events).1.Continue? && !Run(s, events).0.exiting ==> Tidy(Run(s, events).0)
    decreases |events|
  {
    if events != [] {
      var (s1, flow) := Step(s, events[0]);
      StepGood(s, events[0]);
      if s.exiting {
        StaysExiting(s, events[0]);
      } else {
        StepTidies(s, events[0]);
      }
      if flow.Continue? { TidyRun(s1, events[1..]); }
    }
  }

  lemma StaysExiting(s: State, e: TimedEvent)
    requires Inv(s) && s.exiting && Allowed(s, e)
    ensures Step(s, e).0.exiting
  {
    if e.event.Poll? { ClosingStays(s, e); }
  }

  /** Main result, whole runs: if no interruption leaves anybody behind, then whenever the
      supervisor is at rest every child it has is up or on its way up, and none of those on
      their way was launched by a restart; and while it restarts, just one is. */
  lemma RestartsOneAtATime(specs: seq<ChildSpec>, intensity: Intensity, events: seq<TimedEvent>)
    requires NobodyLeftBehind(Initial(specs, intensity), events)
    requires Run(Initial(specs, intensity), events).1.Continue?
    ensures var s := Run(Initial(specs, intensity), events).0;
            && (s.cascade.Idle? ==>
                  s.history.launched == {} && forall n :: n in s.roster.kids ==> s.roster.kids[n].life != Dead)
            && (s.cascade.Restarting? ==>
                  && s.history.launched == {s.cascade.current} && s.cascade.current in s.roster.kids
                  && s.roster.kids[s.cascade.current].life in {Starting, Initializing})
  {
    var s0 := Initial(specs, intensity);
    InitialGood(specs, intensity);
    RosterOfOk(specs);
    StartAllStarts(RosterOf(specs));
    assert Orphans(s0) == {};
    TidyRun(s0, events);
    AllowedWithin(s0, events);
    RunGood(s0, events);
    var s := Run(s0, events).0;
    hide Run, NobodyLeftBehind, AllowedRun, Initial;
    if s.cascade.Idle? {
      forall n | n in s.roster.kids ensures s.roster.kids[n].life != Dead {
        assert n !in Orphans(s);
      }
    } else if s.cascade.Restarting? {
      assert s.history.launched - {s.cascade.current} == {};
    }
  }

  lemma {:induction false} AllowedWithin(s: State, events: seq<TimedEvent>)
    requires NobodyLeftBehind(s, events)
    ensures AllowedRun(s, events)
    decreases |events|
  {
    if events != [] && Step(s, events[0]).1.Continue? {
      AllowedWithin(Step(s, events[0]).0, events[1..]);
    }
  }
}
