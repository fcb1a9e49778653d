/** The rest-for-one strategy over any events whatever, deregistration at any time included: what
    still holds, exactly when the supervisor fails, and exactly when it loses its end. */
module RestForOneAnyEvents {
  import opened Common
  import opened RestartBudget
  import opened Supervisees
  import opened Rosters
  import opened Supervision
  import opened RestForOne
  import opened RestForOneSafety
  import opened RestForOneStopPhase

  /** Every child that is not dead is in `pending`, or is `current`. */
  ghost predicate Tracks(kids: Kids, current: Option<Name>, pending: seq<Name>) {
    forall n :: n in kids && kids[n].life != Dead ==> n in pending || Some(n) == current
  }

  /** What holds in every run. An idle supervisor that is exiting has lost its end: everyone is
      dead, and the loop waits for nobody. */
  ghost predicate Sound(s: State) {
    && RosterOk(s.roster)
    && match s.cascade
       case Idle => s.exiting ==> AllDead(s.roster.kids)
       case Exiting(current, pending, _, _) =>
         && !s.exiting && current in s.roster.kids && s.roster.kids[current].life == ShuttingDown
         && Queue(Some(current), pending)
       case Restarting(current, _) =>
         !s.exiting && current in s.roster.kids && s.roster.kids[current].life in {Starting, Initializing}
       case Closing(current, pending) =>
         && s.exiting && current in s.roster.kids && s.roster.kids[current].life == ShuttingDown
         && Queue(Some(current), pending) && Tracks(s.roster.kids, Some(current), pending)
  }

  /** A handler that did not fail went on in a sound state, or ended with everyone dead. */
  ghost predicate SoundResult(result: (State, Flow)) {
    match result.1
    case Continue => Sound(result.0)
    case Break => RosterOk(result.0.roster) && result.0.exiting && result.0.cascade.Idle? && AllDead(result.0.roster.kids)
    case Panic => false
  }

  lemma InvIsSound(s: State)
    requires Inv(s)
    ensures Sound(s)
  {
    match s.cascade {
      case Exiting(_, pending, _, _) => SortedIsDistinct(pending, s.roster.order);
      case Closing(_, pending) => SortedIsDistinct(pending, s.roster.order);
      case _ =>
    }
  }

  // ----- The loops -----

  lemma {:induction false} AnyRestart(s: State, pending: seq<Name>)
    requires RosterOk(s.roster) && !s.exiting
    ensures AdvanceRestart(s, pending).1.Continue? && Sound(AdvanceRestart(s, pending).0)
    ensures !AdvanceRestart(s, pending).0.exiting
    decreases |pending|
  {
    hide Distinct;
    if pending != [] {
      var next, rest := pending[0], pending[1..];
      if next in s.roster.kids { AnyRestart(Launch(s, next).0, rest); } else { AnyRestart(s, rest); }
    }
  }

  lemma PopLast(pending: seq<Name>)
    requires Distinct(pending) && pending != []
    ensures var next, rest := pending[|pending| - 1], pending[..|pending| - 1];
            && Queue(Some(next), rest) && forall n :: n in pending <==> n in rest || n == next
  {
    var next, rest := pending[|pending| - 1], pending[..|pending| - 1];
    assert pending == rest + [next];
  }

  lemma StopKeepsRoster(s: State, n: Name)
    requires RosterOk(s.roster) && n in s.roster.kids
    ensures var (s1, stopping) := Stop(s, n);
            && RosterOk(s1.roster) && s1.exiting == s.exiting && s1.cascade == s.cascade
            && s1.roster.order == s.roster.order && s1.roster.kids.Keys == s.roster.kids.Keys
            && (forall m :: m in s.roster.kids && m != n ==> s1.roster.kids[m] == s.roster.kids[m])
            && s1.roster.kids[n].life == (if stopping then ShuttingDown else Dead)
            && (stopping <==> s.roster.kids[n].life !in {Dead, Starting})
            && s1.roster.kids[n].mode == s.roster.kids[n].mode && s1.roster.kids[n].budget == s.roster.kids[n].budget
  {
    hide Distinct;
  }

  lemma {:induction false} AnyShutdown(s: State, pending: seq<Name>)
    requires RosterOk(s.roster) && s.exiting && Distinct(pending) && Tracks(s.roster.kids, None, pending)
    ensures SoundResult(AdvanceShutdown(s, pending))
    ensures AdvanceShutdown(s, pending).0.exiting && !AdvanceShutdown(s, pending).1.Panic?
    ensures AdvanceShutdown(s, pending).1.Continue? ==> AdvanceShutdown(s, pending).0.cascade.Closing?
    decreases |pending|
  {
    hide RosterOk, Distinct, Stop;
    if pending != [] {
      var next, rest := pending[|pending| - 1], pending[..|pending| - 1];
      PopLast(pending);
      if next !in s.roster.kids {
        AnyShutdown(s, rest);
      } else {
        StopKeepsRoster(s, next);
        var (s1, stopping) := Stop(s, next);
        if !stopping { AnyShutdown(s1, rest); }
      }
    }
  }

  lemma NamesTrackAll(r: Roster)
    requires RosterOk(r)
    ensures Distinct(Names(r)) && Tracks(r.kids, None, Names(r)) && (forall n :: n in Names(r) <==> n in r.kids)
  {
    NamesAreKids(r);
    SortedIsDistinct(Names(r), r.order);
  }

  lemma ShutdownSound(s: State)
    requires Sound(s) || (RosterOk(s.roster) && !s.cascade.Closing?)
    ensures SoundResult(Shutdown(s)) && Shutdown(s).0.exiting
    ensures Shutdown(s).1.Continue? ==> Shutdown(s).0.cascade.Closing?
  {
    if !s.cascade.Closing? {
      NamesTrackAll(s.roster);
      AnyShutdown(s.(exiting := true, history := s.history.(triggers := [], stopped := [])), Names(s.roster));
    }
  }

  lemma {:induction false} AnyStop(
    s: State, pending: seq<Name>, toRestart: seq<Name>, toDrop: seq<Name>, now: int)
    requires RosterOk(s.roster) && !s.exiting && !s.cascade.Closing? && Distinct(pending)
    ensures SoundResult(AdvanceStop(s, pending, toRestart, toDrop, now))
    ensures !AdvanceStop(s, pending, toRestart, toDrop, now).1.Panic?
    decreases |pending|
  {
    hide RosterOk, Distinct, Stop, Permitted, Shutdown, AdvanceRestart, Reverse, DropAll, SoundResult;
    if pending == [] {
      DropAllOk(s, toDrop);
      AnyRestart(DropAll(s, toDrop), Reverse(toRestart));
      ContinueIsSound(AdvanceRestart(DropAll(s, toDrop), Reverse(toRestart)));
    } else {
      var next, rest := pending[|pending| - 1], pending[..|pending| - 1];
      PopLast(pending);
      if next !in s.roster.kids {
        AnyStop(s, rest, toRestart, toDrop, now);
      } else if s.roster.kids[next].mode == Never {
        StopKeepsRoster(s, next);
        var (s1, stopping) := Stop(s, next);
        if stopping {
          WaitingIsSound(s1, next, rest, toRestart, toDrop + [next]);
        } else {
          AnyStop(s1, rest, toRestart, toDrop + [next], now);
        }
      } else {
        PermitKeepsRoster(s, next, now);
        var (s1, granted) := Permitted(s, next, now);
        if !granted {
          ShutdownSound(s1);
          NeverPanics(Shutdown(s1));
        } else {
          StopKeepsRoster(s1, next);
          var (s2, stopping) := Stop(s1, next);
          if stopping {
            WaitingIsSound(s2, next, rest, toRestart + [next], toDrop);
          } else {
            AnyStop(s2, rest, toRestart + [next], toDrop, now);
          }
        }
      }
    }
  }

  lemma ContinueIsSound(result: (State, Flow))
    requires result.1.Continue? && Sound(result.0)
    ensures SoundResult(result)
  {
  }

  lemma NeverPanics(result: (State, Flow))
    requires SoundResult(result)
    ensures !result.1.Panic?
  {
  }

  lemma WaitingIsSound(s: State, next: Name, rest: seq<Name>, toRestart: seq<Name>, toDrop: seq<Name>)
    requires RosterOk(s.roster) && !s.exiting && Queue(Some(next), rest)
    requires next in s.roster.kids && s.roster.kids[next].life == ShuttingDown
    ensures SoundResult((s.(cascade := Exiting(next, rest, toRestart, toDrop)), Continue))
  {
    hide RosterOk, Distinct;
  }

  lemma DropAllOk(s: State, names: seq<Name>)
    requires RosterOk(s.roster)
    ensures RosterOk(DropAll(s, names).roster) && DropAll(s, names).exiting == s.exiting
  {
    DropAllFacts(s, names);
  }

  lemma PermitKeepsRoster(s: State, n: Name, now: int)
    requires RosterOk(s.roster) && n in s.roster.kids
    ensures var (s1, granted) := Permitted(s, n, now);
            && RosterOk(s1.roster) && s1.exiting == s.exiting && s1.cascade == s.cascade
            && s1.roster.order == s.roster.order && s1.roster.kids.Keys == s.roster.kids.Keys
            && (forall m :: m in s.roster.kids && m != n ==> s1.roster.kids[m] == s.roster.kids[m])
            && s1.roster.kids[n].life == s.roster.kids[n].life && s1.roster.kids[n].mode == s.roster.kids[n].mode
            && granted == ChildPermit(s.roster.kids[n], now).1
  {
    hide Distinct;
  }

  /** The cascade is taken out, with `n`, the one it waited for, gone or dead. */
  ghost predicate Resumes(s: State, n: Name) {
    && RosterOk(s.roster) && s.cascade.Idle? == false && s.cascade.current == n
    && s.exiting == s.cascade.Closing?
    && (s.cascade.Exiting? ==> Distinct(s.cascade.pending))
    && (s.cascade.Closing? ==> Distinct(s.cascade.pending) && Tracks(s.roster.kids, None, s.cascade.pending))
  }

  lemma ResumeIsSound(s: State, n: Name, now: int)
    requires Resumes(s, n)
    ensures SoundResult(AdvanceCascade(s, now))
    ensures AdvanceCascade(s, now).1.Break? ==> !s.cascade.Restarting?
  {
    hide RosterOk, Distinct, AdvanceStop, AdvanceRestart, AdvanceShutdown, SoundResult;
    var idle := s.(cascade := Idle);
    match s.cascade {
      case Exiting(_, pending, toRestart, toDrop) => AnyStop(idle, pending, toRestart, toDrop, now);
      case Restarting(_, pending) =>
        AnyRestart(idle, pending);
        ContinueIsSound(AdvanceRestart(idle, pending));
      case Closing(_, pending) => AnyShutdown(idle, pending);
    }
  }

  /** A result whose end is not passed on. */
  lemma LostEndIsSound(result: (State, Flow))
    requires SoundResult(result)
    ensures Sound(result.0)
  {
  }

  lemma DropCurrentResumes(s: State, n: Name)
    requires Sound(s) && CurrentOf(s.cascade) == Some(n)
    ensures Resumes(Drop(s, n), n)
  {
  }

  lemma DropOtherSound(s: State, n: Name)
    requires Sound(s) && CurrentOf(s.cascade) != Some(n)
    ensures Sound(Drop(s, n))
  {
  }

  lemma RemoveSpecSound(s: State, n: Name, now: int)
    requires Sound(s)
    ensures Sound(RemoveSpec(s, n, now))
  {
    if n in s.roster.kids {
      if CurrentOf(s.cascade) == Some(n) {
        DropCurrentResumes(s, n);
        ResumeIsSound(Drop(s, n), n, now);
        LostEndIsSound(AdvanceCascade(Drop(s, n), now));
        hide AdvanceCascade, Sound;
      } else {
        DropOtherSound(s, n);
        hide Sound;
      }
    }
  }

  // ----- Merges -----

  /** A merge fails just if some pending child has been deregistered and there are two names or
      more to sort. */
  lemma MergeFailsIff(s: State, trigger: Name)
    requires s.cascade.Exiting? && trigger in Names(s.roster) && s.cascade.current in Names(s.roster)
    ensures MergeIntoStopping(s, trigger).1.Panic? <==>
            && |Collected(Names(s.roster), trigger, s.cascade)| >= 2
            && exists n :: n in s.cascade.pending && n !in Names(s.roster)
  {
    var all := Names(s.roster);
    var (t, u) := (Place(all, trigger), Place(all, s.cascade.current));
    var between := if t == u then [] else all[Min(t, u) + 1..Max(t, u)];
    var settled := s.cascade.toRestart + s.cascade.toDrop;
    var collected := Collected(all, trigger, s.cascade);
    forall n | n in collected && n !in all ensures n in s.cascade.pending {
      UnsettledFacts(between, settled, n);
    }
    forall n | n in s.cascade.pending ensures n in collected {}
  }

  lemma MergedPending(s: State, n: Name)
    requires RosterOk(s.roster) && s.cascade.Exiting? && s.cascade.current in s.roster.kids
    requires n in s.roster.kids && n != s.cascade.current && Queue(Some(s.cascade.current), s.cascade.pending)
    ensures n in Names(s.roster) && s.cascade.current in Names(s.roster)
    ensures Queue(Some(s.cascade.current), InOrder(Names(s.roster), Collected(Names(s.roster), n, s.cascade)))
  {
    NamesTrackAll(s.roster);
    var all := Names(s.roster);
    hide Collected, Names, RosterOk, Place;
    CollectedFacts(s, n);
    var collected := Collected(all, n, s.cascade);
    assert s.cascade.current !in collected;
    if |collected| >= 2 {
      var wanted := set m | m in collected;
      PresentIsSorted(all, wanted);
      SortedIsDistinct(Present(all, wanted), all);
    }
  }

  lemma MergeSound(s: State, n: Name)
    requires Sound(s) && s.cascade.Exiting? && n in s.roster.kids && n != s.cascade.current
    ensures MergeIntoStopping(s, n).1.Panic? ||
            (MergeIntoStopping(s, n).1.Continue? && Sound(MergeIntoStopping(s, n).0))
  {
    MergedPending(s, n);
    hide Collected, InOrder, SortFails, Names, RosterOk, Distinct;
  }

  // ----- Every step -----

  /** Both budgets let the exit of `n` be answered by a merge, and the merge has an unknown name
      to sort. */
  ghost predicate TripsAt(s: State, n: Name, reason: ExitReason, now: int) {
    && s.cascade.Exiting? && n != s.cascade.current && n !in s.cascade.pending && n in s.roster.kids
    && RequiresRestart(s.roster.kids[n].mode, reason)
    && Permit(s.restarter, now).1 && ChildPermit(s.roster.kids[n], now).1
    && n in Names(s.roster) && s.cascade.current in Names(s.roster)
    && |Collected(Names(s.roster), n, s.cascade)| >= 2
    && exists m :: m in s.cascade.pending && m !in s.roster.kids
  }

  /** Where the exit of `n` is handled. */
  ghost predicate ExitSound(s: State, n: Name, reason: ExitReason) {
    && n in s.roster.kids && s.roster.kids[n].life == Dead
    && if CurrentOf(s.cascade) == Some(n) then Resumes(s, n) && (s.cascade.Restarting? ==> !reason.ExitOf?)
       else Sound(s) && (s.cascade.Closing? ==> n in s.cascade.pending) && (s.cascade.Idle? ==> !s.exiting)
  }

  lemma CurrentExitSound(s: State, n: Name, reason: ExitReason, now: int)
    requires ExitSound(s, n, reason) && CurrentOf(s.cascade) == Some(n)
    ensures SoundResult(HandleCurrentExit(s, n, reason, now))
  {
    ResumeIsSound(s, n, now);
    if s.cascade.Restarting? {
      if !RequiresRestart(s.roster.kids[n].mode, reason) {
        DropStillResumes(s, n);
        ResumeIsSound(Drop(s, n), n, now);
        LostEndIsSound(AdvanceCascade(Drop(s, n), now));
        hide AdvanceCascade, Sound;
      } else {
        PermitKeepsRoster(s, n, now);
        var (s1, granted) := Permitted(s, n, now);
        hide AdvanceCascade;
        if granted { LaunchSound(s1, n); } else { ShutdownSound(s1); }
      }
    } else {
      hide AdvanceCascade, Sound;
    }
  }

  lemma DropStillResumes(s: State, n: Name)
    requires Resumes(s, n) && s.cascade.Restarting?
    ensures Resumes(Drop(s, n), n)
  {
  }

  lemma LaunchSound(s: State, n: Name)
    requires RosterOk(s.roster) && s.cascade.Restarting? && s.cascade.current == n && !s.exiting
    requires n in s.roster.kids && s.roster.kids[n].life == Dead
    ensures Sound(Launch(s, n).0)
  {
    hide Distinct;
  }

  lemma StartCascadeSound(s: State, n: Name, now: int)
    requires RosterOk(s.roster) && !s.exiting && s.cascade.Idle? && n in s.roster.kids
    ensures SoundResult(StartCascade(s, n, now))
  {
    TailIsAfter(s.roster, n);
    SortedIsDistinct(Tail(s.roster, n), s.roster.order);
    hide Tail, Names, RosterOk, Distinct, AdvanceStop, Sorted;
    AnyStop(s.(history := s.history.(triggers := [n], stopped := [])), Tail(s.roster, n), [n], [], now);
  }

  /** The two permits a trigger takes change no name and nobody's life. */
  lemma TriggerPermits(s: State, n: Name, now: int)
    requires Sound(s) && n in s.roster.kids
    ensures var s1 := s.(restarter := Permit(s.restarter, now).0);
            var s2 := Permitted(s1, n, now).0;
            && Sound(s1) && Sound(s2) && s2.cascade == s.cascade && s2.exiting == s.exiting
            && n in s2.roster.kids && s2.roster.kids.Keys == s.roster.kids.Keys && s2.roster.order == s.roster.order
            && Permitted(s1, n, now).1 == ChildPermit(s.roster.kids[n], now).1
            && Names(s2.roster) == Names(s.roster)
  {
    hide Distinct, Permit;
  }

  lemma AnyExit(s: State, n: Name, reason: ExitReason, now: int)
    requires ExitSound(s, n, reason)
    ensures HandleExit(s, n, reason, now).1.Panic? <==> TripsAt(s, n, reason, now)
    ensures !TripsAt(s, n, reason, now) ==> SoundResult(HandleExit(s, n, reason, now))
  {
    hide HandleCurrentExit, Shutdown, StartCascade, MergeIntoStopping, RemoveSpec, Permit, Permitted, ChildPermit,
      Collected, Names, Resumes;
    if CurrentOf(s.cascade) == Some(n) {
      CurrentExitSound(s, n, reason, now);
    } else if !PendingContains(s.cascade, n) {
      if !RequiresRestart(s.roster.kids[n].mode, reason) {
        RemoveSpecSound(s, n, now);
        hide Sound;
      } else {
        TriggerPermits(s, n, now);
        var s1 := s.(restarter := Permit(s.restarter, now).0);
        var s2 := Permitted(s1, n, now).0;
        ShutdownSound(s1);
        ShutdownSound(s2);
        TriggerSound(s2, n, now);
        SoundNotClosing(s, n);
        hide Sound;
      }
    }
  }

  lemma SoundNotClosing(s: State, n: Name)
    requires Sound(s) && (s.cascade.Closing? ==> n in s.cascade.pending) && !PendingContains(s.cascade, n)
    ensures !s.cascade.Closing?
  {
  }

  /** What answers a trigger: a fresh cascade, or a merge. */
  lemma TriggerSound(s: State, n: Name, now: int)
    requires Sound(s) && n in s.roster.kids && CurrentOf(s.cascade) != Some(n) && !s.cascade.Closing?
    requires s.cascade.Idle? ==> !s.exiting
    ensures s.cascade.Exiting? ==>
              && n in Names(s.roster) && s.cascade.current in Names(s.roster)
              && (MergeIntoStopping(s, n).1.Panic? <==>
                    && |Collected(Names(s.roster), n, s.cascade)| >= 2
                    && exists m :: m in s.cascade.pending && m !in s.roster.kids)
              && (!MergeIntoStopping(s, n).1.Panic? ==> SoundResult(MergeIntoStopping(s, n)))
    ensures !s.cascade.Exiting? ==> SoundResult(StartCascade(s.(cascade := Idle), n, now))
  {
    if s.cascade.Exiting? {
      NamesTrackAll(s.roster);
      MergeFailsIff(s, n);
      MergeSound(s, n);
      hide MergeIntoStopping, Collected, Names, Sound;
    } else {
      hide StartCascade;
      StartCascadeSound(s.(cascade := Idle), n, now);
    }
  }

  /** A child reports something. */
  lemma PollSound(s: State, n: Name, ready: Ready)
    requires Sound(s) && PollKid(s.roster, n, ready).1.Some?
    ensures var (r, item) := PollKid(s.roster, n, ready);
            var s1 := Settle(s.(roster := r), n);
            && (ReasonOf(item.value).Some? ==> ExitSound(s1, n, ReasonOf(item.value).value))
            && (item.value == Started(true) ==> Sound(s.(roster := r)))
            && (item.value == Initialized(None) ==>
                  if CurrentOf(s.cascade) == Some(n) then Resumes(s1, n) else Sound(s1))
  {
    hide Distinct;
  }

  /** The event is the exit of a child that a stop phase has not taken in, calls for a restart
      and is granted one by both budgets, while some child still to be stopped has been
      deregistered and there are two names or more to sort. */
  ghost predicate Trips(s: State, e: TimedEvent) {
    && e.event.Poll?
    && var n := e.event.name;
    && var (_, item) := PollKid(s.roster, n, e.event.ready);
    && item.Some? && ReasonOf(item.value).Some?
    && TripsAt(s, n, ReasonOf(item.value).value, e.now)
  }

  /** Reporting its exit changes nothing that the condition looks at. */
  lemma PollKeepsTrips(s: State, n: Name, ready: Ready, now: int)
    requires var (_, item) := PollKid(s.roster, n, ready); item.Some? && ReasonOf(item.value).Some?
    ensures var (r, item) := PollKid(s.roster, n, ready);
            TripsAt(Settle(s.(roster := r), n), n, ReasonOf(item.value).value, now)
            <==> TripsAt(s, n, ReasonOf(item.value).value, now)
  {
    var r := PollKid(s.roster, n, ready).0;
    assert r.kids.Keys == s.roster.kids.Keys && Names(r) == Names(s.roster);
    hide Names, Collected, Permit;
  }

  lemma AnyRegister(s: State, name: Name, mode: RestartMode, intensity: Option<Intensity>)
    requires Sound(s)
    ensures Sound(s.(roster := AddSpec(s.roster, s.exiting, name, mode, intensity)))
  {
    if !s.exiting && name !in s.roster.kids {
      assert Distinct(AddSpec(s.roster, s.exiting, name, mode, intensity).order);
    }
  }

  /** Main result, one step: over any event whatever the supervisor fails just if the event
      makes a merge sort a name that has been deregistered, and otherwise it goes on in a sound
      state or ends with every child dead. */
  lemma FailsIff(s: State, e: TimedEvent)
    requires Sound(s)
    ensures Step(s, e).1.Panic? <==> Trips(s, e)
    ensures !Trips(s, e) ==> SoundResult(Step(s, e))
  {
    hide HandleExit, AdvanceCascade, Shutdown, RemoveSpec, AddSpec, TripsAt, ExitSound, Resumes, PollKid;
    match e.event {
      case Signal(isShutdown) => ShutdownSound(s);
      case Register(name, mode, intensity) => AnyRegister(s, name, mode, intensity);
      case Deregister(name) => RemoveSpecSound(s, name, e.now);
      case Poll(n, ready) =>
        var (r, item) := PollKid(s.roster, n, ready);
        if item.Some? {
          var s1 := Settle(s.(roster := r), n);
          PollSound(s, n, ready);
          if ReasonOf(item.value).Some? {
            PollKeepsTrips(s, n, ready, e.now);
            AnyExit(s1, n, ReasonOf(item.value).value, e.now);
          } else if item.value.Initialized? && CurrentOf(s.cascade) == Some(n) {
            ResumeIsSound(s1, n, e.now);
          }
        }
    }
    hide Sound;
  }

  ghost predicate NeverTrips(s: State, events: seq<TimedEvent>)
    decreases |events|
  {
    events != [] ==>
      && !Trips(s, events[0])
      && (Step(s, events[0]).1.Continue? ==> NeverTrips(Step(s, events[0]).0, events[1..]))
  }

  lemma {:induction false} AnyRunFrom(s: State, events: seq<TimedEvent>)
    requires Sound(s)
    ensures Run(s, events).1.Panic? <==> !NeverTrips(s, events)
    ensures !Run(s, events).1.Panic? ==> SoundResult(Run(s, events))
    decreases |events|
  {
    if events != [] {
      FailsIff(s, events[0]);
      var (s1, flow) := Step(s, events[0]);
      hide Step, Sound, Trips;
      if flow.Continue? {
        ContinueSound(s, events[0]);
        AnyRunFrom(s1, events[1..]);
      }
    }
  }

  lemma ContinueSound(s: State, e: TimedEvent)
    requires SoundResult(Step(s, e)) && Step(s, e).1.Continue?
    ensures Sound(Step(s, e).0)
  {
    hide Step;
  }

  /** Main result, whole runs, from the start and over any events whatever: the supervisor fails
      just if some event makes a merge sort a deregistered name, and otherwise the loop ends only
      with every child dead. */
  lemma RunFailsIff(specs: seq<ChildSpec>, intensity: Intensity, events: seq<TimedEvent>)
    ensures Run(Initial(specs, intensity), events).1.Panic? <==> !NeverTrips(Initial(specs, intensity), events)
    ensures Run(Initial(specs, intensity), events).1.Break? ==>
              AllDead(Run(Initial(specs, intensity), events).0.roster.kids)
    ensures Run(Initial(specs, intensity), events).1.Continue? ==> Sound(Run(Initial(specs, intensity), events).0)
  {
    hide Run, NeverTrips, Initial, Sound;
    InitialGood(specs, intensity);
    InvIsSound(Initial(specs, intensity));
    AnyRunFrom(Initial(specs, intensity), events);
  }

  // ----- Losing the end -----

  /** Nobody but `except` would owe an exit if told to stop. */
  ghost predicate Quiet(kids: Kids, except: Option<Name>) {
    forall n :: n in kids && Some(n) != except ==> kids[n].life in {Dead, Starting}
  }

  /** Some child of `pending` is here, is to be restarted, and its own budget refuses. */
  ghost predicate Refuses(kids: Kids, pending: seq<Name>, now: int) {
    exists n :: n in pending && n in kids && kids[n].mode != Never && !ChildPermit(kids[n], now).1
  }

  lemma {:induction false} ShutdownEndsIff(s: State, pending: seq<Name>)
    requires RosterOk(s.roster) && Distinct(pending) && Tracks(s.roster.kids, None, pending)
    ensures AdvanceShutdown(s, pending).1.Break? <==> Quiet(s.roster.kids, None)
    decreases |pending|
  {
    hide RosterOk, Distinct, Stop;
    if pending != [] {
      var next, rest := pending[|pending| - 1], pending[..|pending| - 1];
      PopLast(pending);
      if next !in s.roster.kids {
        ShutdownEndsIff(s, rest);
      } else {
        StopKeepsRoster(s, next);
        var (s1, stopping) := Stop(s, next);
        if !stopping { ShutdownEndsIff(s1, rest); }
      }
    }
  }

  lemma WholeShutdownEndsIff(s: State)
    requires RosterOk(s.roster) && !s.cascade.Closing?
    ensures Shutdown(s).1.Break? <==> Quiet(s.roster.kids, None)
  {
    NamesTrackAll(s.roster);
    ShutdownEndsIff(s.(exiting := true, history := s.history.(triggers := [], stopped := [])), Names(s.roster));
  }

  /** One child of the stop loop is stopped and was quiet: nothing changes for the others. */
  lemma StoppedQuietly(s: State, s1: State, pending: seq<Name>, next: Name, rest: seq<Name>, now: int)
    requires next in s.roster.kids && s1.roster.kids.Keys == s.roster.kids.Keys
    requires forall m :: m in s.roster.kids && m != next ==> s1.roster.kids[m] == s.roster.kids[m]
    requires s.roster.kids[next].life in {Dead, Starting} && s1.roster.kids[next].life == Dead
    requires next !in rest && forall n :: n in pending <==> n in rest || n == next
    requires s.roster.kids[next].mode == Never || ChildPermit(s.roster.kids[next], now).1
    ensures Quiet(s1.roster.kids, None) <==> Quiet(s.roster.kids, None)
    ensures Refuses(s1.roster.kids, rest, now) <==> Refuses(s.roster.kids, pending, now)
  {
    hide ChildPermit;
  }

  /** The stop loop ends everything just if it comes to a child whose budget refuses and finds
      nobody to wait for, neither on the way there nor in the shutdown that follows. */
  lemma {:induction false} StopEndsIff(
    s: State, pending: seq<Name>, toRestart: seq<Name>, toDrop: seq<Name>, now: int)
    requires RosterOk(s.roster) && !s.cascade.Closing? && !s.exiting && Distinct(pending)
    ensures AdvanceStop(s, pending, toRestart, toDrop, now).1.Break?
            <==> Quiet(s.roster.kids, None) && Refuses(s.roster.kids, pending, now)
    decreases |pending|
  {
    hide RosterOk, Distinct, Stop, Permitted, Shutdown, AdvanceRestart, Reverse, DropAll, Quiet, Refuses, ChildPermit;
    if pending == [] {
      DropAllOk(s, toDrop);
      AnyRestart(DropAll(s, toDrop), Reverse(toRestart));
      NobodyRefuses(s.roster.kids, now);
    } else {
      var next, rest := pending[|pending| - 1], pending[..|pending| - 1];
      PopLast(pending);
      if next !in s.roster.kids {
        AbsentRefuses(s.roster.kids, pending, next, rest, now);
        StopEndsIff(s, rest, toRestart, toDrop, now);
      } else if s.roster.kids[next].mode == Never {
        StopKeepsRoster(s, next);
        var (s1, stopping) := Stop(s, next);
        if stopping {
          NotQuiet(s.roster.kids, next);
        } else {
          StoppedQuietly(s, s1, pending, next, rest, now);
          StopEndsIff(s1, rest, toRestart, toDrop + [next], now);
        }
      } else {
        PermitKeepsRoster(s, next, now);
        var (s1, granted) := Permitted(s, next, now);
        if !granted {
          WholeShutdownEndsIff(s1);
          SameQuiet(s.roster.kids, s1.roster.kids);
          NextRefuses(s.roster.kids, pending, next, now);
        } else {
          StopKeepsRoster(s1, next);
          var (s2, stopping) := Stop(s1, next);
          if stopping {
            NotQuiet(s.roster.kids, next);
          } else {
            StoppedQuietly(s, s2, pending, next, rest, now);
            StopEndsIff(s2, rest, toRestart + [next], toDrop, now);
          }
        }
      }
    }
  }

  lemma NobodyRefuses(kids: Kids, now: int)
    ensures !Refuses(kids, [], now)
  {
  }

  lemma AbsentRefuses(kids: Kids, pending: seq<Name>, next: Name, rest: seq<Name>, now: int)
    requires next !in kids && forall n :: n in pending <==> n in rest || n == next
    ensures Refuses(kids, pending, now) <==> Refuses(kids, rest, now)
  {
    hide ChildPermit;
  }

  lemma NextRefuses(kids: Kids, pending: seq<Name>, next: Name, now: int)
    requires next in pending && next in kids && kids[next].mode != Never && !ChildPermit(kids[next], now).1
    ensures Refuses(kids, pending, now)
  {
    hide ChildPermit;
  }

  lemma NotQuiet(kids: Kids, n: Name)
    requires n in kids && kids[n].life !in {Dead, Starting}
    ensures !Quiet(kids, None)
  {
  }

  lemma SameQuiet(kids: Kids, kids': Kids)
    requires kids'.Keys == kids.Keys && forall n :: n in kids ==> kids'[n].life == kids[n].life
    ensures Quiet(kids, None) <==> Quiet(kids', None)
  {
  }

  /** Main result: deregistering a child loses the end of the event loop just if the cascade was
      waiting for that child, nobody else would owe an exit, and either the supervisor was
      shutting down, or siblings were being stopped and the budget of one still pending refuses.
      The supervisor is then exiting with everyone dead, and the loop goes on. */
  lemma DeregisterLosesBreakIff(s: State, name: Name, now: int)
    requires Sound(s) && !s.cascade.Idle?
    ensures var (s', flow) := Step(s, At(now, Deregister(name)));
            && flow.Continue?
            && (s'.cascade.Idle? && s'.exiting <==>
                  && CurrentOf(s.cascade) == Some(name) && Quiet(s.roster.kids, Some(name))
                  && (s.cascade.Closing? || (s.cascade.Exiting? && Refuses(s.roster.kids, s.cascade.pending, now))))
            && (s'.cascade.Idle? && s'.exiting ==> AllDead(s'.roster.kids))
  {
    RemoveSpecSound(s, name, now);
    if CurrentOf(s.cascade) == Some(name) {
      DropCurrentResumes(s, name);
      var dropped := Drop(s, name);
      ResumeIsSound(dropped, name, now);
      DroppedEndsIff(s, name, now);
      EndedIsIdle(AdvanceCascade(dropped, now));
      CurrentIsHere(s, name);
      hide AdvanceCascade, Quiet, Refuses, Sound;
    } else {
      hide Quiet, Refuses;
    }
  }

  lemma CurrentIsHere(s: State, name: Name)
    requires Sound(s) && CurrentOf(s.cascade) == Some(name)
    ensures name in s.roster.kids
  {
  }

  lemma EndedIsIdle(result: (State, Flow))
    requires SoundResult(result)
    ensures result.1.Break? ==> result.0.cascade.Idle? && result.0.exiting
    ensures result.0.cascade.Idle? && result.0.exiting ==> AllDead(result.0.roster.kids)
  {
  }

  lemma DroppedEndsIff(s: State, name: Name, now: int)
    requires Sound(s) && CurrentOf(s.cascade) == Some(name)
    ensures var (s', flow) := AdvanceCascade(Drop(s, name), now);
            && (s'.cascade.Idle? && s'.exiting <==>
                  && Quiet(s.roster.kids, Some(name))
                  && (s.cascade.Closing? || (s.cascade.Exiting? && Refuses(s.roster.kids, s.cascade.pending, now))))
  {
    DropCurrentResumes(s, name);
    var idle := Drop(s, name).(cascade := Idle);
    DropQuiet(s, name, now);
    hide Quiet, Refuses, RosterOk, Distinct, AdvanceStop, AdvanceShutdown, AdvanceRestart;
    match s.cascade {
      case Exiting(_, pending, toRestart, toDrop) =>
        StopEndsIff(idle, pending, toRestart, toDrop, now);
        AnyStop(idle, pending, toRestart, toDrop, now);
        StopIdleMeansEnd(idle, pending, toRestart, toDrop, now);
      case Restarting(_, pending) => AnyRestart(idle, pending);
      case Closing(_, pending) =>
        ShutdownEndsIff(idle, pending);
        AnyShutdown(idle, pending);
    }
  }

  lemma DropQuiet(s: State, name: Name, now: int)
    requires Sound(s) && CurrentOf(s.cascade) == Some(name)
    ensures Quiet(Drop(s, name).roster.kids, None) <==> Quiet(s.roster.kids, Some(name))
    ensures s.cascade.Exiting? ==>
              (Refuses(Drop(s, name).roster.kids, s.cascade.pending, now) <==> Refuses(s.roster.kids, s.cascade.pending, now))
  {
    hide Distinct, ChildPermit;
  }

  /** The stop loop leaves the supervisor exiting and idle only by ending it. */
  lemma {:induction false} StopIdleMeansEnd(
    s: State, pending: seq<Name>, toRestart: seq<Name>, toDrop: seq<Name>, now: int)
    requires RosterOk(s.roster) && !s.cascade.Closing? && !s.exiting && Distinct(pending)
    ensures var (s', flow) := AdvanceStop(s, pending, toRestart, toDrop, now);
            s'.cascade.Idle? && s'.exiting ==> flow.Break?
    decreases |pending|
  {
    hide RosterOk, Distinct, Stop, Permitted, Shutdown, AdvanceRestart, Reverse, DropAll;
    if pending == [] {
      DropAllOk(s, toDrop);
      AnyRestart(DropAll(s, toDrop), Reverse(toRestart));
    } else {
      var next, rest := pending[|pending| - 1], pending[..|pending| - 1];
      PopLast(pending);
      if next !in s.roster.kids {
        StopIdleMeansEnd(s, rest, toRestart, toDrop, now);
      } else if s.roster.kids[next].mode == Never {
        StopKeepsRoster(s, next);
        var (s1, stopping) := Stop(s, next);
        if !stopping { StopIdleMeansEnd(s1, rest, toRestart, toDrop + [next], now); }
      } else {
        PermitKeepsRoster(s, next, now);
        var (s1, granted) := Permitted(s, next, now);
        if !granted {
          ShutdownSound(s1);
          NeverPanics(Shutdown(s1));
        } else {
          StopKeepsRoster(s1, next);
          var (s2, stopping) := Stop(s1, next);
          if !stopping { StopIdleMeansEnd(s2, rest, toRestart + [next], toDrop, now); }
        }
      }
    }
  }
}
