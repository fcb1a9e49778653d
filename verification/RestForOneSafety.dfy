/** What every step of the rest-for-one strategy keeps, whatever arrives and whenever, as
    long as nothing is deregistered while siblings are being stopped or the supervisor is
    shutting down. */
module RestForOneSafety {
  import opened Common
  import opened RestartBudget
  import opened Supervisees
  import opened Rosters
  import opened Supervision
  import opened RestForOne

  ghost predicate NoneStopping(kids: Kids) {
    forall n :: n in kids ==> kids[n].life != ShuttingDown
  }

  /** `c` is the one and only child that is shutting down. */
  ghost predicate OnlyStopping(kids: Kids, c: Name) {
    && c in kids && kids[c].life == ShuttingDown
    && forall n :: n in kids && kids[n].life == ShuttingDown ==> n == c
  }

  ghost predicate Known(xs: seq<Name>, kids: Kids) {
    forall n :: n in xs ==> n in kids
  }

  ghost predicate Disjoint(xs: seq<Name>, ys: seq<Name>) {
    forall n :: n in xs ==> n !in ys
  }

  /** Every name of `xs` is a child that is dead, or is `except`. */
  ghost predicate Gone(xs: seq<Name>, kids: Kids, except: Option<Name>) {
    forall n :: n in xs ==> n in kids && (kids[n].life == Dead || Some(n) == except)
  }

  ghost predicate SplitByMode(toRestart: seq<Name>, toDrop: seq<Name>, kids: Kids) {
    && (forall n :: n in toRestart ==> n in kids && kids[n].mode != Never)
    && (forall n :: n in toDrop ==> n in kids && kids[n].mode == Never)
  }

  /** The queues of a stop phase; `current`, if any, still owes its exit. */
  ghost predicate StopQueues(
    r: Roster, current: Option<Name>, pending: seq<Name>, toRestart: seq<Name>, toDrop: seq<Name>)
  {
    && Sorted(pending, r.order) && Known(pending, r.kids)
    && Distinct(toRestart) && Distinct(toDrop)
    && SplitByMode(toRestart, toDrop, r.kids)
    && Gone(toRestart, r.kids, current) && Gone(toDrop, r.kids, current)
    && Disjoint(pending, toRestart) && Disjoint(pending, toDrop)
    && (current.Some? ==> current.value in toRestart || current.value in toDrop)
  }

  /** Every child that is not dead is in `pending`, or is `current`. */
  ghost predicate Covered(r: Roster, current: Option<Name>, pending: seq<Name>) {
    && Sorted(pending, r.order) && Known(pending, r.kids)
    && (forall n :: n in r.kids && r.kids[n].life != Dead ==> n in pending || Some(n) == current)
    && (current.Some? ==> forall n :: n in pending ==> Place(r.order, n) < Place(r.order, current.value))
  }

  ghost predicate Queue(current: Option<Name>, pending: seq<Name>) {
    Distinct(pending) && (current.Some? ==> current.value !in pending)
  }

  ghost predicate Inv(s: State) {
    && RosterOk(s.roster)
    && s.exiting == s.cascade.Closing?
    && match s.cascade
       case Idle => NoneStopping(s.roster.kids)
       case Exiting(current, pending, toRestart, toDrop) =>
         && OnlyStopping(s.roster.kids, current)
         && StopQueues(s.roster, Some(current), pending, toRestart, toDrop)
       case Restarting(current, pending) =>
         && NoneStopping(s.roster.kids)
         && current in s.roster.kids && s.roster.kids[current].life in {Starting, Initializing}
         && Queue(Some(current), pending)
       case Closing(current, pending) =>
         && current in s.roster.kids && s.roster.kids[current].life == ShuttingDown
         && Covered(s.roster, Some(current), pending)
  }

  /** Deregistration is left out while siblings are being stopped or all are shutting down. */
  ghost predicate Allowed(s: State, e: TimedEvent) {
    e.event.Deregister? ==> s.cascade.Idle? || s.cascade.Restarting?
  }

  /** The outcome of a handler: it goes on in a good state, or ends with everyone dead. */
  ghost predicate Good(result: (State, Flow)) {
    match result.1
    case Continue => Inv(result.0)
    case Break => result.0.cascade.Idle? && AllDead(result.0.roster.kids)
    case Panic => false
  }

  lemma {:induction false} AdvanceRestartGood(s: State, pending: seq<Name>)
    requires RosterOk(s.roster) && !s.exiting && NoneStopping(s.roster.kids) && Distinct(pending)
    ensures AdvanceRestart(s, pending).1 == Continue && Inv(AdvanceRestart(s, pending).0)
    decreases |pending|
  {
    if pending != [] {
      var next, rest := pending[0], pending[1..];
      assert next !in rest;
      if next in s.roster.kids {
        var (s1, answer) := Launch(s, next);
        if !answer.Spawned? {
          AdvanceRestartGood(s1, rest);
        }
      } else {
        AdvanceRestartGood(s, rest);
      }
    }
  }

  lemma {:induction false} AdvanceShutdownGood(s: State, pending: seq<Name>)
    requires RosterOk(s.roster) && s.exiting && Covered(s.roster, None, pending)
    ensures Good(AdvanceShutdown(s, pending))
    ensures AdvanceShutdown(s, pending).1.Continue? ==> AdvanceShutdown(s, pending).0.cascade.Closing?
    decreases |pending|
  {
    if pending != [] {
      var next, rest := pending[|pending| - 1], pending[..|pending| - 1];
      forall n ensures n in rest <==> n in pending && n != next {
        SortedInit(pending, s.roster.order, n);
      }
      assert next in pending;
      var (s1, stopping) := Stop(s, next);
      if stopping {
        forall n | n in rest ensures Place(s.roster.order, n) < Place(s.roster.order, next) {
          var i :| 0 <= i < |rest| && rest[i] == n;
          SortedReflects(pending, s.roster.order, i, |pending| - 1);
        }
      } else {
        AdvanceShutdownGood(s1, rest);
      }
    }
  }

  lemma ShutdownGood(s: State)
    requires RosterOk(s.roster) && (s.cascade.Closing? ==> Inv(s))
    ensures Good(Shutdown(s))
    ensures Shutdown(s).1.Continue? ==> Shutdown(s).0.cascade.Closing?
  {
    if !s.cascade.Closing? {
      NamesAreKids(s.roster);
      AdvanceShutdownGood(s.(exiting := true, history := s.history.(triggers := [], stopped := [])),
                          Names(s.roster));
    }
  }

  lemma {:induction false} DropAllFacts(s: State, names: seq<Name>)
    ensures DropAll(s, names).roster.order == s.roster.order
    ensures DropAll(s, names).roster.kids == s.roster.kids - (set n | n in names)
    ensures DropAll(s, names).(roster := s.roster, history := s.history) == s
    ensures DropAll(s, names).history.launched == s.history.launched - (set n | n in names)
    ensures DropAll(s, names).history.(launched := s.history.launched) == s.history
    decreases |names|
  {
    if names == [] {
      assert (set n | n in names) == {};
    } else {
      DropAllFacts(Drop(s, names[0]), names[1..]);
      assert names == [names[0]] + names[1..];
      assert (set n | n in names) == {names[0]} + (set n | n in names[1..]);
    }
  }

  lemma {:induction false} ReverseFacts(xs: seq<Name>)
    ensures |Reverse(xs)| == |xs|
    ensures forall i :: 0 <= i < |xs| ==> Reverse(xs)[i] == xs[|xs| - 1 - i]
    ensures forall n :: n in Reverse(xs) <==> n in xs
    ensures Distinct(xs) ==> Distinct(Reverse(xs))
  {
    if xs != [] {
      ReverseFacts(xs[..|xs| - 1]);
      assert xs == xs[..|xs| - 1] + [xs[|xs| - 1]];
    }
  }

  /** The stop loop, entered with nobody owing an exit. */
  ghost predicate StopReady(s: State, pending: seq<Name>, toRestart: seq<Name>, toDrop: seq<Name>) {
    && RosterOk(s.roster) && !s.exiting && !s.cascade.Closing?
    && NoneStopping(s.roster.kids)
    && StopQueues(s.roster, None, pending, toRestart, toDrop)
  }

  lemma PopKeepsQueues(s: State, pending: seq<Name>, toRestart: seq<Name>, toDrop: seq<Name>)
    requires StopReady(s, pending, toRestart, toDrop) && pending != []
    ensures var next, rest := pending[|pending| - 1], pending[..|pending| - 1];
            && next in s.roster.kids && next !in toRestart && next !in toDrop && next !in rest
            && Sorted(rest, s.roster.order) && (forall n :: n in rest ==> n in pending)
  {
    var next, rest := pending[|pending| - 1], pending[..|pending| - 1];
    assert next in pending;
    SortedInit(pending, s.roster.order, next);
    forall n | n in rest ensures n in pending {
      SortedInit(pending, s.roster.order, n);
    }
  }

  /** `r'` is `r` but for how the child `n` is doing. */
  ghost predicate OnlyMoved(r: Roster, r': Roster, n: Name) {
    && n in r.kids && n in r'.kids && r'.order == r.order
    && r'.kids == r.kids[n := r'.kids[n]] && r'.kids[n].mode == r.kids[n].mode
  }

  lemma PushRestart(r: Roster, r': Roster, pending: seq<Name>, rest: seq<Name>, next: Name,
                    toRestart: seq<Name>, toDrop: seq<Name>, current: Option<Name>)
    requires StopQueues(r, None, pending, toRestart, toDrop)
    requires next in pending && next !in rest && Sorted(rest, r.order) && forall n :: n in rest ==> n in pending
    requires OnlyMoved(r, r', next) && r.kids[next].mode != Never
    requires current == Some(next) || (current == None && r'.kids[next].life == Dead)
    ensures StopQueues(r', current, rest, toRestart + [next], toDrop)
  {
    hide Sorted;
    assert next !in toRestart && next !in toDrop;
    forall n ensures n in toRestart + [next] <==> n in toRestart || n == next {}
  }

  lemma PushDrop(r: Roster, r': Roster, pending: seq<Name>, rest: seq<Name>, next: Name,
                 toRestart: seq<Name>, toDrop: seq<Name>, current: Option<Name>)
    requires StopQueues(r, None, pending, toRestart, toDrop)
    requires next in pending && next !in rest && Sorted(rest, r.order) && forall n :: n in rest ==> n in pending
    requires OnlyMoved(r, r', next) && r.kids[next].mode == Never
    requires current == Some(next) || (current == None && r'.kids[next].life == Dead)
    ensures StopQueues(r', current, rest, toRestart, toDrop + [next])
  {
    hide Sorted;
    assert next !in toRestart && next !in toDrop;
    forall n ensures n in toDrop + [next] <==> n in toDrop || n == next {}
  }

  /** What telling a child to stop does to the roster, if nobody was stopping before. */
  lemma StopEffect(s: State, n: Name)
    requires RosterOk(s.roster) && NoneStopping(s.roster.kids) && n in s.roster.kids
    ensures var (s1, stopping) := Stop(s, n);
            && RosterOk(s1.roster) && OnlyMoved(s.roster, s1.roster, n)
            && (stopping ==> OnlyStopping(s1.roster.kids, n))
            && (!stopping ==> NoneStopping(s1.roster.kids) && s1.roster.kids[n].life == Dead)
            && s1.exiting == s.exiting && s1.cascade == s.cascade
  {
    hide Distinct;
  }

  /** Telling the next child to stop moves it from the pending ones to the settled ones. */
  lemma StopNext(s: State, pending: seq<Name>, toRestart: seq<Name>, toDrop: seq<Name>)
    requires StopReady(s, pending, toRestart, toDrop) && pending != []
    ensures var next, rest := pending[|pending| - 1], pending[..|pending| - 1];
            && next in s.roster.kids
            && var (s1, stopping) := Stop(s, next);
            && var keep := s.roster.kids[next].mode != Never;
            && var toRestart' := if keep then toRestart + [next] else toRestart;
            && var toDrop' := if keep then toDrop else toDrop + [next];
            && if stopping then
                 Inv(s1.(cascade := Exiting(next, rest, toRestart', toDrop')))
               else
                 StopReady(s1, rest, toRestart', toDrop')
  {
    PopKeepsQueues(s, pending, toRestart, toDrop);
    var next, rest := pending[|pending| - 1], pending[..|pending| - 1];
    assert next in pending;
    StopEffect(s, next);
    var (s1, stopping) := Stop(s, next);
    var current := if stopping then Some(next) else None;
    hide Stop, StopQueues, Sorted, RosterOk, NoneStopping, OnlyStopping;
    if s.roster.kids[next].mode != Never {
      PushRestart(s.roster, s1.roster, pending, rest, next, toRestart, toDrop, current);
    } else {
      PushDrop(s.roster, s1.roster, pending, rest, next, toRestart, toDrop, current);
    }
  }

  lemma {:induction false} AdvanceStopGood(
    s: State, pending: seq<Name>, toRestart: seq<Name>, toDrop: seq<Name>, now: int)
    requires StopReady(s, pending, toRestart, toDrop)
    ensures Good(AdvanceStop(s, pending, toRestart, toDrop, now))
    decreases |pending|
  {
    if pending == [] {
      DropAllFacts(s, toDrop);
      ReverseFacts(toRestart);
      AdvanceRestartGood(DropAll(s, toDrop), Reverse(toRestart));
    } else {
      var next, rest := pending[|pending| - 1], pending[..|pending| - 1];
      PopKeepsQueues(s, pending, toRestart, toDrop);
      hide Sorted, Distinct, Inv, Shutdown;
      if s.roster.kids[next].mode == Never {
        StopNext(s, pending, toRestart, toDrop);
        var (s1, stopping) := Stop(s, next);
        if !stopping { AdvanceStopGood(s1, rest, toRestart, toDrop + [next], now); }
      } else {
        var (s1, granted) := Permitted(s, next, now);
        if !granted {
          ShutdownGood(s1);
        } else {
          StopNext(s1, pending, toRestart, toDrop);
          var (s2, stopping) := Stop(s1, next);
          if !stopping { AdvanceStopGood(s2, rest, toRestart + [next], toDrop, now); }
        }
      }
    }
  }

  lemma StartCascadeGood(s: State, trigger: Name, now: int)
    requires RosterOk(s.roster) && !s.exiting && !s.cascade.Closing? && NoneStopping(s.roster.kids)
    requires trigger in s.roster.kids && s.roster.kids[trigger].life == Dead
    requires s.roster.kids[trigger].mode != Never
    ensures Good(StartCascade(s, trigger, now))
  {
    TailIsAfter(s.roster, trigger);
    AdvanceStopGood(s.(history := s.history.(triggers := [trigger], stopped := [])),
                    Tail(s.roster, trigger), [trigger], [], now);
  }

  lemma {:induction false} UnsettledFacts(xs: seq<Name>, settled: seq<Name>, n: Name)
    ensures n in Unsettled(xs, settled) <==> n in xs && n !in settled
  {
    if xs != [] {
      UnsettledFacts(xs[..|xs| - 1], settled, n);
      assert xs == xs[..|xs| - 1] + [xs[|xs| - 1]];
    }
  }

  lemma InOrderFacts(r: Roster, xs: seq<Name>)
    requires RosterOk(r) && Known(xs, r.kids)
    ensures Sorted(InOrder(Names(r), xs), r.order)
    ensures forall n :: n in InOrder(Names(r), xs) <==> n in xs
  {
    if |xs| >= 2 {
      var all := Names(r);
      var wanted := set n | n in xs;
      NamesAreKids(r);
      PresentOfNames(r.order, r.kids.Keys, wanted);
      PresentIsSorted(r.order, wanted);
    }
  }

  /** Listing some of the names listed is listing them in the first place. */
  lemma {:induction false} PresentOfNames(order: seq<Name>, keys: set<Name>, wanted: set<Name>)
    requires wanted <= keys
    ensures Present(Present(order, keys), wanted) == Present(order, wanted)
  {
    if order != [] {
      PresentOfNames(order[..|order| - 1], keys, wanted);
      var rest, last := Present(order[..|order| - 1], keys), order[|order| - 1];
      if last in keys { assert (rest + [last])[..|rest + [last]| - 1] == rest; }
    }
  }

  /** `n` is placed strictly between `a` and `b`. */
  ghost predicate Between(order: seq<Name>, a: Name, b: Name, n: Name) {
    || Place(order, a) < Place(order, n) < Place(order, b)
    || Place(order, b) < Place(order, n) < Place(order, a)
  }

  /** What is listed strictly between two children is what is placed strictly between them. */
  lemma StretchIsBetween(r: Roster, a: Name, b: Name, n: Name)
    requires RosterOk(r) && a in r.kids && b in r.kids && a != b
    ensures a in Names(r) && b in Names(r) && Place(Names(r), a) != Place(Names(r), b)
    ensures var (t, u) := (Place(Names(r), a), Place(Names(r), b));
            n in Names(r)[Min(t, u) + 1..Max(t, u)] <==> n in r.kids && Between(r.order, a, b, n)
  {
    NamesAreKids(r);
    var all := Names(r);
    hide Names, RosterOk;
    var (t, u) := (Place(all, a), Place(all, b));
    SortedReflects(all, r.order, t, u);
    SliceIsBetween(all, r.order, Min(t, u), Max(t, u), n);
  }

  lemma CollectedFact(s: State, trigger: Name, n: Name)
    requires RosterOk(s.roster) && s.cascade.Exiting? && s.cascade.current in s.roster.kids
    requires trigger in s.roster.kids && trigger != s.cascade.current
    ensures trigger in Names(s.roster) && s.cascade.current in Names(s.roster)
    ensures n in Collected(Names(s.roster), trigger, s.cascade) <==>
              n in s.cascade.pending ||
              (&& n in s.roster.kids && n !in s.cascade.toRestart + s.cascade.toDrop
               && Between(s.roster.order, trigger, s.cascade.current, n))
  {
    StretchIsBetween(s.roster, trigger, s.cascade.current, n);
    hide Names, RosterOk;
    var all, c := Names(s.roster), s.cascade;
    var (t, u) := (Place(all, trigger), Place(all, c.current));
    UnsettledFacts(all[Min(t, u) + 1..Max(t, u)], c.toRestart + c.toDrop, n);
  }

  /** What a merge collects is known, was not settled, and is neither trigger nor current. */
  lemma CollectedFacts(s: State, trigger: Name)
    requires RosterOk(s.roster) && s.cascade.Exiting? && s.cascade.current in s.roster.kids
    requires trigger in s.roster.kids && trigger != s.cascade.current
    ensures trigger in Names(s.roster) && s.cascade.current in Names(s.roster)
    ensures forall n :: n in Collected(Names(s.roster), trigger, s.cascade) <==>
              n in s.cascade.pending ||
              (&& n in s.roster.kids && n !in s.cascade.toRestart + s.cascade.toDrop
               && Between(s.roster.order, trigger, s.cascade.current, n))
  {
    NamesAreKids(s.roster);
    hide Collected, Names, RosterOk, Between;
    forall n ensures n in Collected(Names(s.roster), trigger, s.cascade) <==>
              n in s.cascade.pending ||
              (&& n in s.roster.kids && n !in s.cascade.toRestart + s.cascade.toDrop
               && Between(s.roster.order, trigger, s.cascade.current, n))
    {
      CollectedFact(s, trigger, n);
    }
  }

  lemma MergeGood(s: State, trigger: Name)
    requires Inv(s) && s.cascade.Exiting?
    requires trigger in s.roster.kids && s.roster.kids[trigger].life == Dead
    requires s.roster.kids[trigger].mode != Never
    requires trigger != s.cascade.current && trigger !in s.cascade.pending
    requires trigger !in s.cascade.toRestart
    ensures Good(MergeIntoStopping(s, trigger))
    ensures MergeIntoStopping(s, trigger).1.Continue?
  {
    var all, c := Names(s.roster), s.cascade;
    NamesAreKids(s.roster);
    hide Names, Collected, InOrder, RosterOk, Sorted, Between, Place;
    CollectedFacts(s, trigger);
    var collected := Collected(all, trigger, c);
    assert Known(collected, s.roster.kids);
    InOrderFacts(s.roster, collected);
    var pending := InOrder(all, collected);
    MergedQueues(s.roster, c, trigger, pending);
  }

  lemma MergedQueues(r: Roster, c: Cascade, trigger: Name, pending: seq<Name>)
    requires c.Exiting? && StopQueues(r, Some(c.current), c.pending, c.toRestart, c.toDrop)
    requires trigger in r.kids && r.kids[trigger].life == Dead && r.kids[trigger].mode != Never
    requires trigger != c.current && trigger !in c.toRestart && trigger !in c.pending
    requires Sorted(pending, r.order) && Known(pending, r.kids)
    requires forall n :: n in pending ==>
               n in c.pending || (n !in c.toRestart + c.toDrop && Between(r.order, trigger, c.current, n))
    ensures StopQueues(r, Some(c.current), pending, c.toRestart + [trigger], c.toDrop)
  {
    hide Sorted;
  }

  /** The state in which the exit of `n` is handled: as `Inv`, except that `n`, if it is the
      child being waited for, is dead by now. */
  ghost predicate ExitReady(s: State, n: Name) {
    && RosterOk(s.roster)
    && n in s.roster.kids && s.roster.kids[n].life == Dead
    && if CurrentOf(s.cascade) != Some(n) then
         && Inv(s)
         && (s.cascade.Exiting? ==> n !in s.cascade.toRestart && n !in s.cascade.toDrop)
         && (s.cascade.Closing? ==> n in s.cascade.pending)
       else
         && s.exiting == s.cascade.Closing?
         && match s.cascade
            case Exiting(_, pending, toRestart, toDrop) =>
              NoneStopping(s.roster.kids) && StopQueues(s.roster, None, pending, toRestart, toDrop)
            case Restarting(_, pending) => NoneStopping(s.roster.kids) && Queue(Some(n), pending)
            case Closing(_, pending) => Covered(s.roster, None, pending)
  }

  lemma AdvanceCascadeGood(s: State, n: Name, now: int)
    requires ExitReady(s, n) && CurrentOf(s.cascade) == Some(n)
    ensures Good(AdvanceCascade(s, now))
  {
    var idle := s.(cascade := Idle);
    match s.cascade {
      case Exiting(_, pending, toRestart, toDrop) => AdvanceStopGood(idle, pending, toRestart, toDrop, now);
      case Restarting(_, pending) => AdvanceRestartGood(idle, pending);
      case Closing(_, pending) => AdvanceShutdownGood(idle, pending);
    }
  }

  lemma HandleCurrentExitGood(s: State, n: Name, reason: ExitReason, now: int)
    requires ExitReady(s, n) && CurrentOf(s.cascade) == Some(n)
    requires s.cascade.Restarting? ==> !reason.ExitOf?
    ensures Good(HandleCurrentExit(s, n, reason, now))
  {
    if !s.cascade.Restarting? {
      AdvanceCascadeGood(s, n, now);
    } else if !RequiresRestart(s.roster.kids[n].mode, reason) {
      AdvanceRestartGood(Drop(s, n).(cascade := Idle), s.cascade.pending);
    } else {
      var (s1, granted) := Permitted(s, n, now);
      if !granted { ShutdownGood(s1); }
    }
  }

  lemma HandleExitGood(s: State, n: Name, reason: ExitReason, now: int)
    requires ExitReady(s, n)
    requires s.cascade.Restarting? && s.cascade.current == n ==> !reason.ExitOf?
    ensures Good(HandleExit(s, n, reason, now))
  {
    hide HandleCurrentExit, Shutdown, StartCascade, MergeIntoStopping, Sorted, Distinct;
    if CurrentOf(s.cascade) == Some(n) {
      HandleCurrentExitGood(s, n, reason, now);
    } else if PendingContains(s.cascade, n) {
    } else if !RequiresRestart(s.roster.kids[n].mode, reason) {
    } else {
      var (restarter, shared) := Permit(s.restarter, now);
      var s1 := s.(restarter := restarter);
      if !shared {
        ShutdownGood(s1);
      } else {
        var (s2, own) := Permitted(s1, n, now);
        if !own {
          ShutdownGood(s2);
        } else if s2.cascade.Exiting? {
          MergeGood(s2, n);
        } else {
          StartCascadeGood(s2.(cascade := Idle), n, now);
        }
      }
    }
  }

  /** A child reports something: if it is gone, its exit is ready to be handled. */
  lemma PollGood(s: State, n: Name, ready: Ready)
    requires Inv(s)
    ensures var (r, item) := PollKid(s.roster, n, ready);
            item.Some? ==>
              && var s1 := Settle(s.(roster := r), n);
              && (ReasonOf(item.value).Some? ==> ExitReady(s1, n))
              && (s.cascade.Restarting? && s.cascade.current == n ==> !item.value.Exited?)
              && (ReasonOf(item.value).None? ==> n in r.kids && r.kids[n].life in {Initializing, Alive})
  {
    hide Distinct, Sorted, Disjoint, Place;
  }

  lemma PollSuccessGood(s: State, n: Name, ready: Ready, now: int)
    requires Inv(s)
    requires var (r, item) := PollKid(s.roster, n, ready); item.Some? && ReasonOf(item.value).None?
    ensures var (r, item) := PollKid(s.roster, n, ready);
            && (item.value.Started? ==> Inv(s.(roster := r)))
            && (item.value.Initialized? ==> Good(AfterInitialized(Settle(s.(roster := r), n), n, now)))
  {
    hide Distinct, Sorted, Disjoint, Place;
    var (r, item) := PollKid(s.roster, n, ready);
    if item.value.Initialized? && CurrentOf(s.cascade) == Some(n) {
      assert s.cascade.Restarting?;
      AdvanceRestartGood(Settle(s.(roster := r), n).(cascade := Idle), s.cascade.pending);
    }
  }

  lemma SortedStable(xs: seq<Name>, order: seq<Name>, added: Name)
    requires Distinct(order) && added !in order
    requires forall n :: n in xs ==> n in order
    ensures Sorted(xs, order) ==> Sorted(xs, order + [added])
  {
    forall i | 0 <= i < |xs| ensures Place(order + [added], xs[i]) == Place(order, xs[i]) {
      PlaceStable(order, added, xs[i]);
    }
  }

  /** A child that was not here joins, starting. */
  lemma JoinKeeps(r: Roster, r': Roster, n: Name, xs: seq<Name>)
    requires RosterOk(r) && n !in r.kids && Known(xs, r.kids)
    requires r'.order == if n in r.order then r.order else r.order + [n]
    requires n in r'.kids && r'.kids == r.kids[n := r'.kids[n]]
    ensures RosterOk(r') && (Sorted(xs, r.order) ==> Sorted(xs, r'.order))
    ensures forall m :: m in r.kids ==> Place(r'.order, m) == Place(r.order, m)
  {
    if n !in r.order {
      SortedStable(xs, r.order, n);
      forall m | m in r.kids ensures Place(r'.order, m) == Place(r.order, m) {
        PlaceStable(r.order, n, m);
      }
    }
  }

  lemma RegisterGood(s: State, name: Name, mode: RestartMode, intensity: Option<Intensity>)
    requires Inv(s)
    ensures Inv(s.(roster := AddSpec(s.roster, s.exiting, name, mode, intensity)))
  {
    if !s.exiting && name !in s.roster.kids {
      var r' := AddSpec(s.roster, s.exiting, name, mode, intensity);
      assert r'.kids[name].life == Starting;
      assert r'.kids == s.roster.kids[name := r'.kids[name]];
      JoinGood(s, r', name);
    }
  }

  lemma JoinQueues(r: Roster, r': Roster, n: Name, current: Name,
                   pending: seq<Name>, toRestart: seq<Name>, toDrop: seq<Name>)
    requires StopQueues(r, Some(current), pending, toRestart, toDrop) && Sorted(pending, r'.order)
    requires n !in r.kids && n in r'.kids && r'.kids == r.kids[n := r'.kids[n]]
    ensures StopQueues(r', Some(current), pending, toRestart, toDrop)
  {
    hide Sorted, Distinct, Disjoint;
  }

  /** Outside the stop phase a child that joins starting upsets nothing. */
  lemma JoinElsewhere(s: State, r': Roster, n: Name)
    requires Inv(s) && !s.exiting && !s.cascade.Exiting? && n !in s.roster.kids && RosterOk(r')
    requires n in r'.kids && r'.kids == s.roster.kids[n := r'.kids[n]] && r'.kids[n].life == Starting
    ensures Inv(s.(roster := r'))
  {
    hide RosterOk, Queue, Covered, StopQueues;
  }

  lemma JoinExiting(s: State, r': Roster, n: Name)
    requires Inv(s) && s.cascade.Exiting? && n !in s.roster.kids && RosterOk(r')
    requires n in r'.kids && r'.kids == s.roster.kids[n := r'.kids[n]] && r'.kids[n].life == Starting
    requires Sorted(s.cascade.pending, r'.order)
    ensures Inv(s.(roster := r'))
  {
    hide RosterOk, Sorted, StopQueues, Covered;
    JoinQueues(s.roster, r', n, s.cascade.current, s.cascade.pending, s.cascade.toRestart, s.cascade.toDrop);
  }

  lemma JoinGood(s: State, r': Roster, n: Name)
    requires Inv(s) && !s.exiting && n !in s.roster.kids
    requires r'.order == if n in s.roster.order then s.roster.order else s.roster.order + [n]
    requires n in r'.kids && r'.kids == s.roster.kids[n := r'.kids[n]] && r'.kids[n].life == Starting
    ensures Inv(s.(roster := r'))
  {
    if s.cascade.Exiting? {
      JoinKeeps(s.roster, r', n, s.cascade.pending);
      hide Inv;
      JoinExiting(s, r', n);
    } else {
      JoinKeeps(s.roster, r', n, []);
      hide Inv;
      JoinElsewhere(s, r', n);
    }
  }

  lemma DeregisterGood(s: State, name: Name, now: int)
    requires Inv(s) && (s.cascade.Idle? || s.cascade.Restarting?)
    ensures Inv(RemoveSpec(s, name, now))
  {
    if name in s.roster.kids && CurrentOf(s.cascade) == Some(name) {
      AdvanceRestartGood(Drop(s, name).(cascade := Idle), s.cascade.pending);
    }
  }

  /** Main result, one step: whatever the supervisor handles, its invariant holds afterwards
      or it has ended with every child dead, and it never fails. */
  lemma StepGood(s: State, e: TimedEvent)
    requires Inv(s) && Allowed(s, e)
    ensures Good(Step(s, e))
  {
    hide HandleExit, AfterInitialized, Shutdown, RemoveSpec, AddSpec, ExitReady;
    match e.event {
      case Signal(isShutdown) => if isShutdown { ShutdownGood(s); }
      case Register(name, mode, intensity) => RegisterGood(s, name, mode, intensity);
      case Deregister(name) => DeregisterGood(s, name, e.now);
      case Poll(n, ready) =>
        var (r, item) := PollKid(s.roster, n, ready);
        PollGood(s, n, ready);
        if item.Some? {
          if ReasonOf(item.value).Some? {
            HandleExitGood(Settle(s.(roster := r), n), n, ReasonOf(item.value).value, e.now);
          } else {
            PollSuccessGood(s, n, ready, e.now);
          }
        }
    }
  }

  /** The environment keeps to `Allowed` for as long as the loop runs. */
  ghost predicate AllowedRun(s: State, events: seq<TimedEvent>)
    decreases |events|
  {
    events != [] ==>
      && Allowed(s, events[0])
      && (Step(s, events[0]).1.Continue? ==> AllowedRun(Step(s, events[0]).0, events[1..]))
  }

  lemma InitialGood(specs: seq<ChildSpec>, intensity: Intensity)
    ensures Inv(Initial(specs, intensity))
  {
    var r := RosterOf(specs);
    RosterOfOk(specs);
    StartAllStarts(r);
  }

  /** Main result, whole runs: from the start, over any allowed events. */
  lemma {:induction false} RunGood(s: State, events: seq<TimedEvent>)
    requires Inv(s) && AllowedRun(s, events)
    ensures Good(Run(s, events))
    decreases |events|
  {
    if events != [] {
      StepGood(s, events[0]);
      if Step(s, events[0]).1.Continue? { RunGood(Step(s, events[0]).0, events[1..]); }
    }
  }
}
