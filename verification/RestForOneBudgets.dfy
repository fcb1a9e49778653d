/** How the rest-for-one strategy answers a child that ends, decided by every restart that the
    supervisor and its children were ever granted: as a trigger, as a sibling that is stopped with
    it, or in place. */
module RestForOneBudgets {
  import opened Common
  import opened RestartBudget
  import opened Supervisees
  import opened Rosters
  import opened Supervision
  import opened RestForOne
  import opened RestForOneSafety
  import opened RestForOneStopPhase
  import opened RestForOneAnyEvents
  import opened BudgetLedgers

  // ----- The loops -----

  /** Who would be refused a restart at `now`. */
  function Full(kids: Kids, now: int): set<Name> {
    set n | n in kids && !ChildPermit(kids[n], now).1
  }

  /** The stop loop comes to a child that is to be restarted and may not: nobody listed after it
      has to be waited for. */
  ghost predicate RefusalReached(kids: Kids, pending: seq<Name>, full: set<Name>) {
    exists k :: 0 <= k < |pending| && Refused(kids, pending[k], full)
             && forall j :: k < j < |pending| ==> Passed(kids, pending[j])
  }

  ghost predicate Refused(kids: Kids, n: Name, full: set<Name>) {
    n in kids && kids[n].mode != Never && n in full
  }

  /** Stopping `n` leaves nothing to wait for. */
  ghost predicate Passed(kids: Kids, n: Name) {
    n in kids ==> kids[n].life in {Dead, Starting}
  }

  /** The budgets of `names` were asked and granted, and nobody else's were asked; nobody joined. */
  ghost predicate GrantedTo(kids: Kids, kids': Kids, names: seq<Name>, now: int) {
    && kids'.Keys <= kids.Keys
    && forall m :: m in kids' ==>
         && kids'[m].mode == kids[m].mode
         && if m in names && kids[m].mode != Never then
              ChildPermit(kids[m], now).1 && kids'[m].budget == ChildPermit(kids[m], now).0.budget
            else kids'[m].budget == kids[m].budget
  }

  lemma ReachedPop(kids: Kids, pending: seq<Name>, full: set<Name>)
    requires pending != []
    ensures var next, rest := pending[|pending| - 1], pending[..|pending| - 1];
            RefusalReached(kids, pending, full) <==>
            Refused(kids, next, full) || (Passed(kids, next) && RefusalReached(kids, rest, full))
  {
    hide Refused, Passed;
    var last := |pending| - 1;
    var next, rest := pending[last], pending[..last];
    if RefusalReached(kids, pending, full) {
      var k :| 0 <= k < |pending| && Refused(kids, pending[k], full)
               && forall j :: k < j < |pending| ==> Passed(kids, pending[j]);
      if k < last { assert Passed(kids, pending[last]); assert rest[k] == pending[k]; }
    }
    if Refused(kids, next, full) { assert Refused(kids, pending[last], full); }
    if Passed(kids, next) && RefusalReached(kids, rest, full) {
      var k :| 0 <= k < |rest| && Refused(kids, rest[k], full) && forall j :: k < j < |rest| ==> Passed(kids, rest[j]);
      forall j | k < j < |pending| ensures Passed(kids, pending[j]) {
        if j < last { assert rest[j] == pending[j]; }
      }
      assert pending[k] == rest[k];
    }
  }

  /** What is reached depends only on the children listed. */
  lemma ReachedSame(kids: Kids, full: set<Name>, kids': Kids, full': set<Name>, pending: seq<Name>)
    requires forall n :: n in pending ==> (n in kids' <==> n in kids)
    requires forall n :: n in pending && n in kids ==>
               kids'[n].mode == kids[n].mode && kids'[n].life == kids[n].life && (n in full' <==> n in full)
    ensures RefusalReached(kids', pending, full') <==> RefusalReached(kids, pending, full)
  {
    forall k | 0 <= k < |pending|
      ensures Refused(kids', pending[k], full') <==> Refused(kids, pending[k], full)
      ensures Passed(kids', pending[k]) <==> Passed(kids, pending[k])
    {
      assert pending[k] in pending;
    }
    hide Refused, Passed;
  }

  lemma {:induction false} RestartChargesNobody(s: State, pending: seq<Name>)
    ensures var (s', flow) := AdvanceRestart(s, pending);
            && flow.Continue? && s'.restarter == s.restarter && s'.exiting == s.exiting
            && s'.history.stopped == s.history.stopped && GrantedTo(s.roster.kids, s'.roster.kids, [], 0)
            && s'.roster.kids.Keys == s.roster.kids.Keys
    decreases |pending|
  {
    hide ChildPermit;
    if pending != [] {
      var next, rest := pending[0], pending[1..];
      if next !in s.roster.kids {
        RestartChargesNobody(s, rest);
      } else {
        RestartChargesNobody(Launch(s, next).0, rest);
      }
    }
  }

  /** One child is passed over, asked or not: what is left is the same question. */
  lemma PassedOver(kids: Kids, kids1: Kids, pending: seq<Name>, asked: bool, now: int)
    requires Distinct(pending) && pending != []
    requires var next := pending[|pending| - 1];
             && next in kids && asked == (kids[next].mode != Never)
             && kids1.Keys == kids.Keys && (forall m :: m in kids && m != next ==> kids1[m] == kids[m])
             && (asked ==> ChildPermit(kids[next], now).1)
    ensures var rest := pending[..|pending| - 1];
            RefusalReached(kids, pending, Full(kids, now))
            <==> Passed(kids, pending[|pending| - 1]) && RefusalReached(kids1, rest, Full(kids1, now))
  {
    hide ChildPermit, Passed;
    var next, rest := pending[|pending| - 1], pending[..|pending| - 1];
    ReachedPop(kids, pending, Full(kids, now));
    PopLast(pending);
    ReachedSame(kids, Full(kids, now), kids1, Full(kids1, now), rest);
    hide RefusalReached, Distinct;
  }

  lemma GrantedThen(kids: Kids, kids1: Kids, kids2: Kids, next: Name, names: seq<Name>, now: int)
    requires GrantedTo(kids, kids1, [next], now) && GrantedTo(kids1, kids2, names, now) && next !in names
    requires forall m :: m in kids1 && m != next ==> kids1[m] == kids[m]
    ensures GrantedTo(kids, kids2, [next] + names, now)
  {
    hide ChildPermit;
  }

  /** How the stop loop leaves things, told from where it was entered: those it told to stop, if
      they are to be restarted, were granted a restart first, and nobody else was asked. */
  ghost predicate StopCharges(s: State, pending: seq<Name>, result: (State, Flow), now: int) {
    var (s', flow) := result;
    && (s'.exiting <==> RefusalReached(s.roster.kids, pending, Full(s.roster.kids, now)))
    && (!s'.exiting ==>
          && flow.Continue? && s'.restarter == s.restarter && s.history.stopped <= s'.history.stopped
          && var told := s'.history.stopped[|s.history.stopped|..];
          && (forall m :: m in told ==> m in pending)
          && GrantedTo(s.roster.kids, s'.roster.kids, told, now))
  }

  /** The state `s1` is `s` with the last of `pending` told to stop. */
  ghost predicate StoppedNext(s: State, s1: State, next: Name, now: int) {
    && next in s.roster.kids
    && s1.roster.kids.Keys == s.roster.kids.Keys && s1.restarter == s.restarter && s1.exiting == s.exiting
    && s1.history.stopped == s.history.stopped + [next]
    && GrantedTo(s.roster.kids, s1.roster.kids, [next], now)
    && (forall m :: m in s.roster.kids && m != next ==> s1.roster.kids[m] == s.roster.kids[m])
  }

  lemma StopNextCharges(s: State, next: Name, now: int)
    requires next in s.roster.kids && s.roster.kids[next].mode == Never
    ensures StoppedNext(s, Stop(s, next).0, next, now)
    ensures Stop(s, next).1 <==> !Passed(s.roster.kids, next)
  {
    hide ChildPermit;
  }

  lemma PermitNextCharges(s: State, next: Name, now: int)
    requires next in s.roster.kids && s.roster.kids[next].mode != Never
    ensures var (s1, granted) := Permitted(s, next, now);
            && (granted <==> next !in Full(s.roster.kids, now)) && next in s1.roster.kids
            && (granted ==>
                  && StoppedNext(s, Stop(s1, next).0, next, now)
                  && (Stop(s1, next).1 <==> !Passed(s.roster.kids, next)))
  {
    hide Permit;
  }

  /** The stop loop waits for the child it has just told to stop. */
  lemma WaitCharges(s: State, s1: State, pending: seq<Name>, c: Cascade, now: int)
    requires Distinct(pending) && pending != [] && !s.exiting
    requires StoppedNext(s, s1, pending[|pending| - 1], now) && !Passed(s.roster.kids, pending[|pending| - 1])
    requires s.roster.kids[pending[|pending| - 1]].mode != Never ==> pending[|pending| - 1] !in Full(s.roster.kids, now)
    ensures StopCharges(s, pending, (s1.(cascade := c), Continue), now)
  {
    hide Passed, GrantedTo, ChildPermit, Full;
    ReachedPop(s.roster.kids, pending, Full(s.roster.kids, now));
    assert s1.history.stopped[|s.history.stopped|..] == [pending[|pending| - 1]];
    hide RefusalReached;
  }

  /** The stop loop goes on past the child it has just told to stop. */
  lemma GoOnCharges(s: State, s1: State, pending: seq<Name>, result: (State, Flow), now: int)
    requires Distinct(pending) && pending != []
    requires StoppedNext(s, s1, pending[|pending| - 1], now) && Passed(s.roster.kids, pending[|pending| - 1])
    requires s.roster.kids[pending[|pending| - 1]].mode != Never ==> pending[|pending| - 1] !in Full(s.roster.kids, now)
    requires StopCharges(s1, pending[..|pending| - 1], result, now)
    ensures StopCharges(s, pending, result, now)
  {
    var next, rest := pending[|pending| - 1], pending[..|pending| - 1];
    PopLast(pending);
    PassedOver(s.roster.kids, s1.roster.kids, pending, s.roster.kids[next].mode != Never, now);
    hide Passed, RefusalReached, ChildPermit, Distinct;
    var s' := result.0;
    if !s'.exiting {
      var told := s'.history.stopped[|s1.history.stopped|..];
      assert s'.history.stopped == s1.history.stopped + told;
      assert s'.history.stopped[|s.history.stopped|..] == [next] + told;
      GrantedThen(s.roster.kids, s1.roster.kids, s'.roster.kids, next, told, now);
    }
    hide GrantedTo, Full;
  }

  lemma SkipCharges(s: State, pending: seq<Name>, result: (State, Flow), now: int)
    requires pending != [] && pending[|pending| - 1] !in s.roster.kids
    requires StopCharges(s, pending[..|pending| - 1], result, now)
    ensures StopCharges(s, pending, result, now)
  {
    ReachedPop(s.roster.kids, pending, Full(s.roster.kids, now));
    assert pending == pending[..|pending| - 1] + [pending[|pending| - 1]];
    hide RefusalReached, GrantedTo, Full;
  }

  lemma RefusedCharges(s: State, pending: seq<Name>, result: (State, Flow), now: int)
    requires pending != [] && Refused(s.roster.kids, pending[|pending| - 1], Full(s.roster.kids, now)) && result.0.exiting
    ensures StopCharges(s, pending, result, now)
  {
    ReachedPop(s.roster.kids, pending, Full(s.roster.kids, now));
    hide RefusalReached, GrantedTo, Full;
  }

  lemma HandOffCharges(s: State, toRestart: seq<Name>, toDrop: seq<Name>, now: int)
    requires !s.exiting
    ensures StopCharges(s, [], AdvanceRestart(DropAll(s, toDrop), Reverse(toRestart)), now)
  {
    var dropped := DropAll(s, toDrop);
    DropAllFacts(s, toDrop);
    DropAllKeeps(s, toDrop);
    RestartChargesNobody(dropped, Reverse(toRestart));
    var s' := AdvanceRestart(dropped, Reverse(toRestart)).0;
    assert s'.history.stopped[|s.history.stopped|..] == [];
    assert !RefusalReached(s.roster.kids, [], Full(s.roster.kids, now));
    hide ChildPermit, AdvanceRestart, DropAll, Reverse;
  }

  lemma {:induction false} DropAllKeeps(s: State, names: seq<Name>)
    ensures var s' := DropAll(s, names);
            s'.restarter == s.restarter && s'.exiting == s.exiting && s'.history.stopped == s.history.stopped
    decreases |names|
  {
    if names != [] { DropAllKeeps(Drop(s, names[0]), names[1..]); }
  }

  lemma {:induction false} AdvanceStopCharges(
    s: State, pending: seq<Name>, toRestart: seq<Name>, toDrop: seq<Name>, now: int)
    requires RosterOk(s.roster) && !s.exiting && !s.cascade.Closing? && Distinct(pending)
    ensures StopCharges(s, pending, AdvanceStop(s, pending, toRestart, toDrop, now), now)
    decreases |pending|
  {
    hide RosterOk, Distinct, Stop, Permitted, Shutdown, AdvanceRestart, Reverse, DropAll, StopCharges, Passed, Full,
      StoppedNext;
    if pending == [] {
      HandOffCharges(s, toRestart, toDrop, now);
    } else {
      var next, rest := pending[|pending| - 1], pending[..|pending| - 1];
      PopLast(pending);
      if next !in s.roster.kids {
        AdvanceStopCharges(s, rest, toRestart, toDrop, now);
        SkipCharges(s, pending, AdvanceStop(s, rest, toRestart, toDrop, now), now);
      } else if s.roster.kids[next].mode == Never {
        StopKeepsRoster(s, next);
        StopNextCharges(s, next, now);
        var (s1, stopping) := Stop(s, next);
        if stopping {
          WaitCharges(s, s1, pending, Exiting(next, rest, toRestart, toDrop + [next]), now);
        } else {
          AdvanceStopCharges(s1, rest, toRestart, toDrop + [next], now);
          GoOnCharges(s, s1, pending, AdvanceStop(s1, rest, toRestart, toDrop + [next], now), now);
        }
      } else {
        PermitKeepsRoster(s, next, now);
        PermitNextCharges(s, next, now);
        var (s1, granted) := Permitted(s, next, now);
        if !granted {
          ShutdownSound(s1);
          RefusedCharges(s, pending, Shutdown(s1), now);
        } else {
          StopKeepsRoster(s1, next);
          var (s2, stopping) := Stop(s1, next);
          if stopping {
            WaitCharges(s, s2, pending, Exiting(next, rest, toRestart + [next], toDrop), now);
          } else {
            AdvanceStopCharges(s2, rest, toRestart + [next], toDrop, now);
            GoOnCharges(s, s2, pending, AdvanceStop(s2, rest, toRestart + [next], toDrop, now), now);
          }
        }
      }
    }
  }

  // ----- Who is granted a restart -----

  /** The child that reports comes to an end. */
  predicate Ends(s: State, e: TimedEvent) {
    && e.event.Poll? && e.event.name in s.roster.kids
    && EndsOn(s.roster.kids[e.event.name].life, e.event.ready)
  }

  /** No cascade waits for the child or is about to stop it. */
  predicate Outside(s: State, n: Name) {
    CurrentOf(s.cascade) != Some(n) && !PendingContains(s.cascade, n)
  }

  /** The supervisor is open after the step, and the child still here. */
  ghost predicate StaysOpen(s: State, e: TimedEvent) {
    Step(s, e).1.Continue? && !Step(s, e).0.exiting
  }

  /** An end that is answered by a restart of the child and of those placed after it. */
  ghost predicate Triggers(s: State, e: TimedEvent) {
    Ends(s, e) && Outside(s, e.event.name) && StaysOpen(s, e) && e.event.name in Step(s, e).0.roster.kids
  }

  /** The child a restart phase waits for failed to come up, and is tried again in place. */
  ghost predicate Retries(s: State, e: TimedEvent) {
    && Ends(s, e) && s.cascade.Restarting? && s.cascade.current == e.event.name
    && StaysOpen(s, e) && e.event.name in Step(s, e).0.roster.kids
  }

  /** Those the step told to stop for a restart. */
  ghost function Told(s: State, e: TimedEvent): seq<Name> {
    var (h, h') := (s.history.stopped, Step(s, e).0.history.stopped);
    if s.cascade.Exiting? then if h <= h' then h'[|h|..] else []
    else if Triggers(s, e) then h' else []
  }

  /** Everyone granted a restart in the step: the trigger, a child tried again in place, and every
      child that is told to stop so as to be restarted. */
  ghost function Granted(s: State, e: TimedEvent): set<Name> {
    if !StaysOpen(s, e) then {}
    else
      set n | n in s.roster.kids && s.roster.kids[n].mode != Never
              && (n in Told(s, e) || ((Triggers(s, e) || Retries(s, e)) && n == e.event.name))
  }

  /** The ledger after a step; a supervisor that shuts down grants nothing more. */
  ghost function Record(s: State, e: TimedEvent, l: Ledger): Ledger {
    if !StaysOpen(s, e) then l
    else Enter(l, s.roster.kids, Step(s, e).0.roster.kids, e, Triggers(s, e), Granted(s, e))
  }

  /** The ledger after a run. */
  ghost function Records(s: State, events: seq<TimedEvent>, l: Ledger): Ledger
    decreases |events|
  {
    if events == [] then l
    else
      var l1 := Record(s, events[0], l);
      if Step(s, events[0]).1.Continue? then Records(Step(s, events[0]).0, events[1..], l1) else l1
  }

  // ----- One step -----

  lemma Nothing(kids: Kids, kids': Kids, now: int)
    requires GrantedTo(kids, kids', [], 0)
    ensures GrantedTo(kids, kids', [], now)
  {
  }

  /** A cascade goes on, with `n`, the one it waited for, gone or dead. */
  lemma CascadeCharges(s: State, n: Name, now: int)
    requires Resumes(s, n) && !s.exiting
    ensures var (s', flow) := AdvanceCascade(s, now);
            && (s'.exiting <==>
                  s.cascade.Exiting? && RefusalReached(s.roster.kids, s.cascade.pending, Full(s.roster.kids, now)))
            && (!s'.exiting ==>
                  && flow.Continue? && s'.restarter == s.restarter && s.history.stopped <= s'.history.stopped
                  && var told := s'.history.stopped[|s.history.stopped|..];
                  && (s.cascade.Exiting? ==> forall m :: m in told ==> m in s.cascade.pending)
                  && (!s.cascade.Exiting? ==> told == [])
                  && GrantedTo(s.roster.kids, s'.roster.kids, told, now))
  {
    hide RosterOk, Distinct, AdvanceStop, AdvanceRestart, GrantedTo, RefusalReached, Full;
    var idle := s.(cascade := Idle);
    if s.cascade.Exiting? {
      AdvanceStopCharges(idle, s.cascade.pending, s.cascade.toRestart, s.cascade.toDrop, now);
    } else {
      RestartChargesNobody(idle, s.cascade.pending);
      var s' := AdvanceRestart(idle, s.cascade.pending).0;
      Nothing(idle.roster.kids, s'.roster.kids, now);
      assert s'.history.stopped[|s.history.stopped|..] == [];
    }
  }

  /** The stop loop drops none but those it is told to. */
  lemma {:induction false} AdvanceStopKeeps(
    s: State, pending: seq<Name>, toRestart: seq<Name>, toDrop: seq<Name>, now: int, n: Name)
    requires n in s.roster.kids && n !in pending && n !in toDrop
    ensures n in AdvanceStop(s, pending, toRestart, toDrop, now).0.roster.kids
    decreases |pending|
  {
    hide Permit;
    if pending == [] {
      DropAllFacts(s, toDrop);
      RestartChargesNobody(DropAll(s, toDrop), Reverse(toRestart));
      hide DropAll, Reverse, AdvanceRestart, ChildPermit;
    } else {
      var next, rest := pending[|pending| - 1], pending[..|pending| - 1];
      assert next in pending;
      if next !in s.roster.kids {
        AdvanceStopKeeps(s, rest, toRestart, toDrop, now, n);
      } else if s.roster.kids[next].mode == Never {
        AdvanceStopKeeps(Stop(s, next).0, rest, toRestart, toDrop + [next], now, n);
      } else {
        var s1 := Permitted(s, next, now).0;
        AdvanceStopKeeps(Stop(s1, next).0, rest, toRestart + [next], toDrop, now, n);
        ShutdownKeepsKids(s1);
        hide Shutdown, ChildPermit;
      }
    }
  }

  lemma ShutdownKeepsKids(s: State)
    ensures Shutdown(s).0.roster.kids.Keys == s.roster.kids.Keys
  {
    LoopKeepsKids(s.(exiting := true, history := s.history.(triggers := [], stopped := [])), Names(s.roster));
    hide AdvanceShutdown, Names;
  }

  lemma {:induction false} LoopKeepsKids(s: State, pending: seq<Name>)
    ensures AdvanceShutdown(s, pending).0.roster.kids.Keys == s.roster.kids.Keys
    decreases |pending|
  {
    if pending != [] {
      var next, rest := pending[|pending| - 1], pending[..|pending| - 1];
      if next in s.roster.kids { LoopKeepsKids(Stop(s, next).0, rest); } else { LoopKeepsKids(s, rest); }
    }
  }

  /** A fresh cascade, its trigger granted. */
  lemma FreshCharges(s: State, n: Name, now: int)
    requires RosterOk(s.roster) && !s.exiting && s.cascade.Idle? && n in s.roster.kids
    ensures n in Names(s.roster)
    ensures var (s', flow) := StartCascade(s, n, now);
            && (s'.exiting <==> RefusalReached(s.roster.kids, Tail(s.roster, n), Full(s.roster.kids, now)))
            && (!s'.exiting ==>
                  && flow.Continue? && s'.restarter == s.restarter && n !in s'.history.stopped
                  && GrantedTo(s.roster.kids, s'.roster.kids, s'.history.stopped, now)
                  && n in s'.roster.kids)
  {
    TailIsAfter(s.roster, n);
    SortedIsDistinct(Tail(s.roster, n), s.roster.order);
    hide Tail, Names, RosterOk, Distinct, AdvanceStop, Sorted, RefusalReached, GrantedTo, Full;
    var s0 := s.(history := s.history.(triggers := [n], stopped := []));
    AdvanceStopCharges(s0, Tail(s.roster, n), [n], [], now);
    AdvanceStopKeeps(s0, Tail(s.roster, n), [n], [], now, n);
    var s' := AdvanceStop(s0, Tail(s.roster, n), [n], [], now).0;
    assert s'.history.stopped[0..] == s'.history.stopped;
  }

  lemma TriggerIs(s: State, n: Name, reason: ExitReason, now: int)
    requires Outside(s, n) && n in s.roster.kids && !s.cascade.Closing?
    requires RequiresRestart(s.roster.kids[n].mode, reason)
    ensures var s1 := s.(restarter := Permit(s.restarter, now).0);
            var (s2, own) := Permitted(s1, n, now);
            HandleExit(s, n, reason, now)
            == if !Permit(s.restarter, now).1 then Shutdown(s1)
               else if !own then Shutdown(s2)
               else if s.cascade.Exiting? then MergeIntoStopping(s2, n)
               else StartCascade(s2.(cascade := Idle), n, now)
  {
    hide Permit, ChildPermit, Shutdown, MergeIntoStopping, StartCascade;
    var s2 := Permitted(s.(restarter := Permit(s.restarter, now).0), n, now).0;
    assert s2.cascade == s.cascade;
    assert s2.cascade.Idle? ==> s2.(cascade := Idle) == s2;
  }

  lemma MergeChargesNobody(s: State, n: Name)
    requires s.cascade.Exiting?
    ensures var s' := MergeIntoStopping(s, n).0;
            && s'.roster == s.roster && s'.restarter == s.restarter && s'.exiting == s.exiting
            && s'.history.stopped == s.history.stopped
  {
    hide Names, Collected, SortFails, InOrder;
  }

  /** A trigger was granted, and then those in `told`. */
  lemma TriggerPermitted(s: State, n: Name, now: int)
    requires RosterOk(s.roster) && n in s.roster.kids && s.roster.kids[n].mode != Never
    ensures var (s2, own) := Permitted(s, n, now);
            && (own <==> n !in Full(s.roster.kids, now))
            && RosterOk(s2.roster) && n in s2.roster.kids && s2.cascade == s.cascade && s2.exiting == s.exiting
            && s2.roster.order == s.roster.order && s2.restarter == s.restarter && s2.history == s.history
            && Names(s2.roster) == Names(s.roster)
            && s2.roster.kids.Keys == s.roster.kids.Keys
            && (forall m :: m in s.roster.kids && m != n ==> s2.roster.kids[m] == s.roster.kids[m])
            && (own ==> GrantedTo(s.roster.kids, s2.roster.kids, [n], now))
  {
    hide Distinct, Permit;
    assert Permitted(s, n, now).0.roster.kids.Keys == s.roster.kids.Keys;
  }

  lemma TailSame(r: Roster, r2: Roster, n: Name, now: int)
    requires RosterOk(r) && n in r.kids && r2.order == r.order && r2.kids.Keys == r.kids.Keys
    requires forall m :: m in r.kids && m != n ==> r2.kids[m] == r.kids[m]
    ensures n in Names(r) && Names(r2) == Names(r)
    ensures RefusalReached(r2.kids, Tail(r2, n), Full(r2.kids, now)) <==> RefusalReached(r.kids, Tail(r, n), Full(r.kids, now))
  {
    TailIsAfter(r, n);
    hide ChildPermit;
    ReachedSame(r.kids, Full(r.kids, now), r2.kids, Full(r2.kids, now), Tail(r, n));
    hide RefusalReached, Names, Distinct, Sorted;
  }

  /** What an outside end that calls for a restart leads to: the supervisor shuts down just if its
      own budget refuses, or the child's, or that of a sibling the stop loop comes to. */
  lemma TriggerCharges(s: State, n: Name, reason: ExitReason, now: int)
    requires ExitSound(s, n, reason) && !s.exiting && Outside(s, n)
    requires RequiresRestart(s.roster.kids[n].mode, reason)
    ensures n in Names(s.roster)
    ensures var (s', flow) := HandleExit(s, n, reason, now);
            && (s'.exiting <==>
                  || !Permit(s.restarter, now).1 || n in Full(s.roster.kids, now)
                  || (!s.cascade.Exiting?
                      && RefusalReached(s.roster.kids, Tail(s.roster, n), Full(s.roster.kids, now))))
            && (!s'.exiting ==>
                  && s'.restarter == Permit(s.restarter, now).0
                  && var told := if s.cascade.Exiting? then [] else s'.history.stopped;
                  && (s.cascade.Exiting? ==> s'.history.stopped == s.history.stopped)
                  && n !in told && GrantedTo(s.roster.kids, s'.roster.kids, [n] + told, now)
                  && n in s'.roster.kids)
  {
    hide HandleExit, Permit, ChildPermit, Shutdown, MergeIntoStopping, StartCascade, Permitted, ExitSound, RosterOk,
      RefusalReached, Full, GrantedTo, Names, Tail;
    NotClosing(s, n, reason);
    var s1 := s.(restarter := Permit(s.restarter, now).0);
    var (s2, own) := Permitted(s1, n, now);
    TriggerIs(s, n, reason, now);
    TriggerPermitted(s1, n, now);
    ShutdownSound(s1);
    ShutdownSound(s2);
    TailSame(s.roster, s2.roster, n, now);
    if own {
      if s.cascade.Exiting? {
        MergeChargesNobody(s2, n);
        assert [n] + [] == [n];
      } else {
        FreshFromTrigger(s, s2, n, now);
      }
    }
  }

  lemma FreshFromTrigger(s: State, s2: State, n: Name, now: int)
    requires RosterOk(s.roster) && RosterOk(s2.roster) && n in s.roster.kids && n in s2.roster.kids && !s2.exiting
    requires s2.roster.order == s.roster.order && s2.roster.kids.Keys == s.roster.kids.Keys
    requires forall m :: m in s.roster.kids && m != n ==> s2.roster.kids[m] == s.roster.kids[m]
    requires GrantedTo(s.roster.kids, s2.roster.kids, [n], now)
    ensures n in Names(s.roster)
    ensures var (s', flow) := StartCascade(s2.(cascade := Idle), n, now);
            && (s'.exiting <==> RefusalReached(s.roster.kids, Tail(s.roster, n), Full(s.roster.kids, now)))
            && (!s'.exiting ==>
                  && s'.restarter == s2.restarter && n !in s'.history.stopped && n in s'.roster.kids
                  && GrantedTo(s.roster.kids, s'.roster.kids, [n] + s'.history.stopped, now))
  {
    hide StartCascade, RosterOk, RefusalReached, Full, GrantedTo, Names, Tail, ChildPermit;
    TailSame(s.roster, s2.roster, n, now);
    FreshCharges(s2.(cascade := Idle), n, now);
    var s' := StartCascade(s2.(cascade := Idle), n, now).0;
    if !s'.exiting { GrantedThen(s.roster.kids, s2.roster.kids, s'.roster.kids, n, s'.history.stopped, now); }
  }

  lemma NotClosing(s: State, n: Name, reason: ExitReason)
    requires ExitSound(s, n, reason) && !s.exiting && Outside(s, n)
    ensures n in s.roster.kids && RosterOk(s.roster) && !s.cascade.Closing?
  {
  }

  /** A child the restart phase waits for has failed: it leaves, is tried again in place if its own
      budget grants it, or all are shut down. */
  lemma RetryCharges(s: State, n: Name, reason: ExitReason, now: int)
    requires ExitSound(s, n, reason) && !s.exiting && s.cascade.Restarting? && s.cascade.current == n
    ensures var (s', flow) := HandleExit(s, n, reason, now);
            && !flow.Panic? && !s'.cascade.Exiting?
            && if !RequiresRestart(s.roster.kids[n].mode, reason) then
                 && n !in s'.roster.kids && flow.Continue? && !s'.exiting && s'.restarter == s.restarter
                 && GrantedTo(s.roster.kids, s'.roster.kids, [], now)
               else if n in Full(s.roster.kids, now) then s'.exiting
               else
                 && flow.Continue? && s' == s.(roster := s'.roster, history := s'.history)
                 && s'.history == s.history.(launched := s.history.launched + {n})
                 && s'.roster.order == s.roster.order && s'.roster.kids.Keys == s.roster.kids.Keys
                 && s'.roster.kids[n].life == Starting && s'.roster.kids[n].mode == s.roster.kids[n].mode
                 && (forall m :: m in s.roster.kids && m != n ==> s'.roster.kids[m] == s.roster.kids[m])
                 && GrantedTo(s.roster.kids, s'.roster.kids, [n], now)
  {
    RetryIs(s, n, reason, now);
    if !RequiresRestart(s.roster.kids[n].mode, reason) {
      DropStillResumes(s, n);
      CascadeCharges(Drop(s, n), n, now);
      CascadeLeavesOpen(Drop(s, n), now);
      hide AdvanceCascade, HandleExit, ExitSound, Resumes, Full;
    } else {
      TriggerPermitted(s, n, now);
      var (s1, granted) := Permitted(s, n, now);
      ShutdownSound(s1);
      hide HandleExit, Permit, Shutdown, RosterOk, Resumes, Names;
    }
  }

  lemma RetryIs(s: State, n: Name, reason: ExitReason, now: int)
    requires s.cascade.Restarting? && s.cascade.current == n && n in s.roster.kids && !reason.ExitOf?
    ensures var (s1, granted) := Permitted(s, n, now);
            HandleExit(s, n, reason, now)
            == if !RequiresRestart(s.roster.kids[n].mode, reason) then (AdvanceCascade(Drop(s, n), now).0, Continue)
               else if !granted then Shutdown(s1) else (Launch(s1, n).0, Continue)
  {
    hide AdvanceCascade, Shutdown, Permit, ChildPermit;
  }

  lemma CascadeLeavesOpen(s: State, now: int)
    requires s.cascade.Restarting?
    ensures var s' := AdvanceCascade(s, now).0;
            !s'.cascade.Exiting? && s'.roster.kids.Keys == s.roster.kids.Keys
  {
    RestartPhaseStays(s.(cascade := Idle), s.cascade.pending);
  }

  lemma {:induction false} RestartPhaseStays(s: State, pending: seq<Name>)
    ensures var s' := AdvanceRestart(s, pending).0;
            !s'.cascade.Exiting? && s'.roster.kids.Keys == s.roster.kids.Keys
    decreases |pending|
  {
    if pending != [] {
      var next, rest := pending[0], pending[1..];
      if next !in s.roster.kids { RestartPhaseStays(s, rest); } else { RestartPhaseStays(Launch(s, next).0, rest); }
    }
  }

  // ----- A child that ends -----

  /** The state once the report of `e.event.name` has been made. */
  function Reported(s: State, e: TimedEvent): State
    requires e.event.Poll?
  {
    Settle(s.(roster := PollKid(s.roster, e.event.name, e.event.ready).0), e.event.name)
  }

  /** Reporting an end changes nothing the budgets or the queues depend on. */
  lemma ReportChangesOne(s: State, e: TimedEvent)
    requires Ends(s, e)
    ensures var (n, s1) := (e.event.name, Reported(s, e));
            && s1.roster.order == s.roster.order && s1.roster.kids.Keys == s.roster.kids.Keys
            && s1.roster.kids[n] == s.roster.kids[n].(life := Dead)
            && (forall m :: m in s.roster.kids && m != n ==> s1.roster.kids[m] == s.roster.kids[m])
            && s1 == s.(roster := s1.roster, history := s1.history)
            && s1.history == s.history.(launched := s.history.launched - {n})
            && Names(s1.roster) == Names(s.roster)
            && Full(s1.roster.kids, e.now) == Full(s.roster.kids, e.now)
  {
    EndReported(s.roster, e.event.name, e.event.ready);
    hide Permit;
    assert Reported(s, e).roster.kids.Keys == s.roster.kids.Keys;
  }

  lemma GrantedSinceReport(s: State, e: TimedEvent, kids': Kids, names: seq<Name>)
    requires Ends(s, e)
    ensures GrantedTo(Reported(s, e).roster.kids, kids', names, e.now) <==> GrantedTo(s.roster.kids, kids', names, e.now)
  {
    ReportChangesOne(s, e);
    hide Permit, Reported, Full;
  }

  lemma ReachedSinceReport(s: State, e: TimedEvent, pending: seq<Name>)
    requires Ends(s, e) && e.event.name !in pending
    ensures RefusalReached(Reported(s, e).roster.kids, pending, Full(Reported(s, e).roster.kids, e.now))
            <==> RefusalReached(s.roster.kids, pending, Full(s.roster.kids, e.now))
  {
    ReportChangesOne(s, e);
    hide Reported, Full;
    ReachedSame(s.roster.kids, Full(s.roster.kids, e.now), Reported(s, e).roster.kids,
                Full(Reported(s, e).roster.kids, e.now), pending);
    hide RefusalReached;
  }

  /** Why the child that ended did, and where that is handled. */
  lemma EndIsHandled(s: State, e: TimedEvent) returns (reason: ExitReason)
    requires Sound(s) && Ends(s, e)
    ensures Step(s, e) == HandleExit(Reported(s, e), e.event.name, reason, e.now)
    ensures ExitSound(Reported(s, e), e.event.name, reason)
    ensures var c := s.roster.kids[e.event.name];
            RequiresRestart(c.mode, reason) <==> !GoneForGood(c.mode, c.life, e.event.ready)
  {
    EndReported(s.roster, e.event.name, e.event.ready);
    PollSound(s, e.event.name, e.event.ready);
    hide HandleExit, ExitSound, Sound, PollKid, EndsOn, GoneForGood, RequiresRestart;
    reason := ReasonOf(PollKid(s.roster, e.event.name, e.event.ready).1.value).value;
  }

  lemma Listed(s: State, n: Name)
    requires Sound(s) && n in s.roster.kids
    ensures n in Names(s.roster) && n !in Tail(s.roster, n)
  {
    TailIsAfter(s.roster, n);
    hide Names, Distinct, Sorted;
  }

  /** A trigger is not dropped, whatever comes of it. */
  lemma TriggerStays(s: State, n: Name, reason: ExitReason, now: int)
    requires ExitSound(s, n, reason) && !s.exiting && Outside(s, n)
    requires RequiresRestart(s.roster.kids[n].mode, reason)
    ensures n in HandleExit(s, n, reason, now).0.roster.kids
  {
    hide HandleExit, Permit, Shutdown, MergeIntoStopping, StartCascade, Permitted, ExitSound, RosterOk, Names, Full,
      GrantedTo;
    NotClosing(s, n, reason);
    TriggerIs(s, n, reason, now);
    var s1 := s.(restarter := Permit(s.restarter, now).0);
    var (s2, own) := Permitted(s1, n, now);
    TriggerPermitted(s1, n, now);
    ShutdownKeepsKids(s1);
    ShutdownKeepsKids(s2);
    if s.cascade.Exiting? {
      MergeChargesNobody(s2, n);
    } else {
      FreshKeeps(s2.(cascade := Idle), n, now);
    }
  }

  lemma FreshKeeps(s: State, n: Name, now: int)
    requires RosterOk(s.roster) && n in s.roster.kids
    ensures n in StartCascade(s, n, now).0.roster.kids
  {
    TailIsAfter(s.roster, n);
    hide AdvanceStop, Names, Sorted, Distinct;
    AdvanceStopKeeps(s.(history := s.history.(triggers := [n], stopped := [])), Tail(s.roster, n), [n], [], now, n);
  }

  lemma OutsiderLeaves(s: State, n: Name, reason: ExitReason, now: int)
    requires Outside(s, n) && n in s.roster.kids && !RequiresRestart(s.roster.kids[n].mode, reason)
    ensures HandleExit(s, n, reason, now) == (Drop(s, n), Continue)
  {
    hide Permit, ChildPermit, Shutdown, MergeIntoStopping, StartCascade, AdvanceCascade;
  }

  /** An end outside any cascade. The child is gone for good, and nothing else changes; or it and
      those after it are restarted; or, if the supervisor's budget refuses, or the child's, or that
      of a sibling the stop loop comes to, all are shut down. */
  lemma OutsideEnd(s: State, e: TimedEvent)
    requires Sound(s) && !s.exiting && Ends(s, e) && Outside(s, e.event.name)
    ensures e.event.name in Names(s.roster)
    ensures var (n, c) := (e.event.name, s.roster.kids[e.event.name]);
            var (s', flow) := Step(s, e);
            if GoneForGood(c.mode, c.life, e.event.ready) then Step(s, e) == (Drop(s, n), Continue)
            else
              && n in s'.roster.kids
              && (s'.exiting <==>
                    || !Permit(s.restarter, e.now).1 || n in Full(s.roster.kids, e.now)
                    || (!s.cascade.Exiting?
                        && RefusalReached(s.roster.kids, Tail(s.roster, n), Full(s.roster.kids, e.now))))
              && (!s'.exiting ==>
                    && s'.restarter == Permit(s.restarter, e.now).0
                    && var told := if s.cascade.Exiting? then [] else s'.history.stopped;
                    && (s.cascade.Exiting? ==> s'.history.stopped == s.history.stopped)
                    && n !in told && GrantedTo(s.roster.kids, s'.roster.kids, [n] + told, e.now))
  {
    hide Step, Reported, HandleExit, Permit, Full, RefusalReached, GrantedTo, Names, Sound, EndsOn, GoneForGood,
      RequiresRestart;
    var n := e.event.name;
    var reason := EndIsHandled(s, e);
    ReportChangesOne(s, e);
    Listed(s, n);
    ReachedSinceReport(s, e, Tail(s.roster, n));
    var s1 := Reported(s, e);
    if RequiresRestart(s.roster.kids[n].mode, reason) {
      TriggerCharges(s1, n, reason, e.now);
      TriggerStays(s1, n, reason, e.now);
      var s' := Step(s, e).0;
      GrantedSinceReport(s, e, s'.roster.kids, [n] + if s.cascade.Exiting? then [] else s'.history.stopped);
    } else {
      OutsiderLeaves(s1, n, reason, e.now);
      assert s1.roster.kids - {n} == s.roster.kids - {n};
      assert s1.history.launched - {n} == s.history.launched - {n};
    }
  }

  /** The child that siblings are being stopped behind exits: the stop loop goes on. */
  lemma StoppedEnds(s: State, e: TimedEvent)
    requires Sound(s) && Ends(s, e) && s.cascade.Exiting? && s.cascade.current == e.event.name
    ensures var (s', flow) := Step(s, e);
            && (s'.exiting <==> RefusalReached(s.roster.kids, s.cascade.pending, Full(s.roster.kids, e.now)))
            && (!s'.exiting ==>
                  && flow.Continue? && s'.restarter == s.restarter && s.history.stopped <= s'.history.stopped
                  && var told := s'.history.stopped[|s.history.stopped|..];
                  && e.event.name !in told && GrantedTo(s.roster.kids, s'.roster.kids, told, e.now))
  {
    hide Step, Reported, HandleExit, AdvanceCascade, Full, RefusalReached, GrantedTo, Sound, EndsOn, RequiresRestart,
      ExitSound, Resumes, Names;
    var n := e.event.name;
    var reason := EndIsHandled(s, e);
    ReportChangesOne(s, e);
    CurrentNotPending(s);
    ReachedSinceReport(s, e, s.cascade.pending);
    var s1 := Reported(s, e);
    CurrentResumes(s1, n, reason);
    ExitOfCurrentAdvances(s1, n, reason, e.now);
    CascadeCharges(s1, n, e.now);
    var s' := Step(s, e).0;
    if !s'.exiting { GrantedSinceReport(s, e, s'.roster.kids, s'.history.stopped[|s.history.stopped|..]); }
  }

  lemma CurrentNotPending(s: State)
    requires Sound(s) && s.cascade.Exiting?
    ensures s.cascade.current !in s.cascade.pending && !s.exiting && s.cascade.current in s.roster.kids
  {
  }

  lemma CurrentResumes(s: State, n: Name, reason: ExitReason)
    requires ExitSound(s, n, reason) && CurrentOf(s.cascade) == Some(n)
    ensures Resumes(s, n)
  {
  }

  /** The child a restart phase waits for fails to come up. */
  lemma RetryEnds(s: State, e: TimedEvent)
    requires Sound(s) && Ends(s, e) && s.cascade.Restarting? && s.cascade.current == e.event.name
    ensures var (n, c) := (e.event.name, s.roster.kids[e.event.name]);
            var (s', flow) := Step(s, e);
            && !s'.cascade.Exiting?
            && if GoneForGood(c.mode, c.life, e.event.ready) then
                 && n !in s'.roster.kids && flow.Continue? && !s'.exiting && s'.restarter == s.restarter
                 && GrantedTo(s.roster.kids, s'.roster.kids, [], e.now)
               else if n in Full(s.roster.kids, e.now) then s'.exiting
               else RetriedInPlace(s, n, s') && flow.Continue? && GrantedTo(s.roster.kids, s'.roster.kids, [n], e.now)
  {
    hide Step, Reported, HandleExit, Full, GrantedTo, Sound, EndsOn, GoneForGood, RequiresRestart, ExitSound, Names;
    var n := e.event.name;
    var reason := EndIsHandled(s, e);
    ReportChangesOne(s, e);
    OpenInRestart(s);
    var s1 := Reported(s, e);
    RetryCharges(s1, n, reason, e.now);
    var s' := Step(s, e).0;
    GrantedSinceReport(s, e, s'.roster.kids, []);
    GrantedSinceReport(s, e, s'.roster.kids, [n]);
  }

  /** The child that failed is starting again, and all else is as it was. */
  ghost predicate RetriedInPlace(s: State, n: Name, s': State)
    requires n in s.roster.kids
  {
    && !s'.exiting && s'.cascade == s.cascade && s'.restarter == s.restarter
    && s'.roster.order == s.roster.order && s'.roster.kids.Keys == s.roster.kids.Keys
    && s'.roster.kids[n].life == Starting && s'.roster.kids[n].mode == s.roster.kids[n].mode
    && (forall m :: m in s.roster.kids && m != n ==> s'.roster.kids[m] == s.roster.kids[m])
  }

  lemma OpenInRestart(s: State)
    requires Sound(s) && s.cascade.Restarting?
    ensures !s.exiting
  {
  }

  /** A child about to be stopped ends by itself: it is left to the stop loop. */
  lemma PendingEnds(s: State, e: TimedEvent)
    requires Sound(s) && !s.exiting && Ends(s, e) && PendingContains(s.cascade, e.event.name)
    ensures Step(s, e) == (Reported(s, e), Continue)
  {
    hide Step, HandleExit, ExitSound, RequiresRestart, GoneForGood;
    var reason := EndIsHandled(s, e);
    PendingIsIgnored(s, Reported(s, e), e.event.name, reason, e.now);
  }

  lemma PendingIsIgnored(s: State, s1: State, n: Name, reason: ExitReason, now: int)
    requires Sound(s) && s1.cascade == s.cascade && PendingContains(s.cascade, n)
    ensures HandleExit(s1, n, reason, now) == (s1, Continue)
  {
    hide Distinct, RosterOk;
  }

  // ----- Any step -----

  /** How any step leaves the budgets if no child ends in it. */
  ghost predicate OtherCharges(s: State, advances: bool, result: (State, Flow), now: int) {
    var (s', flow) := result;
    && (s'.exiting <==>
          advances && s.cascade.Exiting? && RefusalReached(s.roster.kids, s.cascade.pending, Full(s.roster.kids, now)))
    && (!s'.exiting ==>
          && flow.Continue? && s'.restarter == s.restarter && s.history.stopped <= s'.history.stopped
          && var told := s'.history.stopped[|s.history.stopped|..];
          && (!s.cascade.Exiting? ==> told == [])
          && GrantedTo(s.roster.kids, s'.roster.kids, told, now))
  }

  lemma FewerGranted(kids: Kids, kids1: Kids, kids': Kids, told: seq<Name>, now: int)
    requires kids1.Keys <= kids.Keys && forall m :: m in kids1 ==> kids1[m].mode == kids[m].mode && kids1[m].budget == kids[m].budget
    requires GrantedTo(kids1, kids', told, now)
    ensures GrantedTo(kids, kids', told, now)
  {
    hide Permit;
  }

  lemma NothingCharged(s: State, s': State, now: int)
    requires s'.restarter == s.restarter && s'.exiting == s.exiting && !s.exiting && s'.history.stopped == s.history.stopped
    requires GrantedTo(s.roster.kids, s'.roster.kids, [], now)
    ensures OtherCharges(s, false, (s', Continue), now)
  {
    hide GrantedTo;
    assert s'.history.stopped[|s.history.stopped|..] == [];
  }

  lemma DeregisterCharges(s: State, n: Name, now: int)
    requires Sound(s) && !s.exiting
    ensures OtherCharges(s, CurrentOf(s.cascade) == Some(n), (RemoveSpec(s, n, now), Continue), now)
  {
    hide ChildPermit, RefusalReached, Distinct, AdvanceCascade;
    var dropped := Drop(s, n);
    if CurrentOf(s.cascade) == Some(n) {
      CurrentIsHere(s, n);
      DropCurrentResumes(s, n);
      CascadeCharges(dropped, n, now);
      var s' := AdvanceCascade(dropped, now).0;
      if s.cascade.Exiting? {
        ReachedSame(s.roster.kids, Full(s.roster.kids, now), dropped.roster.kids, Full(dropped.roster.kids, now),
                    s.cascade.pending);
      }
      if !s'.exiting {
        FewerGranted(s.roster.kids, dropped.roster.kids, s'.roster.kids, s'.history.stopped[|s.history.stopped|..], now);
      }
    } else {
      NothingCharged(s, RemoveSpec(s, n, now), now);
    }
  }

  /** A child reports that it goes on, or nothing. */
  lemma QuietPoll(s: State, e: TimedEvent)
    requires Sound(s) && !s.exiting && e.event.Poll? && !Ends(s, e)
    ensures OtherCharges(s, false, Step(s, e), e.now)
  {
    hide ChildPermit, RefusalReached, Distinct, AdvanceCascade, HandleExit;
    var (n, ready) := (e.event.name, e.event.ready);
    var (r, item) := PollKid(s.roster, n, ready);
    var s1 := s.(roster := r);
    assert GrantedTo(s.roster.kids, r.kids, [], e.now);
    if item.Some? {
      PollSound(s, n, ready);
      if item.value.Initialized? && CurrentOf(s.cascade) == Some(n) {
        var s2 := Settle(s1, n);
        CascadeCharges(s2, n, e.now);
        var s' := AdvanceCascade(s2, e.now).0;
        assert s.cascade.Restarting?;
        FewerGranted(s.roster.kids, r.kids, s'.roster.kids, s'.history.stopped[|s.history.stopped|..], e.now);
      } else {
        NothingCharged(s, Step(s, e).0, e.now);
      }
    } else {
      NothingCharged(s, s, e.now);
    }
  }

  /** A step in which no child ends asks no budget, unless the child that siblings are being
      stopped behind is deregistered and the stop loop goes on. */
  lemma OtherStep(s: State, e: TimedEvent)
    requires Sound(s) && !s.exiting && !Ends(s, e) && !e.event.Register?
    ensures e.event != Signal(true) ==>
              OtherCharges(s, e.event.Deregister? && CurrentOf(s.cascade) == Some(e.event.name), Step(s, e), e.now)
    ensures e.event == Signal(true) ==> Step(s, e).0.exiting
  {
    hide OtherCharges, Shutdown, RemoveSpec, AddSpec, PollKid, AfterInitialized, HandleExit;
    match e.event {
      case Signal(isShutdown) =>
        if isShutdown { ShutdownSound(s); } else { SameIsQuiet(s, e.now); }
        hide Sound;
      case Deregister(n) =>
        DeregisterCharges(s, n, e.now);
        hide Sound;
      case Poll(n, ready) =>
        QuietPoll(s, e);
        hide Sound;
    }
  }

  lemma SameIsQuiet(s: State, now: int)
    requires !s.exiting
    ensures OtherCharges(s, false, (s, Continue), now)
  {
    hide ChildPermit;
    NothingCharged(s, s, now);
  }

  /** What touches no cascade: children join, and leave, one at a time, and one that reports that
      it goes on does so; nobody else is affected. */
  lemma OtherOutcomes(s: State, e: TimedEvent)
    requires Sound(s) && !s.exiting && !Ends(s, e)
    requires e.event.Poll? || e.event.Deregister? ==> CurrentOf(s.cascade) != Some(e.event.name)
    ensures var (s', flow) := Step(s, e);
            && (e.event != Signal(true) ==> flow.Continue?)
            && match e.event
               case Signal(isShutdown) => if isShutdown then s'.exiting else s' == s
               case Register(name, mode, intensity) =>
                 && s' == s.(roster := s'.roster)
                 && if name in s.roster.kids then s' == s else Joined(s.roster, s'.roster, name, mode, intensity)
               case Deregister(name) =>
                 && s'.roster == s.roster.(kids := s.roster.kids - {name})
                 && s' == s.(roster := s'.roster, history := s'.history)
               case Poll(n, ready) =>
                 && s' == s.(roster := s'.roster, history := s'.history) && s'.roster.order == s.roster.order
                 && (n !in s.roster.kids ==> s' == s)
                 && (n in s.roster.kids ==>
                       s'.roster.kids == s.roster.kids[n := s.roster.kids[n].(life := ComesUp(s.roster.kids[n].life, ready))])
  {
    hide AdvanceCascade, HandleExit;
    match e.event {
      case Signal(isShutdown) =>
        if isShutdown { ShutdownSound(s); }
        hide Shutdown, Sound;
      case Register(name, mode, intensity) =>
        AddSpecJoins(s.roster, s.exiting, name, mode, intensity);
        hide AddSpec, Sound;
      case Deregister(name) =>
        assert name !in s.roster.kids ==> s.roster.kids - {name} == s.roster.kids;
        hide Sound;
      case Poll(n, ready) =>
        if n in s.roster.kids { QuietReport(s.roster, n, ready); }
        hide Sound, PollKid;
    }
  }

  /** The child a restart phase waits for comes up: the phase goes on with the next. */
  lemma CurrentComesUp(s: State, e: TimedEvent)
    requires Sound(s) && !s.exiting && e.event.Poll? && CurrentOf(s.cascade) == Some(e.event.name)
    requires e.event.name in s.roster.kids && s.roster.kids[e.event.name].life == Initializing && e.event.ready.Succeeds?
    ensures var n := e.event.name;
            var (s', flow) := Step(s, e);
            && s.cascade.Restarting? && flow.Continue? && s'.roster.order == s.roster.order
            && n in s'.roster.kids && s'.roster.kids.Keys == s.roster.kids.Keys
            && (n !in s.cascade.pending ==> s'.roster.kids[n] == s.roster.kids[n].(life := Alive))
            && (s'.cascade.Idle? || s'.cascade.Restarting?)
            && forall m :: m in s.roster.kids && m !in s.cascade.pending && m != n ==> s'.roster.kids[m] == s.roster.kids[m]
  {
    hide AdvanceRestart, HandleExit;
    QuietReport(s.roster, e.event.name, e.event.ready);
    var s1 := Reported(s, e);
    RestartTouchesPending(s1.(cascade := Idle), s.cascade.pending);
  }

  lemma {:induction false} RestartTouchesPending(s: State, pending: seq<Name>)
    ensures var (s', flow) := AdvanceRestart(s, pending);
            && flow.Continue? && s'.roster.order == s.roster.order && s'.roster.kids.Keys == s.roster.kids.Keys
            && (s'.cascade.Idle? || s'.cascade.Restarting?)
            && forall m :: m in s.roster.kids && m !in pending ==> s'.roster.kids[m] == s.roster.kids[m]
    decreases |pending|
  {
    if pending != [] {
      var next, rest := pending[0], pending[1..];
      assert pending == [next] + rest;
      if next !in s.roster.kids { RestartTouchesPending(s, rest); } else { RestartTouchesPending(Launch(s, next).0, rest); }
    }
  }

  // ----- The ledger -----

  lemma GrantedIsCharged(s: State, e: TimedEvent, names: seq<Name>)
    requires StaysOpen(s, e) && GrantedTo(s.roster.kids, Step(s, e).0.roster.kids, names, e.now)
    requires forall n :: n in s.roster.kids && s.roster.kids[n].mode != Never ==> (n in names <==> n in Granted(s, e))
    ensures Charged(s.roster.kids, Step(s, e).0.roster.kids, e, Granted(s, e))
  {
    hide Step, ChildPermit, Told, Triggers, Retries;
  }

  lemma StoppedSuffix(h: seq<Name>, h': seq<Name>)
    requires h == h'
    ensures h <= h' && h'[|h|..] == []
  {
  }

  /** The permits of a step are those of whom it grants a restart: the supervisor's own budget is
      charged for a trigger, a child's for each restart of it, and no budget for anything else. */
  lemma StepCharges(s: State, e: TimedEvent)
    requires Sound(s) && !s.exiting && StaysOpen(s, e)
    ensures Charged(s.roster.kids, Step(s, e).0.roster.kids, e, Granted(s, e))
    ensures Triggers(s, e) ==> Permit(s.restarter, e.now) == (Step(s, e).0.restarter, true)
    ensures !Triggers(s, e) ==> Step(s, e).0.restarter == s.restarter
  {
    if e.event.Register? {
      RegisterCharges(s, e);
    } else if !Ends(s, e) {
      OtherStep(s, e);
      OtherIsCharged(s, e);
    } else if Outside(s, e.event.name) {
      OutsideCharges(s, e);
    } else if PendingContains(s.cascade, e.event.name) {
      PendingCharges(s, e);
    } else {
      NotClosingYet(s);
      CurrentCharges(s, e);
    }
    hide *;
  }

  lemma NotClosingYet(s: State)
    requires Sound(s) && !s.exiting
    ensures !s.cascade.Closing?
  {
  }

  lemma RegisterCharges(s: State, e: TimedEvent)
    requires !s.exiting && e.event.Register?
    ensures Charged(s.roster.kids, Step(s, e).0.roster.kids, e, Granted(s, e)) && Step(s, e).0.restarter == s.restarter
  {
    hide ChildPermit;
    StoppedSuffix(s.history.stopped, Step(s, e).0.history.stopped);
  }

  lemma OtherIsCharged(s: State, e: TimedEvent)
    requires !s.exiting && StaysOpen(s, e) && !Ends(s, e) && !e.event.Register?
    requires exists advances :: OtherCharges(s, advances, Step(s, e), e.now)
    ensures Charged(s.roster.kids, Step(s, e).0.roster.kids, e, Granted(s, e))
    ensures Step(s, e).0.restarter == s.restarter
  {
    hide Step, GrantedTo, Charged, RefusalReached;
    GrantedIsCharged(s, e, Step(s, e).0.history.stopped[|s.history.stopped|..]);
  }

  lemma OutsideCharges(s: State, e: TimedEvent)
    requires Sound(s) && !s.exiting && StaysOpen(s, e) && Ends(s, e) && Outside(s, e.event.name)
    ensures Charged(s.roster.kids, Step(s, e).0.roster.kids, e, Granted(s, e))
    ensures Triggers(s, e) ==> Permit(s.restarter, e.now) == (Step(s, e).0.restarter, true)
    ensures !Triggers(s, e) ==> Step(s, e).0.restarter == s.restarter
  {
    hide Step, GrantedTo, Charged, RefusalReached, Permit, Sound, Full, GoneForGood, EndsOn;
    var n := e.event.name;
    var s' := Step(s, e).0;
    OutsideEnd(s, e);
    if GoneForGood(s.roster.kids[n].mode, s.roster.kids[n].life, e.event.ready) {
      DropGrantsNobody(s, n, e.now);
      StoppedSuffix(s.history.stopped, s'.history.stopped);
      GrantedIsCharged(s, e, []);
    } else {
      if s.cascade.Exiting? { StoppedSuffix(s.history.stopped, s'.history.stopped); }
      GrantedIsCharged(s, e, [n] + if s.cascade.Exiting? then [] else s'.history.stopped);
    }
  }

  lemma DropGrantsNobody(s: State, n: Name, now: int)
    ensures GrantedTo(s.roster.kids, Drop(s, n).roster.kids, [], now)
    ensures Drop(s, n).history.stopped == s.history.stopped && Drop(s, n).restarter == s.restarter
    ensures n !in Drop(s, n).roster.kids
  {
    hide ChildPermit;
  }

  lemma PendingCharges(s: State, e: TimedEvent)
    requires Sound(s) && !s.exiting && StaysOpen(s, e) && Ends(s, e) && PendingContains(s.cascade, e.event.name)
    ensures Charged(s.roster.kids, Step(s, e).0.roster.kids, e, Granted(s, e))
    ensures !Triggers(s, e) && Step(s, e).0.restarter == s.restarter
  {
    PendingEnds(s, e);
    ReportChangesOne(s, e);
    NotClosingYet(s);
    hide Step, Reported, Charged, Sound, Full, EndsOn, ChildPermit, Names;
    StoppedSuffix(s.history.stopped, Step(s, e).0.history.stopped);
    assert GrantedTo(s.roster.kids, Step(s, e).0.roster.kids, [], e.now);
    GrantedIsCharged(s, e, []);
  }

  lemma CurrentCharges(s: State, e: TimedEvent)
    requires Sound(s) && !s.exiting && StaysOpen(s, e) && Ends(s, e) && CurrentOf(s.cascade) == Some(e.event.name)
    requires !s.cascade.Closing?
    ensures Charged(s.roster.kids, Step(s, e).0.roster.kids, e, Granted(s, e))
    ensures !Triggers(s, e) && Step(s, e).0.restarter == s.restarter
  {
    hide Step, GrantedTo, Charged, RefusalReached, Sound, Full, GoneForGood, EndsOn;
    var n := e.event.name;
    var s' := Step(s, e).0;
    if s.cascade.Exiting? {
      StoppedEnds(s, e);
      GrantedIsCharged(s, e, s'.history.stopped[|s.history.stopped|..]);
    } else {
      RetryEnds(s, e);
      var gone := GoneForGood(s.roster.kids[n].mode, s.roster.kids[n].life, e.event.ready);
      GrantedIsCharged(s, e, if gone then [] else [n]);
    }
  }

  ghost predicate InBalance(s: State, i: Intensity, l: Ledger, now: int) {
    && RatesOk(l, i)
    && (!s.exiting ==> Balanced(s.restarter, s.roster.kids, l, i, now))
  }

  lemma RecordBalances(s: State, i: Intensity, e: TimedEvent, l: Ledger, before: int)
    requires Sound(s) && InBalance(s, i, l, before) && before <= e.now
    requires s.exiting ==> Step(s, e).0.exiting
    ensures RatesOk(Record(s, e, l), i)
    ensures Step(s, e).1.Continue? ==> InBalance(Step(s, e).0, i, Record(s, e, l), e.now)
  {
    hide Step, Sound, Balanced, RatesOk, Charged, Granted, Triggers;
    if StaysOpen(s, e) {
      var s' := Step(s, e).0;
      StepCharges(s, e);
      EnterBalances(s.restarter, s'.restarter, s.roster.kids, s'.roster.kids, e, Triggers(s, e), Granted(s, e), l, i, before);
      BalancedRates(s'.restarter, s'.roster.kids, Record(s, e, l), i, e.now);
    }
  }

  lemma ExitingStays(s: State, e: TimedEvent)
    requires Sound(s) && s.exiting
    ensures Step(s, e).0.exiting
  {
    hide RosterOk, Distinct, AdvanceShutdown, Shutdown;
    match e.event {
      case Signal(_) => ShutdownSound(s);
      case Register(_, _, _) =>
      case Deregister(n) =>
        if CurrentOf(s.cascade) == Some(n) {
          DropCurrentResumes(s, n);
          AnyShutdown(Drop(s, n).(cascade := Idle), s.cascade.pending);
        }
      case Poll(n, ready) =>
        if PollKid(s.roster, n, ready).1.Some? {
          assert s.cascade.Closing?;
          PollSound(s, n, ready);
          if s.cascade.current == n {
            var s1 := Settle(s.(roster := PollKid(s.roster, n, ready).0), n);
            AnyShutdown(s1.(cascade := Idle), s.cascade.pending);
          }
        }
    }
  }

  lemma {:induction false} RunBalances(s: State, i: Intensity, events: seq<TimedEvent>, l: Ledger, before: int)
    requires Sound(s) && InBalance(s, i, l, before)
    requires Orderly(events) && (events != [] ==> before <= events[0].now)
    ensures RatesOk(Records(s, events, l), i)
    ensures Run(s, events).1.Continue? ==>
              && Sound(Run(s, events).0)
              && InBalance(Run(s, events).0, i, Records(s, events, l), LastTime(events, before))
    decreases |events|
  {
    hide Sound, Step, Balanced, RatesOk, Record, Trips;
    if events != [] {
      var e := events[0];
      FailsIff(s, e);
      if s.exiting { ExitingStays(s, e); }
      RecordBalances(s, i, e, l, before);
      var (s1, flow) := Step(s, e);
      if flow.Continue? {
        RunBalances(s1, i, events[1..], Record(s, e, l), e.now);
      }
    }
  }

  // ----- From the start -----

  /** Everything granted so far by a supervisor that was given `specs`. */
  ghost function LedgerOf(specs: seq<ChildSpec>, i: Intensity, events: seq<TimedEvent>): Ledger {
    Records(Initial(specs, i), events, OpenAccounts(Initial(specs, i).roster.kids))
  }

  lemma ReachedBalanced(specs: seq<ChildSpec>, i: Intensity, events: seq<TimedEvent>, start: int)
    requires Orderly(events) && (events != [] ==> start <= events[0].now)
    ensures RatesOk(LedgerOf(specs, i, events), i)
    ensures var (s, flow) := Run(Initial(specs, i), events);
            flow.Continue? ==> Sound(s) && InBalance(s, i, LedgerOf(specs, i, events), LastTime(events, start))
  {
    InitialGood(specs, i);
    var s0 := Initial(specs, i);
    InvIsSound(s0);
    BudgetsBeginFresh(specs);
    OpenBalanced(s0.roster.kids, i, start);
    BalancedRates(s0.restarter, s0.roster.kids, OpenAccounts(s0.roster.kids), i, start);
    hide Run, Records, Sound, RatesOk, Balanced, Inv, Unasked;
    RunBalances(s0, i, events, OpenAccounts(s0.roster.kids), start);
  }

  /** Main result: however a run goes, no window as long as a child's own budget sees more
      restarts granted to it than that budget allows, be it as a trigger, as a sibling or in place;
      nor one as long as the supervisor's more triggers. */
  lemma EveryRateBounded(specs: seq<ChildSpec>, i: Intensity, events: seq<TimedEvent>, start: int)
    requires Orderly(events)
    ensures var l := LedgerOf(specs, i, events);
            && (!Unlimited(i) ==> CountIn(l.shared, start, start + i.within) <= i.maxRestarts)
            && forall n :: n in l.own && l.own[n].intensity.Some? && !Unlimited(l.own[n].intensity.value) ==>
                 var own := l.own[n].intensity.value;
                 CountIn(l.own[n].times, start, start + own.within) <= own.maxRestarts
  {
    hide LedgerOf, CountIn, Initial;
    ReachedBalanced(specs, i, events, if events == [] then 0 else events[0].now);
    RatesCounted(LedgerOf(specs, i, events), i, start);
  }

  /** Those whose own budget has reached its limit in the window that ends now. */
  function Spent(l: Ledger, now: int): set<Name> {
    set n | n in l.own && !Room(l.own[n], now)
  }

  lemma SpentAreFull(s: State, i: Intensity, l: Ledger, before: int, now: int)
    requires Balanced(s.restarter, s.roster.kids, l, i, before) && before <= now
    ensures Full(s.roster.kids, now) == Spent(l, now) && Permit(s.restarter, now).1 == HasRoom(i, l.shared, now)
  {
    PermitRemembers(s.restarter, l.shared, before, now);
    forall n | n in s.roster.kids ensures ChildPermit(s.roster.kids[n], now).1 == Room(l.own[n], now) {
      assert Kept(s.roster.kids[n], l.own[n], before);
      AskedKept(s.roster.kids[n], l.own[n], before, now);
    }
    hide ChildPermit, Room, HasRoom, Permit, Remembers, Kept;
  }

  /** What makes an open supervisor shut down: a signal; a trigger for which the supervisor's
      budget has no room, or the child's own; a child tried in place whose own has none; and a
      sibling without room that the stop loop comes to, be it as a cascade begins, as the child it
      waited for exits, or as that child is deregistered. */
  ghost predicate ShutsDown(s: State, e: TimedEvent, room: bool, spent: set<Name>) {
    var stops := s.cascade.Exiting? && RefusalReached(s.roster.kids, s.cascade.pending, spent);
    match e.event
    case Signal(isShutdown) => isShutdown
    case Register(_, _, _) => false
    case Deregister(n) => CurrentOf(s.cascade) == Some(n) && stops
    case Poll(n, ready) =>
      && Ends(s, e)
      && var gone := GoneForGood(s.roster.kids[n].mode, s.roster.kids[n].life, ready);
      && if CurrentOf(s.cascade) == Some(n) then stops || (s.cascade.Restarting? && !gone && n in spent)
         else
           && !PendingContains(s.cascade, n) && !gone && n in Names(s.roster)
           && (!room || n in spent || (!s.cascade.Exiting? && RefusalReached(s.roster.kids, Tail(s.roster, n), spent)))
  }

  lemma ShutsDownIff(s: State, e: TimedEvent)
    requires Sound(s) && !s.exiting
    ensures Step(s, e).0.exiting <==> ShutsDown(s, e, Permit(s.restarter, e.now).1, Full(s.roster.kids, e.now))
  {
    hide Step, RefusalReached, Full, GrantedTo, Permit, Names, Tail, EndsOn, GoneForGood;
    if e.event.Register? {
      RegisterStaysOpen(s, e);
    } else if !Ends(s, e) {
      OtherStep(s, e);
    } else if Outside(s, e.event.name) {
      OutsideEnd(s, e);
    } else if PendingContains(s.cascade, e.event.name) {
      PendingEnds(s, e);
      PendingIsNotCurrent(s, e.event.name);
    } else {
      NotClosingYet(s);
      if s.cascade.Exiting? { StoppedEnds(s, e); } else { RetryEnds(s, e); }
    }
  }

  lemma RegisterStaysOpen(s: State, e: TimedEvent)
    requires !s.exiting && e.event.Register?
    ensures !Step(s, e).0.exiting
  {
  }

  lemma PendingIsNotCurrent(s: State, n: Name)
    requires Sound(s) && PendingContains(s.cascade, n)
    ensures CurrentOf(s.cascade) != Some(n)
  {
  }

  /** Main result: at any point of any run, over any events whatever, the supervisor shuts down
      just if it is told to, or somebody's restart is due for which the budget asked has granted
      its limit in the window that ends now. */
  lemma ShutsDownInRun(specs: seq<ChildSpec>, i: Intensity, events: seq<TimedEvent>, e: TimedEvent)
    requires Orderly(events + [e])
    requires var (s, flow) := Run(Initial(specs, i), events); flow.Continue? && !s.exiting
    ensures var s := Run(Initial(specs, i), events).0;
            var l := LedgerOf(specs, i, events);
            Step(s, e).0.exiting <==> ShutsDown(s, e, HasRoom(i, l.shared, e.now), Spent(l, e.now))
  {
    var s := Run(Initial(specs, i), events).0;
    var first := (events + [e])[0].now;
    OrderlyInit(events, e);
    ReachedBalanced(specs, i, events, first);
    hide Run, LedgerOf, Initial, Step, Sound, HasRoom, Room, RatesOk, Balanced, ShutsDown, Full, Spent, Permit;
    SpentAreFull(s, i, LedgerOf(specs, i, events), LastTime(events, first), e.now);
    ShutsDownIff(s, e);
  }

  /** Main result: at any point of any run, a child the restart phase waits for that fails to come
      up leaves if it is gone for good, or is tried again in place, with nothing else changed, just
      if fewer restarts than its own limit were granted to it in the window that ends now; or the
      supervisor shuts down. */
  lemma RetryInRun(specs: seq<ChildSpec>, i: Intensity, events: seq<TimedEvent>, e: TimedEvent)
    requires Orderly(events + [e])
    requires var (s, flow) := Run(Initial(specs, i), events);
             flow.Continue? && Ends(s, e) && s.cascade.Restarting? && s.cascade.current == e.event.name
    ensures var s := Run(Initial(specs, i), events).0;
            var l := LedgerOf(specs, i, events);
            var n := e.event.name;
            var (s', flow) := Step(s, e);
            && n in l.own
            && if GoneForGood(s.roster.kids[n].mode, s.roster.kids[n].life, e.event.ready) then
                 flow.Continue? && !s'.exiting && n !in s'.roster.kids
               else if Room(l.own[n], e.now) then flow.Continue? && RetriedInPlace(s, n, s')
               else s'.exiting
  {
    var s := Run(Initial(specs, i), events).0;
    var first := (events + [e])[0].now;
    OrderlyInit(events, e);
    ReachedBalanced(specs, i, events, first);
    OpenInRestart(s);
    hide Run, LedgerOf, Initial, Step, Sound, HasRoom, Room, RatesOk, Full, Permit, RetriedInPlace, GrantedTo, Kept,
      Remembers, EndsOn, GoneForGood;
    SpentAreFull(s, i, LedgerOf(specs, i, events), LastTime(events, first), e.now);
    RetryEnds(s, e);
  }

  /** Main result: at any point of any run, a child that ends outside any cascade leaves, with
      nothing else changed, just if it is gone for good; otherwise it stays, and unless the
      supervisor shuts down it is granted a restart. */
  lemma OutsiderInRun(specs: seq<ChildSpec>, i: Intensity, events: seq<TimedEvent>, e: TimedEvent)
    requires Orderly(events + [e])
    requires var (s, flow) := Run(Initial(specs, i), events);
             flow.Continue? && !s.exiting && Ends(s, e) && Outside(s, e.event.name)
    ensures var s := Run(Initial(specs, i), events).0;
            var n := e.event.name;
            if GoneForGood(s.roster.kids[n].mode, s.roster.kids[n].life, e.event.ready) then
              Step(s, e) == (Drop(s, n), Continue)
            else n in Step(s, e).0.roster.kids && (StaysOpen(s, e) ==> Triggers(s, e) && n in Granted(s, e))
  {
    var s := Run(Initial(specs, i), events).0;
    var first := (events + [e])[0].now;
    OrderlyInit(events, e);
    ReachedBalanced(specs, i, events, first);
    OutsideEnd(s, e);
    GoneIfNever(s.roster.kids[e.event.name].life, e.event.ready);
    hide Run, Initial, Step, Sound, RatesOk, Full, Permit, GrantedTo, EndsOn, GoneForGood, RefusalReached, Told;
  }

  lemma GoneIfNever(life: Life, ready: Ready)
    ensures GoneForGood(Never, life, ready)
  {
  }
}
