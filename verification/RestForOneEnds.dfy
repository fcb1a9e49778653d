/** The stop and shutdown phases of a rest-for-one supervisor come to an end: what its children
    report takes them down a well-founded order, although a merge makes the pending list grow. */
module RestForOneEnds {
  import opened Common
  import opened RestartBudget
  import opened Supervisees
  import opened Rosters
  import opened Supervision
  import opened RestForOne
  import opened RestForOneSafety
  import opened RestForOneStopPhase
  import opened RestForOneRestart

  predicate Ending(c: Cascade) {
    c.Exiting? || c.Closing?
  }

  /** How many reports a child can still make without being started again. */
  function Steps(life: Life): nat {
    match life
    case Dead => 0
    case Starting => 3
    case Initializing => 2
    case Alive => 1
    case ShuttingDown => 1
  }

  function Work(order: seq<Name>, kids: Kids): nat {
    if order == [] then 0
    else
      var last := order[|order| - 1];
      Work(order[..|order| - 1], kids) + if last in kids then Steps(kids[last].life) else 0
  }

  function Phase(c: Cascade): nat {
    if c.Exiting? then 1 else 0
  }

  /** The children a stop phase has not taken in: those placed before the lowest trigger. */
  function Outside(s: State): set<Name> {
    if s.cascade.Exiting? then s.roster.kids.Keys - Tracked(s.cascade) else {}
  }

  function Pending(c: Cascade): nat {
    if Ending(c) then |c.pending| else 0
  }

  /** `s'` comes before `s`: first by phase, then by who is outside, then by how many are
      pending, then by what the children have left to report. */
  ghost predicate Less(s': State, s: State) {
    || Phase(s'.cascade) < Phase(s.cascade)
    || (Phase(s'.cascade) == Phase(s.cascade) &&
          (|| Outside(s') < Outside(s)
           || (Outside(s') == Outside(s) &&
                (|| Pending(s'.cascade) < Pending(s.cascade)
                 || (Pending(s'.cascade) == Pending(s.cascade) &&
                      Work(s'.roster.order, s'.roster.kids) < Work(s.roster.order, s.roster.kids))))))
  }

  lemma {:induction false} WorkElsewhere(order: seq<Name>, kids: Kids, kids': Kids)
    requires forall n :: n in order ==> (n in kids <==> n in kids') && (n in kids ==> kids'[n].life == kids[n].life)
    ensures Work(order, kids') == Work(order, kids)
  {
    if order != [] {
      assert order[|order| - 1] in order;
      WorkElsewhere(order[..|order| - 1], kids, kids');
    }
  }

  lemma {:induction false} WorkChanges(order: seq<Name>, kids: Kids, n: Name, c: Child)
    requires Distinct(order) && n in order && n in kids
    ensures Work(order, kids[n := c]) + Steps(kids[n].life) == Work(order, kids) + Steps(c.life)
  {
    var init, last := order[..|order| - 1], order[|order| - 1];
    if last == n {
      WorkElsewhere(init, kids, kids[n := c]);
    } else {
      assert n in init;
      WorkChanges(init, kids, n, c);
    }
  }

  /** A report takes its child one step on. */
  lemma PollDescends(r: Roster, n: Name, ready: Ready)
    requires RosterOk(r) && PollKid(r, n, ready).1.Some?
    ensures var r' := PollKid(r, n, ready).0;
            && r'.order == r.order && r'.kids.Keys == r.kids.Keys
            && Work(r'.order, r'.kids) < Work(r.order, r.kids)
  {
    var r' := PollKid(r, n, ready).0;
    WorkChanges(r.order, r.kids, n, r'.kids[n]);
  }

  /** The stop loop keeps the same children in hand and has fewer pending when it waits again. */
  ghost predicate FewerPending(s: State, pending: seq<Name>, toRestart: seq<Name>, toDrop: seq<Name>, s': State) {
    s'.cascade.Exiting? ==>
      && |s'.cascade.pending| < |pending|
      && Tracked(s'.cascade) == SetOf(pending) + SetOf(toRestart) + SetOf(toDrop)
      && s'.roster.kids.Keys == s.roster.kids.Keys
  }

  lemma {:induction false} AdvanceStopDescends(
    s: State, pending: seq<Name>, toRestart: seq<Name>, toDrop: seq<Name>, now: int)
    requires Known(pending, s.roster.kids) && !s.cascade.Exiting? && !s.cascade.Closing?
    ensures FewerPending(s, pending, toRestart, toDrop, AdvanceStop(s, pending, toRestart, toDrop, now).0)
    decreases |pending|
  {
    hide Shutdown, AdvanceRestart, DropAll, Reverse, Tracked, SetOf;
    if pending == [] {
      AdvanceRestartLeavesStop(DropAll(s, toDrop), Reverse(toRestart));
    } else {
      var next, rest := pending[|pending| - 1], pending[..|pending| - 1];
      assert pending == rest + [next];
      SetOfPush(rest, next);
      if s.roster.kids[next].mode == Never {
        var (s1, stopping) := Stop(s, next);
        SetOfPush(toDrop, next);
        if stopping {
          TrackedIs(next, rest, toRestart, toDrop + [next]);
        } else {
          AdvanceStopDescends(s1, rest, toRestart, toDrop + [next], now);
        }
      } else {
        var (s1, granted) := Permitted(s, next, now);
        if !granted {
          ShutdownLeaves(s1);
        } else {
          var (s2, stopping) := Stop(s1, next);
          SetOfPush(toRestart, next);
          if stopping {
            TrackedIs(next, rest, toRestart + [next], toDrop);
          } else {
            AdvanceStopDescends(s2, rest, toRestart + [next], toDrop, now);
          }
        }
      }
    }
  }

  lemma TrackedIs(current: Name, pending: seq<Name>, toRestart: seq<Name>, toDrop: seq<Name>)
    ensures Tracked(Exiting(current, pending, toRestart, toDrop)) == SetOf(pending) + SetOf(toRestart) + SetOf(toDrop)
  {
  }

  lemma SetOfPush(xs: seq<Name>, n: Name)
    ensures SetOf(xs + [n]) == SetOf(xs) + {n}
  {
  }

  lemma {:induction false} AdvanceShutdownDescends(s: State, pending: seq<Name>)
    ensures var s' := AdvanceShutdown(s, pending).0;
            !s'.cascade.Exiting? && (s'.cascade.Closing? ==> |s'.cascade.pending| < |pending|)
    decreases |pending|
  {
    if pending != [] {
      var next, rest := pending[|pending| - 1], pending[..|pending| - 1];
      if next in s.roster.kids {
        AdvanceShutdownDescends(Stop(s, next).0, rest);
      } else {
        AdvanceShutdownDescends(s, rest);
      }
    }
  }

  lemma ShutdownLeaves(s: State)
    ensures !Shutdown(s).0.cascade.Exiting?
  {
    if !s.cascade.Closing? {
      AdvanceShutdownDescends(s.(exiting := true, history := s.history.(triggers := [], stopped := [])),
                              Names(s.roster));
    }
  }

  /** The event makes some child report something. */
  predicate Productive(s: State, e: TimedEvent) {
    e.event.Poll? && PollKid(s.roster, e.event.name, e.event.ready).1.Some?
  }

  /** The exit of the child being waited for. */
  lemma CurrentExitDescends(s: State, s1: State, n: Name, now: int)
    requires Inv(s) && Ending(s.cascade) && s.cascade.current == n
    requires s1.cascade == s.cascade && s1.roster.kids.Keys == s.roster.kids.Keys
    ensures var s' := AdvanceCascade(s1, now).0;
            Ending(s'.cascade) ==> Less(s', s)
  {
    var idle := s1.(cascade := Idle);
    match s.cascade {
      case Exiting(_, pending, toRestart, toDrop) =>
        AdvanceStopDescends(idle, pending, toRestart, toDrop, now);
      case Closing(_, pending) =>
        AdvanceShutdownDescends(idle, pending);
    }
  }

  /** The exit of a child outside a stop phase: it leaves, or it is taken in. */
  lemma OutsideExitDescends(s: State, s1: State, n: Name, reason: ExitReason, now: int)
    requires Inv(s) && s.cascade.Exiting? && n != s.cascade.current && n !in s.cascade.pending
    requires s1.cascade == s.cascade && s1.roster.kids.Keys == s.roster.kids.Keys
    requires ExitReady(s1, n)
    ensures var s' := HandleExit(s1, n, reason, now).0;
            Ending(s'.cascade) ==> Less(s', s)
  {
    NotTaken(s, s1, n);
    hide Inv, ExitReady, MergeIntoStopping, Shutdown, StartCascade, HandleCurrentExit, Outside, Permit, Permitted;
    if !RequiresRestart(s1.roster.kids[n].mode, reason) {
      LeavingDescends(s, s1, n);
    } else {
      var (restarter, shared) := Permit(s1.restarter, now);
      var s2 := s1.(restarter := restarter);
      var (s3, own) := Permitted(s2, n, now);
      ShutdownLeaves(s2);
      ShutdownLeaves(s3);
      if shared && own {
        PermittedNotTaken(s, s1, s2, s3, n, now);
        MergeTakesIn(s3, n, Outside(s));
      }
    }
  }

  lemma NotTaken(s: State, s1: State, n: Name)
    requires s.cascade.Exiting? && n != s.cascade.current && n !in s.cascade.pending
    requires s1.cascade == s.cascade && s1.roster.kids.Keys == s.roster.kids.Keys
    requires ExitReady(s1, n)
    ensures n in Outside(s) && Outside(s1) == Outside(s) && n in s1.roster.kids
  {
    hide StopQueues, OnlyStopping, RosterOk;
  }

  lemma LeavingDescends(s: State, s1: State, n: Name)
    requires s.cascade.Exiting? && s1.cascade == s.cascade && s1.roster.kids.Keys == s.roster.kids.Keys
    requires n in Outside(s) && n in s1.roster.kids && CurrentOf(s1.cascade) != Some(n)
    ensures Less(Drop(s1, n), s)
  {
    assert Outside(Drop(s1, n)) == Outside(s) - {n};
  }

  lemma PermittedNotTaken(s: State, s1: State, s2: State, s3: State, n: Name, now: int)
    requires s.cascade.Exiting? && n != s.cascade.current && n !in s.cascade.pending
    requires ExitReady(s1, n) && s1.cascade == s.cascade && Outside(s1) == Outside(s)
    requires s2 == s1.(restarter := Permit(s1.restarter, now).0) && s3 == Permitted(s2, n, now).0
    ensures ExitReady(s3, n) && s3.cascade == s.cascade && Outside(s3) == Outside(s)
    ensures n in s3.roster.kids && s3.roster.kids[n].mode == s1.roster.kids[n].mode
  {
    hide Sorted, Distinct, Disjoint;
  }

  lemma MergeTakesIn(s: State, n: Name, outside: set<Name>)
    requires s.cascade.Exiting? && ExitReady(s, n) && n != s.cascade.current && n !in s.cascade.pending
    requires outside == Outside(s) && n in outside && s.roster.kids[n].mode != Never
    ensures var s' := MergeIntoStopping(s, n).0;
            s'.cascade.Exiting? && Outside(s') < outside
  {
    MergeGood(s, n);
    CollectedFacts(s, n);
    NamesAreKids(s.roster);
    var collected := Collected(Names(s.roster), n, s.cascade);
    hide Collected, Names;
    InOrderFacts(s.roster, collected);
    hide InOrder;
    var s' := MergeIntoStopping(s, n).0;
    forall m | m in s.cascade.pending ensures m in s'.cascade.pending {
      assert m in collected;
    }
    assert n in s'.cascade.toRestart;
    assert Tracked(s.cascade) <= Tracked(s'.cascade);
    assert n in Tracked(s'.cascade);
  }

  /** Main result, one step: whatever a child reports while siblings are being stopped or all
      are shutting down, the phase is over or has come strictly closer to being so. */
  lemma StepDescends(s: State, e: TimedEvent)
    requires Inv(s) && Ending(s.cascade) && Productive(s, e)
    ensures Ending(Step(s, e).0.cascade) ==> Less(Step(s, e).0, s)
  {
    var n := e.event.name;
    var (r, item) := PollKid(s.roster, n, e.event.ready);
    PollGood(s, n, e.event.ready);
    PollAloneDescends(s, n, e.event.ready);
    WhoReports(s, n, e.event.ready);
    hide Inv, ExitReady, HandleExit, AdvanceCascade, Less, Tracked, PollLife;
    var s1 := Settle(s.(roster := r), n);
    if n == s.cascade.current {
      ExitOfCurrentAdvances(s1, n, ReasonOf(item.value).value, e.now);
      CurrentExitDescends(s, s1, n, e.now);
    } else if ReasonOf(item.value).None? {
      OthersGoOn(s, s1, n, item.value, e.now);
    } else if n in s.cascade.pending {
      PendingExitIgnored(s1, n, ReasonOf(item.value).value, e.now);
    } else {
      OutsideExitDescends(s, s1, n, ReasonOf(item.value).value, e.now);
    }
  }

  /** The report itself brings the phase closer to its end. */
  lemma PollAloneDescends(s: State, n: Name, ready: Ready)
    requires Inv(s) && PollKid(s.roster, n, ready).1.Some?
    ensures var r := PollKid(s.roster, n, ready).0;
            && Less(s.(roster := r), s) && Less(Settle(s.(roster := r), n), s)
            && r.kids.Keys == s.roster.kids.Keys
  {
    PollDescends(s.roster, n, ready);
    hide Inv, Tracked, PollKid;
  }

  /** The child being waited for reports its exit; a child that was not pending reports one
      only while siblings are being stopped. */
  lemma WhoReports(s: State, n: Name, ready: Ready)
    requires Inv(s) && Ending(s.cascade) && PollKid(s.roster, n, ready).1.Some?
    ensures n == s.cascade.current ==> ReasonOf(PollKid(s.roster, n, ready).1.value).Some?
    ensures n != s.cascade.current && n !in s.cascade.pending ==> s.cascade.Exiting?
  {
    hide StopQueues, RosterOk, Sorted;
  }

  lemma OthersGoOn(s: State, s1: State, n: Name, item: Item, now: int)
    requires Ending(s.cascade) && n != s.cascade.current && s1.cascade == s.cascade && ReasonOf(item).None?
    ensures item.Initialized? ==> AfterInitialized(s1, n, now) == (s1, Continue)
  {
  }

  lemma PendingExitIgnored(s: State, n: Name, reason: ExitReason, now: int)
    requires Ending(s.cascade) && n != s.cascade.current && n in s.cascade.pending
    ensures HandleExit(s, n, reason, now) == (s, Continue)
  {
  }

  /** The state after the first `k` of an endless stream of events. */
  ghost function StateAfter(s: State, events: nat -> TimedEvent, k: nat): State {
    if k == 0 then s else Step(StateAfter(s, events, k - 1), events(k - 1)).0
  }

  lemma {:induction false} StateAfterShift(s: State, events: nat -> TimedEvent, k: nat)
    ensures StateAfter(Step(s, events(0)).0, (i: nat) => events(i + 1), k) == StateAfter(s, events, k + 1)
  {
    if k > 0 { StateAfterShift(s, events, k - 1); }
  }

  /** Main result: no stop phase and no shutdown goes on for ever. Of an endless stream of
      reports, finitely many see it through. */
  lemma {:induction false} PhasesEnd(s: State, events: nat -> TimedEvent)
    requires Inv(s) && Ending(s.cascade)
    requires forall i: nat :: Ending(StateAfter(s, events, i).cascade) ==> Productive(StateAfter(s, events, i), events(i))
    ensures exists k: nat :: !Ending(StateAfter(s, events, k).cascade)
    decreases Phase(s.cascade), Outside(s), Pending(s.cascade), Work(s.roster.order, s.roster.kids)
  {
    assert StateAfter(s, events, 0) == s;
    var s1 := Step(s, events(0)).0;
    assert StateAfter(s, events, 1) == s1;
    StepGood(s, events(0));
    StepDescends(s, events(0));
    if Ending(s1.cascade) {
      var rest := (i: nat) => events(i + 1);
      forall i: nat ensures StateAfter(s1, rest, i) == StateAfter(s, events, i + 1) {
        StateAfterShift(s, events, i);
      }
      EndingContinues(s, events(0));
      hide Step, Inv;
      PhasesEnd(s1, rest);
      var k: nat :| !Ending(StateAfter(s1, rest, k).cascade);
      assert !Ending(StateAfter(s, events, k + 1).cascade);
    }
  }

  /** The loop has not ended while a phase is still under way. */
  lemma EndingContinues(s: State, e: TimedEvent)
    requires Inv(s) && Ending(s.cascade) && Productive(s, e)
    ensures Ending(Step(s, e).0.cascade) ==> Inv(Step(s, e).0)
  {
    StepGood(s, e);
  }
}
