/** How the one-for-one strategy answers a child that ends, decided by every restart that the
    supervisor and the child were ever granted. */
module OneForOneBudgets {
  import opened Common
  import opened RestartBudget
  import opened Supervisees
  import opened Rosters
  import opened Supervision
  import opened GroupShutdown
  import opened BudgetLedgers
  import opened OneForOne

  /** A child ends that nobody told to stop. */
  predicate Ends(s: State, e: TimedEvent) {
    && e.event.Poll? && e.event.name in s.roster.kids && e.event.name !in s.exiting
    && EndsOn(s.roster.kids[e.event.name].life, e.event.ready)
  }

  /** It was granted a restart: it is still here, and the supervisor is open. */
  predicate Granted(s: State, e: TimedEvent) {
    Ends(s, e) && !Step(s, e).0.closing && e.event.name in Step(s, e).0.roster.kids
  }

  /** The ledger after a step; a supervisor that shuts down grants nothing more. */
  function Record(s: State, e: TimedEvent, l: Ledger): Ledger {
    var s' := Step(s, e).0;
    if s'.closing then l
    else Enter(l, s.roster.kids, s'.roster.kids, e, Granted(s, e), if Granted(s, e) then {e.event.name} else {})
  }

  /** The ledger after a run. */
  function Records(s: State, events: seq<TimedEvent>, l: Ledger): Ledger
    decreases |events|
  {
    if events == [] then l
    else
      var l1 := Record(s, events[0], l);
      if Step(s, events[0]).1.Continue? then Records(Step(s, events[0]).0, events[1..], l1) else l1
  }

  ghost predicate InBalance(s: State, i: Intensity, l: Ledger, now: int) {
    && RatesOk(l, i)
    && (!s.closing ==> Balanced(s.restarter, s.roster.kids, l, i, now))
  }

  /** Both budgets are charged for a restart, the child's own if it has one, and for nothing else. */
  lemma StepCharges(s: State, i: Intensity, e: TimedEvent)
    requires Inv(s, i) && !s.closing && !Step(s, e).0.closing
    ensures Charged(s.roster.kids, Step(s, e).0.roster.kids, e, if Granted(s, e) then {e.event.name} else {})
    ensures Granted(s, e) ==> Permit(s.restarter, e.now) == (Step(s, e).0.restarter, true)
    ensures !Granted(s, e) ==> Step(s, e).0.restarter == s.restarter
  {
    if e.event.Poll? && e.event.name in s.roster.kids {
      EndReported(s.roster, e.event.name, e.event.ready);
      if Ends(s, e) {
        var (r, item) := PollKid(s.roster, e.event.name, e.event.ready);
        EndCharges(s.(roster := r), e.event.name, ReasonOf(item.value).value, e.now);
        hide HandleExit;
      }
    }
    hide Budgeted, Ascending, StopGroup, Permit, PollKid, EndsOn;
  }

  lemma EndCharges(s: State, n: Name, reason: ExitReason, now: int)
    requires n in s.roster.kids && n !in s.exiting && !HandleExit(s, n, reason, now).0.closing
    ensures var s' := HandleExit(s, n, reason, now).0;
            && s'.roster.kids.Keys <= s.roster.kids.Keys
            && (forall m :: m in s'.roster.kids && m != n ==> s'.roster.kids[m] == s.roster.kids[m])
            && if n in s'.roster.kids then
                 && ChildPermit(s.roster.kids[n], now).1
                 && s'.roster.kids[n].budget == ChildPermit(s.roster.kids[n], now).0.budget
                 && Permit(s.restarter, now) == (s'.restarter, true)
               else s'.restarter == s.restarter
  {
    hide Permit, StopGroup;
  }

  lemma RecordBalances(s: State, i: Intensity, e: TimedEvent, l: Ledger, before: int)
    requires Inv(s, i) && InBalance(s, i, l, before) && before <= e.now
    requires s.closing ==> Step(s, e).0.closing
    ensures InBalance(Step(s, e).0, i, Record(s, e, l), e.now)
  {
    var s' := Step(s, e).0;
    if !s'.closing {
      StepCharges(s, i, e);
      EnterBalances(s.restarter, s'.restarter, s.roster.kids, s'.roster.kids, e, Granted(s, e),
                    if Granted(s, e) then {e.event.name} else {}, l, i, before);
      BalancedRates(s'.restarter, s'.roster.kids, Record(s, e, l), i, e.now);
    }
    hide Step, Inv, Balanced, RatesOk, Charged;
  }

  lemma StepKeepsTime(s: State, i: Intensity, e: TimedEvent, before: int)
    requires Inv(s, i) && AllAtMost(s.history.asked, before) && before <= e.now
    ensures Good(Step(s, e), i) && Inv(Step(s, e).0, i) && !Step(s, e).1.Panic?
    ensures AllAtMost(Step(s, e).0.history.asked, e.now)
    ensures s.closing ==> Step(s, e).0.closing
  {
    assert AllAtMost(s.history.asked, e.now);
    hide Step, Inv, AllDead;
    if s.closing { ClosingStep(s, i, e); } else { OpenStep(s, i, e); }
  }

  lemma {:induction false} RunBalances(s: State, i: Intensity, events: seq<TimedEvent>, l: Ledger, before: int)
    requires Inv(s, i) && InBalance(s, i, l, before) && AllAtMost(s.history.asked, before)
    requires Orderly(events) && (events != [] ==> before <= events[0].now)
    ensures InBalance(Run(s, events).0, i, Records(s, events, l), LastTime(events, before))
    ensures RatesOk(Records(s, events, l), i)
    ensures Run(s, events).1.Continue? ==>
              Inv(Run(s, events).0, i) && AllAtMost(Run(s, events).0.history.asked, LastTime(events, before))
    decreases |events|
  {
    hide Inv, Step, Balanced, RatesOk, Record;
    if events != [] {
      var e := events[0];
      StepKeepsTime(s, i, e, before);
      RecordBalances(s, i, e, l, before);
      var (s1, flow) := Step(s, e);
      if flow.Continue? {
        RunBalances(s1, i, events[1..], Record(s, e, l), e.now);
      }
    }
  }

  // ----- What an exit leads to -----

  /** The child that ended is gone, and nothing else changed. */
  ghost predicate Left(s: State, n: Name, s': State) {
    s' == s.(roster := s.roster.(kids := s.roster.kids - {n}))
  }

  /** The child that ended, and nobody else, was started again. */
  ghost predicate RestartedAlone(s: State, n: Name, now: int, s': State)
    requires n in s.roster.kids
  {
    && !s'.closing && s'.history.restarts == s.history.restarts + [now]
    && s'.roster.kids.Keys == s.roster.kids.Keys
    && s'.roster.kids[n].life == Starting && s'.roster.kids[n].mode == s.roster.kids[n].mode
    && forall m :: m in s.roster.kids && m != n ==> s'.roster.kids[m] == s.roster.kids[m]
  }

  /** Everyone was told to stop, but for `ended`, who has just ended, and nobody was restarted. */
  ghost predicate AllToStop(s: State, ended: Option<Name>, s': State) {
    && s'.closing && s'.history.restarts == s.history.restarts && s'.roster.order == s.roster.order
    && AllTold(s.roster.kids, s'.roster.kids, ended) && s'.exiting == Owing(s'.roster.kids)
  }

  /** An end while the supervisor is open: the child is gone for good, or it alone is started if
      neither budget has reached its limit in the window that ends now, or all are shut down. */
  lemma ExitOutcome(s: State, i: Intensity, l: Ledger, before: int, e: TimedEvent)
    requires Inv(s, i) && !s.closing && AllAtMost(s.history.asked, before)
    requires Balanced(s.restarter, s.roster.kids, l, i, before) && before <= e.now && Ends(s, e)
    ensures var n := e.event.name;
            var s' := Step(s, e).0;
            if GoneForGood(s.roster.kids[n].mode, s.roster.kids[n].life, e.event.ready) then Left(s, n, s')
            else if HasRoom(i, l.shared, e.now) && Room(l.own[n], e.now) then RestartedAlone(s, n, e.now, s')
            else AllToStop(s, Some(n), s')
  {
    var n := e.event.name;
    EndReported(s.roster, n, e.event.ready);
    var (r, item) := PollKid(s.roster, n, e.event.ready);
    var s1 := s.(roster := r);
    OpenBudget(s, s1, i);
    assert Kept(s.roster.kids[n], l.own[n], before);
    AskedKept(s.roster.kids[n], l.own[n], before, e.now);
    PermitRemembers(s.restarter, l.shared, before, e.now);
    assert r.kids - {n} == s.roster.kids - {n};
    assert AllAtMost(s1.history.asked, e.now);
    EndHandled(s1, i, n, ReasonOf(item.value).value, e.now);
    hide HandleExit, PollKid, Budgeted, Ascending, Permit, ChildPermit, Remembers, Kept, HasRoom, Winding;
    assert Step(s, e) == HandleExit(s1, n, ReasonOf(item.value).value, e.now);
  }

  lemma EndHandled(s: State, i: Intensity, n: Name, reason: ExitReason, now: int)
    requires RosterOk(s.roster) && Budgeted(s, i) && Ascending(s.history.asked) && AllAtMost(s.history.asked, now)
    requires !s.closing && s.exiting == {} && n in s.roster.kids && s.roster.kids[n].life == Dead
    requires AllUp(s.roster.kids - {n})
    ensures var s' := HandleExit(s, n, reason, now).0;
            if !RequiresRestart(s.roster.kids[n].mode, reason) then Left(s, n, s')
            else if Permit(s.restarter, now).1 && ChildPermit(s.roster.kids[n], now).1 then RestartedAlone(s, n, now, s')
            else AllToStop(s, Some(n), s')
  {
    hide Serve, Ascending, StopGroup, Permit, ChildPermit, AskToRestart, AllToStop, Budgeted, Winding, Distinct;
    ExitHandled(s, i, n, reason, now);
    AsksBoth(s, n, now);
    if RequiresRestart(s.roster.kids[n].mode, reason) && !AskToRestart(s, n, now).1 { RefusedTells(s, n, now); }
  }

  lemma AsksBoth(s: State, n: Name, now: int)
    requires n in s.roster.kids
    ensures AskToRestart(s, n, now).1 == (Permit(s.restarter, now).1 && ChildPermit(s.roster.kids[n], now).1)
  {
    hide Permit, ChildPermit;
  }

  lemma RefusedTells(s: State, n: Name, now: int)
    requires RosterOk(s.roster) && s.exiting == {} && n in s.roster.kids && s.roster.kids[n].life == Dead
    ensures AllToStop(s, Some(n), Shutdown(AskToRestart(s, n, now).0).0)
  {
    hide Permit, StopGroup, Distinct;
    var s1 := AskToRestart(s, n, now).0;
    StopGroupWinds(s1.roster, {});
    StopGroupTells(s1.roster, {});
  }

  /** Children join and leave one at a time, and nothing else shuts an open supervisor down or
      touches anybody but a signal. */
  lemma OtherOutcomes(s: State, i: Intensity, e: TimedEvent)
    requires Inv(s, i) && !s.closing && !Ends(s, e)
    ensures var s' := Step(s, e).0;
            match e.event
            case Signal(isShutdown) => if isShutdown then AllToStop(s, None, s') else s' == s
            case Register(name, mode, intensity) =>
              && s' == s.(roster := s'.roster)
              && if name in s.roster.kids then s' == s else Joined(s.roster, s'.roster, name, mode, intensity)
            case Deregister(name) => Left(s, name, s')
            case Poll(n, ready) =>
              && s' == s.(roster := s'.roster) && s'.roster.order == s.roster.order
              && s'.roster.kids.Keys == s.roster.kids.Keys
              && (forall m :: m in s.roster.kids && m != n ==> s'.roster.kids[m] == s.roster.kids[m])
              && (n in s.roster.kids ==> s'.roster.kids[n] == s.roster.kids[n].(life := ComesUp(s.roster.kids[n].life, ready)))
  {
    match e.event {
      case Signal(isShutdown) =>
        if isShutdown {
          StopGroupWinds(s.roster, {});
          StopGroupTells(s.roster, {});
        }
        hide StopGroup;
      case Register(name, mode, intensity) =>
        AddSpecJoins(s.roster, s.closing, name, mode, intensity);
        hide AddSpec;
      case Deregister(name) =>
        assert name !in s.roster.kids ==> s.roster.kids - {name} == s.roster.kids;
      case Poll(n, ready) =>
        if n in s.roster.kids { QuietReport(s.roster, n, ready); }
        hide PollKid;
    }
  }

  // ----- From the start -----

  /** Everything restarted so far by a supervisor that was given `specs`. */
  function LedgerOf(specs: seq<ChildSpec>, i: Intensity, events: seq<TimedEvent>): Ledger {
    Records(Initial(specs, i), events, OpenAccounts(Initial(specs, i).roster.kids))
  }

  lemma BeginsBalanced(specs: seq<ChildSpec>, i: Intensity, now: int)
    ensures Inv(Initial(specs, i), i) && Initial(specs, i).history.asked == []
    ensures InBalance(Initial(specs, i), i, OpenAccounts(Initial(specs, i).roster.kids), now)
  {
    InitialGood(specs, i);
    BudgetsBeginFresh(specs);
    var s := Initial(specs, i);
    OpenBalanced(s.roster.kids, i, now);
    BalancedRates(s.restarter, s.roster.kids, OpenAccounts(s.roster.kids), i, now);
    hide Inv, Balanced, RatesOk;
  }

  lemma ReachedBalanced(specs: seq<ChildSpec>, i: Intensity, events: seq<TimedEvent>, start: int)
    requires Orderly(events) && (events != [] ==> start <= events[0].now)
    ensures RatesOk(LedgerOf(specs, i, events), i)
    ensures var (s, flow) := Run(Initial(specs, i), events);
            && InBalance(s, i, LedgerOf(specs, i, events), LastTime(events, start))
            && (flow.Continue? ==> Inv(s, i) && AllAtMost(s.history.asked, LastTime(events, start)))
  {
    BeginsBalanced(specs, i, start);
    hide Run, Records, Initial, Inv, RatesOk, Balanced;
    var s0 := Initial(specs, i);
    RunBalances(s0, i, events, OpenAccounts(s0.roster.kids), start);
  }

  /** Main result: however a run goes, no window as long as a child's own budget sees more
      restarts of it than that budget allows, nor one as long as the supervisor's more of all. */
  lemma EveryRateBounded(specs: seq<ChildSpec>, i: Intensity, events: seq<TimedEvent>, start: int)
    requires Orderly(events)
    ensures var l := LedgerOf(specs, i, events);
            && (!Unlimited(i) ==> CountIn(l.shared, start, start + i.within) <= i.maxRestarts)
            && forall n :: n in l.own && l.own[n].intensity.Some? && !Unlimited(l.own[n].intensity.value) ==>
                 var own := l.own[n].intensity.value;
                 CountIn(l.own[n].times, start, start + own.within) <= own.maxRestarts
  {
    hide LedgerOf, CountIn;
    ReachedBalanced(specs, i, events, if events == [] then 0 else events[0].now);
    RatesCounted(LedgerOf(specs, i, events), i, start);
  }

  /** Main result: at any point of any run, a child that ends is gone for good, or it alone is
      restarted, just if fewer restarts than the limit lie in the window that ends now, both of
      all children together and of this one; or everyone is told to stop. */
  lemma EndInRun(specs: seq<ChildSpec>, i: Intensity, events: seq<TimedEvent>, e: TimedEvent)
    requires Orderly(events + [e])
    requires var (s, flow) := Run(Initial(specs, i), events); flow.Continue? && !s.closing && Ends(s, e)
    ensures var s := Run(Initial(specs, i), events).0;
            var l := LedgerOf(specs, i, events);
            var n := e.event.name;
            var s' := Step(s, e).0;
            && n in l.own
            && if GoneForGood(s.roster.kids[n].mode, s.roster.kids[n].life, e.event.ready) then Left(s, n, s')
               else if HasRoom(i, l.shared, e.now) && Room(l.own[n], e.now) then RestartedAlone(s, n, e.now, s')
               else AllToStop(s, Some(n), s')
  {
    var first := (events + [e])[0].now;
    OrderlyInit(events, e);
    ReachedBalanced(specs, i, events, first);
    var s := Run(Initial(specs, i), events).0;
    hide Run, LedgerOf, Initial, Step, Left, RestartedAlone, AllToStop, HasRoom, Room, RatesOk;
    ExitOutcome(s, i, LedgerOf(specs, i, events), LastTime(events, first), e);
  }
}
