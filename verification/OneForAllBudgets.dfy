/** How the one-for-all strategy answers a child that ends, decided by every group restart the
    supervisor and its children were ever granted. */
module OneForAllBudgets {
  import opened Common
  import opened RestartBudget
  import opened Supervisees
  import opened Rosters
  import opened Supervision
  import opened GroupShutdown
  import opened BudgetLedgers
  import opened OneForAll

  /** A child ends that nobody told to stop. */
  predicate Ends(s: State, e: TimedEvent) {
    && e.event.Poll? && e.event.name in s.roster.kids && e.event.name !in s.exiting && e.event.name !in s.restarting
    && EndsOn(s.roster.kids[e.event.name].life, e.event.ready)
  }

  /** Its end was granted a restart of the group: it is still here, and the supervisor is open. */
  predicate Triggers(s: State, e: TimedEvent) {
    Ends(s, e) && !Step(s, e).0.closing && e.event.name in Step(s, e).0.roster.kids
  }

  /** Whom a trigger has to ask: everyone to be restarted who is not in the cascade already. */
  function Asked(s: State): set<Name> {
    set m | m in s.roster.kids && m !in s.cascadeRestart && s.roster.kids[m].mode != Never
  }

  function Granted(s: State, e: TimedEvent): set<Name> {
    if Triggers(s, e) then Asked(s) else {}
  }

  /** The ledger after a step; a supervisor that shuts down grants nothing more. */
  function Record(s: State, e: TimedEvent, l: Ledger): Ledger {
    var s' := Step(s, e).0;
    if s'.closing then l else Enter(l, s.roster.kids, s'.roster.kids, e, Triggers(s, e), Granted(s, e))
  }

  /** The ledger after a run. */
  function Records(s: State, events: seq<TimedEvent>, l: Ledger): Ledger
    decreases |events|
  {
    if events == [] then l
    else
      var l1 := Record(s, events[0], l);
      if Step(s, events[0]).1.Continue? then Records(Step(s, events[0]).0, events[1..], l1) else l1
  }

  // ----- Who is asked -----

  predicate Willing(c: Child, now: int) {
    c.mode == Never || ChildPermit(c, now).1
  }

  /** The budgets of `names` were asked, and nobody else's; nobody joined. */
  ghost predicate AskedEach(kids: Kids, kids': Kids, names: set<Name>, now: int) {
    && kids'.Keys <= kids.Keys
    && forall m :: m in kids' ==>
         && kids'[m].mode == kids[m].mode
         && kids'[m].budget == if m in names && kids[m].mode != Never then ChildPermit(kids[m], now).0.budget
                               else kids[m].budget
  }

  lemma SiblingAsked(s: State, n: Name, now: int)
    requires n in s.roster.kids
    ensures var (s1, granted) := StopSibling(s, n, now);
            && s1.roster.kids.Keys == s.roster.kids.Keys
            && (granted <==> Willing(s.roster.kids[n], now))
            && (forall m :: m in s.roster.kids && m != n ==> s1.roster.kids[m] == s.roster.kids[m])
            && AskedEach(s.roster.kids, s1.roster.kids, {n}, now)
  {
    hide Permit;
  }

  lemma AskedBoth(kids: Kids, kids1: Kids, kids2: Kids, n: Name, names: set<Name>, now: int)
    requires AskedEach(kids, kids1, {n}, now) && AskedEach(kids1, kids2, names, now) && n !in names
    requires forall m :: m in kids1 && m != n ==> kids1[m] == kids[m]
    ensures AskedEach(kids, kids2, {n} + names, now)
  {
    hide ChildPermit;
  }

  lemma {:induction false} SiblingsAsked(s: State, todo: seq<Name>, now: int)
    requires Distinct(todo) && forall m :: m in todo ==> m in s.roster.kids
    ensures var (s1, granted) := StopSiblings(s, todo, now);
            && (granted <==> forall m :: m in todo ==> Willing(s.roster.kids[m], now))
            && (granted ==> AskedEach(s.roster.kids, s1.roster.kids, SetOf(todo), now))
    decreases |todo|
  {
    hide StopSibling, Willing, Distinct, ChildPermit;
    if todo != [] {
      var n, rest := todo[0], todo[1..];
      assert todo == [n] + rest;
      RestDistinct(n, rest);
      SiblingAsked(s, n, now);
      var (s1, granted) := StopSibling(s, n, now);
      if granted {
        SiblingsAsked(s1, rest, now);
        var (s2, all) := StopSiblings(s1, rest, now);
        if all { AskedBoth(s.roster.kids, s1.roster.kids, s2.roster.kids, n, SetOf(rest), now); }
      }
    }
  }

  /** A trigger, with its end reported and both its budgets asked: who else is asked, and when
      the group is restarted. */
  lemma CascadeAsks(s: State, n: Name, now: int)
    requires RosterOk(s.roster) && n in s.cascadeRestart && n in s.roster.kids
    requires forall m :: m in s.cascadeDrop && m in s.roster.kids ==> s.roster.kids[m].mode == Never
    requires !s.closing
    ensures var s' := StartCascade(s, n, now).0;
            && (s'.closing <==> exists m :: m in Asked(s) && !ChildPermit(s.roster.kids[m], now).1)
            && (!s'.closing ==> AskedEach(s.roster.kids, s'.roster.kids, Asked(s), now))
            && (s'.closing ==> AllTold(s.roster.kids, s'.roster.kids, None))
  {
    NamesAreKids(s.roster);
    var all := Names(s.roster);
    SortedIsDistinct(all, s.roster.order);
    SiblingsFacts(s, all, n);
    hide Names, Siblings, Sorted, Distinct, RosterOk;
    var todo := Siblings(s, all, n);
    SiblingsAsked(s, todo, now);
    SiblingsStayOpen(s, todo, now);
    var (s1, granted) := StopSiblings(s, todo, now);
    SameAsked(s, todo, n, now);
    if !granted {
      ShutdownTells(s1, s.roster.kids);
    } else {
      hide StopSiblings, Asked, ChildPermit;
      FinishKeepsBudgets(s1);
      AskedThenKept(s.roster.kids, s1.roster.kids, FinishCascade(s1).roster.kids, Asked(s), now);
      FinishKeepsLimiter(s1);
    }
  }

  /** Some have been told to stop. */
  ghost predicate Partly(kids: Kids, kids1: Kids) {
    && kids1.Keys == kids.Keys
    && forall n :: n in kids ==>
         kids1[n].mode == kids[n].mode && kids1[n].life in {kids[n].life, ToldToStop(kids[n].life)}
  }

  lemma ShutdownTells(s: State, kids: Kids)
    requires RosterOk(s.roster) && Partly(kids, s.roster.kids)
    ensures AllTold(kids, Shutdown(s).0.roster.kids, None) && Shutdown(s).0.closing
  {
    StopGroupTells(s.roster, s.exiting);
    hide StopGroup;
  }

  lemma {:induction false} SiblingsStayOpen(s: State, todo: seq<Name>, now: int)
    ensures var s1 := StopSiblings(s, todo, now).0;
            s1.closing == s.closing && s1.restarter == s.restarter
            && s1.roster.order == s.roster.order && Partly(s.roster.kids, s1.roster.kids)
    decreases |todo|
  {
    if todo != [] {
      if todo[0] !in s.roster.kids { SiblingsStayOpen(s, todo[1..], now); }
      else { SiblingsStayOpen(StopSibling(s, todo[0], now).0, todo[1..], now); }
    }
  }

  /** The siblings are those to be asked and those that are never restarted. */
  lemma SameAsked(s: State, todo: seq<Name>, n: Name, now: int)
    requires n in s.cascadeRestart
    requires forall m :: m in s.cascadeDrop && m in s.roster.kids ==> s.roster.kids[m].mode == Never
    requires forall m :: m in todo <==> m in s.roster.kids && m != n && m !in s.cascadeRestart && m !in s.cascadeDrop
    ensures (forall m :: m in todo ==> Willing(s.roster.kids[m], now))
            <==> !exists m :: m in Asked(s) && !ChildPermit(s.roster.kids[m], now).1
    ensures forall kids' :: AskedEach(s.roster.kids, kids', SetOf(todo), now) <==> AskedEach(s.roster.kids, kids', Asked(s), now)
  {
    hide ChildPermit;
  }

  lemma FinishKeepsBudgets(s: State)
    ensures var kids' := FinishCascade(s).roster.kids;
            && kids'.Keys <= s.roster.kids.Keys
            && forall m :: m in kids' ==> kids'[m].mode == s.roster.kids[m].mode && kids'[m].budget == s.roster.kids[m].budget
  {
  }

  lemma AskedThenKept(kids: Kids, kids1: Kids, kids2: Kids, names: set<Name>, now: int)
    requires AskedEach(kids, kids1, names, now) && kids2.Keys <= kids1.Keys
    requires forall m :: m in kids2 ==> kids2[m].mode == kids1[m].mode && kids2[m].budget == kids1[m].budget
    ensures AskedEach(kids, kids2, names, now)
  {
    hide ChildPermit;
  }

  /** A trigger, from where its end has been reported: the supervisor shuts down just if its own
      budget refuses, or that of anyone who has to be asked. */
  lemma TriggerHandled(s: State, n: Name, reason: ExitReason, now: int)
    requires RosterOk(s.roster) && !s.closing && Booked(s, {n}) && n in s.roster.kids && s.roster.kids[n].life == Dead
    requires n !in s.exiting && n !in s.restarting && n !in s.cascadeRestart + s.cascadeDrop
    requires RequiresRestart(s.roster.kids[n].mode, reason)
    ensures var s' := HandleExit(s, n, reason, now).0;
            && (s'.closing <==>
                  || !Permit(s.restarter, now).1
                  || exists m :: m in Asked(s) && !ChildPermit(s.roster.kids[m], now).1)
            && (!s'.closing ==>
                  && s'.restarter == Permit(s.restarter, now).0
                  && AskedEach(s.roster.kids, s'.roster.kids, Asked(s), now))
            && (s'.closing ==> AllTold(s.roster.kids, s'.roster.kids, None))
  {
    hide HandleExit, Shutdown, StartCascade, KidPermit, Permit, Asked, ChildPermit, AskedEach;
    var s1 := s.(restarter := Permit(s.restarter, now).0);
    var (r, own) := KidPermit(s.roster, n, now);
    var s2 := s1.(roster := r);
    var s3 := s2.(cascadeRestart := s.cascadeRestart + {n});
    TriggerAsked(s, n, s3, now);
    TriggerIs(s, n, reason, now);
    BookedModes(s, n, s3, now);
    CascadeKeepsLimiter(s3, n, now);
    CascadeAsks(s3, n, now);
    ShutdownTells(s1, s.roster.kids);
    ShutdownTells(s2, s.roster.kids);
    hide Booked, RosterOk, AllTold;
    if own { AskedTogether(s, n, s3, StartCascade(s3, n, now).0, now); }
  }

  /** Asking the trigger and then the others is asking all of them. */
  lemma AskedTogether(s: State, n: Name, s3: State, s': State, now: int)
    requires n in s.roster.kids && Asked(s) == {n} + Asked(s3) && n !in Asked(s3)
    requires s3.roster.kids.Keys == s.roster.kids.Keys && AskedEach(s.roster.kids, s3.roster.kids, {n}, now)
    requires ChildPermit(s.roster.kids[n], now).1
    requires forall m :: m in s.roster.kids && m != n ==> s3.roster.kids[m] == s.roster.kids[m]
    requires s'.closing <==> exists m :: m in Asked(s3) && !ChildPermit(s3.roster.kids[m], now).1
    requires !s'.closing ==> AskedEach(s3.roster.kids, s'.roster.kids, Asked(s3), now)
    ensures s'.closing <==> exists m :: m in Asked(s) && !ChildPermit(s.roster.kids[m], now).1
    ensures !s'.closing ==> AskedEach(s.roster.kids, s'.roster.kids, Asked(s), now)
  {
    InKids(s3);
    hide Asked, ChildPermit, AskedEach;
    if !s'.closing { AskedBoth(s.roster.kids, s3.roster.kids, s'.roster.kids, n, Asked(s3), now); }
  }

  lemma InKids(s: State)
    ensures Asked(s) <= s.roster.kids.Keys
  {
  }

  lemma TriggerIs(s: State, n: Name, reason: ExitReason, now: int)
    requires n !in s.exiting && n !in s.restarting && n in s.roster.kids
    requires RequiresRestart(s.roster.kids[n].mode, reason)
    ensures var s1 := s.(restarter := Permit(s.restarter, now).0);
            var (r, own) := KidPermit(s.roster, n, now);
            var s2 := s1.(roster := r);
            HandleExit(s, n, reason, now)
            == if !Permit(s.restarter, now).1 then Shutdown(s1)
               else if !own then Shutdown(s2)
               else StartCascade(s2.(cascadeRestart := s.cascadeRestart + {n}), n, now)
  {
    hide Shutdown, StartCascade, Permit, KidPermit;
  }

  lemma CascadeKeepsLimiter(s: State, n: Name, now: int)
    ensures StartCascade(s, n, now).0.restarter == s.restarter
  {
    SiblingsStayOpen(s, Siblings(s, Names(s.roster), n), now);
    hide StopSiblings, Siblings, Names;
  }

  lemma BookedModes(s: State, n: Name, s3: State, now: int)
    requires RosterOk(s.roster) && Booked(s, {n}) && n in s.roster.kids
    requires s3.roster == KidPermit(s.roster, n, now).0 && s3.cascadeDrop == s.cascadeDrop
    ensures RosterOk(s3.roster) && n in s3.roster.kids
    ensures forall m :: m in s3.cascadeDrop && m in s3.roster.kids ==> s3.roster.kids[m].mode == Never
  {
    hide Distinct, Permit;
  }

  /** The trigger is asked, and is then in the cascade. */
  lemma TriggerAsked(s: State, n: Name, s3: State, now: int)
    requires n in s.roster.kids && n !in s.cascadeRestart && s.roster.kids[n].mode != Never
    requires s3.roster == KidPermit(s.roster, n, now).0 && s3.cascadeRestart == s.cascadeRestart + {n}
    ensures var (r, own) := KidPermit(s.roster, n, now);
            && r.kids.Keys == s.roster.kids.Keys
            && own == ChildPermit(s.roster.kids[n], now).1
            && Asked(s) == {n} + Asked(s3) && n !in Asked(s3)
            && (forall m :: m in Asked(s3) ==> r.kids[m] == s.roster.kids[m])
            && (forall m :: m in s.roster.kids && m != n ==> r.kids[m] == s.roster.kids[m])
            && AskedEach(s.roster.kids, r.kids, {n}, now) && Partly(s.roster.kids, r.kids)
            && (forall kids' :: AllTold(r.kids, kids', None) <==> AllTold(s.roster.kids, kids', None))
  {
    hide Permit;
  }

  // ----- One step -----

  ghost predicate InBalance(s: State, i: Intensity, l: Ledger, now: int) {
    && RatesOk(l, i)
    && (!s.closing ==> Balanced(s.restarter, s.roster.kids, l, i, now))
  }

  ghost predicate SameBudgets(kids: Kids, kids': Kids) {
    kids'.Keys <= kids.Keys && forall m :: m in kids' ==> kids'[m].budget == kids[m].budget
  }

  lemma RemovalKeepsBudgets(s: State, n: Name)
    ensures SameBudgets(s.roster.kids, RemoveSpec(s, n).roster.kids)
    ensures RemoveSpec(s, n).restarter == s.restarter && RemoveSpec(s, n).closing == s.closing
  {
    if n in s.roster.kids {
      RemoveSpecIs(s, n);
      FinishKeepsBudgets(Without(s, n));
      FinishKeepsLimiter(Without(s, n));
      hide RemoveSpec, FinishCascade;
    }
  }

  /** A child ends as others are stopped for a group restart, or leaves for good. */
  lemma OtherEndsKeepBudgets(s: State, n: Name, reason: ExitReason, now: int)
    requires n !in s.exiting && n in s.roster.kids
    requires n in s.restarting || !RequiresRestart(s.roster.kids[n].mode, reason)
    ensures var s' := HandleExit(s, n, reason, now).0;
            SameBudgets(s.roster.kids, s'.roster.kids) && s'.restarter == s.restarter && s'.closing == s.closing
  {
    RemovalKeepsBudgets(s, n);
    FinishKeepsBudgets(s.(restarting := s.restarting - {n}));
    FinishKeepsLimiter(s.(restarting := s.restarting - {n}));
    hide FinishCascade, RemoveSpec, StartCascade, Permit, ChildPermit;
  }

  /** The state once the end of `n` has been reported. */
  function Reported(s: State, e: TimedEvent): State
    requires e.event.Poll?
  {
    s.(roster := PollKid(s.roster, e.event.name, e.event.ready).0)
  }

  lemma ReportAsks(s: State, s1: State, n: Name, ready: Ready, now: int)
    requires n in s.roster.kids && s1 == s.(roster := PollKid(s.roster, n, ready).0)
    ensures Asked(s1) == Asked(s) && s1.roster.kids.Keys == s.roster.kids.Keys
    ensures forall m :: m in s.roster.kids ==>
              && s1.roster.kids[m].mode == s.roster.kids[m].mode
              && ChildPermit(s1.roster.kids[m], now).1 == ChildPermit(s.roster.kids[m], now).1
              && ChildPermit(s1.roster.kids[m], now).0.budget == ChildPermit(s.roster.kids[m], now).0.budget
              && s1.roster.kids[m].budget == s.roster.kids[m].budget
  {
    hide Permit;
  }

  lemma AskedSinceReport(s: State, s1: State, n: Name, ready: Ready, kids': Kids, names: set<Name>, now: int)
    requires n in s.roster.kids && s1 == s.(roster := PollKid(s.roster, n, ready).0)
    ensures AskedEach(s1.roster.kids, kids', names, now) <==> AskedEach(s.roster.kids, kids', names, now)
  {
    ReportAsks(s, s1, n, ready, now);
    hide ChildPermit, PollKid;
  }

  lemma ToldSinceReport(s: State, s1: State, n: Name, ready: Ready, kids': Kids)
    requires n in s.roster.kids && s1 == s.(roster := PollKid(s.roster, n, ready).0) && s1.roster.kids[n].life == Dead
    ensures AllTold(s1.roster.kids, kids', None) ==> AllTold(s.roster.kids, kids', Some(n))
  {
    assert s1.roster.kids.Keys == s.roster.kids.Keys;
  }

  lemma GoneLeaves(s: State, s1: State, n: Name, ready: Ready, reason: ExitReason, now: int)
    requires n in s.roster.kids && s1 == s.(roster := PollKid(s.roster, n, ready).0)
    requires n !in s.exiting && n !in s.restarting && !RequiresRestart(s1.roster.kids[n].mode, reason)
    ensures HandleExit(s1, n, reason, now).0 == Without(s, n)
  {
    RemoveSpecIs(s1, n);
    assert s1.roster.kids - {n} == s.roster.kids - {n};
    hide RemoveSpec, StartCascade, FinishCascade;
  }

  lemma QuietBooks(s: State)
    requires Inv(s) && !s.closing
    ensures s.restarting == {} ==> s.cascadeRestart == {} && s.cascadeDrop == {}
    ensures RosterOk(s.roster)
  {
  }

  lemma TakenInHere(s: State, s': State, n: Name)
    requires TakenIn(s, s') && n in s.roster.kids && s.roster.kids[n].mode != Never
    ensures n in s'.roster.kids
  {
  }

  lemma ClosedWinds(s: State)
    requires Inv(s) && s.closing
    ensures Winding(s.roster.kids, s.exiting)
  {
  }

  lemma EndStep(s: State, e: TimedEvent)
    requires Inv(s) && !s.closing && Ends(s, e)
    ensures var n := e.event.name;
            var s' := Step(s, e).0;
            var gone := GoneForGood(s.roster.kids[n].mode, s.roster.kids[n].life, e.event.ready);
            && (gone ==> s' == Without(s, n))
            && (!gone ==>
                  && (s'.closing <==>
                        || !Permit(s.restarter, e.now).1
                        || exists m :: m in Asked(s) && !ChildPermit(s.roster.kids[m], e.now).1)
                  && (!s'.closing ==>
                        && s'.restarter == Permit(s.restarter, e.now).0
                        && AskedEach(s.roster.kids, s'.roster.kids, Asked(s), e.now)
                        && TakenIn(s, s') && n in s'.roster.kids)
                  && (s'.closing ==>
                        && AllTold(s.roster.kids, s'.roster.kids, Some(n))
                        && Winding(s'.roster.kids, s'.exiting)))
  {
    var n := e.event.name;
    var s1 := Reported(s, e);
    EndReported(s.roster, n, e.event.ready);
    ExitBooks(s, n, e.event.ready);
    var reason := ReasonOf(PollKid(s.roster, n, e.event.ready).1.value).value;
    assert Step(s, e) == HandleExit(s1, n, reason, e.now);
    NobodyExiting(s, n);
    ReportAsks(s, s1, n, e.event.ready, e.now);
    if GoneForGood(s.roster.kids[n].mode, s.roster.kids[n].life, e.event.ready) {
      GoneLeaves(s, s1, n, e.event.ready, reason, e.now);
    } else {
      QuietBooks(s);
      OutsiderExits(s1, n, reason, e.now);
      TriggerHandled(s1, n, reason, e.now);
      hide Step, HandleExit, Booked, PollKid, Permit, ChildPermit, Asked, TakenIn, Winding, AllTold;
      TakenFrom(s, s1, Step(s, e).0);
      AskedSinceReport(s, s1, n, e.event.ready, Step(s, e).0.roster.kids, Asked(s), e.now);
      if !Step(s, e).0.closing { TakenInHere(s, Step(s, e).0, n); }
      if Step(s, e).0.closing {
        ClosedWinds(Step(s, e).0);
        ToldSinceReport(s, s1, n, e.event.ready, Step(s, e).0.roster.kids);
      }
    }
  }

  /** A group restart charges the supervisor's budget and those of everyone asked; nothing else
      charges any. */
  lemma StepCharges(s: State, e: TimedEvent)
    requires Inv(s) && !s.closing && !Step(s, e).0.closing
    ensures Charged(s.roster.kids, Step(s, e).0.roster.kids, e, Granted(s, e))
    ensures Triggers(s, e) ==> Permit(s.restarter, e.now) == (Step(s, e).0.restarter, true)
    ensures !Triggers(s, e) ==> Step(s, e).0.restarter == s.restarter
  {
    if Ends(s, e) {
      EndStep(s, e);
      EndCharges(s, e);
    } else {
      OtherStepKeepsBudgets(s, e);
      hide Step, Permit, ChildPermit, Inv;
    }
  }

  lemma EndCharges(s: State, e: TimedEvent)
    requires Ends(s, e) && !Step(s, e).0.closing
    requires var n := e.event.name;
             var s' := Step(s, e).0;
             if GoneForGood(s.roster.kids[n].mode, s.roster.kids[n].life, e.event.ready) then s' == Without(s, n)
             else
               && Permit(s.restarter, e.now) == (s'.restarter, true)
               && (forall m :: m in Asked(s) ==> ChildPermit(s.roster.kids[m], e.now).1)
               && AskedEach(s.roster.kids, s'.roster.kids, Asked(s), e.now) && n in s'.roster.kids
    ensures Charged(s.roster.kids, Step(s, e).0.roster.kids, e, Granted(s, e))
    ensures Triggers(s, e) ==> Permit(s.restarter, e.now) == (Step(s, e).0.restarter, true)
    ensures !Triggers(s, e) ==> Step(s, e).0.restarter == s.restarter
  {
    hide Step, Permit, ChildPermit, EndsOn, GoneForGood;
  }

  lemma OtherStepKeepsBudgets(s: State, e: TimedEvent)
    requires Inv(s) && !s.closing && !Ends(s, e)
    ensures var s' := Step(s, e).0;
            && (s'.closing <==> e.event == Signal(true))
            && (!s'.closing ==>
                  s'.restarter == s.restarter && Charged(s.roster.kids, s'.roster.kids, e, {}))
  {
    hide HandleExit, RemoveSpec, Permit, ChildPermit, Booked, StopGroup;
    match e.event {
      case Signal(_) =>
      case Register(_, _, _) =>
      case Deregister(name) => RemovalKeepsBudgets(s, name);
      case Poll(n, ready) =>
        NobodyExiting(s, n);
        if n in s.roster.kids {
          EndReported(s.roster, n, ready);
          var s1 := s.(roster := PollKid(s.roster, n, ready).0);
          if n in s.restarting && EndsOn(s.roster.kids[n].life, ready) {
            var reason := ReasonOf(PollKid(s.roster, n, ready).1.value).value;
            OtherEndsKeepBudgets(s1, n, reason, e.now);
          }
        }
    }
  }

  lemma ClosingStays(s: State, e: TimedEvent)
    requires s.closing
    ensures Step(s, e).0.closing
  {
    if e.event.Poll? {
      var (r, item) := PollKid(s.roster, e.event.name, e.event.ready);
      var s1 := s.(roster := r);
      if item.Some? && ReasonOf(item.value).Some? { ClosingExit(s1, e.event.name, ReasonOf(item.value).value, e.now); }
    } else if e.event.Deregister? {
      RemovalKeepsBudgets(s, e.event.name);
    }
    hide HandleExit, RemoveSpec, StopGroup, PollKid;
  }

  lemma ClosingExit(s: State, n: Name, reason: ExitReason, now: int)
    requires s.closing
    ensures HandleExit(s, n, reason, now).0.closing
  {
    RemovalKeepsBudgets(s, n);
    FinishKeepsLimiter(s.(restarting := s.restarting - {n}));
    if n in s.roster.kids {
      var s3 := s.(restarter := Permit(s.restarter, now).0, roster := KidPermit(s.roster, n, now).0,
                   cascadeRestart := s.cascadeRestart + {n});
      var todo := Siblings(s3, Names(s3.roster), n);
      SiblingsStayOpen(s3, todo, now);
      FinishKeepsLimiter(StopSiblings(s3, todo, now).0);
    }
    hide StopSiblings, Siblings, Names, FinishCascade, RemoveSpec, StopGroup, Permit, KidPermit;
  }

  lemma RecordBalances(s: State, i: Intensity, e: TimedEvent, l: Ledger, before: int)
    requires (!s.closing ==> Inv(s)) && InBalance(s, i, l, before) && before <= e.now
    ensures InBalance(Step(s, e).0, i, Record(s, e, l), e.now)
  {
    var s' := Step(s, e).0;
    if s.closing { ClosingStays(s, e); }
    if !s'.closing {
      StepCharges(s, e);
      EnterBalances(s.restarter, s'.restarter, s.roster.kids, s'.roster.kids, e, Triggers(s, e), Granted(s, e), l, i, before);
      BalancedRates(s'.restarter, s'.roster.kids, Record(s, e, l), i, e.now);
    }
    hide Step, Inv, Balanced, RatesOk, Charged;
  }

  lemma {:induction false} RunBalances(s: State, i: Intensity, events: seq<TimedEvent>, l: Ledger, before: int)
    requires (!s.closing ==> Inv(s)) && InBalance(s, i, l, before)
    requires Orderly(events) && (events != [] ==> before <= events[0].now)
    ensures InBalance(Run(s, events).0, i, Records(s, events, l), LastTime(events, before))
    ensures Run(s, events).1.Continue? && !Run(s, events).0.closing ==> Inv(Run(s, events).0)
    decreases |events|
  {
    if events != [] {
      var e := events[0];
      if s.closing { ClosingStays(s, e); } else { OpenStep(s, e); }
      RecordBalances(s, i, e, l, before);
      var (s1, flow) := Step(s, e);
      if flow.Continue? {
        RunBalances(s1, i, events[1..], Record(s, e, l), e.now);
      }
    }
    hide Inv, Step, Balanced, RatesOk, Record, AllDead;
  }

  // ----- What an exit leads to -----

  /** The supervisor's budget has room for a group restart, and so has that of everyone asked. */
  predicate RoomForAll(s: State, i: Intensity, l: Ledger, now: int)
    requires Asked(s) <= l.own.Keys
  {
    HasRoom(i, l.shared, now) && forall m :: m in Asked(s) ==> Room(l.own[m], now)
  }

  /** An end while the supervisor is open: the child is gone for good, or everyone is taken into
      a group restart if none of the budgets asked has reached its limit in the window that ends
      now, or all are shut down. */
  lemma ExitOutcome(s: State, i: Intensity, l: Ledger, before: int, e: TimedEvent)
    requires Inv(s) && !s.closing && Ends(s, e)
    requires Balanced(s.restarter, s.roster.kids, l, i, before) && before <= e.now
    ensures var n := e.event.name;
            var s' := Step(s, e).0;
            if GoneForGood(s.roster.kids[n].mode, s.roster.kids[n].life, e.event.ready) then s' == Without(s, n)
            else if RoomForAll(s, i, l, e.now) then !s'.closing && TakenIn(s, s')
            else s'.closing && AllTold(s.roster.kids, s'.roster.kids, Some(n)) && Winding(s'.roster.kids, s'.exiting)
  {
    EndStep(s, e);
    PermitRemembers(s.restarter, l.shared, before, e.now);
    forall m | m in s.roster.kids ensures ChildPermit(s.roster.kids[m], e.now).1 == Room(l.own[m], e.now) {
      assert Kept(s.roster.kids[m], l.own[m], before);
      AskedKept(s.roster.kids[m], l.own[m], before, e.now);
    }
    hide Step, Permit, ChildPermit, Remembers, Kept, HasRoom, Room, Inv, TakenIn, Winding, AllTold, Ends, GoneForGood;
  }

  /** Short of a shutdown and of an end outside the cascade: children join one at a time, and
      leave one at a time unless the one that leaves was the last the cascade waited for; one the
      cascade waits for ends, and the last of them finishes it; and others come up. */
  lemma OtherOutcomes(s: State, e: TimedEvent)
    requires Inv(s) && !s.closing && !Ends(s, e)
    ensures var s' := Step(s, e).0;
            match e.event
            case Signal(isShutdown) =>
              if isShutdown then s'.closing && AllTold(s.roster.kids, s'.roster.kids, None) else s' == s
            case Register(name, mode, intensity) =>
              && s' == s.(roster := s'.roster)
              && if name in s.roster.kids then s' == s else Joined(s.roster, s'.roster, name, mode, intensity)
            case Deregister(name) =>
              if name !in s.roster.kids then s' == s
              else if s.restarting == {name} then Finished(Without(s, name), s')
              else s' == Without(s, name)
            case Poll(n, ready) =>
              && s'.roster.order == s.roster.order
              && if n !in s.roster.kids then s' == s
                 else if !EndsOn(s.roster.kids[n].life, ready) then
                   s' == s.(roster := s.roster.(kids := s.roster.kids[
                     n := s.roster.kids[n].(life := ComesUp(s.roster.kids[n].life, ready))]))
                 else if s.restarting == {n} then Finished(s.(roster := PollKid(s.roster, n, ready).0), s')
                 else s' == s.(roster := s.roster.(kids := s.roster.kids[n := s.roster.kids[n].(life := Dead)]),
                               restarting := s.restarting - {n})
  {
    hide FinishCascade, Booked, StartCascade;
    match e.event {
      case Signal(isShutdown) =>
        QuietBooks(s);
        if isShutdown { ShutdownTells(s, s.roster.kids); }
        hide StopGroup;
      case Register(name, mode, intensity) =>
        AddSpecJoins(s.roster, s.closing, name, mode, intensity);
        hide AddSpec;
      case Deregister(name) => DeregisterOutcome(s, name);
      case Poll(n, ready) =>
        NobodyExiting(s, n);
        if n in s.roster.kids { ReportOutcome(s, e); }
    }
  }

  lemma DeregisterOutcome(s: State, n: Name)
    requires Inv(s) && !s.closing
    ensures n !in s.roster.kids ==> RemoveSpec(s, n) == s
    ensures n in s.roster.kids && s.restarting == {n} ==> Finished(Without(s, n), RemoveSpec(s, n))
    ensures n in s.roster.kids && s.restarting != {n} ==> RemoveSpec(s, n) == Without(s, n)
  {
    hide FinishCascade;
    if n in s.roster.kids {
      RemoveSpecIs(s, n);
      if s.restarting == {n} {
        WithoutBooks(s, n, {});
        FinishGood(Without(s, n));
      }
    }
  }

  lemma ReportOutcome(s: State, e: TimedEvent)
    requires Inv(s) && !s.closing && e.event.Poll? && e.event.name in s.roster.kids && !Ends(s, e)
    requires e.event.name !in s.exiting
    ensures var (n, ready) := (e.event.name, e.event.ready);
            var s' := Step(s, e).0;
            && s'.roster.order == s.roster.order
            && if !EndsOn(s.roster.kids[n].life, ready) then
                 s' == s.(roster := s.roster.(kids := s.roster.kids[
                   n := s.roster.kids[n].(life := ComesUp(s.roster.kids[n].life, ready))]))
               else if s.restarting == {n} then Finished(s.(roster := PollKid(s.roster, n, ready).0), s')
               else s' == s.(roster := s.roster.(kids := s.roster.kids[n := s.roster.kids[n].(life := Dead)]),
                             restarting := s.restarting - {n})
  {
    hide Inv, Finished, StartCascade;
    var (n, ready) := (e.event.name, e.event.ready);
    EndReported(s.roster, n, ready);
    if !EndsOn(s.roster.kids[n].life, ready) {
      QuietReport(s.roster, n, ready);
      hide PollKid;
    } else if s.restarting == {n} {
      LastMemberExits(s, e);
      hide PollKid, FinishCascade;
    } else {
      hide FinishCascade;
    }
  }

  // ----- From the start -----

  /** Everything granted so far by a supervisor that was given `specs`. */
  function LedgerOf(specs: seq<ChildSpec>, i: Intensity, events: seq<TimedEvent>): Ledger {
    Records(Initial(specs, i), events, OpenAccounts(Initial(specs, i).roster.kids))
  }

  lemma ReachedBalanced(specs: seq<ChildSpec>, i: Intensity, events: seq<TimedEvent>, start: int)
    requires Orderly(events) && (events != [] ==> start <= events[0].now)
    ensures var (s, flow) := Run(Initial(specs, i), events);
            && InBalance(s, i, LedgerOf(specs, i, events), LastTime(events, start))
            && (flow.Continue? && !s.closing ==> Inv(s))
  {
    InitialGood(specs, i);
    BudgetsBeginFresh(specs);
    var s0 := Initial(specs, i);
    OpenBalanced(s0.roster.kids, i, start);
    BalancedRates(s0.restarter, s0.roster.kids, OpenAccounts(s0.roster.kids), i, start);
    RunBalances(s0, i, events, OpenAccounts(s0.roster.kids), start);
    hide Run, Records, Inv, RatesOk, Balanced;
  }

  /** Main result: however a run goes, no window as long as the supervisor's budget sees more
      group restarts than it allows, nor one as long as a child's own more of that child. */
  lemma EveryRateBounded(specs: seq<ChildSpec>, i: Intensity, events: seq<TimedEvent>, start: int)
    requires Orderly(events)
    ensures var l := LedgerOf(specs, i, events);
            && (!Unlimited(i) ==> CountIn(l.shared, start, start + i.within) <= i.maxRestarts)
            && forall n :: n in l.own && l.own[n].intensity.Some? && !Unlimited(l.own[n].intensity.value) ==>
                 var own := l.own[n].intensity.value;
                 CountIn(l.own[n].times, start, start + own.within) <= own.maxRestarts
  {
    hide LedgerOf, CountIn, Initial;
    ReachedBalanced(specs, i, events, if events == [] then 0 else events[0].now);
    RatesCounted(LedgerOf(specs, i, events), i, start);
  }

  /** Main result: at any point of any run, a child that ends is gone for good, or the whole group
      is restarted, just if fewer restarts than the limit lie in the window that ends now, of the
      group and of everyone asked; or everyone is told to stop. */
  lemma EndInRun(specs: seq<ChildSpec>, i: Intensity, events: seq<TimedEvent>, e: TimedEvent)
    requires Orderly(events + [e])
    requires var (s, flow) := Run(Initial(specs, i), events); flow.Continue? && !s.closing && Ends(s, e)
    ensures var s := Run(Initial(specs, i), events).0;
            var l := LedgerOf(specs, i, events);
            var n := e.event.name;
            var s' := Step(s, e).0;
            && Asked(s) <= l.own.Keys
            && if GoneForGood(s.roster.kids[n].mode, s.roster.kids[n].life, e.event.ready) then s' == Without(s, n)
               else if RoomForAll(s, i, l, e.now) then !s'.closing && TakenIn(s, s')
               else s'.closing && AllTold(s.roster.kids, s'.roster.kids, Some(n)) && Winding(s'.roster.kids, s'.exiting)
  {
    var first := (events + [e])[0].now;
    OrderlyInit(events, e);
    ReachedBalanced(specs, i, events, first);
    var s := Run(Initial(specs, i), events).0;
    hide Run, LedgerOf, Initial, Step, TakenIn, Winding, RoomForAll, RatesOk, Without;
    ExitOutcome(s, i, LedgerOf(specs, i, events), LastTime(events, first), e);
  }
}
