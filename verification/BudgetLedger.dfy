/** The permits a supervisor and its children were ever granted, kept beside a run, and what the
    budgets make of them. */
module BudgetLedgers {
  import opened Common
  import opened RestartBudget
  import opened Supervisees
  import opened Rosters
  import opened Supervision

  /** A child's own budget, if it has one, and when it was granted a restart. */
  datatype Account = Account(intensity: Option<Intensity>, times: seq<int>)

  /** `shared` are the times a restart was granted to the supervisor as a whole. */
  datatype Ledger = Ledger(shared: seq<int>, own: map<Name, Account>)

  function IntensityOf(c: Child): Option<Intensity> {
    if c.budget.None? then None else Some(c.budget.value.intensity)
  }

  function OpenAccounts(kids: Kids): Ledger {
    Ledger([], map n | n in kids :: Account(IntensityOf(kids[n]), []))
  }

  /** The budget a child that joins by `e` is given. */
  function Joining(e: TimedEvent): Option<Intensity> {
    if e.event.Register? then e.event.intensity else None
  }

  /** What a step that leads from `kids` to `kids'` adds: a time for everyone granted a restart,
      one more if the supervisor's own budget was charged, and an account for a child that joined. */
  function Enter(l: Ledger, kids: Kids, kids': Kids, e: TimedEvent, charged: bool, granted: set<Name>): Ledger {
    Ledger(
      if charged then l.shared + [e.now] else l.shared,
      map n | n in kids' ::
        if n !in kids || n !in l.own then Account(Joining(e), [])
        else if n in granted then l.own[n].(times := l.own[n].times + [e.now])
        else l.own[n])
  }

  /** The child's own budget, if it has one, has room for another restart. */
  predicate Room(a: Account, now: int) {
    a.intensity.Some? ==> HasRoom(a.intensity.value, a.times, now)
  }

  ghost predicate RatesOk(l: Ledger, i: Intensity) {
    && RateOk(i, l.shared)
    && forall n :: n in l.own && l.own[n].intensity.Some? ==> RateOk(l.own[n].intensity.value, l.own[n].times)
  }

  ghost predicate Kept(c: Child, a: Account, now: int) {
    a.intensity == IntensityOf(c) && (c.budget.Some? ==> Remembers(c.budget.value, a.times, now))
  }

  /** Every budget remembers what the ledger holds for it. */
  ghost predicate Balanced(restarter: Limiter, kids: Kids, l: Ledger, i: Intensity, now: int) {
    && restarter.intensity == i && Remembers(restarter, l.shared, now)
    && l.own.Keys == kids.Keys
    && forall n :: n in kids ==> Kept(kids[n], l.own[n], now)
  }

  /** The budgets of those granted a restart have been asked for it, once each, and nobody
      else's; a child that joined has a budget nobody asked. */
  ghost predicate Charged(kids: Kids, kids': Kids, e: TimedEvent, granted: set<Name>) {
    && (forall n :: n in kids' && n in kids ==>
          if n in granted then ChildPermit(kids[n], e.now).1 && kids'[n].budget == ChildPermit(kids[n], e.now).0.budget
          else kids'[n].budget == kids[n].budget)
    && (forall n :: n in kids' && n !in kids ==>
          kids'[n].budget == if Joining(e).None? then None else Some(Fresh(Joining(e).value)))
  }

  /** A child's budget grants a restart just if its account has room for it. */
  lemma AskedKept(c: Child, a: Account, before: int, now: int)
    requires Kept(c, a, before) && before <= now
    ensures ChildPermit(c, now).1 == Room(a, now)
    ensures Kept(ChildPermit(c, now).0, if ChildPermit(c, now).1 then a.(times := a.times + [now]) else a, now)
    ensures Kept(c, a, now)
  {
    if c.budget.Some? {
      PermitRemembers(c.budget.value, a.times, before, now);
      StillRemembers(c.budget.value, a.times, before, now);
    }
    hide Permit, Remembers, HasRoom;
  }

  lemma KeptByBudget(c: Child, c': Child, a: Account, now: int)
    requires Kept(c, a, now) && c'.budget == c.budget
    ensures Kept(c', a, now)
  {
    hide Remembers;
  }

  lemma JoinedKept(c: Child, e: TimedEvent)
    requires c.budget == if Joining(e).None? then None else Some(Fresh(Joining(e).value))
    ensures Kept(c, Account(Joining(e), []), e.now)
  {
    if Joining(e).Some? { NothingToRemember(Joining(e).value, e.now); }
    hide Remembers;
  }

  /** A step that charges whom it grants a restart keeps the ledger in balance. */
  lemma EnterBalances(
    restarter: Limiter, restarter': Limiter, kids: Kids, kids': Kids, e: TimedEvent, charged: bool, granted: set<Name>,
    l: Ledger, i: Intensity, before: int)
    requires Balanced(restarter, kids, l, i, before) && before <= e.now
    requires Charged(kids, kids', e, granted)
    requires charged ==> Permit(restarter, e.now) == (restarter', true)
    requires !charged ==> restarter' == restarter
    ensures Balanced(restarter', kids', Enter(l, kids, kids', e, charged, granted), i, e.now)
  {
    PermitRemembers(restarter, l.shared, before, e.now);
    StillRemembers(restarter, l.shared, before, e.now);
    var l' := Enter(l, kids, kids', e, charged, granted);
    forall n | n in kids' ensures Kept(kids'[n], l'.own[n], e.now) {
      if n in kids {
        AskedKept(kids[n], l.own[n], before, e.now);
        hide ChildPermit, Remembers;
        if n in granted {
          KeptByBudget(ChildPermit(kids[n], e.now).0, kids'[n], l'.own[n], e.now);
        } else {
          KeptByBudget(kids[n], kids'[n], l.own[n], e.now);
        }
      } else {
        JoinedKept(kids'[n], e);
      }
    }
    hide Remembers, Permit, Kept, ChildPermit;
  }

  lemma BalancedRates(restarter: Limiter, kids: Kids, l: Ledger, i: Intensity, now: int)
    requires Balanced(restarter, kids, l, i, now)
    ensures RatesOk(l, i)
  {
    forall n | n in l.own ensures Kept(kids[n], l.own[n], now) {}
    hide RateOk;
  }

  /** What the rates mean for the window that begins at `start`. */
  lemma RatesCounted(l: Ledger, i: Intensity, start: int)
    requires RatesOk(l, i)
    ensures !Unlimited(i) ==> CountIn(l.shared, start, start + i.within) <= i.maxRestarts
    ensures forall n :: n in l.own && l.own[n].intensity.Some? && !Unlimited(l.own[n].intensity.value) ==>
              var own := l.own[n].intensity.value;
              CountIn(l.own[n].times, start, start + own.within) <= own.maxRestarts
  {
    hide CountIn;
    assert InWindow(i, l.shared, start) == CountIn(l.shared, start, start + i.within);
    forall n | n in l.own && l.own[n].intensity.Some? && !Unlimited(l.own[n].intensity.value)
      ensures var own := l.own[n].intensity.value; CountIn(l.own[n].times, start, start + own.within) <= own.maxRestarts
    {
      var own := l.own[n].intensity.value;
      assert InWindow(own, l.own[n].times, start) == CountIn(l.own[n].times, start, start + own.within);
    }
  }

  lemma OpenBalanced(kids: Kids, i: Intensity, now: int)
    requires Unasked(kids)
    ensures Balanced(Fresh(i), kids, OpenAccounts(kids), i, now)
  {
    NothingToRemember(i, now);
    forall n | n in kids && kids[n].budget.Some? ensures Remembers(kids[n].budget.value, [], now) {
      NothingToRemember(kids[n].budget.value.intensity, now);
    }
    hide Remembers;
  }

  ghost predicate Unasked(kids: Kids) {
    forall n :: n in kids && kids[n].budget.Some? ==> kids[n].budget.value.restarts == []
  }

  /** The children a supervisor begins with have budgets nobody asked. */
  lemma BudgetsBeginFresh(specs: seq<ChildSpec>)
    ensures Unasked(StartAll(RosterOf(specs)).0.kids)
  {
    RosterOfOk(specs);
    RosterBudgets(specs);
    StartAllStarts(RosterOf(specs));
  }

  lemma {:induction false} RosterBudgets(specs: seq<ChildSpec>)
    ensures Unasked(RosterOf(specs).kids)
  {
    if specs != [] {
      RosterBudgets(specs[..|specs| - 1]);
      var last := specs[|specs| - 1];
      var (init, c) := (RosterOf(specs[..|specs| - 1]).kids, NewChild(last.mode, last.intensity));
      assert RosterOf(specs).kids == init[last.name := c];
      JoinsUnasked(init, last.name, c);
    }
  }

  lemma JoinsUnasked(kids: Kids, n: Name, c: Child)
    requires Unasked(kids) && (c.budget.Some? ==> c.budget.value.restarts == [])
    ensures Unasked(kids[n := c])
  {
  }

  // ----- A child that ends -----

  /** What a child reports when it ends calls for a restart just if it is not gone for good. */
  lemma EndReported(r: Roster, n: Name, ready: Ready)
    requires n in r.kids
    ensures var (r', item) := PollKid(r, n, ready);
            && (item.Some? && ReasonOf(item.value).Some? <==> EndsOn(r.kids[n].life, ready))
            && r'.order == r.order && r'.kids.Keys == r.kids.Keys
            && (forall m :: m in r.kids && m != n ==> r'.kids[m] == r.kids[m])
            && r'.kids[n] == r.kids[n].(life := r'.kids[n].life)
            && (EndsOn(r.kids[n].life, ready) ==>
                  && r'.kids[n].life == Dead
                  && (RequiresRestart(r.kids[n].mode, ReasonOf(item.value).value)
                      <==> !GoneForGood(r.kids[n].mode, r.kids[n].life, ready)))
  {
  }

  /** A report that is no end moves the child on, and calls for nothing. */
  lemma QuietReport(r: Roster, n: Name, ready: Ready)
    requires n in r.kids && !EndsOn(r.kids[n].life, ready)
    ensures var (r', item) := PollKid(r, n, ready);
            && (item.Some? ==> ReasonOf(item.value).None?)
            && r'.order == r.order && r'.kids == r.kids[n := r.kids[n].(life := ComesUp(r.kids[n].life, ready))]
  {
  }
}
