/** The one-for-one strategy: a child that needs a restart is restarted by itself, and every
    such restart takes a permit from the budget all children share. */
module OneForOne {
  import opened Common
  import opened RestartBudget
  import opened Supervisees
  import opened Rosters
  import opened Supervision
  import opened GroupShutdown

  /** When the shared budget was asked for a permit and when a child was restarted, for stating
      properties; no step looks at it. */
  datatype History = History(asked: seq<int>, restarts: seq<int>)

  datatype State = State(roster: Roster, restarter: Limiter, closing: bool, exiting: set<Name>, history: History)

  function Shutdown(s: State): (State, Flow) {
    var (r, exiting) := StopGroup(s.roster, s.exiting);
    (s.(roster := r, closing := true, exiting := exiting), if exiting == {} then Break else Continue)
  }

  function RemoveSpec(s: State, n: Name): State {
    if n !in s.roster.kids then s
    else s.(roster := Remove(s.roster, n), exiting := s.exiting - {n})
  }

  /** Asks both budgets for a restart of `n`, the child's own only if the shared one grants. */
  function AskToRestart(s: State, n: Name, now: int): (State, bool)
    requires n in s.roster.kids
  {
    var (restarter, shared) := Permit(s.restarter, now);
    var s1 := s.(restarter := restarter, history := s.history.(asked := s.history.asked + [now]));
    if !shared then (s1, false)
    else
      var (r, own) := KidPermit(s.roster, n, now);
      (s1.(roster := r), own)
  }

  function Restart(s: State, n: Name, now: int): State
    requires n in s.roster.kids
  {
    var (r, answer) := StartKid(s.roster, n);
    var restarts := if answer.Spawned? then s.history.restarts + [now] else s.history.restarts;
    s.(roster := r, history := s.history.(restarts := restarts))
  }

  function HandleExit(s: State, n: Name, reason: ExitReason, now: int): (State, Flow) {
    if n in s.exiting then
      (s.(exiting := s.exiting - {n}), if s.exiting == {n} then Break else Continue)
    else if n !in s.roster.kids then (s, Continue)
    else if !RequiresRestart(s.roster.kids[n].mode, reason) then (RemoveSpec(s, n), Continue)
    else
      var (s1, granted) := AskToRestart(s, n, now);
      if granted then (Restart(s1, n, now), Continue) else Shutdown(s1)
  }

  function Step(s: State, e: TimedEvent): (State, Flow) {
    match e.event
    case Signal(isShutdown) => if isShutdown then Shutdown(s) else (s, Continue)
    case Register(name, mode, intensity) =>
      (s.(roster := AddSpec(s.roster, s.closing, name, mode, intensity)), Continue)
    case Deregister(name) => (RemoveSpec(s, name), Continue)
    case Poll(name, ready) =>
      var (r, item) := PollKid(s.roster, name, ready);
      if item.None? || ReasonOf(item.value).None? then (s.(roster := r), Continue)
      else HandleExit(s.(roster := r), name, ReasonOf(item.value).value, e.now)
  }

  function Initial(specs: seq<ChildSpec>, intensity: Intensity): State {
    State(StartAll(RosterOf(specs)).0, Fresh(intensity), false, {}, History([], []))
  }

  function Run(s: State, events: seq<TimedEvent>): (State, Flow)
    decreases |events|
  {
    if events == [] then (s, Continue)
    else
      var (s1, flow) := Step(s, events[0]);
      if flow.Continue? then Run(s1, events[1..]) else (s1, flow)
  }

  // ----- What every step keeps -----

  /** Until the supervisor shuts down, every child it has is up or on its way up. */
  ghost predicate AllUp(kids: Kids) {
    forall n :: n in kids ==> kids[n].life in {Starting, Initializing, Alive}
  }

  /** The shared limiter is where its requests have taken it, and every grant became a restart;
      what it granted last may have been refused by the child's own budget, which ends it all. */
  ghost predicate Budgeted(s: State, i: Intensity) {
    var service := Serve(i, s.history.asked);
    && service.limiter == s.restarter
    && s.history.restarts <= service.grants
    && (!s.closing ==> s.history.restarts == service.grants)
  }

  ghost predicate Inv(s: State, i: Intensity) {
    && RosterOk(s.roster) && Budgeted(s, i) && Ascending(s.history.asked)
    && if s.closing then Winding(s.roster.kids, s.exiting) else s.exiting == {} && AllUp(s.roster.kids)
  }

  /** The loop ends only with everyone dead. */
  ghost predicate Good(result: (State, Flow), i: Intensity) {
    && Inv(result.0, i) && !result.1.Panic?
    && (result.1.Break? ==> result.0.closing && AllDead(result.0.roster.kids))
  }

  lemma ShutdownGood(s: State, i: Intensity)
    requires RosterOk(s.roster) && Budgeted(s.(closing := true), i) && Ascending(s.history.asked)
    requires s.exiting <= Owing(s.roster.kids)
    ensures Good(Shutdown(s), i) && Shutdown(s).0.closing && Shutdown(s).0.history == s.history
    ensures NoneRevived(s.roster.kids, Shutdown(s).0.roster.kids)
  {
    hide StopGroup, Serve, Ascending;
    StopGroupWinds(s.roster, s.exiting);
  }

  lemma AskBudgeted(s: State, i: Intensity, n: Name, now: int)
    requires n in s.roster.kids && !s.closing && Budgeted(s, i)
    requires Ascending(s.history.asked) && AllAtMost(s.history.asked, now)
    ensures var (s1, granted) := AskToRestart(s, n, now);
            && s1.roster.order == s.roster.order && s1.roster.kids.Keys == s.roster.kids.Keys
            && (forall m :: m in s.roster.kids ==> s1.roster.kids[m].life == s.roster.kids[m].life)
            && s1.exiting == s.exiting && !s1.closing
            && s1.history == s.history.(asked := s.history.asked + [now]) && Ascending(s1.history.asked)
            && Budgeted(s1.(closing := true), i)
            && (granted ==> Serve(i, s1.history.asked).grants == s.history.restarts + [now])
  {
    hide Permit;
    var asked := s.history.asked;
    assert (asked + [now])[..|asked + [now]| - 1] == asked;
    assert Serve(i, asked + [now]) == ServeOne(Serve(i, asked), now);
  }

  /** An exit while the supervisor is open: the child is dropped if it needs no restart. If it
      does, both budgets are asked, and either it alone is started or all are shut down. */
  lemma ExitHandled(s: State, i: Intensity, n: Name, reason: ExitReason, now: int)
    requires RosterOk(s.roster) && Budgeted(s, i) && Ascending(s.history.asked) && AllAtMost(s.history.asked, now)
    requires !s.closing && s.exiting == {} && n in s.roster.kids && s.roster.kids[n].life == Dead
    requires AllUp(s.roster.kids - {n})
    ensures Good(HandleExit(s, n, reason, now), i)
    ensures var s' := HandleExit(s, n, reason, now).0;
            if !RequiresRestart(s.roster.kids[n].mode, reason) then
              s' == s.(roster := Remove(s.roster, n))
            else if Permit(s.restarter, now).1 && ChildPermit(s.roster.kids[n], now).1 then
              && !s'.closing && s'.history.restarts == s.history.restarts + [now]
              && s'.roster.kids.Keys == s.roster.kids.Keys
              && s'.roster.kids[n].life == Starting && s'.roster.kids[n].mode == s.roster.kids[n].mode
              && forall m :: m in s.roster.kids && m != n ==> s'.roster.kids[m] == s.roster.kids[m]
            else
              && s'.closing && s'.history.restarts == s.history.restarts
              && NoneRevived(s.roster.kids, s'.roster.kids)
  {
    hide Serve, Ascending, Shutdown;
    if RequiresRestart(s.roster.kids[n].mode, reason) {
      AskBudgeted(s, i, n, now);
      var (s1, granted) := AskToRestart(s, n, now);
      forall m | m in s1.roster.kids && m != n ensures s1.roster.kids[m].life in {Starting, Initializing, Alive} {
        assert m in s.roster.kids - {n};
      }
      if !granted { ShutdownGood(s1, i); }
    }
  }

  /** One step of a shutdown, whatever arrives: nobody comes back and nothing is restarted. The
      loop breaks just when the last exit owed arrives, or on a signal that finds none owed. */
  lemma ClosingStep(s: State, i: Intensity, e: TimedEvent)
    requires Inv(s, i) && s.closing
    ensures Good(Step(s, e), i) && Step(s, e).0.closing && Step(s, e).0.history == s.history
    ensures NoneRevived(s.roster.kids, Step(s, e).0.roster.kids)
    ensures e.event == Signal(true) ==> Step(s, e).0 == s
    ensures Step(s, e).1.Break? <==>
            || (e.event.Poll? && PollKid(s.roster, e.event.name, e.event.ready).1.Some? && s.exiting == {e.event.name})
            || (e.event == Signal(true) && s.exiting == {})
  {
    hide StopGroup, Budgeted, Ascending, AskToRestart;
    match e.event {
      case Signal(isShutdown) => StopGroupAgain(s.roster, s.exiting);
      case Register(_, _, _) =>
      case Deregister(name) => RemovalKeepsWinding(s.roster, s.exiting, {name});
      case Poll(n, ready) =>
        if PollKid(s.roster, n, ready).1.Some? { OnlyExitsArrive(s.roster, s.exiting, n, ready); }
    }
    hide Inv;
    ClosingBudget(s, Step(s, e).0, i);
  }

  lemma ClosingBudget(s: State, s': State, i: Intensity)
    requires Budgeted(s, i) && s.closing && s'.closing
    requires s'.history == s.history && s'.restarter == s.restarter
    ensures Budgeted(s', i)
  {
  }

  lemma OpenStep(s: State, i: Intensity, e: TimedEvent)
    requires Inv(s, i) && !s.closing && AllAtMost(s.history.asked, e.now)
    ensures Good(Step(s, e), i)
    ensures AllAtMost(Step(s, e).0.history.asked, e.now)
  {
    hide Budgeted, Ascending, Shutdown;
    match e.event {
      case Signal(isShutdown) =>
        OpenBudget(s, s.(closing := true), i);
        if isShutdown { ShutdownGood(s, i); }
      case Register(name, mode, intensity) => OpenBudget(s, Step(s, e).0, i);
      case Deregister(name) => OpenBudget(s, Step(s, e).0, i);
      case Poll(n, ready) =>
        var (r, item) := PollKid(s.roster, n, ready);
        var s1 := s.(roster := r);
        OpenBudget(s, s1, i);
        if item.Some? && ReasonOf(item.value).Some? {
          ExitHandled(s1, i, n, ReasonOf(item.value).value, e.now);
          AskedOnce(s1, n, ReasonOf(item.value).value, e.now);
        }
    }
  }

  lemma OpenBudget(s: State, s': State, i: Intensity)
    requires Budgeted(s, i) && !s.closing && s'.history == s.history && s'.restarter == s.restarter
    ensures Budgeted(s', i)
  {
  }

  lemma AskedOnce(s: State, n: Name, reason: ExitReason, now: int)
    requires AllAtMost(s.history.asked, now)
    ensures AllAtMost(HandleExit(s, n, reason, now).0.history.asked, now)
  {
    hide StopGroup, Permit, KidPermit;
  }

  /** Whole runs, over any events whatever under a clock that never runs backwards. */
  lemma {:induction false} RunGood(s: State, i: Intensity, events: seq<TimedEvent>)
    requires Inv(s, i) && Orderly(events) && (events != [] ==> AllAtMost(s.history.asked, events[0].now))
    ensures Good(Run(s, events), i)
    decreases |events|
  {
    if events != [] {
      if s.closing { ClosingStep(s, i, events[0]); } else { OpenStep(s, i, events[0]); }
      var (s1, flow) := Step(s, events[0]);
      hide Step, Inv;
      if flow.Continue? { RunGood(s1, i, events[1..]); }
    }
  }

  lemma InitialGood(specs: seq<ChildSpec>, i: Intensity)
    ensures Inv(Initial(specs, i), i)
  {
    var r := RosterOf(specs);
    RosterOfOk(specs);
    StartAllStarts(r);
  }

  /** Main result: however a run goes, no window as long as the budget's ever sees more
      restarts than the budget allows. */
  lemma RestartRateBounded(specs: seq<ChildSpec>, i: Intensity, events: seq<TimedEvent>, start: int)
    requires Orderly(events) && !Unlimited(i)
    ensures CountIn(Run(Initial(specs, i), events).0.history.restarts, start, start + i.within) <= i.maxRestarts
  {
    hide Run, Initial, Orderly, Inv;
    InitialGood(specs, i);
    NothingAsked(specs, i);
    RunGood(Initial(specs, i), i, events);
    RestartsAreGrants(Run(Initial(specs, i), events).0, i, start);
  }

  lemma NothingAsked(specs: seq<ChildSpec>, i: Intensity)
    ensures Initial(specs, i).history.asked == []
  {
  }

  lemma RestartsAreGrants(s: State, i: Intensity, start: int)
    requires Inv(s, i) && !Unlimited(i)
    ensures CountIn(s.history.restarts, start, start + i.within) <= i.maxRestarts
  {
    var h := s.history;
    hide Serve, CountIn, Winding, RosterOk, Ascending;
    var grants := Serve(i, h.asked).grants;
    NoWindowExceedsLimit(i, h.asked, start);
    assert grants == h.restarts + grants[|h.restarts|..];
    CountSplits(h.restarts, grants[|h.restarts|..], start, start + i.within);
  }

  /** Main result: once a shutdown has begun nobody comes back, over any events whatever. */
  lemma {:induction false} ClosingRun(s: State, i: Intensity, events: seq<TimedEvent>)
    requires Inv(s, i) && s.closing
    ensures var (s', flow) := Run(s, events);
            && Good((s', flow), i) && s'.closing && s'.history == s.history
            && NoneRevived(s.roster.kids, s'.roster.kids)
    decreases |events|
  {
    if events != [] {
      ClosingStep(s, i, events[0]);
      var (s1, flow) := Step(s, events[0]);
      hide Step, Inv;
      if flow.Continue? { ClosingRun(s1, i, events[1..]); }
    }
  }

  /** Deregistering the one child still waited for leaves a shutdown with nobody to wait for and
      the loop running; deregistering any other does not. */
  lemma DeregisterLosesBreakIff(s: State, i: Intensity, name: Name, now: int)
    requires Inv(s, i) && s.closing && s.exiting != {}
    ensures var (s', flow) := Step(s, At(now, Deregister(name)));
            flow.Continue? && (s'.exiting == {} <==> s.exiting == {name})
  {
  }

  /** A run from the start that loses its end: the only child comes up, a shutdown waits for it,
      and it is deregistered. */
  lemma EndLostInShutdown(c: Name, i: Intensity)
    ensures var up := At(0, Poll(c, Succeeds));
            var (s, flow) := Run(Initial(OnlySpecs(c), i), [up, up, At(0, Signal(true)), At(0, Deregister(c))]);
            flow.Continue? && s.closing && s.exiting == {} && s.roster.kids == map[]
  {
    OnlyBegins(c);
    OnlyMoves(c);
    hide StartAll, RosterOf, PollKid, StopGroup;
    var up := At(0, Poll(c, Succeeds));
    var s0 := Initial(OnlySpecs(c), i);
    var s1, s2 := s0.(roster := Only(c, Initializing)), s0.(roster := Only(c, Alive));
    var s3 := s2.(roster := Only(c, ShuttingDown), closing := true, exiting := {c});
    assert Step(s0, up) == (s1, Continue) && Step(s1, up) == (s2, Continue);
    assert Step(s2, At(0, Signal(true))) == (s3, Continue);
    var s4 := Step(s3, At(0, Deregister(c))).0;
    assert Step(s3, At(0, Deregister(c))) == (s4, Continue);
    assert s4.roster.kids == map[] && s4.closing && s4.exiting == {};
    hide Step;
    RunOne(s3, At(0, Deregister(c)), []);
    RunOne(s2, At(0, Signal(true)), [At(0, Deregister(c))]);
    RunOne(s1, up, [At(0, Signal(true)), At(0, Deregister(c))]);
    RunOne(s0, up, [up, At(0, Signal(true)), At(0, Deregister(c))]);
    assert [At(0, Deregister(c))] + [] == [At(0, Deregister(c))];
    assert [At(0, Signal(true))] + [At(0, Deregister(c))] == [At(0, Signal(true)), At(0, Deregister(c))];
    assert [up] + [At(0, Signal(true)), At(0, Deregister(c))] == [up, At(0, Signal(true)), At(0, Deregister(c))];
    assert [up] + [up, At(0, Signal(true)), At(0, Deregister(c))] == [up, up, At(0, Signal(true)), At(0, Deregister(c))];
  }

  lemma RunOne(s: State, e: TimedEvent, rest: seq<TimedEvent>)
    requires Step(s, e).1.Continue?
    ensures Run(s, [e] + rest) == Run(Step(s, e).0, rest)
  {
    assert ([e] + rest)[1..] == rest;
  }

  // ----- The supervisor itself -----

  class OneForOneSupervisor {
    var roster: Roster
    var restarter: Limiter
    var closing: bool
    var exiting: set<Name>
    ghost var history: History

    ghost function View(): State
      reads this
    {
      State(roster, restarter, closing, exiting, history)
    }

    constructor (specs: seq<ChildSpec>, intensity: Intensity)
      ensures View() == Initial(specs, intensity)
    {
      roster := StartAll(RosterOf(specs)).0;
      restarter := Fresh(intensity);
      closing := false;
      exiting := {};
      history := History([], []);
    }

    method BeginShutdown() returns (flow: Flow)
      modifies this
      ensures (View(), flow) == Shutdown(old(View()))
    {
      closing := true;
      var (r, stopping) := StopAll(roster);
      roster := r;
      exiting := exiting + SetOf(stopping);
      flow := if exiting == {} then Break else Continue;
    }

    method Deregister(n: Name)
      modifies this
      ensures View() == RemoveSpec(old(View()), n)
    {
      if n in roster.kids {
        roster := Remove(roster, n);
        exiting := exiting - {n};
      }
    }

    method OnExit(n: Name, reason: ExitReason, now: int) returns (flow: Flow)
      modifies this
      ensures (View(), flow) == HandleExit(old(View()), n, reason, now)
    {
      if n in exiting {
        exiting := exiting - {n};
        return if exiting == {} then Break else Continue;
      }
      if n !in roster.kids { return Continue; }
      if !RequiresRestart(roster.kids[n].mode, reason) {
        Deregister(n);
        return Continue;
      }
      var (limiter, granted) := Permit(restarter, now);
      restarter := limiter;
      history := history.(asked := history.asked + [now]);
      if granted {
        var (r, own) := KidPermit(roster, n, now);
        roster, granted := r, own;
      }
      if granted {
        var (r, answer) := StartKid(roster, n);
        roster := r;
        history := history.(restarts := if answer.Spawned? then history.restarts + [now] else history.restarts);
        return Continue;
      }
      flow := BeginShutdown();
    }

    method HandleNext(e: TimedEvent) returns (flow: Flow)
      modifies this
      ensures (View(), flow) == Step(old(View()), e)
    {
      flow := Continue;
      match e.event {
        case Signal(isShutdown) => if isShutdown { flow := BeginShutdown(); }
        case Register(name, mode, intensity) => roster := AddSpec(roster, closing, name, mode, intensity);
        case Deregister(name) => Deregister(name);
        case Poll(name, ready) =>
          var (r, item) := PollKid(roster, name, ready);
          roster := r;
          if item.Some? && ReasonOf(item.value).Some? {
            flow := OnExit(name, ReasonOf(item.value).value, e.now);
          }
      }
    }

    /** The event loop, up to the event that ends it. */
    method RunLoop(events: seq<TimedEvent>) returns (flow: Flow)
      modifies this
      ensures (View(), flow) == Run(old(View()), events)
    {
      for k := 0 to |events|
        invariant Run(View(), events[k..]) == Run(old(View()), events)
      {
        assert events[k..][0] == events[k] && events[k..][1..] == events[k + 1..];
        flow := HandleNext(events[k]);
        if !flow.Continue? { return; }
      }
      assert events[|events|..] == [];
      return Continue;
    }
  }
}
