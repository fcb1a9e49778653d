/** Runs of the rest-for-one strategy on which what it is documented to do does not happen,
    each with the exact condition for it. */
module RestForOneRuns {
  import opened Common
  import opened RestartBudget
  import opened Supervisees
  import opened Rosters
  import opened Supervision
  import opened RestForOne
  import opened RestForOneSafety
  import opened RestForOneStopPhase
  import opened RestForOneRestart
  import opened RestForOneAnyEvents

  // ----- Bringing the children up -----

  const NO_LIMIT: Intensity := Intensity(U16_MAX, 0)

  /** The children `names`, all to be restarted always and without limit; the first `up` of
      them are alive, the others starting. */
  function Booting(names: seq<Name>, up: nat): State
    requires up <= |names|
  {
    State(Roster(names, map n | n in names :: Child(Always, None, if n in names[..up] then Alive else Starting)),
          Fresh(NO_LIMIT), false, Idle, History([], [], {}))
  }

  function AlwaysSpecs(names: seq<Name>): seq<ChildSpec> {
    if names == [] then []
    else AlwaysSpecs(names[..|names| - 1]) + [ChildSpec(names[|names| - 1], Always, None)]
  }

  function Report(n: Name): TimedEvent { At(0, Poll(n, Succeeds)) }

  function Crash(n: Name): TimedEvent { At(0, Poll(n, Fails(Panicked))) }

  function BootEvents(names: seq<Name>): seq<TimedEvent> {
    if names == [] then [] else [Report(names[0]), Report(names[0])] + BootEvents(names[1..])
  }

  lemma {:induction false} AlwaysSpecsAre(names: seq<Name>)
    ensures NamesOf(AlwaysSpecs(names)) == names
    ensures KidsOf(AlwaysSpecs(names), Starting) == map n | n in names :: Child(Always, None, Starting)
  {
    if names != [] {
      var init, last := names[..|names| - 1], names[|names| - 1];
      AlwaysSpecsAre(init);
      assert names == init + [last];
      assert AlwaysSpecs(names)[..|AlwaysSpecs(names)| - 1] == AlwaysSpecs(init);
    }
  }

  lemma InitialBoots(names: seq<Name>)
    requires Distinct(names)
    ensures Initial(AlwaysSpecs(names), NO_LIMIT) == Booting(names, 0)
  {
    AlwaysSpecsAre(names);
    InitialRoster(AlwaysSpecs(names));
    assert names[..0] == [];
    assert KidsOf(AlwaysSpecs(names), Starting) == Booting(names, 0).roster.kids;
  }

  lemma BootOne(names: seq<Name>, up: nat)
    requires Distinct(names) && up < |names|
    ensures Step(Booting(names, up), Report(names[up])).1.Continue?
    ensures Step(Step(Booting(names, up), Report(names[up])).0, Report(names[up])) == (Booting(names, up + 1), Continue)
  {
    var n := names[up];
    var s0, s2 := Booting(names, up), Booting(names, up + 1);
    assert n !in names[..up];
    assert names[..up + 1] == names[..up] + [n];
    var s1 := Step(s0, Report(n)).0;
    assert s1 == s0.(roster := s0.roster.(kids := s0.roster.kids[n := Child(Always, None, Initializing)]));
    assert PollKid(s1.roster, n, Succeeds).0.kids == s2.roster.kids;
    assert Without({}, n) == {};
    assert Step(s1, Report(n)) == (Settle(s1.(roster := PollKid(s1.roster, n, Succeeds).0), n), Continue);
  }

  lemma {:induction false} RunBoots(names: seq<Name>, up: nat)
    requires Distinct(names) && up <= |names|
    ensures Run(Booting(names, up), BootEvents(names[up..])) == (Booting(names, |names|), Continue)
    decreases |names| - up
  {
    if up < |names| {
      BootOne(names, up);
      RunBoots(names, up + 1);
      var events := BootEvents(names[up..]);
      assert names[up..][1..] == names[up + 1..];
      assert events[1..][1..] == BootEvents(names[up + 1..]);
      assert events[1..][0] == Report(names[up]);
      hide Step;
    } else {
      assert names[up..] == [];
    }
  }

  /** From the start, reports alone bring any children up. */
  lemma AllComeUp(names: seq<Name>)
    requires Distinct(names)
    ensures Run(Initial(AlwaysSpecs(names), NO_LIMIT), BootEvents(names)) == (Booting(names, |names|), Continue)
  {
    InitialBoots(names);
    RunBoots(names, 0);
    assert names[0..] == names;
  }

  // ----- Two children -----

  /** Two children, `b` listed before `c`, in the given state. */
  ghost predicate Pair(s: State, b: Name, c: Name, lb: Life, lc: Life, cascade: Cascade, launched: set<Name>) {
    && b != c && s.roster.order == [b, c]
    && s.roster.kids == map[b := Child(Always, None, lb), c := Child(Always, None, lc)]
    && s.restarter == Fresh(NO_LIMIT) && !s.exiting
    && s.cascade == cascade && s.history.launched == launched
  }

  lemma PairTails(r: Roster, b: Name, c: Name)
    requires b != c && r.order == [b, c] && r.kids.Keys == {b, c}
    ensures Names(r) == [b, c] && Tail(r, b) == [c] && Tail(r, c) == []
  {
    assert r.order[..1] == [b] && [b][..0] == [];
    assert Present([b], {b, c}) == [b];
    assert Distinct([b, c]);
    PlaceUnique([b, c], 0);
    PlaceUnique([b, c], 1);
  }

  lemma ReversePair(b: Name, c: Name)
    ensures Reverse([b, c]) == [c, b] && Reverse([c]) == [c]
  {
    assert [b, c][..1] == [b] && [b][..0] == [] && [c][..0] == [];
    assert Reverse([b]) == [b];
  }

  /** A child without a budget of its own may always restart. */
  lemma FreePermit(s: State, n: Name, now: int)
    requires n in s.roster.kids && s.roster.kids[n].budget.None?
    ensures Permitted(s, n, now) == (s, true)
  {
    assert s.roster.kids[n := s.roster.kids[n]] == s.roster.kids;
  }

  /** A crash that interrupts no stop phase or shutdown starts a cascade. */
  lemma CrashStarts(s: State, n: Name)
    requires s.cascade.Idle? || (s.cascade.Restarting? && s.cascade.current != n)
    requires n in s.roster.kids && s.roster.kids[n] == Child(Always, None, Alive) && s.restarter == Fresh(NO_LIMIT)
    ensures var s1 := Settle(s.(roster := PollKid(s.roster, n, Fails(Panicked)).0), n);
            Step(s, Crash(n)) == StartCascade(s1.(cascade := Idle), n, 0)
  {
    hide StartCascade;
    var s1 := Settle(s.(roster := PollKid(s.roster, n, Fails(Panicked)).0), n);
    FreePermit(s1, n, 0);
    assert s1.(restarter := Permit(s1.restarter, 0).0) == s1;
    assert s1.cascade.Idle? ==> s1.(cascade := Idle) == s1;
  }

  /** The stop loop finds one child to stop, and it was alive. */
  lemma StopLoopWaits(s: State, rest: seq<Name>, n: Name, toRestart: seq<Name>)
    requires n in s.roster.kids && s.roster.kids[n] == Child(Always, None, Alive)
    ensures var (s', flow) := AdvanceStop(s, rest + [n], toRestart, [], 0);
            && flow.Continue?
            && s'.roster == s.roster.(kids := s.roster.kids[n := Child(Always, None, ShuttingDown)])
            && s'.restarter == s.restarter && s'.exiting == s.exiting
            && s'.cascade == Exiting(n, rest, toRestart + [n], [])
            && s'.history.launched == s.history.launched - {n}
  {
    hide AdvanceRestart, Shutdown, DropAll, Reverse;
    FreePermit(s, n, 0);
    assert (rest + [n])[..|rest + [n]| - 1] == rest;
  }

  lemma FirstCrashes(s: State, b: Name, c: Name)
    requires Pair(s, b, c, Alive, Alive, Idle, {})
    ensures Step(s, Crash(b)).1.Continue?
    ensures Pair(Step(s, Crash(b)).0, b, c, Dead, ShuttingDown, Exiting(c, [], [b, c], []), {})
  {
    hide Step, Tail, Names, AdvanceStop;
    CrashStarts(s, b);
    var r := PollKid(s.roster, b, Fails(Panicked)).0;
    assert r.kids == map[b := Child(Always, None, Dead), c := Child(Always, None, Alive)];
    PairTails(r, b, c);
    var s1 := Settle(s.(roster := r), b).(cascade := Idle);
    var s2 := s1.(history := s1.history.(triggers := [b], stopped := []));
    StopLoopWaits(s2, [], c, [b]);
    assert [] + [c] == [c] && [b] + [c] == [b, c];
    assert r.kids[c := Child(Always, None, ShuttingDown)]
           == map[b := Child(Always, None, Dead), c := Child(Always, None, ShuttingDown)];
  }

  lemma SecondStops(s: State, b: Name, c: Name)
    requires Pair(s, b, c, Dead, ShuttingDown, Exiting(c, [], [b, c], []), {})
    ensures Step(s, Report(c)).1.Continue?
    ensures Pair(Step(s, Report(c)).0, b, c, Dead, Starting, Restarting(c, [b]), {c})
  {
    var r := PollKid(s.roster, c, Succeeds).0;
    var s1 := Settle(s.(roster := r), c);
    ExitOfCurrentAdvances(s1, c, ExitOf(NormalShutdown), 0);
    ReversePair(b, c);
    assert [c, b][1..] == [b];
    hide Reverse;
    assert Step(s, Report(c)) == AdvanceRestart(s1.(cascade := Idle), [c, b]);
    assert Without({}, c) == {};
    hide Step;
    assert r.kids[c := Child(Always, None, Starting)] == map[b := Child(Always, None, Dead), c := Child(Always, None, Starting)];
  }

  lemma SecondStarts(s: State, b: Name, c: Name)
    requires Pair(s, b, c, Dead, Starting, Restarting(c, [b]), {c})
    ensures Step(s, Report(c)).1.Continue?
    ensures Pair(Step(s, Report(c)).0, b, c, Dead, Initializing, Restarting(c, [b]), {c})
  {
  }

  lemma SecondInitializes(s: State, b: Name, c: Name)
    requires Pair(s, b, c, Dead, Initializing, Restarting(c, [b]), {c})
    ensures Step(s, Report(c)).1.Continue?
    ensures Pair(Step(s, Report(c)).0, b, c, Starting, Alive, Restarting(b, []), {b})
  {
    var s1 := Settle(s.(roster := PollKid(s.roster, c, Succeeds).0), c);
    assert Without({c}, c) == {};
    assert [b][1..] == [];
    assert Step(s, Report(c)) == AdvanceRestart(s1.(cascade := Idle), [b]);
    hide Step;
    assert s1.roster.kids[b := Child(Always, None, Starting)]
           == map[b := Child(Always, None, Starting), c := Child(Always, None, Alive)];
  }

  lemma SecondCrashes(s: State, b: Name, c: Name)
    requires Pair(s, b, c, Starting, Alive, Restarting(b, []), {b})
    ensures Step(s, Crash(c)).1.Continue?
    ensures Pair(Step(s, Crash(c)).0, b, c, Starting, Starting, Restarting(c, []), {b, c})
  {
    hide Step, Tail, Names, Reverse;
    CrashStarts(s, c);
    var r := PollKid(s.roster, c, Fails(Panicked)).0;
    assert r.kids == map[b := Child(Always, None, Starting), c := Child(Always, None, Dead)];
    PairTails(r, b, c);
    var s1 := Settle(s.(roster := r), c).(cascade := Idle);
    assert Without({b}, c) == {b};
    var s2 := s1.(history := s1.history.(triggers := [c], stopped := []));
    ReversePair(b, c);
    assert [c][1..] == [];
    assert StartCascade(s1, c, 0) == AdvanceRestart(s2, [c]);
    hide StartCascade;
    assert r.kids[c := Child(Always, None, Starting)]
           == map[b := Child(Always, None, Starting), c := Child(Always, None, Starting)];
  }

  lemma RunTwo(s: State, e: TimedEvent, events: seq<TimedEvent>)
    requires Step(s, e).1.Continue?
    ensures Run(s, [e] + events) == Run(Step(s, e).0, events)
  {
    assert ([e] + events)[1..] == events;
  }

  /** The queue of a restart is not in start order: the trigger comes after the sibling it
      stopped, although it was started before it. (`StopPhaseHandsOff` has the exact condition:
      the queue is in start order just if it holds nothing but triggers.) */
  lemma QueueNotInStartOrder(b: Name, c: Name)
    requires b != c
    ensures var s := Run(Booting([b, c], 2), [Crash(b), Report(c)]).0;
            s.cascade == Restarting(c, [b]) && !Sorted(RestartQueue(s.cascade), s.roster.order)
  {
    var s0 := Booting([b, c], 2);
    PairBooted(b, c);
    FirstCrashes(s0, b, c);
    var s1 := Step(s0, Crash(b)).0;
    SecondStops(s1, b, c);
    hide Step;
    RunTwo(s0, Crash(b), [Report(c)]);
    RunTwo(s1, Report(c), []);
    assert [Crash(b)] + [Report(c)] == [Crash(b), Report(c)] && [Report(c)] + [] == [Report(c)];
    assert Distinct([b, c]);
    PlaceUnique([b, c], 0);
    PlaceUnique([b, c], 1);
    var q := RestartQueue(Restarting(c, [b]));
    assert q[0] == c && q[1] == b;
  }

  lemma PairBooted(b: Name, c: Name)
    requires b != c
    ensures Pair(Booting([b, c], 2), b, c, Alive, Alive, Idle, {})
  {
    assert [b, c][..2] == [b, c];
    assert Booting([b, c], 2).roster.kids == map[b := Child(Always, None, Alive), c := Child(Always, None, Alive)];
  }

  /** Two restarts under way at a time: `c` crashes while `b`, placed before it, is on its way
      back, and is launched without waiting for `b`. (`TidyIff` has the exact condition.) */
  lemma TwoRestartsAtOnce(b: Name, c: Name)
    requires b != c
    ensures var (s, flow) := Run(Booting([b, c], 2), [Crash(b), Report(c), Report(c)] + [Report(c), Crash(c)]);
            && flow.Continue?
            && Pair(s, b, c, Starting, Starting, Restarting(c, []), {b, c})
  {
    hide Step, Run, Pair, Booting;
    var s0 := Booting([b, c], 2);
    PairBooted(b, c);
    FirstCrashes(s0, b, c);
    var s1 := Step(s0, Crash(b)).0;
    SecondStops(s1, b, c);
    var s2 := Step(s1, Report(c)).0;
    SecondStarts(s2, b, c);
    var s3 := Step(s2, Report(c)).0;
    RunThree(s0, Crash(b), Report(c), Report(c));
    SecondInitializes(s3, b, c);
    var s4 := Step(s3, Report(c)).0;
    SecondCrashes(s4, b, c);
    RunPair(s3, Report(c), Crash(c));
    RunAppend(s0, [Crash(b), Report(c), Report(c)], [Report(c), Crash(c)]);
  }

  lemma RunPair(s: State, e0: TimedEvent, e1: TimedEvent)
    requires Step(s, e0).1.Continue? && Step(Step(s, e0).0, e1).1.Continue?
    ensures Run(s, [e0, e1]) == (Step(Step(s, e0).0, e1).0, Continue)
  {
    hide Step;
    RunTwo(s, e0, [e1]);
    RunTwo(Step(s, e0).0, e1, []);
    assert [e0] + [e1] == [e0, e1] && [e1] + [] == [e1];
  }

  // ----- Three children -----

  /** Three children, listed in the order `b`, `c`, `d`, in the given state. */
  ghost predicate Triple(
    s: State, b: Name, c: Name, d: Name, lb: Life, lc: Life, ld: Life, cascade: Cascade, launched: set<Name>)
  {
    && b != c && b != d && c != d && s.roster.order == [b, c, d]
    && s.roster.kids == map[b := Child(Always, None, lb), c := Child(Always, None, lc), d := Child(Always, None, ld)]
    && s.restarter == Fresh(NO_LIMIT) && !s.exiting
    && s.cascade == cascade && s.history.launched == launched
  }

  lemma TripleTails(r: Roster, b: Name, c: Name, d: Name)
    requires b != c && b != d && c != d && r.order == [b, c, d] && r.kids.Keys == {b, c, d}
    ensures Names(r) == [b, c, d] && Tail(r, b) == [c, d] && Tail(r, c) == [d]
  {
    assert r.order[..2] == [b, c] && [b, c][..1] == [b] && [b][..0] == [];
    assert Present([b], {b, c, d}) == [b];
    assert Present([b, c], {b, c, d}) == [b, c];
    assert Distinct([b, c, d]);
    PlaceUnique([b, c, d], 0);
    PlaceUnique([b, c, d], 1);
  }

  lemma TripleCrash(s: State, b: Name, c: Name, d: Name)
    requires Triple(s, b, c, d, Alive, Alive, Alive, Idle, {})
    ensures Step(s, Crash(b)).1.Continue?
    ensures Triple(Step(s, Crash(b)).0, b, c, d, Dead, Alive, ShuttingDown, Exiting(d, [c], [b, d], []), {})
  {
    hide Step, Tail, Names, AdvanceStop;
    CrashStarts(s, b);
    var r := PollKid(s.roster, b, Fails(Panicked)).0;
    assert r.kids == map[b := Child(Always, None, Dead), c := Child(Always, None, Alive), d := Child(Always, None, Alive)];
    TripleTails(r, b, c, d);
    var s1 := Settle(s.(roster := r), b).(cascade := Idle);
    var s2 := s1.(history := s1.history.(triggers := [b], stopped := []));
    StopLoopWaits(s2, [c], d, [b]);
    assert [c] + [d] == [c, d] && [b] + [d] == [b, d];
    assert r.kids[d := Child(Always, None, ShuttingDown)]
           == map[b := Child(Always, None, Dead), c := Child(Always, None, Alive), d := Child(Always, None, ShuttingDown)];
  }

  lemma TripleLastStops(s: State, b: Name, c: Name, d: Name)
    requires Triple(s, b, c, d, Dead, Alive, ShuttingDown, Exiting(d, [c], [b, d], []), {})
    ensures Step(s, Report(d)).1.Continue?
    ensures Triple(Step(s, Report(d)).0, b, c, d, Dead, ShuttingDown, Dead, Exiting(c, [], [b, d, c], []), {})
  {
    hide AdvanceStop;
    var s1 := Settle(s.(roster := PollKid(s.roster, d, Succeeds).0), d);
    ExitOfCurrentAdvances(s1, d, ExitOf(NormalShutdown), 0);
    var idle := s1.(cascade := Idle);
    assert Step(s, Report(d)) == AdvanceStop(idle, [c], [b, d], [], 0);
    hide Step;
    StopLoopWaits(idle, [], c, [b, d]);
    assert [] + [c] == [c] && [b, d] + [c] == [b, d, c];
    assert s1.roster.kids[c := Child(Always, None, ShuttingDown)]
           == map[b := Child(Always, None, Dead), c := Child(Always, None, ShuttingDown), d := Child(Always, None, Dead)];
  }

  lemma ReverseTriple(b: Name, c: Name, d: Name)
    ensures Reverse([b, d, c]) == [c, d, b]
  {
    ReverseFacts([b, d, c]);
  }

  lemma TripleMiddleStops(s: State, b: Name, c: Name, d: Name)
    requires Triple(s, b, c, d, Dead, ShuttingDown, Dead, Exiting(c, [], [b, d, c], []), {})
    ensures Step(s, Report(c)).1.Continue?
    ensures Triple(Step(s, Report(c)).0, b, c, d, Dead, Starting, Dead, Restarting(c, [d, b]), {c})
  {
    var s1 := Settle(s.(roster := PollKid(s.roster, c, Succeeds).0), c);
    ExitOfCurrentAdvances(s1, c, ExitOf(NormalShutdown), 0);
    ReverseTriple(b, c, d);
    assert [c, d, b][1..] == [d, b];
    hide Reverse;
    assert Without({}, c) == {};
    assert Step(s, Report(c)) == AdvanceRestart(s1.(cascade := Idle), [c, d, b]);
    hide Step;
    assert s1.roster.kids[c := Child(Always, None, Starting)]
           == map[b := Child(Always, None, Dead), c := Child(Always, None, Starting), d := Child(Always, None, Dead)];
  }

  lemma TripleMiddleStarts(s: State, b: Name, c: Name, d: Name)
    requires Triple(s, b, c, d, Dead, Starting, Dead, Restarting(c, [d, b]), {c})
    ensures Step(s, Report(c)).1.Continue?
    ensures Triple(Step(s, Report(c)).0, b, c, d, Dead, Initializing, Dead, Restarting(c, [d, b]), {c})
  {
  }

  lemma TripleMiddleInitializes(s: State, b: Name, c: Name, d: Name)
    requires Triple(s, b, c, d, Dead, Initializing, Dead, Restarting(c, [d, b]), {c})
    ensures Step(s, Report(c)).1.Continue?
    ensures Triple(Step(s, Report(c)).0, b, c, d, Dead, Alive, Starting, Restarting(d, [b]), {d})
  {
    var s1 := Settle(s.(roster := PollKid(s.roster, c, Succeeds).0), c);
    assert Without({c}, c) == {};
    assert [d, b][1..] == [b];
    assert Step(s, Report(c)) == AdvanceRestart(s1.(cascade := Idle), [d, b]);
    hide Step;
    assert s1.roster.kids[d := Child(Always, None, Starting)]
           == map[b := Child(Always, None, Dead), c := Child(Always, None, Alive), d := Child(Always, None, Starting)];
  }

  lemma TripleMiddleCrashes(s: State, b: Name, c: Name, d: Name)
    requires Triple(s, b, c, d, Dead, Alive, Starting, Restarting(d, [b]), {d})
    ensures Step(s, Crash(c)).1.Continue?
    ensures Triple(Step(s, Crash(c)).0, b, c, d, Dead, Dead, Starting, Restarting(d, [c]), {d})
  {
    hide Step, Tail, Names, AdvanceStop;
    CrashStarts(s, c);
    var r := PollKid(s.roster, c, Fails(Panicked)).0;
    assert r.kids == map[b := Child(Always, None, Dead), c := Child(Always, None, Dead), d := Child(Always, None, Starting)];
    TripleTails(r, b, c, d);
    var s1 := Settle(s.(roster := r), c).(cascade := Idle);
    var s2 := s1.(history := s1.history.(triggers := [c], stopped := []));
    assert Without({d}, c) == {d};
    TripleCancels(s2, b, c, d);
  }

  lemma TripleCancels(s: State, b: Name, c: Name, d: Name)
    requires Triple(s, b, c, d, Dead, Dead, Starting, Idle, {d})
    ensures AdvanceStop(s, [d], [c], [], 0).1.Continue?
    ensures Triple(AdvanceStop(s, [d], [c], [], 0).0, b, c, d, Dead, Dead, Starting, Restarting(d, [c]), {d})
  {
    FreePermit(s, d, 0);
    var s1 := Stop(s, d).0;
    assert Without({d}, d) == {};
    assert [d][..0] == [] && [c] + [d] == [c, d] && [d, c][1..] == [c];
    ReversePair(c, d);
    hide Reverse;
    assert AdvanceStop(s, [d], [c], [], 0) == AdvanceRestart(s1, [d, c]);
    assert s1.roster.kids[d := Child(Always, None, Starting)]
           == map[b := Child(Always, None, Dead), c := Child(Always, None, Dead), d := Child(Always, None, Starting)];
  }

  lemma TripleBooted(b: Name, c: Name, d: Name)
    requires b != c && b != d && c != d
    ensures Triple(Booting([b, c, d], 3), b, c, d, Alive, Alive, Alive, Idle, {})
  {
    assert [b, c, d][..3] == [b, c, d];
    assert Booting([b, c, d], 3).roster.kids
           == map[b := Child(Always, None, Alive), c := Child(Always, None, Alive), d := Child(Always, None, Alive)];
  }

  lemma RunThree(s: State, e0: TimedEvent, e1: TimedEvent, e2: TimedEvent)
    requires Step(s, e0).1.Continue? && Step(Step(s, e0).0, e1).1.Continue?
    requires Step(Step(Step(s, e0).0, e1).0, e2).1.Continue?
    ensures Run(s, [e0, e1, e2]) == (Step(Step(Step(s, e0).0, e1).0, e2).0, Continue)
  {
    hide Step;
    var s1 := Step(s, e0).0;
    var s2 := Step(s1, e1).0;
    RunTwo(s, e0, [e1, e2]);
    RunTwo(s1, e1, [e2]);
    RunTwo(s2, e2, []);
    assert [e0] + [e1, e2] == [e0, e1, e2] && [e1] + [e2] == [e1, e2] && [e2] + [] == [e2];
  }

  lemma {:induction false} RunAppend(s: State, events: seq<TimedEvent>, more: seq<TimedEvent>)
    requires Run(s, events).1.Continue?
    ensures Run(s, events + more) == Run(Run(s, events).0, more)
    decreases |events|
  {
    if events == [] {
      assert events + more == more;
    } else {
      assert (events + more)[1..] == events[1..] + more;
      RunAppend(Step(s, events[0]).0, events[1..], more);
    }
  }

  lemma CascadeStopsTwo(s: State, b: Name, c: Name, d: Name)
    requires Triple(s, b, c, d, Alive, Alive, Alive, Idle, {})
    ensures var (s', flow) := Run(s, [Crash(b), Report(d), Report(c)]);
            flow.Continue? && Triple(s', b, c, d, Dead, Starting, Dead, Restarting(c, [d, b]), {c})
  {
    TripleCrash(s, b, c, d);
    var s1 := Step(s, Crash(b)).0;
    TripleLastStops(s1, b, c, d);
    TripleMiddleStops(Step(s1, Report(d)).0, b, c, d);
    hide Step, Run, Triple;
    RunThree(s, Crash(b), Report(d), Report(c));
  }

  lemma RestartInterrupted(s: State, b: Name, c: Name, d: Name)
    requires Triple(s, b, c, d, Dead, Starting, Dead, Restarting(c, [d, b]), {c})
    ensures var (s', flow) := Run(s, [Report(c), Report(c), Crash(c)]);
            flow.Continue? && Triple(s', b, c, d, Dead, Dead, Starting, Restarting(d, [c]), {d})
  {
    TripleMiddleStarts(s, b, c, d);
    var s1 := Step(s, Report(c)).0;
    TripleMiddleInitializes(s1, b, c, d);
    TripleMiddleCrashes(Step(s1, Report(c)).0, b, c, d);
    hide Step, Run, Triple;
    RunThree(s, Report(c), Report(c), Crash(c));
  }

  /** A child is forgotten: `c` crashes while `b` still waits in the queue for its restart,
      and the cascade that starts afresh from `c` does not reach back to `b`. (`StepTidies` and
      `TidyIff` have the exact condition.) */
  lemma QueuedChildForgotten(b: Name, c: Name, d: Name)
    requires b != c && b != d && c != d
    ensures var (s, flow) := Run(Booting([b, c, d], 3),
                                 [Crash(b), Report(d), Report(c)] + [Report(c), Report(c), Crash(c)]);
            && flow.Continue? && Orphans(s) == {b}
            && Triple(s, b, c, d, Dead, Dead, Starting, Restarting(d, [c]), {d})
  {
    hide Run, Orphans, Triple, Booting;
    var s0 := Booting([b, c, d], 3);
    var (stops, restarts) := ([Crash(b), Report(d), Report(c)], [Report(c), Report(c), Crash(c)]);
    TripleBooted(b, c, d);
    CascadeStopsTwo(s0, b, c, d);
    var s3 := Run(s0, stops).0;
    RestartInterrupted(s3, b, c, d);
    RunAppend(s0, stops, restarts);
    TripleOrphan(Run(s3, restarts).0, b, c, d);
  }

  lemma TripleOrphan(s: State, b: Name, c: Name, d: Name)
    requires Triple(s, b, c, d, Dead, Dead, Starting, Restarting(d, [c]), {d})
    ensures Orphans(s) == {b}
  {
  }

  // ----- Deregistering at the wrong time -----

  /** With nothing deregistered while siblings are being stopped, no merge fails. */
  lemma MergeNeverFails(s: State, trigger: Name)
    requires Inv(s) && s.cascade.Exiting? && trigger in s.roster.kids
    ensures MergeIntoStopping(s, trigger).1.Continue?
  {
    NamesAreKids(s.roster);
    MergeFailsIff(s, trigger);
  }

  lemma DeregisterPending(s: State, p: Name, now: int)
    requires Inv(s) && s.cascade.Exiting? && p in s.cascade.pending
    ensures Step(s, At(now, Deregister(p))) == (Drop(s, p), Continue)
    ensures RosterOk(Drop(s, p).roster) && s.cascade.current in Drop(s, p).roster.kids
    ensures p !in Drop(s, p).roster.kids
  {
  }

  lemma CrashMerges(s: State, t: Name)
    requires s.cascade.Exiting? && t != s.cascade.current && t !in s.cascade.pending
    requires t in s.roster.kids && s.roster.kids[t] == Child(Always, None, Alive) && s.restarter == Fresh(NO_LIMIT)
    ensures var s1 := Settle(s.(roster := PollKid(s.roster, t, Fails(Panicked)).0), t);
            Step(s, Crash(t)) == MergeIntoStopping(s1, t)
  {
    hide MergeIntoStopping;
    var s1 := Settle(s.(roster := PollKid(s.roster, t, Fails(Panicked)).0), t);
    FreePermit(s1, t, 0);
    assert s1.(restarter := Permit(s1.restarter, 0).0) == s1;
  }

  lemma TwoCollectedFail(s: State, t: Name, p: Name, x: Name)
    requires RosterOk(s.roster) && s.cascade.Exiting? && s.cascade.current in s.roster.kids
    requires t in s.roster.kids && t != s.cascade.current
    requires p in s.cascade.pending && p !in s.roster.kids
    requires x in s.roster.kids && x !in s.cascade.toRestart && x !in s.cascade.toDrop
    requires Between(s.roster.order, t, s.cascade.current, x)
    ensures MergeIntoStopping(s, t).1.Panic?
  {
    NamesAreKids(s.roster);
    hide Collected, MergeIntoStopping, Names, Between, RosterOk, Sorted;
    CollectedFacts(s, t);
    MergeFailsIff(s, t);
    TwoMembers(Collected(Names(s.roster), t, s.cascade), x, p);
  }

  lemma TwoMembers(xs: seq<Name>, x: Name, p: Name)
    requires x in xs && p in xs && x != p
    ensures |xs| >= 2
  {
    var i :| 0 <= i < |xs| && xs[i] == x;
    var j :| 0 <= j < |xs| && xs[j] == p;
  }

  /** A run that fails: the pending child `p` is deregistered, then `t` crashes, with another
      child `x` placed between it and the one being waited for. */
  lemma DeregisterThenMergeFails(s: State, p: Name, t: Name, x: Name)
    requires Inv(s) && s.cascade.Exiting? && p in s.cascade.pending
    requires t in s.roster.kids && s.roster.kids[t] == Child(Always, None, Alive) && s.restarter == Fresh(NO_LIMIT)
    requires t != s.cascade.current && t !in s.cascade.pending
    requires x in s.roster.kids && x != p && x !in s.cascade.toRestart && x !in s.cascade.toDrop
    requires Between(s.roster.order, t, s.cascade.current, x)
    ensures Run(s, [At(0, Deregister(p)), Crash(t)]).1.Panic?
  {
    hide Inv, Step, MergeIntoStopping, Between, RosterOk;
    var s1 := Drop(s, p);
    DeregisterPending(s, p, 0);
    CrashMerges(s1, t);
    var s2 := Settle(s1.(roster := PollKid(s1.roster, t, Fails(Panicked)).0), t);
    CrashLeavesRoster(s1, s2, t);
    TwoCollectedFail(s2, t, p, x);
    assert [At(0, Deregister(p)), Crash(t)][1..] == [Crash(t)];
  }

  lemma CrashLeavesRoster(s: State, s': State, t: Name)
    requires RosterOk(s.roster) && t in s.roster.kids
    requires s' == Settle(s.(roster := PollKid(s.roster, t, Fails(Panicked)).0), t)
    ensures RosterOk(s'.roster) && s'.roster.order == s.roster.order && s'.roster.kids.Keys == s.roster.kids.Keys
  {
  }

  lemma NamesComplete(r: Roster)
    requires Distinct(r.order) && forall n :: n in r.kids <==> n in r.order
    ensures RosterOk(r) && Names(r) == r.order
  {
    NamesAreKids(r);
    forall i | 0 <= i < |r.order| ensures Place(r.order, r.order[i]) == i { PlaceUnique(r.order, i); }
    SortedUnique(Names(r), r.order, r.order);
  }

  lemma BootedOk(names: seq<Name>)
    requires Distinct(names)
    ensures var s := Booting(names, |names|);
            && Inv(s) && s.roster.order == names && (forall n :: n in s.roster.kids <==> n in names)
            && (forall n :: n in names ==> s.roster.kids[n] == Child(Always, None, Alive))
  {
    assert names[..|names|] == names;
  }

  lemma TailAt(r: Roster, i: nat)
    requires Distinct(r.order) && (forall n :: n in r.kids <==> n in r.order) && i < |r.order|
    ensures r.order[i] in Names(r) && Tail(r, r.order[i]) == r.order[i + 1..]
  {
    NamesComplete(r);
    PlaceUnique(r.order, i);
  }

  /** A crash finds the two children after it alive: the last is waited for, the other pending. */
  lemma CrashBeforeTwo(s: State, i: nat)
    requires s.cascade.Idle? && s.restarter == Fresh(NO_LIMIT) && i + 3 == |s.roster.order|
    requires Distinct(s.roster.order) && (forall n :: n in s.roster.kids <==> n in s.roster.order)
    requires s.roster.kids[s.roster.order[i]] == Child(Always, None, Alive)
    requires s.roster.kids[s.roster.order[i + 2]] == Child(Always, None, Alive)
    ensures var (b, p, c) := (s.roster.order[i], s.roster.order[i + 1], s.roster.order[i + 2]);
            var (s', flow) := Step(s, Crash(b));
            && flow.Continue? && s'.cascade == Exiting(c, [p], [b, c], []) && s'.restarter == s.restarter
            && s'.exiting == s.exiting
            && s'.roster == s.roster.(kids := s.roster.kids[b := Child(Always, None, Dead)]
                                                           [c := Child(Always, None, ShuttingDown)])
  {
    hide Step, Names, Tail, AdvanceStop, Distinct;
    var (b, p, c) := (s.roster.order[i], s.roster.order[i + 1], s.roster.order[i + 2]);
    CrashStarts(s, b);
    var r := PollKid(s.roster, b, Fails(Panicked)).0;
    TailAt(r, i);
    assert r.order[i + 1..] == [p] + [c];
    assert b != c by { PlacesApart(s.roster.order, i, i + 2); }
    var s1 := Settle(s.(roster := r), b).(cascade := Idle);
    var s2 := s1.(history := s1.history.(triggers := [b], stopped := []));
    StopLoopWaits(s2, [p], c, [b]);
    assert [b] + [c] == [b, c];
  }

  lemma PlacesApart(order: seq<Name>, i: nat, j: nat)
    requires Distinct(order) && i < j < |order|
    ensures order[i] != order[j]
  {
  }

  /** Five children up, in the order `t`, `x`, `b`, `p`, `c`; the third crashes, and the last is
      waited for with the fourth pending. */
  lemma ThirdCrashes(names: seq<Name>)
    requires Distinct(names) && |names| == 5
    ensures var (s, flow) := Step(Booting(names, 5), Crash(names[2]));
            && flow.Continue? && Inv(s) && s.roster.order == names
            && s.cascade == Exiting(names[4], [names[3]], [names[2], names[4]], [])
            && s.restarter == Fresh(NO_LIMIT)
            && (forall n :: n in s.roster.kids <==> n in names)
            && s.roster.kids[names[0]] == Child(Always, None, Alive)
  {
    var s := Booting(names, 5);
    BootedOk(names);
    StepGood(s, Crash(names[2]));
    hide Inv, Step;
    CrashBeforeTwo(s, 2);
    PlacesApart(names, 0, 2);
    PlacesApart(names, 0, 4);
    hide Distinct;
    assert names[0] in names;
  }

  /** A run from the start that fails: of `[t, x, b, p, c]`, `b` crashes, `p` is deregistered
      while it waits to be stopped, and `t` crashes. */
  lemma MergeFailsInRun(names: seq<Name>)
    requires Distinct(names) && |names| == 5
    ensures Run(Initial(AlwaysSpecs(names), NO_LIMIT),
                BootEvents(names) + ([Crash(names[2])] + [At(0, Deregister(names[3])), Crash(names[0])])).1.Panic?
  {
    hide Inv, Step, Run, Booting, BootEvents, Initial;
    var s0 := Booting(names, 5);
    AllComeUp(names);
    ThirdCrashes(names);
    var s1 := Step(s0, Crash(names[2])).0;
    var order := s1.roster.order;
    PlaceUnique(order, 0);
    PlaceUnique(order, 1);
    PlaceUnique(order, 4);
    assert names[0] in names && names[1] in names;
    assert Between(order, names[0], names[4], names[1]);
    DeregisterThenMergeFails(s1, names[3], names[0], names[1]);
    var rest := [At(0, Deregister(names[3])), Crash(names[0])];
    RunTwo(s0, Crash(names[2]), rest);
    RunAppend(Initial(AlwaysSpecs(names), NO_LIMIT), BootEvents(names), [Crash(names[2])] + rest);
  }

  lemma SignalWaits(s: State, c: Name)
    requires Inv(s) && s.cascade.Idle? && s.roster.order == [c] && !s.exiting
    requires s.roster.kids == map[c := Child(Always, None, Alive)]
    ensures var (s', flow) := Step(s, At(0, Signal(true)));
            && flow.Continue? && Inv(s') && s'.cascade == Closing(c, []) && s'.roster.kids.Keys == {c}
  {
    StepGood(s, At(0, Signal(true)));
    NamesComplete(s.roster);
    hide Inv, Names, RosterOk;
    assert [c][..0] == [];
  }

  /** A run from the start that loses its end in a shutdown: the only child is deregistered while
      the shutdown waits for it. */
  lemma EndLostInShutdown(c: Name)
    ensures var (s, flow) := Run(Initial(AlwaysSpecs([c]), NO_LIMIT),
                                 BootEvents([c]) + [At(0, Signal(true)), At(0, Deregister(c))]);
            flow.Continue? && s.exiting && s.cascade.Idle? && AllDead(s.roster.kids)
  {
    hide Step, Run, Initial, BootEvents, Inv, Sound;
    var s0 := Booting([c], 1);
    AllComeUp([c]);
    BootedOk([c]);
    assert s0.roster.kids == map[c := Child(Always, None, Alive)];
    SignalWaits(s0, c);
    var s1 := Step(s0, At(0, Signal(true))).0;
    InvIsSound(s1);
    DeregisterLosesBreakIff(s1, c, 0);
    RunPair(s0, At(0, Signal(true)), At(0, Deregister(c)));
    RunAppend(Initial(AlwaysSpecs([c]), NO_LIMIT), BootEvents([c]), [At(0, Signal(true)), At(0, Deregister(c))]);
  }

  // ----- A budget that refuses while siblings are being stopped -----

  /** Three children in the order `t`, `p`, `c`; the middle one may never be restarted within its
      budget. */
  ghost predicate Trio(s: State, t: Name, p: Name, c: Name, w: nat, lt: Life, lp: Life, lc: Life) {
    && Distinct([t, p, c])
    && s.roster == Roster([t, p, c], map[t := Child(Always, None, lt),
                                         p := Child(Always, Some(Fresh(Intensity(0, w))), lp),
                                         c := Child(Always, None, lc)])
    && s.restarter == Fresh(NO_LIMIT) && !s.exiting && s.history.launched == {}
  }

  function TrioSpecs(t: Name, p: Name, c: Name, w: nat): seq<ChildSpec> {
    [ChildSpec(t, Always, None), ChildSpec(p, Always, Some(Intensity(0, w))), ChildSpec(c, Always, None)]
  }

  lemma SpecsPush(specs: seq<ChildSpec>, last: ChildSpec)
    ensures NamesOf(specs + [last]) == NamesOf(specs) + [last.name]
    ensures KidsOf(specs + [last], Starting)
            == KidsOf(specs, Starting)[last.name := NewChild(last.mode, last.intensity).(life := Starting)]
  {
    assert (specs + [last])[..|specs + [last]| - 1] == specs;
  }

  lemma NoSpecs()
    ensures NamesOf([]) == [] && KidsOf([], Starting) == map[]
  {
  }

  lemma TrioBegins(t: Name, p: Name, c: Name, w: nat)
    requires Distinct([t, p, c])
    ensures Trio(Initial(TrioSpecs(t, p, c, w), NO_LIMIT), t, p, c, w, Starting, Starting, Starting)
    ensures Initial(TrioSpecs(t, p, c, w), NO_LIMIT).cascade == Idle
  {
    hide NamesOf, KidsOf, StartAll, RosterOf;
    var specs := TrioSpecs(t, p, c, w);
    NoSpecs();
    SpecsPush([], specs[0]);
    SpecsPush([specs[0]], specs[1]);
    SpecsPush([specs[0], specs[1]], specs[2]);
    assert [] + [specs[0]] == [specs[0]] && [specs[0]] + [specs[1]] == [specs[0], specs[1]];
    assert [specs[0], specs[1]] + [specs[2]] == specs;
    assert [] + [t] == [t] && [t] + [p] == [t, p] && [t, p] + [c] == [t, p, c];
    InitialRoster(specs);
  }

  /** A child that is starting reports twice, and is up. */
  lemma ChildComesUp(s: State, n: Name)
    requires s.cascade.Idle? && s.history.launched == {} && n in s.roster.kids && s.roster.kids[n].life == Starting
    ensures Run(s, [Report(n), Report(n)])
            == (s.(roster := s.roster.(kids := s.roster.kids[n := s.roster.kids[n].(life := Alive)])), Continue)
  {
    var s1 := s.(roster := s.roster.(kids := s.roster.kids[n := s.roster.kids[n].(life := Initializing)]));
    var s2 := s.(roster := s.roster.(kids := s.roster.kids[n := s.roster.kids[n].(life := Alive)]));
    assert Step(s, Report(n)) == (s1, Continue);
    assert s1.roster.kids[n := s1.roster.kids[n].(life := Alive)] == s2.roster.kids;
    assert Without({}, n) == {};
    assert Step(s1, Report(n)) == (s2, Continue);
    hide Step;
    RunPair(s, Report(n), Report(n));
  }

  lemma TrioCrash(s: State, t: Name, p: Name, c: Name, w: nat)
    requires Trio(s, t, p, c, w, Alive, Starting, Alive) && s.cascade.Idle?
    ensures var (s', flow) := Step(s, Crash(t));
            && flow.Continue? && s'.roster.order == [t, p, c] && s'.roster.kids.Keys == {t, p, c}
            && s'.cascade == Exiting(c, [p], [t, c], [])
            && Quiet(s'.roster.kids, Some(c)) && Refuses(s'.roster.kids, [p], 0)
  {
    var names := [t, p, c];
    assert names[0] != names[1] && names[0] != names[2] && names[1] != names[2];
    hide Step;
    CrashBeforeTwo(s, 0);
    var kids := Step(s, Crash(t)).0.roster.kids;
    assert p in [p] && kids[p] == Child(Always, Some(Fresh(Intensity(0, w))), Starting);
    assert kids[t].life == Dead;
    NoPermit(kids[p], w);
  }

  /** A budget of none refuses at once. */
  lemma NoPermit(c: Child, w: nat)
    requires c.budget == Some(Fresh(Intensity(0, w)))
    ensures !ChildPermit(c, 0).1
  {
  }

  /** A run from the start that loses its end although no shutdown was asked for: of `[t, p, c]`,
      `t` crashes, and `c` is deregistered while it is waited for, with `p` still starting and
      its budget used up. */
  lemma EndLostWhileStopping(t: Name, p: Name, c: Name, w: nat)
    requires Distinct([t, p, c])
    ensures var (s, flow) := Run(Initial(TrioSpecs(t, p, c, w), NO_LIMIT),
                                 [Report(t), Report(t)] + ([Report(c), Report(c)] + [Crash(t), At(0, Deregister(c))]));
            flow.Continue? && s.exiting && s.cascade.Idle? && AllDead(s.roster.kids)
  {
    hide Step, Run, Initial, Sound, Quiet, Refuses;
    var s0 := Initial(TrioSpecs(t, p, c, w), NO_LIMIT);
    TrioBegins(t, p, c, w);
    ChildComesUp(s0, t);
    var s1 := Run(s0, [Report(t), Report(t)]).0;
    assert [t, p, c][0] != [t, p, c][2] && [t, p, c][0] != [t, p, c][1] && [t, p, c][1] != [t, p, c][2];
    assert Trio(s1, t, p, c, w, Alive, Starting, Starting);
    ChildComesUp(s1, c);
    var s2 := Run(s1, [Report(c), Report(c)]).0;
    assert Trio(s2, t, p, c, w, Alive, Starting, Alive);
    TrioCrash(s2, t, p, c, w);
    var s3 := Step(s2, Crash(t)).0;
    TrioSound(s2, t, p, c, w);
    DeregisterLosesBreakIff(s3, c, 0);
    var last := [Crash(t), At(0, Deregister(c))];
    RunPair(s2, Crash(t), At(0, Deregister(c)));
    RunAppend(s1, [Report(c), Report(c)], last);
    RunAppend(s0, [Report(t), Report(t)], [Report(c), Report(c)] + last);
  }

  lemma TrioSound(s: State, t: Name, p: Name, c: Name, w: nat)
    requires Trio(s, t, p, c, w, Alive, Starting, Alive) && s.cascade.Idle? && Step(s, Crash(t)).1.Continue?
    ensures Sound(Step(s, Crash(t)).0)
  {
    assert Sound(s);
    FailsIff(s, Crash(t));
    hide Step;
  }
}
