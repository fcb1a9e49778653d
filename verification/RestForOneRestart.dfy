/** Which children a cascade keeps track of, and which restarts are under way that it does not
    wait for: how the stop and restart loops leave both. */
module RestForOneRestart {
  import opened Common
  import opened RestartBudget
  import opened Supervisees
  import opened Rosters
  import opened Supervision
  import opened RestForOne
  import opened RestForOneSafety
  import opened RestForOneStopPhase

  /** The children the cascade has yet to restart or drop. */
  function Tracked(c: Cascade): set<Name> {
    match c
    case Exiting(_, pending, toRestart, toDrop) => SetOf(pending) + SetOf(toRestart) + SetOf(toDrop)
    case Restarting(_, pending) => SetOf(pending)
    case _ => {}
  }

  /** Children that are dead and that nothing will bring back or drop. */
  function Orphans(s: State): set<Name> {
    set n | n in s.roster.kids && s.roster.kids[n].life == Dead && n !in Tracked(s.cascade)
  }

  /** Children a restart launched, still on their way, that the cascade neither waits for nor
      is about to stop. */
  function Loose(s: State): set<Name> {
    match s.cascade
    case Exiting(_, pending, _, _) => s.history.launched - SetOf(pending)
    case Restarting(current, _) => s.history.launched - {current}
    case _ => s.history.launched
  }

  /** No child is forgotten, and restarts go one at a time: the child in flight, if any, is the
      one the restart phase waits for. */
  ghost predicate Tidy(s: State) {
    && Orphans(s) == {} && Loose(s) == {}
    && (s.cascade.Restarting? ==> s.cascade.current in s.history.launched)
  }

  lemma {:induction false} AdvanceRestartTidies(s: State, pending: seq<Name>)
    requires Distinct(pending) && forall n :: n in pending ==> n !in s.history.launched
    ensures var s' := AdvanceRestart(s, pending).0;
            && Orphans(s') == (set n | n in s.roster.kids && s.roster.kids[n].life == Dead && n !in pending)
            && Loose(s') == s.history.launched
            && (s'.cascade.Restarting? ==> s'.cascade.current in s'.history.launched)
            && (s'.cascade.Restarting? || s'.cascade.Idle?)
    decreases |pending|
  {
    if pending == [] {
    } else {
      var next, rest := pending[0], pending[1..];
      assert pending == [next] + rest;
      if next !in s.roster.kids {
        AdvanceRestartTidies(s, rest);
      } else {
        var (s1, answer) := Launch(s, next);
        if answer.Spawned? {
          var s' := s1.(cascade := Restarting(next, rest));
          assert Orphans(s') == (set n | n in s.roster.kids && s.roster.kids[n].life == Dead && n !in pending);
        } else {
          AdvanceRestartTidies(s1, rest);
          assert s1.roster.kids == s.roster.kids;
        }
      }
    }
  }

  /** The dead that none of the three queues holds. */
  function DeadOutside(r: Roster, pending: seq<Name>, toRestart: seq<Name>, toDrop: seq<Name>): set<Name> {
    set n | n in r.kids && r.kids[n].life == Dead && n !in pending && n !in toRestart && n !in toDrop
  }

  ghost predicate SettledNotLaunched(s: State, toRestart: seq<Name>, toDrop: seq<Name>) {
    forall n :: n in toRestart || n in toDrop ==> n !in s.history.launched
  }

  /** How the stop loop leaves things, told from where it was entered. */
  ghost predicate StopTidied(
    s: State, pending: seq<Name>, toRestart: seq<Name>, toDrop: seq<Name>, s': State)
  {
    !s'.exiting ==>
      && Orphans(s') == DeadOutside(s.roster, pending, toRestart, toDrop)
      && Loose(s') == s.history.launched - SetOf(pending)
      && (s'.cascade.Restarting? ==> s'.cascade.current in s'.history.launched)
  }

  lemma StopNextTidies(s: State, pending: seq<Name>, toRestart: seq<Name>, toDrop: seq<Name>)
    requires StopReady(s, pending, toRestart, toDrop) && pending != []
    requires SettledNotLaunched(s, toRestart, toDrop)
    ensures var next, rest := pending[|pending| - 1], pending[..|pending| - 1];
            && next in s.roster.kids
            && var (s1, stopping) := Stop(s, next);
            && var keep := s.roster.kids[next].mode != Never;
            && var toRestart' := if keep then toRestart + [next] else toRestart;
            && var toDrop' := if keep then toDrop else toDrop + [next];
            && SettledNotLaunched(s1, toRestart', toDrop')
            && s1.history.launched - SetOf(rest) == s.history.launched - SetOf(pending)
            && (!stopping ==> DeadOutside(s1.roster, rest, toRestart', toDrop')
                              == DeadOutside(s.roster, pending, toRestart, toDrop))
            && (stopping ==> StopTidied(s, pending, toRestart, toDrop,
                                        s1.(cascade := Exiting(next, rest, toRestart', toDrop'))))
  {
    PopKeepsQueues(s, pending, toRestart, toDrop);
    hide StopReady, StopQueues, Sorted;
    var next, rest := pending[|pending| - 1], pending[..|pending| - 1];
    assert pending == rest + [next];
    var (s1, stopping) := Stop(s, next);
    StoppedTidies(s, s1, rest, toRestart, toDrop, next, s.roster.kids[next].mode != Never, stopping);
  }

  lemma StoppedTidies(s: State, s1: State, rest: seq<Name>, toRestart: seq<Name>, toDrop: seq<Name>,
                      next: Name, keep: bool, stopping: bool)
    requires SettledNotLaunched(s, toRestart, toDrop)
    requires next in s.roster.kids && next !in rest
    requires (s1, stopping) == Stop(s, next)
    ensures var toRestart' := if keep then toRestart + [next] else toRestart;
            var toDrop' := if keep then toDrop else toDrop + [next];
            && SettledNotLaunched(s1, toRestart', toDrop')
            && s1.history.launched - SetOf(rest) == s.history.launched - SetOf(rest + [next])
            && (!stopping ==> DeadOutside(s1.roster, rest, toRestart', toDrop')
                              == DeadOutside(s.roster, rest + [next], toRestart, toDrop))
            && (stopping ==> StopTidied(s, rest + [next], toRestart, toDrop,
                                        s1.(cascade := Exiting(next, rest, toRestart', toDrop'))))
  {
    forall n ensures n in rest + [next] <==> n in rest || n == next {}
    forall n ensures n in toRestart + [next] <==> n in toRestart || n == next {}
    forall n ensures n in toDrop + [next] <==> n in toDrop || n == next {}
    if stopping {
      assert s1.roster.kids[next].life == ShuttingDown;
    }
  }

  lemma HandOffTidies(s: State, toRestart: seq<Name>, toDrop: seq<Name>)
    requires Distinct(toRestart) && SettledNotLaunched(s, toRestart, toDrop)
    ensures StopTidied(s, [], toRestart, toDrop, AdvanceRestart(DropAll(s, toDrop), Reverse(toRestart)).0)
  {
    var dropped, q := DropAll(s, toDrop), Reverse(toRestart);
    DropAllFacts(s, toDrop);
    ReverseFacts(toRestart);
    assert dropped.history.launched == s.history.launched;
    AdvanceRestartTidies(dropped, q);
    assert (set n | n in dropped.roster.kids && dropped.roster.kids[n].life == Dead && n !in q)
           == DeadOutside(s.roster, [], toRestart, toDrop);
  }

  /** What holds where the stop loop is entered. */
  ghost predicate StopTidyReady(s: State, pending: seq<Name>, toRestart: seq<Name>, toDrop: seq<Name>) {
    StopReady(s, pending, toRestart, toDrop) && SettledNotLaunched(s, toRestart, toDrop)
  }

  lemma {:induction false} AdvanceStopTidies(
    s: State, pending: seq<Name>, toRestart: seq<Name>, toDrop: seq<Name>, now: int)
    requires StopTidyReady(s, pending, toRestart, toDrop)
    ensures StopTidied(s, pending, toRestart, toDrop, AdvanceStop(s, pending, toRestart, toDrop, now).0)
    decreases |pending|
  {
    hide StopTidyReady, StopTidied, SameAhead, Reverse, DropAll, Stop, Permitted, Shutdown, AdvanceRestart;
    if pending == [] {
      EmptyStopTidies(s, toRestart, toDrop);
    } else {
      var next, rest := pending[|pending| - 1], pending[..|pending| - 1];
      NextIsKid(s, pending, toRestart, toDrop);
      if s.roster.kids[next].mode == Never {
        PopTidies(s, s, pending, toRestart, toDrop, false);
        var (s1, stopping) := Stop(s, next);
        if !stopping {
          AdvanceStopTidies(s1, rest, toRestart, toDrop + [next], now);
          TidiedFromEarlier(s, pending, toRestart, toDrop, s1, rest, toRestart, toDrop + [next],
                            AdvanceStop(s1, rest, toRestart, toDrop + [next], now).0);
        }
      } else {
        var (s1, granted) := Permitted(s, next, now);
        if !granted {
          RefusalExits(s, s1, pending, toRestart, toDrop, next, now);
        } else {
          PermitKeepsReady(s, s1, pending, toRestart, toDrop, next, now);
          PopTidies(s, s1, pending, toRestart, toDrop, true);
          var (s2, stopping) := Stop(s1, next);
          if !stopping {
            AdvanceStopTidies(s2, rest, toRestart + [next], toDrop, now);
            TidiedFromEarlier(s, pending, toRestart, toDrop, s2, rest, toRestart + [next], toDrop,
                              AdvanceStop(s2, rest, toRestart + [next], toDrop, now).0);
          }
        }
      }
    }
  }

  lemma NextIsKid(s: State, pending: seq<Name>, toRestart: seq<Name>, toDrop: seq<Name>)
    requires StopTidyReady(s, pending, toRestart, toDrop) && pending != []
    ensures pending[|pending| - 1] in s.roster.kids
  {
    PopKeepsQueues(s, pending, toRestart, toDrop);
  }

  lemma EmptyStopTidies(s: State, toRestart: seq<Name>, toDrop: seq<Name>)
    requires StopTidyReady(s, [], toRestart, toDrop)
    ensures StopTidied(s, [], toRestart, toDrop, AdvanceRestart(DropAll(s, toDrop), Reverse(toRestart)).0)
  {
    hide StopTidied;
    HandOffTidies(s, toRestart, toDrop);
  }

  lemma RefusalExits(s: State, s1: State, pending: seq<Name>, toRestart: seq<Name>, toDrop: seq<Name>,
                     next: Name, now: int)
    requires StopTidyReady(s, pending, toRestart, toDrop) && next in s.roster.kids
    requires s1 == Permitted(s, next, now).0
    ensures StopTidied(s, pending, toRestart, toDrop, Shutdown(s1).0)
  {
    ShutdownExits(s1);
    hide Shutdown, StopQueues, Orphans, DeadOutside;
  }

  lemma PermitKeepsReady(s: State, s1: State, pending: seq<Name>, toRestart: seq<Name>, toDrop: seq<Name>,
                         next: Name, now: int)
    requires StopTidyReady(s, pending, toRestart, toDrop) && next in s.roster.kids
    requires s1 == Permitted(s, next, now).0
    ensures StopTidyReady(s1, pending, toRestart, toDrop)
    ensures s1.history == s.history && next in s1.roster.kids && s1.roster.kids[next].mode == s.roster.kids[next].mode
    ensures DeadOutside(s1.roster, pending, toRestart, toDrop) == DeadOutside(s.roster, pending, toRestart, toDrop)
  {
    hide Sorted, Distinct, Disjoint;
  }

  /** The stop loop has the same before it in both places. */
  ghost predicate SameAhead(s: State, pending: seq<Name>, toRestart: seq<Name>, toDrop: seq<Name>,
                           s1: State, pending1: seq<Name>, toRestart1: seq<Name>, toDrop1: seq<Name>) {
    && s1.history.launched - SetOf(pending1) == s.history.launched - SetOf(pending)
    && DeadOutside(s1.roster, pending1, toRestart1, toDrop1) == DeadOutside(s.roster, pending, toRestart, toDrop)
  }

  lemma TidiedFromEarlier(s: State, pending: seq<Name>, toRestart: seq<Name>, toDrop: seq<Name>,
                          s1: State, pending1: seq<Name>, toRestart1: seq<Name>, toDrop1: seq<Name>, s': State)
    requires SameAhead(s, pending, toRestart, toDrop, s1, pending1, toRestart1, toDrop1)
    requires StopTidied(s1, pending1, toRestart1, toDrop1, s')
    ensures StopTidied(s, pending, toRestart, toDrop, s')
  {
    hide DeadOutside, SetOf, Orphans, Loose;
  }

  /** One turn of the stop loop, told from `s`; `s1` is `s` after asking for a permit. */
  lemma PopTidies(s: State, s1: State, pending: seq<Name>, toRestart: seq<Name>, toDrop: seq<Name>, keep: bool)
    requires StopTidyReady(s1, pending, toRestart, toDrop) && pending != []
    requires var next := pending[|pending| - 1];
             next in s1.roster.kids && keep == (s1.roster.kids[next].mode != Never)
    requires s1.history == s.history
    requires DeadOutside(s1.roster, pending, toRestart, toDrop) == DeadOutside(s.roster, pending, toRestart, toDrop)
    ensures var next, rest := pending[|pending| - 1], pending[..|pending| - 1];
            && var (s2, stopping) := Stop(s1, next);
            && var toRestart' := if keep then toRestart + [next] else toRestart;
            && var toDrop' := if keep then toDrop else toDrop + [next];
            && (stopping ==>
                  StopTidied(s, pending, toRestart, toDrop, s2.(cascade := Exiting(next, rest, toRestart', toDrop'))))
            && (!stopping ==>
                  StopTidyReady(s2, rest, toRestart', toDrop')
                  && SameAhead(s, pending, toRestart, toDrop, s2, rest, toRestart', toDrop'))
  {
    StopNext(s1, pending, toRestart, toDrop);
    StopNextTidies(s1, pending, toRestart, toDrop);
    hide StopReady, DeadOutside, SettledNotLaunched, Inv, Stop, Orphans, Loose, SetOf;
  }

  /** The children placed before `t`, other than `t`. */
  ghost predicate IsBefore(r: Roster, n: Name, t: Name) {
    n != t && Place(r.order, n) < Place(r.order, t)
  }

  /** A cascade takes in the trigger and all that comes after it, and nobody else. */
  lemma StartCascadeTidies(s: State, t: Name, now: int)
    requires RosterOk(s.roster) && !s.exiting && s.cascade.Idle? && NoneStopping(s.roster.kids)
    requires t in s.roster.kids && s.roster.kids[t].life == Dead && s.roster.kids[t].mode != Never
    requires t !in s.history.launched && s.history.launched <= s.roster.kids.Keys
    ensures var s' := StartCascade(s, t, now).0;
            !s'.exiting ==>
              && Orphans(s') == (set n | n in s.roster.kids && s.roster.kids[n].life == Dead && IsBefore(s.roster, n, t))
              && Loose(s') == (set n | n in s.history.launched && IsBefore(s.roster, n, t))
              && (s'.cascade.Restarting? ==> s'.cascade.current in s'.history.launched)
  {
    TailIsAfter(s.roster, t);
    var pending := Tail(s.roster, t);
    var s0 := s.(history := s.history.(triggers := [t], stopped := []));
    AdvanceStopTidies(s0, pending, [t], [], now);
    hide AdvanceStop;
    OutsideTail(s, t);
  }

  lemma OutsideTail(s: State, t: Name)
    requires RosterOk(s.roster) && t in s.roster.kids
    requires t !in s.history.launched && s.history.launched <= s.roster.kids.Keys
    ensures t in Names(s.roster)
    ensures DeadOutside(s.roster, Tail(s.roster, t), [t], [])
            == (set n | n in s.roster.kids && s.roster.kids[n].life == Dead && IsBefore(s.roster, n, t))
    ensures s.history.launched - SetOf(Tail(s.roster, t))
            == (set n | n in s.history.launched && IsBefore(s.roster, n, t))
  {
    TailIsAfter(s.roster, t);
    hide Tail, Names;
    forall n | n in s.roster.kids ensures n !in Tail(s.roster, t) && n != t <==> IsBefore(s.roster, n, t) {
      if n != t { PlacesDiffer(s.roster.order, n, t); }
    }
  }
}
