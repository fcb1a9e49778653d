/** The stop phase of a rest-for-one cascade, merges included, up to the hand-off to the
    restart phase. Here nothing registers while siblings are being stopped, and nothing is
    deregistered while a cascade runs. */
module RestForOneStopPhase {
  import opened Common
  import opened RestartBudget
  import opened Supervisees
  import opened Rosters
  import opened Supervision
  import opened RestForOne
  import opened RestForOneSafety

  ghost predicate Descending(xs: seq<Name>, order: seq<Name>) {
    forall i, j :: 0 <= i < j < |xs| ==> Place(order, xs[j]) < Place(order, xs[i])
  }

  /** Every name of `xs` is placed before every name of `ys`. */
  ghost predicate AllBefore(xs: seq<Name>, ys: seq<Name>, order: seq<Name>) {
    forall m, n :: m in xs && n in ys ==> Place(order, m) < Place(order, n)
  }

  /** How a stop phase fills its restart queue: of two entries the later is placed before the
      earlier, unless it is a sibling that a trigger put there, and every sibling comes later
      than some trigger that is placed before it. */
  ghost predicate Layered(xs: seq<Name>, triggers: seq<Name>, order: seq<Name>) {
    && (forall i, j :: 0 <= i < j < |xs| && (xs[i] !in triggers || xs[j] in triggers) ==>
          Place(order, xs[j]) < Place(order, xs[i]))
    && (forall j :: 0 <= j < |xs| && xs[j] !in triggers ==>
          exists i :: 0 <= i < j && xs[i] in triggers && Place(order, xs[i]) < Place(order, xs[j]))
  }

  /** The siblings in `xs`, that is all but the triggers, are in ascending order. */
  ghost predicate SiblingsAscending(xs: seq<Name>, triggers: seq<Name>, order: seq<Name>) {
    forall i, j :: 0 <= i < j < |xs| && xs[i] !in triggers && xs[j] !in triggers ==>
      Place(order, xs[i]) < Place(order, xs[j])
  }

  function Lowest(h: History): Name
    requires h.triggers != []
  {
    h.triggers[|h.triggers| - 1]
  }

  ghost predicate InScope(r: Roster, h: History, n: Name)
    requires h.triggers != []
  {
    n in r.kids && Place(r.order, Lowest(h)) <= Place(r.order, n)
  }

  /** The queues of a stop phase hold exactly the children placed at or after the lowest
      trigger. Each was stopped in descending order or is a trigger; the triggers came in
      descending order too; and what is pending comes before all that was stopped. */
  ghost predicate Scope(
    r: Roster, h: History, pending: seq<Name>, toRestart: seq<Name>, toDrop: seq<Name>)
  {
    && h.triggers != [] && Descending(h.triggers, r.order)
    && (forall n :: n in h.triggers ==> n in toRestart)
    && (forall n :: InScope(r, h, n) <==> n in pending || n in toRestart || n in toDrop)
    && Descending(h.stopped, r.order) && AllBefore(pending, h.stopped, r.order)
    && (forall n :: n in h.stopped <==> n in toDrop || (n in toRestart && n !in h.triggers))
    && Layered(toRestart, h.triggers, r.order)
  }

  /** The queued children are all here and all dead. */
  ghost predicate AllQueuedDead(pending: seq<Name>, kids: Kids) {
    forall n :: n in pending ==> n in kids && kids[n].life == Dead
  }

  ghost predicate StrongInv(s: State) {
    && Inv(s)
    && (s.cascade.Exiting? ==>
          && Scope(s.roster, s.history, s.cascade.pending, s.cascade.toRestart, s.cascade.toDrop)
          && s.history.stopped != [] && s.history.stopped[|s.history.stopped| - 1] == s.cascade.current)
    && (s.cascade.Restarting? ==> AllQueuedDead(s.cascade.pending, s.roster.kids))
  }

  ghost predicate Undisturbed(s: State, e: TimedEvent) {
    && (e.event.Deregister? ==> s.cascade.Idle?)
    && (e.event.Register? ==> !s.cascade.Exiting?)
  }

  // ----- The restart phase -----

  /** A queue of dead children is restarted from the front, with nobody skipped. */
  lemma LaunchFirst(s: State, pending: seq<Name>)
    requires AllQueuedDead(pending, s.roster.kids)
    ensures pending == [] ==> AdvanceRestart(s, pending).0 == s.(cascade := Idle)
    ensures pending != [] ==>
              && pending[0] in s.roster.kids
              && Launch(s, pending[0]).1.Spawned?
              && AdvanceRestart(s, pending).0 == Launch(s, pending[0]).0.(cascade := Restarting(pending[0], pending[1..]))
    ensures Distinct(pending) && AdvanceRestart(s, pending).0.cascade.Restarting? ==>
              AllQueuedDead(AdvanceRestart(s, pending).0.cascade.pending, AdvanceRestart(s, pending).0.roster.kids)
  {
  }

  // ----- The stop phase -----

  /** The children a restart has before it: the one in flight and those queued. */
  function RestartQueue(c: Cascade): seq<Name>
    requires c.Restarting?
  {
    [c.current] + c.pending
  }

  /** What the hand-off leaves, told from the roster `r` and history `h` of the stop phase:
      the restart queue holds every child in scope but those that are never restarted, each
      once, the siblings in start order; all of them are dead but for the first, which is
      starting; those never restarted are gone; and no child outside the scope was touched. */
  ghost predicate HandedOff(r: Roster, h: History, s': State) {
    && h.triggers != [] && s'.cascade.Restarting? && s'.roster.order == r.order
    && var q := RestartQueue(s'.cascade);
    && Distinct(q) && SiblingsAscending(q, h.triggers, r.order)
    && (Sorted(q, r.order) <==> forall n :: InScope(r, h, n) && r.kids[n].mode != Never ==> n in h.triggers)
    && (forall n :: n in q <==> InScope(r, h, n) && r.kids[n].mode != Never)
    && (forall n :: n in s'.roster.kids <==> n in r.kids && !(InScope(r, h, n) && r.kids[n].mode == Never))
    && (forall n :: n in q ==>
          n in s'.roster.kids && s'.roster.kids[n].life == if n == q[0] then Starting else Dead)
    && (forall n :: n in s'.roster.kids && !InScope(r, h, n) ==> s'.roster.kids[n] == r.kids[n])
    && StopsRecorded(r, h, s'.history)
  }

  /** All in scope but the triggers were told to stop, and nobody else, in descending order. */
  ghost predicate StopsRecorded(r: Roster, h: History, h': History)
    requires h.triggers != []
  {
    && h'.triggers == h.triggers
    && Descending(h'.stopped, r.order)
    && (forall n :: n in h'.stopped <==> InScope(r, h, n) && n !in h'.triggers)
  }

  lemma ReversedSiblings(xs: seq<Name>, triggers: seq<Name>, order: seq<Name>)
    requires Layered(xs, triggers, order)
    ensures SiblingsAscending(Reverse(xs), triggers, order)
    ensures (forall n :: n in xs ==> n in triggers) ==> Sorted(Reverse(xs), order)
  {
    ReverseFacts(xs);
    var q := Reverse(xs);
    forall i, j | 0 <= i < j < |xs| && (q[j] !in triggers || q[i] in triggers)
      ensures Place(order, q[i]) < Place(order, q[j])
    {
      assert q[i] == xs[|xs| - 1 - i] && q[j] == xs[|xs| - 1 - j];
    }
  }

  /** A sibling in the queue is put in front of a trigger it comes after. */
  lemma SiblingUnsorts(xs: seq<Name>, triggers: seq<Name>, order: seq<Name>, n: Name)
    requires Layered(xs, triggers, order) && n in xs && n !in triggers
    ensures !Sorted(Reverse(xs), order)
  {
    ReverseFacts(xs);
    var j :| 0 <= j < |xs| && xs[j] == n;
    var i :| 0 <= i < j && xs[i] in triggers && Place(order, xs[i]) < Place(order, xs[j]);
    assert Reverse(xs)[|xs| - 1 - j] == xs[j] && Reverse(xs)[|xs| - 1 - i] == xs[i];
  }

  /** What is queued, once the queues ran dry. */
  lemma QueueOrder(toRestart: seq<Name>, triggers: seq<Name>, order: seq<Name>)
    requires Distinct(toRestart) && Layered(toRestart, triggers, order)
    ensures var q := Reverse(toRestart);
            && Distinct(q) && (forall n :: n in q <==> n in toRestart)
            && SiblingsAscending(q, triggers, order)
            && (Sorted(q, order) <==> forall n :: n in q ==> n in triggers)
  {
    ReverseFacts(toRestart);
    ReversedSiblings(toRestart, triggers, order);
    if n :| n in toRestart && n !in triggers {
      SiblingUnsorts(toRestart, triggers, order, n);
    }
  }

  lemma HandOffLaunches(s: State, toRestart: seq<Name>, toDrop: seq<Name>, q: seq<Name>)
    requires StopReady(s, [], toRestart, toDrop) && toRestart != []
    requires q == Reverse(toRestart) && Distinct(q) && forall n :: n in q <==> n in toRestart
    ensures q != []
    ensures var s' := AdvanceRestart(DropAll(s, toDrop), q).0;
            && StrongInv(s') && s'.cascade == Restarting(q[0], q[1..])
            && s'.roster.order == s.roster.order
            && (forall n :: n in s'.roster.kids <==> n in s.roster.kids && n !in toDrop)
            && (forall n :: n in q ==>
                  n in s'.roster.kids && s'.roster.kids[n].life == if n == q[0] then Starting else Dead)
            && (forall n :: n in s'.roster.kids && n !in q ==> s'.roster.kids[n] == s.roster.kids[n])
            && s'.history.triggers == s.history.triggers && s'.history.stopped == s.history.stopped
  {
    hide Sorted, DropAll, Reverse, Scope;
    ReverseFacts(toRestart);
    var dropped := DropAll(s, toDrop);
    DropAllFacts(s, toDrop);
    assert AllQueuedDead(q, dropped.roster.kids);
    LaunchFirst(dropped, q);
    AdvanceRestartGood(dropped, q);
  }

  /** The queues ran dry. */
  lemma HandOff(s: State, toRestart: seq<Name>, toDrop: seq<Name>)
    requires StopReady(s, [], toRestart, toDrop)
    requires Scope(s.roster, s.history, [], toRestart, toDrop)
    ensures HandedOff(s.roster, s.history, AdvanceRestart(DropAll(s, toDrop), Reverse(toRestart)).0)
    ensures StrongInv(AdvanceRestart(DropAll(s, toDrop), Reverse(toRestart)).0)
  {
    hide StopReady, Scope, InScope, Sorted, Layered, Descending, SiblingsAscending, Distinct, Reverse, StrongInv,
      AdvanceRestart, DropAll;
    var q := Reverse(toRestart);
    QueueIsScope(s, toRestart, toDrop);
    QueueOrder(toRestart, s.history.triggers, s.roster.order);
    HandOffLaunches(s, toRestart, toDrop, q);
    assert RestartQueue(Restarting(q[0], q[1..])) == q;
  }

  lemma QueueIsScope(s: State, toRestart: seq<Name>, toDrop: seq<Name>)
    requires StopReady(s, [], toRestart, toDrop)
    requires Scope(s.roster, s.history, [], toRestart, toDrop)
    ensures forall n :: n in toRestart <==> InScope(s.roster, s.history, n) && s.roster.kids[n].mode != Never
    ensures forall n :: n in toDrop <==> InScope(s.roster, s.history, n) && s.roster.kids[n].mode == Never
    ensures s.history.triggers != [] && toRestart != []
    ensures StopsRecorded(s.roster, s.history, s.history)
    ensures Layered(toRestart, s.history.triggers, s.roster.order) && Distinct(toRestart)
  {
    hide Layered, Distinct, Sorted;
    assert Lowest(s.history) in s.history.triggers;
  }

  /** Two states of one stop phase that differ only in what happened to children in scope. */
  ghost predicate SamePhase(s: State, s1: State) {
    && s.history.triggers != [] && s1.history.triggers == s.history.triggers
    && s1.roster.order == s.roster.order
    && s1.roster.kids.Keys == s.roster.kids.Keys
    && forall n :: n in s.roster.kids ==>
         && s1.roster.kids[n].mode == s.roster.kids[n].mode
         && (!InScope(s.roster, s.history, n) ==> s1.roster.kids[n] == s.roster.kids[n])
  }

  lemma SameScope(s: State, s1: State)
    requires SamePhase(s, s1)
    ensures forall n :: InScope(s1.roster, s1.history, n) <==> InScope(s.roster, s.history, n)
    ensures forall n :: InScope(s.roster, s.history, n) ==> n in s.roster.kids
  {
  }

  lemma HandedOffFromEarlier(s: State, s1: State, s': State)
    requires SamePhase(s, s1) && HandedOff(s1.roster, s1.history, s')
    ensures HandedOff(s.roster, s.history, s')
  {
    hide InScope, Sorted, Distinct, SiblingsAscending, Descending, RestartQueue;
    SameScope(s, s1);
    forall n | n in s.roster.kids ensures s1.roster.kids[n].mode == s.roster.kids[n].mode {}
  }

  /** The scope depends on who is here, not on how they are doing. */
  lemma ScopeCarries(
    r: Roster, h: History, r1: Roster, h1: History,
    pending: seq<Name>, toRestart: seq<Name>, toDrop: seq<Name>)
    requires Scope(r, h, pending, toRestart, toDrop)
    requires r1.order == r.order && r1.kids.Keys == r.kids.Keys
    requires h1.triggers == h.triggers && h1.stopped == h.stopped
    ensures Scope(r1, h1, pending, toRestart, toDrop)
  {
    forall n ensures InScope(r1, h1, n) <==> InScope(r, h, n) {}
  }

  lemma LastIsPlacedLast(pending: seq<Name>, order: seq<Name>)
    requires Sorted(pending, order) && pending != []
    ensures var next, rest := pending[|pending| - 1], pending[..|pending| - 1];
            && next in pending && (forall n :: n in rest <==> n in pending && n != next)
            && (forall n :: n in rest ==> Place(order, n) < Place(order, next))
  {
    var next, rest := pending[|pending| - 1], pending[..|pending| - 1];
    forall n ensures n in rest <==> n in pending && n != next { SortedInit(pending, order, n); }
    forall n | n in rest ensures Place(order, n) < Place(order, next) {
      var i :| 0 <= i < |rest| && rest[i] == n;
      SortedReflects(pending, order, i, |pending| - 1);
    }
  }

  /** Moving the last of the pending to the stopped keeps the scope. */
  lemma ScopePush(
    r: Roster, h: History, pending: seq<Name>, toRestart: seq<Name>, toDrop: seq<Name>, keep: bool)
    requires RosterOk(r) && Sorted(pending, r.order) && pending != []
    requires Disjoint(pending, toRestart) && Disjoint(pending, toDrop)
    requires Scope(r, h, pending, toRestart, toDrop)
    ensures var next, rest := pending[|pending| - 1], pending[..|pending| - 1];
            Scope(r, h.(stopped := h.stopped + [next]), rest,
                  if keep then toRestart + [next] else toRestart, if keep then toDrop else toDrop + [next])
  {
    var next, rest := pending[|pending| - 1], pending[..|pending| - 1];
    hide Sorted, Scope, Disjoint, RosterOk;
    LastIsPlacedLast(pending, r.order);
    NextIsFresh(r, h, pending, toRestart, toDrop, next);
    ScopePushed(r, h, pending, rest, toRestart, toDrop, next, keep);
  }

  lemma ScopePushed(r: Roster, h: History, pending: seq<Name>, rest: seq<Name>,
                    toRestart: seq<Name>, toDrop: seq<Name>, next: Name, keep: bool)
    requires RosterOk(r) && Scope(r, h, pending, toRestart, toDrop)
    requires next in pending && next !in toRestart && next !in toDrop && next !in h.triggers
    requires forall n :: n in rest <==> n in pending && n != next
    requires forall n :: n in rest ==> Place(r.order, n) < Place(r.order, next)
    ensures Scope(r, h.(stopped := h.stopped + [next]), rest,
                  if keep then toRestart + [next] else toRestart, if keep then toDrop else toDrop + [next])
  {
    hide InScope, RosterOk, Layered, Descending, AllBefore;
    PushOrders(r, h, pending, rest, next);
    var h' := h.(stopped := h.stopped + [next]);
    if keep { ScopeLayered(r, h, pending, toRestart, toDrop, next); }
    ScopeMembers(r, h, h', pending, rest, toRestart, toDrop, next, keep);
  }

  lemma ScopeMembers(r: Roster, h: History, h': History, pending: seq<Name>, rest: seq<Name>,
                     toRestart: seq<Name>, toDrop: seq<Name>, next: Name, keep: bool)
    requires h.triggers != [] && h' == h.(stopped := h.stopped + [next])
    requires forall n :: InScope(r, h, n) <==> n in pending || n in toRestart || n in toDrop
    requires forall n :: n in rest <==> n in pending && n != next
    requires next in pending && next !in toRestart && next !in toDrop && next !in h.triggers
    requires forall n :: n in h.stopped <==> n in toDrop || (n in toRestart && n !in h.triggers)
    ensures var toRestart' := if keep then toRestart + [next] else toRestart;
            var toDrop' := if keep then toDrop else toDrop + [next];
            && (forall n :: InScope(r, h', n) <==> n in rest || n in toRestart' || n in toDrop')
            && (forall n :: n in h'.stopped <==> n in toDrop' || (n in toRestart' && n !in h'.triggers))
            && (forall n :: n in toRestart ==> n in toRestart')
  {
    var toRestart' := if keep then toRestart + [next] else toRestart;
    var toDrop' := if keep then toDrop else toDrop + [next];
    forall n ensures InScope(r, h', n) <==> n in rest || n in toRestart' || n in toDrop' {
      assert InScope(r, h', n) <==> InScope(r, h, n);
    }
  }

  lemma NextIsFresh(
    r: Roster, h: History, pending: seq<Name>, toRestart: seq<Name>, toDrop: seq<Name>, next: Name)
    requires Disjoint(pending, toRestart) && Disjoint(pending, toDrop) && next in pending
    requires Scope(r, h, pending, toRestart, toDrop)
    ensures next !in toRestart && next !in toDrop && next !in h.triggers
  {
    hide InScope, Layered, Descending, AllBefore;
  }

  lemma PushOrders(r: Roster, h: History, pending: seq<Name>, rest: seq<Name>, next: Name)
    requires Descending(h.stopped, r.order) && AllBefore(pending, h.stopped, r.order)
    requires next in pending && forall n :: n in rest ==> n in pending && Place(r.order, n) < Place(r.order, next)
    ensures Descending(h.stopped + [next], r.order) && AllBefore(rest, h.stopped + [next], r.order)
    ensures forall n :: n in h.stopped + [next] <==> n in h.stopped || n == next
  {
  }

  lemma ScopeLayered(
    r: Roster, h: History, pending: seq<Name>, toRestart: seq<Name>, toDrop: seq<Name>, next: Name)
    requires RosterOk(r) && Scope(r, h, pending, toRestart, toDrop)
    requires next in pending && next !in h.triggers
    ensures Layered(toRestart + [next], h.triggers, r.order)
  {
    assert InScope(r, h, next) && Lowest(h) in h.triggers && InScope(r, h, Lowest(h));
    PlacesDiffer(r.order, Lowest(h), next);
    hide Layered, Descending;
    LayeredPush(toRestart, h.triggers, next, r.order, h.stopped);
  }

  lemma LayeredPush(xs: seq<Name>, triggers: seq<Name>, next: Name, order: seq<Name>, stopped: seq<Name>)
    requires Layered(xs, triggers, order) && next !in triggers
    requires forall n :: n in xs && n !in triggers ==> n in stopped
    requires forall n :: n in stopped ==> Place(order, next) < Place(order, n)
    requires exists n :: n in triggers && n in xs && Place(order, n) < Place(order, next)
    ensures Layered(xs + [next], triggers, order)
  {
    hide Place;
    var ys := xs + [next];
    var low :| low in triggers && low in xs && Place(order, low) < Place(order, next);
    var l :| 0 <= l < |xs| && xs[l] == low;
    forall i | 0 <= i < |xs| && xs[i] !in triggers ensures Place(order, next) < Place(order, xs[i]) {
      assert xs[i] in stopped;
    }
    forall j | 0 <= j < |ys| && ys[j] !in triggers
      ensures exists i :: 0 <= i < j && ys[i] in triggers && Place(order, ys[i]) < Place(order, ys[j])
    {
      if j < |xs| {
        assert ys[..|xs|] == xs;
        LayeredBelow(xs, triggers, order, j, ys);
      } else {
        assert ys[l] == low;
      }
    }
  }

  lemma LayeredBelow(xs: seq<Name>, triggers: seq<Name>, order: seq<Name>, j: nat, ys: seq<Name>)
    requires Layered(xs, triggers, order) && j < |xs| && xs[j] !in triggers
    requires |xs| <= |ys| && ys[..|xs|] == xs
    ensures ys[j] == xs[j]
    ensures exists i :: 0 <= i < j && ys[i] in triggers && Place(order, ys[i]) < Place(order, ys[j])
  {
    hide Place;
    var i :| 0 <= i < j && xs[i] in triggers && Place(order, xs[i]) < Place(order, xs[j]);
    assert ys[i] == ys[..|xs|][i] && ys[j] == ys[..|xs|][j];
  }

  lemma LayeredTrigger(xs: seq<Name>, triggers: seq<Name>, t: Name, order: seq<Name>)
    requires Layered(xs, triggers, order) && t !in xs
    requires forall n :: n in xs ==> Place(order, t) < Place(order, n)
    ensures Layered(xs + [t], triggers + [t], order)
  {
    var ys, ts := xs + [t], triggers + [t];
    forall i | 0 <= i < |xs| ensures ys[i] == xs[i] && (xs[i] in ts <==> xs[i] in triggers) {
      assert xs[i] in xs;
    }
    forall j | 0 <= j < |ys| && ys[j] !in ts
      ensures exists i :: 0 <= i < j && ys[i] in ts && Place(order, ys[i]) < Place(order, ys[j])
    {
      var i :| 0 <= i < j && xs[i] in triggers && Place(order, xs[i]) < Place(order, xs[j]);
      assert ys[i] == xs[i];
    }
  }

  lemma StopSamePhase(s: State, n: Name)
    requires s.history.triggers != [] && InScope(s.roster, s.history, n)
    ensures SamePhase(s, Stop(s, n).0)
    ensures Stop(s, n).0.history.stopped == s.history.stopped + [n]
  {
  }

  /** Telling the next child to stop keeps the scope. */
  lemma StopNextInScope(s: State, pending: seq<Name>, toRestart: seq<Name>, toDrop: seq<Name>)
    requires StopReady(s, pending, toRestart, toDrop) && pending != []
    requires Scope(s.roster, s.history, pending, toRestart, toDrop)
    ensures var next, rest := pending[|pending| - 1], pending[..|pending| - 1];
            && next in s.roster.kids && InScope(s.roster, s.history, next)
            && var s1 := Stop(s, next).0;
            && var keep := s.roster.kids[next].mode != Never;
            && SamePhase(s, s1)
            && Scope(s1.roster, s1.history, rest,
                     if keep then toRestart + [next] else toRestart, if keep then toDrop else toDrop + [next])
  {
    var next, rest := pending[|pending| - 1], pending[..|pending| - 1];
    assert next in pending;
    assert InScope(s.roster, s.history, next);
    StopSamePhase(s, next);
    var keep := s.roster.kids[next].mode != Never;
    ScopePush(s.roster, s.history, pending, toRestart, toDrop, keep);
    var s1 := Stop(s, next).0;
    ScopeCarries(s.roster, s.history.(stopped := s.history.stopped + [next]), s1.roster, s1.history, rest,
                 if keep then toRestart + [next] else toRestart, if keep then toDrop else toDrop + [next]);
  }

  /** How a stop loop ends: waiting for the next exit, handed off, or shutting down. */
  ghost predicate StopOutcomeStrong(s: State, s': State) {
    || s'.exiting
    || (s'.cascade.Exiting? && StrongInv(s') && SamePhase(s, s'))
    || (StrongInv(s') && HandedOff(s.roster, s.history, s'))
  }

  lemma ShutdownExits(s: State)
    ensures !s.cascade.Closing? ==> Shutdown(s).0.exiting
  {
    if !s.cascade.Closing? {
      AdvanceShutdownExits(s.(exiting := true, history := s.history.(triggers := [], stopped := [])),
                           Names(s.roster));
    }
  }

  lemma {:induction false} AdvanceShutdownExits(s: State, pending: seq<Name>)
    ensures AdvanceShutdown(s, pending).0.exiting == s.exiting
    decreases |pending|
  {
    if pending != [] {
      var next, rest := pending[|pending| - 1], pending[..|pending| - 1];
      if next in s.roster.kids {
        AdvanceShutdownExits(Stop(s, next).0, rest);
      } else {
        AdvanceShutdownExits(s, rest);
      }
    }
  }

  lemma SamePhaseTransitive(s: State, s1: State, s2: State)
    requires SamePhase(s, s1) && SamePhase(s1, s2)
    ensures SamePhase(s, s2)
  {
    forall n ensures InScope(s1.roster, s1.history, n) <==> InScope(s.roster, s.history, n) {}
  }

  lemma OutcomeFromEarlier(s: State, s1: State, s': State)
    requires SamePhase(s, s1) && StopOutcomeStrong(s1, s')
    ensures StopOutcomeStrong(s, s')
  {
    if !s'.exiting {
      if s'.cascade.Exiting? && StrongInv(s') && SamePhase(s1, s') {
        SamePhaseTransitive(s, s1, s');
      } else {
        HandedOffFromEarlier(s, s1, s');
      }
    }
  }

  lemma {:induction false} AdvanceStopInScope(
    s: State, pending: seq<Name>, toRestart: seq<Name>, toDrop: seq<Name>, now: int)
    requires StopReady(s, pending, toRestart, toDrop)
    requires Scope(s.roster, s.history, pending, toRestart, toDrop)
    ensures StopOutcomeStrong(s, AdvanceStop(s, pending, toRestart, toDrop, now).0)
    decreases |pending|, 1
  {
    hide Scope, StopReady, SamePhase, HandedOff, StrongInv;
    if pending == [] {
      HandOff(s, toRestart, toDrop);
    } else {
      var next := pending[|pending| - 1];
      PermittedKeepsScope(s, next, now, pending, toRestart, toDrop);
      if s.roster.kids[next].mode == Never {
        StopOneInScope(s, pending, toRestart, toDrop, now);
      } else {
        var (s1, granted) := Permitted(s, next, now);
        if !granted {
          ShutdownExits(s1);
        } else {
          StopOneInScope(s1, pending, toRestart, toDrop, now);
          OutcomeFromEarlier(s, s1, AdvanceStop(s, pending, toRestart, toDrop, now).0);
        }
      }
    }
  }

  lemma PermittedKeepsScope(
    s: State, n: Name, now: int, pending: seq<Name>, toRestart: seq<Name>, toDrop: seq<Name>)
    requires StopReady(s, pending, toRestart, toDrop)
    requires Scope(s.roster, s.history, pending, toRestart, toDrop) && n in pending
    ensures n in s.roster.kids
    ensures var s1 := Permitted(s, n, now).0;
            && SamePhase(s, s1) && StopReady(s1, pending, toRestart, toDrop) && !s1.cascade.Closing?
            && Scope(s1.roster, s1.history, pending, toRestart, toDrop)
  {
    var s1 := Permitted(s, n, now).0;
    forall m ensures InScope(s1.roster, s1.history, m) <==> InScope(s.roster, s.history, m) {}
  }

  /** What the stop loop does from a child that was told to stop. */
  ghost function AfterStop(
    s: State, pending: seq<Name>, toRestart: seq<Name>, toDrop: seq<Name>, now: int): (State, Flow)
    requires pending != [] && pending[|pending| - 1] in s.roster.kids
  {
    var next, rest := pending[|pending| - 1], pending[..|pending| - 1];
    var keep := s.roster.kids[next].mode != Never;
    var toRestart' := if keep then toRestart + [next] else toRestart;
    var toDrop' := if keep then toDrop else toDrop + [next];
    var (s1, stopping) := Stop(s, next);
    if stopping then (s1.(cascade := Exiting(next, rest, toRestart', toDrop')), Continue)
    else AdvanceStop(s1, rest, toRestart', toDrop', now)
  }

  lemma StopOneInScope(s: State, pending: seq<Name>, toRestart: seq<Name>, toDrop: seq<Name>, now: int)
    requires StopReady(s, pending, toRestart, toDrop) && pending != []
    requires Scope(s.roster, s.history, pending, toRestart, toDrop)
    ensures pending[|pending| - 1] in s.roster.kids
    ensures StopOutcomeStrong(s, AfterStop(s, pending, toRestart, toDrop, now).0)
    decreases |pending|, 0
  {
    StopNext(s, pending, toRestart, toDrop);
    StopNextInScope(s, pending, toRestart, toDrop);
    var next, rest := pending[|pending| - 1], pending[..|pending| - 1];
    var keep := s.roster.kids[next].mode != Never;
    var toRestart' := if keep then toRestart + [next] else toRestart;
    var toDrop' := if keep then toDrop else toDrop + [next];
    var (s1, stopping) := Stop(s, next);
    StopSamePhase(s, next);
    if stopping {
      WaitingIsStrong(s, s1, next, rest, toRestart', toDrop');
    } else {
      hide Scope, StopReady, SamePhase, HandedOff, StrongInv;
      AdvanceStopInScope(s1, rest, toRestart', toDrop', now);
      OutcomeFromEarlier(s, s1, AfterStop(s, pending, toRestart, toDrop, now).0);
    }
  }

  lemma WaitingIsStrong(s: State, s1: State, next: Name, rest: seq<Name>, toRestart: seq<Name>, toDrop: seq<Name>)
    requires Inv(s1.(cascade := Exiting(next, rest, toRestart, toDrop))) && SamePhase(s, s1)
    requires Scope(s1.roster, s1.history, rest, toRestart, toDrop)
    requires s1.history.stopped == s.history.stopped + [next]
    ensures StopOutcomeStrong(s, s1.(cascade := Exiting(next, rest, toRestart, toDrop)))
  {
  }

  // ----- Every step -----

  lemma StartCascadeStrong(s: State, trigger: Name, now: int)
    requires RosterOk(s.roster) && !s.exiting && s.cascade.Idle? && NoneStopping(s.roster.kids)
    requires trigger in s.roster.kids && s.roster.kids[trigger].life == Dead
    requires s.roster.kids[trigger].mode != Never
    ensures var s' := StartCascade(s, trigger, now).0;
            StopOutcomeStrong(s.(history := s.history.(triggers := [trigger], stopped := [])), s')
  {
    TailIsAfter(s.roster, trigger);
    var pending := Tail(s.roster, trigger);
    var s0 := s.(history := s.history.(triggers := [trigger], stopped := []));
    forall n ensures InScope(s0.roster, s0.history, n) <==> n in pending || n == trigger {
      if n in s.roster.kids && n != trigger { PlacesDiffer(s.roster.order, n, trigger); }
    }
    hide Tail, Names;
    assert StopReady(s0, pending, [trigger], []);
    assert Scope(s0.roster, s0.history, pending, [trigger], []);
    AdvanceStopInScope(s0, pending, [trigger], [], now);
  }

  /** A merge widens the scope down to the new trigger, which came before all of it. */
  lemma MergeStrong(s: State, trigger: Name)
    requires StrongInv(s) && s.cascade.Exiting?
    requires trigger in s.roster.kids && s.roster.kids[trigger].life == Dead
    requires s.roster.kids[trigger].mode != Never
    requires trigger != s.cascade.current && trigger !in s.cascade.pending
    requires trigger !in s.cascade.toRestart && trigger !in s.cascade.toDrop
    ensures Place(s.roster.order, trigger) < Place(s.roster.order, Lowest(s.history))
    ensures MergeIntoStopping(s, trigger).1.Continue?
    ensures var s' := MergeIntoStopping(s, trigger).0;
            StrongInv(s') && s'.cascade.Exiting? && Lowest(s'.history) == trigger && s'.roster == s.roster
  {
    var r, h, c := s.roster, s.history, s.cascade;
    hide Scope, Inv, Collected, Names, InOrder, Between;
    OutOfScope(s, trigger);
    MergeGood(s, trigger);
    CollectedFacts(s, trigger);
    var all := Names(r);
    var collected := Collected(all, trigger, c);
    InOrderFacts(r, collected);
    MergedScope(s, trigger, InOrder(all, collected));
  }

  lemma OutOfScope(s: State, trigger: Name)
    requires StrongInv(s) && s.cascade.Exiting?
    requires trigger in s.roster.kids && trigger !in s.cascade.pending
    requires trigger !in s.cascade.toRestart && trigger !in s.cascade.toDrop
    ensures s.history.triggers != [] && !InScope(s.roster, s.history, trigger)
    ensures Place(s.roster.order, trigger) < Place(s.roster.order, Lowest(s.history))
    ensures RosterOk(s.roster) && s.cascade.current in s.roster.kids && Known(s.cascade.pending, s.roster.kids)
    ensures s.history.stopped != [] && s.history.stopped[|s.history.stopped| - 1] == s.cascade.current
  {
    hide Layered, Descending, AllBefore;
  }

  lemma MergedScope(s: State, trigger: Name, pending: seq<Name>)
    requires StrongInv(s) && s.cascade.Exiting?
    requires trigger in s.roster.kids && !InScope(s.roster, s.history, trigger)
    requires forall n :: n in pending <==>
               n in s.cascade.pending ||
               (&& n in s.roster.kids && n !in s.cascade.toRestart + s.cascade.toDrop
                && Between(s.roster.order, trigger, s.cascade.current, n))
    ensures Scope(s.roster, s.history.(triggers := s.history.triggers + [trigger]), pending,
                  s.cascade.toRestart + [trigger], s.cascade.toDrop)
  {
    hide StrongInv, Inv, InScope, Layered, Descending, AllBefore, Between;
    MergedMembers(s, trigger, pending);
    MergedOrders(s, trigger, pending);
    ScopeOf(s);
    TriggerIsNew(s.history, s.cascade, trigger);
  }

  lemma ScopeOf(s: State)
    requires StrongInv(s) && s.cascade.Exiting?
    ensures Scope(s.roster, s.history, s.cascade.pending, s.cascade.toRestart, s.cascade.toDrop)
  {
    hide Scope, Inv;
  }

  lemma TriggerIsNew(h: History, c: Cascade, t: Name)
    requires c.Exiting? && t !in h.stopped
    requires forall n :: n in h.triggers ==> n in c.toRestart
    requires forall n :: n in h.stopped <==> n in c.toDrop || (n in c.toRestart && n !in h.triggers)
    ensures forall n :: n in h.triggers + [t] ==> n in c.toRestart + [t]
    ensures forall n :: n in h.stopped <==> n in c.toDrop || (n in c.toRestart + [t] && n !in h.triggers + [t])
  {
    forall n ensures n in h.triggers + [t] <==> n in h.triggers || n == t {}
    forall n ensures n in c.toRestart + [t] <==> n in c.toRestart || n == t {}
  }

  /** The orders a scope keeps, once the new trigger is added below all of it. */
  lemma MergedOrders(s: State, trigger: Name, pending: seq<Name>)
    requires StrongInv(s) && s.cascade.Exiting?
    requires trigger in s.roster.kids && !InScope(s.roster, s.history, trigger)
    requires forall n :: n in pending ==> Place(s.roster.order, n) < Place(s.roster.order, s.cascade.current)
    ensures s.history.triggers != [] && trigger !in s.history.stopped
    ensures Descending(s.history.triggers + [trigger], s.roster.order)
    ensures AllBefore(pending, s.history.stopped, s.roster.order)
    ensures Layered(s.cascade.toRestart + [trigger], s.history.triggers + [trigger], s.roster.order)
  {
    hide Inv, Layered;
    var r, h, c := s.roster, s.history, s.cascade;
    LowestIsLeast(r, h);
    forall n | n in h.stopped ensures Place(r.order, c.current) <= Place(r.order, n) {
      var i :| 0 <= i < |h.stopped| && h.stopped[i] == n;
    }
    LowestBelowQueue(r, h, c.toRestart, trigger);
    LayeredTrigger(c.toRestart, h.triggers, trigger, r.order);
  }

  lemma LowestBelowQueue(r: Roster, h: History, xs: seq<Name>, trigger: Name)
    requires h.triggers != [] && trigger in r.kids && !InScope(r, h, trigger)
    requires forall n :: n in xs ==> InScope(r, h, n)
    ensures forall n :: n in xs ==> Place(r.order, trigger) < Place(r.order, n)
  {
  }

  lemma LowestIsLeast(r: Roster, h: History)
    requires h.triggers != [] && Descending(h.triggers, r.order)
    ensures forall n :: n in h.triggers ==> Place(r.order, Lowest(h)) <= Place(r.order, n)
  {
    forall n | n in h.triggers ensures Place(r.order, Lowest(h)) <= Place(r.order, n) {
      var i :| 0 <= i < |h.triggers| && h.triggers[i] == n;
    }
  }

  /** The widened scope holds just the merged pending names and the settled ones. */
  lemma MergedMembers(s: State, trigger: Name, pending: seq<Name>)
    requires StrongInv(s) && s.cascade.Exiting?
    requires trigger in s.roster.kids && !InScope(s.roster, s.history, trigger)
    requires forall n :: n in pending <==>
               n in s.cascade.pending ||
               (&& n in s.roster.kids && n !in s.cascade.toRestart + s.cascade.toDrop
                && Between(s.roster.order, trigger, s.cascade.current, n))
    ensures var h' := s.history.(triggers := s.history.triggers + [trigger]);
            forall n :: InScope(s.roster, h', n) <==>
              n in pending || n in s.cascade.toRestart + [trigger] || n in s.cascade.toDrop
    ensures forall n :: n in pending ==> Place(s.roster.order, n) < Place(s.roster.order, s.cascade.current)
  {
    var r, h, c := s.roster, s.history, s.cascade;
    var h' := h.(triggers := h.triggers + [trigger]);
    assert c.current in h.stopped && InScope(r, h, c.current);
    forall n ensures InScope(r, h', n) <==> n in pending || n in c.toRestart + [trigger] || n in c.toDrop {
      if n in r.kids {
        if Place(r.order, n) == Place(r.order, trigger) { PlaceInjective(r.order, n, trigger); }
        if Place(r.order, n) == Place(r.order, c.current) { PlaceInjective(r.order, n, c.current); }
        assert InScope(r, h, n) <==> n in c.pending || n in c.toRestart || n in c.toDrop;
      }
    }
  }

  ghost predicate StrongOutcome(result: (State, Flow)) {
    match result.1
    case Continue => StrongInv(result.0)
    case Break => AllDead(result.0.roster.kids)
    case Panic => false
  }

  /** The queues when the exit of `n` is handled. */
  ghost predicate ExitReadyStrong(s: State, n: Name) {
    && ExitReady(s, n)
    && (s.cascade.Exiting? ==>
          && Scope(s.roster, s.history, s.cascade.pending, s.cascade.toRestart, s.cascade.toDrop)
          && s.history.stopped != [] && s.history.stopped[|s.history.stopped| - 1] == s.cascade.current)
    && (s.cascade.Restarting? ==> AllQueuedDead(s.cascade.pending, s.roster.kids) && n !in s.cascade.pending)
  }

  lemma PollStrong(s: State, n: Name, ready: Ready)
    requires StrongInv(s)
    ensures var (r, item) := PollKid(s.roster, n, ready);
            item.Some? && ReasonOf(item.value).Some? ==>
              ExitReadyStrong(Settle(s.(roster := r), n), n)
  {
    hide Inv, ExitReady, Scope, PollLife;
    var (r, item) := PollKid(s.roster, n, ready);
    if item.Some? && ReasonOf(item.value).Some? {
      PollGood(s, n, ready);
      var s1 := Settle(s.(roster := r), n);
      if s.cascade.Exiting? {
        ScopeCarries(s.roster, s.history, r, s1.history,
                     s.cascade.pending, s.cascade.toRestart, s.cascade.toDrop);
      } else if s.cascade.Restarting? {
        QueuedStayDead(s, n, ready);
      }
    }
  }

  /** A queued child is dead and reports nothing. */
  lemma QueuedStayDead(s: State, n: Name, ready: Ready)
    requires s.cascade.Restarting? && AllQueuedDead(s.cascade.pending, s.roster.kids)
    requires PollKid(s.roster, n, ready).1.Some?
    ensures n !in s.cascade.pending && AllQueuedDead(s.cascade.pending, PollKid(s.roster, n, ready).0.kids)
  {
  }

  /** The child being waited for has exited: the loop goes on from there. */
  lemma AdvanceStopPhase(s: State, n: Name, now: int)
    requires ExitReadyStrong(s, n) && s.cascade.Exiting? && s.cascade.current == n
    ensures StopOutcomeStrong(s, AdvanceCascade(s, now).0)
    ensures StrongOutcome(AdvanceCascade(s, now))
  {
    AdvanceCascadeGood(s, n, now);
    AdvanceStopFrom(s.(cascade := Idle), s.cascade.pending, s.cascade.toRestart, s.cascade.toDrop, now);
    hide Scope, StopReady, HandedOff, ExitReady, ExitReadyStrong, Good, Inv, StrongInv;
    OutcomeIgnoresCascade(s, AdvanceCascade(s, now).0);
    GoodIsStrong(s, AdvanceCascade(s, now));
  }

  lemma OutcomeIgnoresCascade(s: State, s': State)
    requires StopOutcomeStrong(s.(cascade := Idle), s')
    ensures StopOutcomeStrong(s, s')
  {
    hide HandedOff, StrongInv;
  }

  lemma AdvanceStopFrom(s: State, pending: seq<Name>, toRestart: seq<Name>, toDrop: seq<Name>, now: int)
    requires s.cascade.Idle? && RosterOk(s.roster) && !s.exiting && NoneStopping(s.roster.kids)
    requires StopQueues(s.roster, None, pending, toRestart, toDrop)
    requires Scope(s.roster, s.history, pending, toRestart, toDrop)
    ensures StopOutcomeStrong(s, AdvanceStop(s, pending, toRestart, toDrop, now).0)
  {
    hide Scope, StopQueues, StopOutcomeStrong;
    AdvanceStopInScope(s, pending, toRestart, toDrop, now);
  }

  lemma GoodIsStrong(s: State, result: (State, Flow))
    requires Good(result) && StopOutcomeStrong(s, result.0)
    ensures StrongOutcome(result)
  {
  }

  lemma HandleExitStrong(s: State, n: Name, reason: ExitReason, now: int)
    requires ExitReadyStrong(s, n)
    requires s.cascade.Restarting? && s.cascade.current == n ==> !reason.ExitOf?
    ensures StrongOutcome(HandleExit(s, n, reason, now))
  {
    HandleExitGood(s, n, reason, now);
    if CurrentOf(s.cascade) == Some(n) {
      HandleCurrentExitStrong(s, n, reason, now);
    } else if PendingContains(s.cascade, n) {
    } else if !RequiresRestart(s.roster.kids[n].mode, reason) {
      if s.cascade.Exiting? { DropOutsideScope(s, n); }
    } else {
      var (restarter, shared) := Permit(s.restarter, now);
      var s1 := s.(restarter := restarter);
      if !shared {
        ShutdownGood(s1);
      } else {
        var (s2, own) := Permitted(s1, n, now);
        if !own {
          ShutdownGood(s2);
        } else {
          TriggerStrong(s, s2, n, reason, now);
        }
      }
    }
  }

  /** Both budgets allow it, so `n` triggers a cascade, or joins the one there is. */
  lemma TriggerStrong(s: State, s2: State, n: Name, reason: ExitReason, now: int)
    requires ExitReadyStrong(s, n) && CurrentOf(s.cascade) != Some(n) && !PendingContains(s.cascade, n)
    requires RequiresRestart(s.roster.kids[n].mode, reason) && Permit(s.restarter, now).1
    requires Permitted(s.(restarter := Permit(s.restarter, now).0), n, now) == (s2, true)
    requires Good(HandleExit(s, n, reason, now))
    ensures StrongOutcome(HandleExit(s, n, reason, now))
  {
    if s.cascade.Exiting? {
      BudgetKeepsStrong(s, s2, n, now);
      assert HandleExit(s, n, reason, now) == MergeIntoStopping(s2, n);
      assert n !in s.cascade.toRestart && n !in s.cascade.toDrop;
      hide Scope, Inv, StrongInv, ExitReadyStrong, ExitReady, MergeIntoStopping, HandleExit, Good;
      MergeStrong(s2, n);
    } else if !s.cascade.Closing? {
      var idle := s2.(cascade := Idle);
      assert HandleExit(s, n, reason, now) == StartCascade(idle, n, now);
      hide Scope, StrongInv, StartCascade, HandleExit;
      StartCascadeStrong(idle, n, now);
      GoodIsStrong(idle.(history := idle.history.(triggers := [n], stopped := [])),
                   StartCascade(idle, n, now));
    }
  }

  lemma BudgetKeepsStrong(s: State, s2: State, n: Name, now: int)
    requires ExitReadyStrong(s, n) && s.cascade.Exiting? && s.cascade.current != n
    requires Permitted(s.(restarter := Permit(s.restarter, now).0), n, now).0 == s2
    ensures StrongInv(s2)
    ensures s2.cascade == s.cascade && n in s2.roster.kids
    ensures s2.roster.kids[n].life == Dead && s2.roster.kids[n].mode == s.roster.kids[n].mode
  {
    hide Scope;
    ScopeCarries(s.roster, s.history, s2.roster, s2.history,
                 s.cascade.pending, s.cascade.toRestart, s.cascade.toDrop);
  }

  lemma HandleCurrentExitStrong(s: State, n: Name, reason: ExitReason, now: int)
    requires ExitReadyStrong(s, n) && CurrentOf(s.cascade) == Some(n)
    requires s.cascade.Restarting? ==> !reason.ExitOf?
    ensures StrongOutcome(HandleCurrentExit(s, n, reason, now))
  {
    HandleCurrentExitGood(s, n, reason, now);
    if s.cascade.Exiting? {
      AdvanceStopPhase(s, n, now);
    } else if s.cascade.Closing? {
      ShutdownStays(s, now);
    } else if !RequiresRestart(s.roster.kids[n].mode, reason) {
      LaunchFirst(Drop(s, n).(cascade := Idle), s.cascade.pending);
    } else {
      var (s1, granted) := Permitted(s, n, now);
      if !granted { ShutdownGood(s1); }
    }
  }

  lemma ShutdownStays(s: State, now: int)
    requires s.cascade.Closing? && s.exiting
    ensures AdvanceCascade(s, now).0.exiting
  {
    AdvanceShutdownExits(s.(cascade := Idle), s.cascade.pending);
  }

  /** A child outside the scope leaves. */
  lemma DropOutsideScope(s: State, n: Name)
    requires StrongInv(s) && s.cascade.Exiting?
    requires n !in s.cascade.pending && n !in s.cascade.toRestart && n !in s.cascade.toDrop
    ensures var s1 := Drop(s, n);
            Scope(s1.roster, s1.history, s.cascade.pending, s.cascade.toRestart, s.cascade.toDrop)
  {
    var s1 := Drop(s, n);
    assert !InScope(s.roster, s.history, n);
    forall m ensures InScope(s1.roster, s1.history, m) <==> InScope(s.roster, s.history, m) {}
  }

  /** Main result, one step: in every stop phase the queues hold exactly the children placed
      at or after the lowest trigger, and every restart queue holds only dead children. */
  lemma StepStrong(s: State, e: TimedEvent)
    requires StrongInv(s) && Undisturbed(s, e)
    ensures StrongOutcome(Step(s, e))
  {
    StepGood(s, e);
    match e.event {
      case Signal(isShutdown) => if isShutdown { ShutdownGood(s); }
      case Register(name, mode, intensity) =>
      case Deregister(name) =>
      case Poll(n, ready) =>
        var (r, item) := PollKid(s.roster, n, ready);
        if item.Some? {
          PollGood(s, n, ready);
          PollStrong(s, n, ready);
          if ReasonOf(item.value).Some? {
            HandleExitStrong(Settle(s.(roster := r), n), n, ReasonOf(item.value).value, e.now);
          } else {
            PollSuccessStrong(s, n, ready, e.now);
          }
        }
    }
  }

  lemma PollSuccessStrong(s: State, n: Name, ready: Ready, now: int)
    requires StrongInv(s)
    requires var (r, item) := PollKid(s.roster, n, ready); item.Some? && ReasonOf(item.value).None?
    ensures var (r, item) := PollKid(s.roster, n, ready);
            && (item.value.Started? ==> StrongInv(s.(roster := r)))
            && (item.value.Initialized? ==> StrongOutcome(AfterInitialized(Settle(s.(roster := r), n), n, now)))
  {
    hide Scope, Inv, AllQueuedDead;
    PollSuccessGood(s, n, ready, now);
    if s.cascade.Exiting? {
      StoppingMakesNoSuccess(s, n, ready);
      SuccessWhileStopping(s, n, ready, now);
    } else if s.cascade.Restarting? {
      SuccessWhileRestarting(s, n, ready, now);
    } else {
      StoppingMakesNoSuccess(s, n, ready);
    }
  }

  /** A child that is shutting down does not report success. */
  lemma StoppingMakesNoSuccess(s: State, n: Name, ready: Ready)
    requires Inv(s) && !s.cascade.Restarting?
    requires var (_, item) := PollKid(s.roster, n, ready); item.Some? && ReasonOf(item.value).None?
    ensures CurrentOf(s.cascade) != Some(n)
  {
    hide Covered, StopQueues, RosterOk;
  }

  lemma SuccessWhileStopping(s: State, n: Name, ready: Ready, now: int)
    requires StrongInv(s) && s.cascade.Exiting? && CurrentOf(s.cascade) != Some(n)
    requires var (r, item) := PollKid(s.roster, n, ready); item.Some? && ReasonOf(item.value).None?
    ensures var r := PollKid(s.roster, n, ready).0;
            && (Inv(s.(roster := r)) ==> StrongInv(s.(roster := r)))
            && (Inv(Settle(s.(roster := r), n)) ==> StrongInv(Settle(s.(roster := r), n)))
  {
    hide Scope, Inv;
    var r := PollKid(s.roster, n, ready).0;
    var s1 := s.(roster := r);
    ScopeCarries(s.roster, s.history, r, Settle(s1, n).history,
                 s.cascade.pending, s.cascade.toRestart, s.cascade.toDrop);
    ScopeCarries(s.roster, s.history, r, s1.history,
                 s.cascade.pending, s.cascade.toRestart, s.cascade.toDrop);
  }

  lemma SuccessWhileRestarting(s: State, n: Name, ready: Ready, now: int)
    requires StrongInv(s) && s.cascade.Restarting?
    requires var (r, item) := PollKid(s.roster, n, ready); item.Some? && ReasonOf(item.value).None?
    requires var (r, item) := PollKid(s.roster, n, ready);
             && (item.value.Started? ==> Inv(s.(roster := r)))
             && (item.value.Initialized? ==> Good(AfterInitialized(Settle(s.(roster := r), n), n, now)))
    ensures var (r, item) := PollKid(s.roster, n, ready);
            && (item.value.Started? ==> StrongInv(s.(roster := r)))
            && (item.value.Initialized? ==> StrongOutcome(AfterInitialized(Settle(s.(roster := r), n), n, now)))
  {
    hide Inv, Scope, AdvanceRestart;
    var (r, item) := PollKid(s.roster, n, ready);
    var s1 := s.(roster := r);
    assert AllQueuedDead(s.cascade.pending, r.kids);
    if item.value.Initialized? && s.cascade.current == n {
      LaunchFirst(Settle(s1, n).(cascade := Idle), s.cascade.pending);
      AdvanceRestartLeavesStop(Settle(s1, n).(cascade := Idle), s.cascade.pending);
      QueueDistinct(s);
    }
  }

  lemma QueueDistinct(s: State)
    requires Inv(s) && s.cascade.Restarting?
    ensures Distinct(s.cascade.pending)
  {
  }

  lemma {:induction false} AdvanceRestartLeavesStop(s: State, pending: seq<Name>)
    ensures !AdvanceRestart(s, pending).0.cascade.Exiting? && !AdvanceRestart(s, pending).0.cascade.Closing?
    decreases |pending|
  {
    if pending != [] {
      if pending[0] in s.roster.kids {
        AdvanceRestartLeavesStop(Launch(s, pending[0]).0, pending[1..]);
      } else {
        AdvanceRestartLeavesStop(s, pending[1..]);
      }
    }
  }

  ghost predicate UndisturbedRun(s: State, events: seq<TimedEvent>)
    decreases |events|
  {
    events != [] ==>
      && Undisturbed(s, events[0])
      && (Step(s, events[0]).1.Continue? ==> UndisturbedRun(Step(s, events[0]).0, events[1..]))
  }

  lemma {:induction false} RunStrong(s: State, events: seq<TimedEvent>)
    requires StrongInv(s) && UndisturbedRun(s, events)
    ensures StrongOutcome(Run(s, events))
    decreases |events|
  {
    if events != [] {
      StepStrong(s, events[0]);
      if Step(s, events[0]).1.Continue? { RunStrong(Step(s, events[0]).0, events[1..]); }
    }
  }

  /** Main result, whole runs: wherever an undisturbed run is in the midst of stopping
      siblings, the three queues hold, without duplicates and without overlap, exactly the
      children placed at or after the lowest trigger. The pending ones are in order and come
      before the one being waited for, which alone is shutting down; all that come after
      that one are dead. */
  lemma StopPhaseShape(specs: seq<ChildSpec>, intensity: Intensity, events: seq<TimedEvent>)
    requires UndisturbedRun(Initial(specs, intensity), events)
    ensures var s := Run(Initial(specs, intensity), events).0;
            s.cascade.Exiting? && Run(Initial(specs, intensity), events).1.Continue? ==>
              && var c := s.cascade;
              && var order := s.roster.order;
              && s.history.triggers != []
              && Distinct(c.pending + c.toRestart + c.toDrop)
              && (forall n :: n in c.pending + c.toRestart + c.toDrop <==>
                    n in s.roster.kids && Place(order, Lowest(s.history)) <= Place(order, n))
              && Sorted(c.pending, order)
              && (forall n :: n in c.pending ==> Place(order, n) < Place(order, c.current))
              && (forall n :: n in s.roster.kids && Place(order, c.current) < Place(order, n) ==>
                    s.roster.kids[n].life == Dead)
              && OnlyStopping(s.roster.kids, c.current)
              && Descending(s.history.stopped, order)
              && (forall n :: n in s.history.stopped ==> Place(order, Lowest(s.history)) < Place(order, n))
  {
    InitialGood(specs, intensity);
    RunStrong(Initial(specs, intensity), events);
    var (s, flow) := Run(Initial(specs, intensity), events);
    if s.cascade.Exiting? && flow.Continue? { ShapeOf(s); }
  }

  lemma DistinctConcat(xs: seq<Name>, ys: seq<Name>)
    requires Distinct(xs) && Distinct(ys) && forall n :: n in xs ==> n !in ys
    ensures Distinct(xs + ys)
  {
    var zs := xs + ys;
    forall i, j | 0 <= i < j < |zs| ensures zs[i] != zs[j] {
      if i < |xs| <= j { assert zs[i] in xs && zs[j] in ys; }
    }
  }

  lemma ShapeOf(s: State)
    requires StrongInv(s) && s.cascade.Exiting?
    ensures var c := s.cascade;
            && Distinct(c.pending + c.toRestart + c.toDrop)
            && (forall n :: n in c.pending + c.toRestart + c.toDrop <==> InScope(s.roster, s.history, n))
            && (forall n :: n in c.pending ==> Place(s.roster.order, n) < Place(s.roster.order, c.current))
            && (forall n :: n in s.roster.kids && Place(s.roster.order, c.current) < Place(s.roster.order, n) ==>
                  s.roster.kids[n].life == Dead)
            && (forall n :: n in s.history.stopped ==> Place(s.roster.order, Lowest(s.history)) < Place(s.roster.order, n))
  {
    QueuesApart(s);
    hide Distinct, Sorted, Descending, Layered;
    var c, order := s.cascade, s.roster.order;
    assert c.current in s.history.stopped;
    forall n | n in c.pending ensures Place(order, n) < Place(order, c.current) {}
    assert InScope(s.roster, s.history, c.current);
    assert InScope(s.roster, s.history, Lowest(s.history));
    forall n | n in s.history.stopped
      ensures Place(order, Lowest(s.history)) < Place(order, n)
    {
      assert InScope(s.roster, s.history, n);
      if n == Lowest(s.history) { TriggerNotStopped(s, n); }
      PlacesDiffer(order, Lowest(s.history), n);
    }
  }

  lemma QueuesApart(s: State)
    requires StrongInv(s) && s.cascade.Exiting?
    ensures Distinct(s.cascade.pending + s.cascade.toRestart + s.cascade.toDrop)
  {
    var c := s.cascade;
    SettledApart(c.toRestart, c.toDrop, s.roster.kids);
    SortedIsDistinct(c.pending, s.roster.order);
    hide Distinct, Sorted, Scope;
    DistinctConcat(c.pending, c.toRestart);
    DistinctConcat(c.pending + c.toRestart, c.toDrop);
  }

  lemma SettledApart(toRestart: seq<Name>, toDrop: seq<Name>, kids: Kids)
    requires SplitByMode(toRestart, toDrop, kids)
    ensures forall n :: n in toRestart ==> n !in toDrop
  {
  }

  /** A trigger had exited by itself: it was not told to stop. */
  lemma TriggerNotStopped(s: State, n: Name)
    requires StrongInv(s) && s.cascade.Exiting? && n in s.history.triggers
    ensures n !in s.history.stopped
  {
    var c := s.cascade;
    assert n in c.toRestart && s.roster.kids[n].mode != Never;
  }

  lemma CurrentIsStopping(s: State)
    requires StrongInv(s) && s.cascade.Exiting?
    ensures s.cascade.current in s.roster.kids && s.roster.kids[s.cascade.current].life == ShuttingDown
  {
    hide Scope;
  }

  lemma ExitOfCurrentAdvances(s: State, n: Name, reason: ExitReason, now: int)
    requires CurrentOf(s.cascade) == Some(n) && !s.cascade.Restarting?
    ensures HandleExit(s, n, reason, now) == AdvanceCascade(s, now)
  {
    hide AdvanceCascade;
  }

  lemma CurrentExitHandsOff(s: State, ready: Ready, now: int)
    requires StrongInv(s) && s.cascade.Exiting?
    requires PollKid(s.roster, s.cascade.current, ready).1.Some?
    requires ReasonOf(PollKid(s.roster, s.cascade.current, ready).1.value).Some?
    ensures var s1 := Settle(s.(roster := PollKid(s.roster, s.cascade.current, ready).0), s.cascade.current);
            var s' := AdvanceCascade(s1, now).0;
            s'.cascade.Exiting? || s'.exiting || HandedOff(s.roster, s.history, s')
  {
    var n := s.cascade.current;
    PollStrong(s, n, ready);
    ExitIsSamePhase(s, n, ready);
    hide StrongInv, SamePhase, HandedOff, ExitReadyStrong;
    var s1 := Settle(s.(roster := PollKid(s.roster, n, ready).0), n);
    AdvanceStopPhase(s1, n, now);
    var s' := AdvanceCascade(s1, now).0;
    hide AdvanceCascade;
    if HandedOff(s1.roster, s1.history, s') {
      HandedOffFromEarlier(s, s1, s');
    }
  }

  /** Main result: the step that ends a stop phase, if it does not shut the supervisor down,
      hands every child in scope over to the restart phase exactly once or drops it. */
  lemma StopPhaseHandsOff(s: State, e: TimedEvent)
    requires StrongInv(s) && s.cascade.Exiting? && Undisturbed(s, e)
    ensures var s' := Step(s, e).0;
            s'.cascade.Exiting? || s'.exiting || HandedOff(s.roster, s.history, s')
  {
    hide StrongInv, HandedOff, ExitReadyStrong, HandleExit, AdvanceCascade, Shutdown, Names;
    CurrentIsStopping(s);
    match e.event {
      case Signal(_) => ShutdownExits(s);
      case Poll(n, ready) =>
        var (r, item) := PollKid(s.roster, n, ready);
        if item.Some? && ReasonOf(item.value).Some? {
          var s1 := Settle(s.(roster := r), n);
          if n == s.cascade.current {
            ExitOfCurrentAdvances(s1, n, ReasonOf(item.value).value, e.now);
            CurrentExitHandsOff(s, ready, e.now);
          } else {
            PollStrong(s, n, ready);
            StepLeavesPhase(s, e, s1, ReasonOf(item.value).value);
          }
        }
      case _ =>
    }
  }

  lemma ExitIsSamePhase(s: State, n: Name, ready: Ready)
    requires StrongInv(s) && s.cascade.Exiting? && s.cascade.current == n
    ensures SamePhase(s, Settle(s.(roster := PollKid(s.roster, n, ready).0), n))
  {
    assert n in s.history.stopped && InScope(s.roster, s.history, n);
  }

  /** The exit of any other child leaves the stop phase only to shut down. */
  lemma StepLeavesPhase(s: State, e: TimedEvent, s1: State, reason: ExitReason)
    requires StrongInv(s) && s.cascade.Exiting? && s1.cascade == s.cascade && e.event.Poll?
    requires e.event.name != s.cascade.current && ExitReadyStrong(s1, e.event.name)
    requires Step(s, e) == HandleExit(s1, e.event.name, reason, e.now)
    ensures Step(s, e).0.cascade.Exiting? || Step(s, e).0.exiting
  {
    hide Step, StrongInv, ExitReadyStrong, Shutdown, MergeIntoStopping, Permit, Permitted, AdvanceCascade;
    var n := e.event.name;
    var s2 := s1.(restarter := Permit(s1.restarter, e.now).0);
    ShutdownExits(s2);
    if n in s1.roster.kids {
      PermittedSamePhase(s2, n, e.now);
      var s3 := Permitted(s2, n, e.now).0;
      ShutdownExits(s3);
      MergeStaysExiting(s3, n);
    }
  }

  lemma PermittedSamePhase(s: State, n: Name, now: int)
    requires n in s.roster.kids
    ensures Permitted(s, n, now).0.cascade == s.cascade
  {
  }

  lemma MergeStaysExiting(s: State, n: Name)
    requires s.cascade.Exiting?
    ensures MergeIntoStopping(s, n).0.cascade.Exiting?
  {
    hide Collected, InOrder, SortFails, Names;
  }
}
