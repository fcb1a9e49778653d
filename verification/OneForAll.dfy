/** The one-for-all strategy: when a child needs a restart, all others are stopped at once, and
    when the last of them has exited the whole group is started again. */
module OneForAll {
  import opened Common
  import opened RestartBudget
  import opened Supervisees
  import opened Rosters
  import opened Supervision
  import opened GroupShutdown

  /** `exiting` owe an exit to a shutdown and `restarting` to a group restart. Once the last of
      the latter has exited, `cascadeDrop` are dropped and `cascadeRestart` started. */
  datatype State = State(
    roster: Roster, restarter: Limiter, closing: bool, exiting: set<Name>,
    restarting: set<Name>, cascadeRestart: set<Name>, cascadeDrop: set<Name>)

  function Shutdown(s: State): (State, Flow) {
    var (r, exiting) := StopGroup(s.roster, s.exiting);
    (s.(roster := r, closing := true, exiting := exiting), if exiting == {} then Break else Continue)
  }

  function StartMembers(kids: Kids, names: set<Name>): Kids {
    map n | n in kids :: if n in names then kids[n].(life := StartLife(kids[n].life).0) else kids[n]
  }

  /** Drops and starts the members of the cascade. */
  function FinishCascade(s: State): State {
    s.(roster := Roster(s.roster.order, StartMembers(s.roster.kids - s.cascadeDrop, s.cascadeRestart)),
       exiting := s.exiting - s.cascadeDrop * s.roster.kids.Keys,
       cascadeRestart := {}, cascadeDrop := {})
  }

  /** Takes the sibling `n` into the cascade and stops it, unless its budget refuses. */
  function StopSibling(s: State, n: Name, now: int): (State, bool)
    requires n in s.roster.kids
  {
    var never := s.roster.kids[n].mode == Never;
    var (r, granted) := if never then (s.roster, true) else KidPermit(s.roster, n, now);
    if !granted then (s.(roster := r), false)
    else
      var (r', outcome) := StopKid(r, n);
      (s.(roster := r',
          restarting := if outcome.Stopping? then s.restarting + {n} else s.restarting,
          cascadeRestart := if never then s.cascadeRestart else s.cascadeRestart + {n},
          cascadeDrop := if never then s.cascadeDrop + {n} else s.cascadeDrop),
       true)
  }

  /** Stops the siblings `names` in turn, up to the first whose budget refuses. */
  function StopSiblings(s: State, names: seq<Name>, now: int): (State, bool)
    decreases |names|
  {
    if names == [] then (s, true)
    else if names[0] !in s.roster.kids then StopSiblings(s, names[1..], now)
    else
      var (s1, granted) := StopSibling(s, names[0], now);
      if granted then StopSiblings(s1, names[1..], now) else (s1, false)
  }

  /** The names of `all` that are neither the trigger nor in the cascade already. */
  function Siblings(s: State, all: seq<Name>, trigger: Name): seq<Name> {
    if all == [] then []
    else
      var init, last := Siblings(s, all[..|all| - 1], trigger), all[|all| - 1];
      if last != trigger && last !in s.cascadeRestart && last !in s.cascadeDrop then init + [last] else init
  }

  function StartCascade(s: State, trigger: Name, now: int): (State, Flow) {
    var (s1, granted) := StopSiblings(s, Siblings(s, Names(s.roster), trigger), now);
    if !granted then Shutdown(s1)
    else if s1.restarting == {} then (FinishCascade(s1), Continue)
    else (s1, Continue)
  }

  function RemoveSpec(s: State, n: Name): State {
    if n !in s.roster.kids then s
    else
      var s1 := s.(roster := Remove(s.roster, n), exiting := s.exiting - {n}, restarting := s.restarting - {n});
      var s2 := if s.restarting == {n} then FinishCascade(s1) else s1;
      s2.(cascadeRestart := s2.cascadeRestart - {n}, cascadeDrop := s2.cascadeDrop - {n})
  }

  function HandleExit(s: State, n: Name, reason: ExitReason, now: int): (State, Flow) {
    if n in s.exiting then
      (s.(exiting := s.exiting - {n}), if s.exiting == {n} then Break else Continue)
    else if n in s.restarting then
      var s1 := s.(restarting := s.restarting - {n});
      (if s1.restarting == {} then FinishCascade(s1) else s1, Continue)
    else if n !in s.roster.kids then (s, Continue)
    else if !RequiresRestart(s.roster.kids[n].mode, reason) then (RemoveSpec(s, n), Continue)
    else
      var (restarter, shared) := Permit(s.restarter, now);
      var s1 := s.(restarter := restarter);
      if !shared then Shutdown(s1)
      else
        var (r, own) := KidPermit(s.roster, n, now);
        var s2 := s1.(roster := r);
        if !own then Shutdown(s2)
        else StartCascade(s2.(cascadeRestart := s2.cascadeRestart + {n}), n, now)
  }

  function Step(s: State, e: TimedEvent): (State, Flow) {
    match e.event
    case Signal(isShutdown) => if isShutdown then Shutdown(s) else (s, Continue)
    case Register(name, mode, intensity) =>
      (s.(roster := AddSpec(s.roster, s.closing, name, mode, intensity)), Continue)
    case Deregister(name) => (RemoveSpec(s, name), Continue)
    case Poll(name, ready) =>
      var (r, item) := PollKid(s.roster, name, ready);
      if item.None? || ReasonOf(item.value).None? then (s.(roster := r), Continue)
      else HandleExit(s.(roster := r), name, ReasonOf(item.value).value, e.now)
  }

  function Initial(specs: seq<ChildSpec>, intensity: Intensity): State {
    State(StartAll(RosterOf(specs)).0, Fresh(intensity), false, {}, {}, {}, {})
  }

  function Run(s: State, events: seq<TimedEvent>): (State, Flow)
    decreases |events|
  {
    if events == [] then (s, Continue)
    else
      var (s1, flow) := Step(s, events[0]);
      if flow.Continue? then Run(s1, events[1..]) else (s1, flow)
  }

  // ----- What every step keeps -----

  /** The books of a cascade: exactly its members that are shutting down are waited for, its
      other members are dead, and every child that is dead is a member or one of `loose`. */
  ghost predicate Booked(s: State, loose: set<Name>) {
    && s.exiting == {} && s.restarting == Owing(s.roster.kids)
    && s.restarting <= s.cascadeRestart + s.cascadeDrop <= s.roster.kids.Keys
    && s.cascadeRestart !! s.cascadeDrop
    && (forall n :: n in s.cascadeRestart + s.cascadeDrop && n !in s.restarting ==> s.roster.kids[n].life == Dead)
    && (forall n :: n in s.roster.kids && s.roster.kids[n].life == Dead ==> n in s.cascadeRestart + s.cascadeDrop + loose)
    && (forall n :: n in s.cascadeRestart + s.cascadeDrop ==>
          (s.roster.kids[n].mode == Never <==> n in s.cascadeDrop))
  }

  ghost predicate Inv(s: State) {
    && RosterOk(s.roster)
    && if s.closing then Winding(s.roster.kids, s.exiting)
       else Booked(s, {}) && (s.restarting == {} ==> s.cascadeRestart == {} && s.cascadeDrop == {})
  }

  /** The loop ends only with everyone dead. */
  ghost predicate Good(result: (State, Flow)) {
    && Inv(result.0) && !result.1.Panic?
    && (result.1.Break? ==> result.0.closing && AllDead(result.0.roster.kids))
  }

  /** Deregistering `n` during a shutdown finishes a group restart that the shutdown had cut off,
      and that restart has somebody to start. */
  ghost predicate Revives(s: State, n: Name) {
    && s.closing && n in s.roster.kids && s.restarting == {n}
    && exists m :: m in s.roster.kids && m != n && m in s.cascadeRestart && m !in s.cascadeDrop
                   && s.roster.kids[m].life == Dead
  }

  ghost predicate Allowed(s: State, e: TimedEvent) {
    e.event.Deregister? ==> !Revives(s, e.event.name)
  }

  lemma ShutdownGood(s: State)
    requires RosterOk(s.roster) && s.exiting == {}
    ensures Good(Shutdown(s)) && Shutdown(s).0.closing && NoneRevived(s.roster.kids, Shutdown(s).0.roster.kids)
  {
    hide StopGroup;
    StopGroupWinds(s.roster, s.exiting);
  }

  /** What a finished cascade leaves: its members never to be restarted are gone, the others are
      all starting, each from being dead, and nobody else was touched. */
  ghost predicate Finished(s: State, s': State) {
    && !s'.closing && s'.restarting == {} && s'.cascadeRestart == {} && s'.cascadeDrop == {}
    && s'.roster.kids.Keys == s.roster.kids.Keys - s.cascadeDrop
    && (forall n :: n in s'.roster.kids ==>
          if n in s.cascadeRestart then
            s.roster.kids[n].life == Dead && s'.roster.kids[n] == s.roster.kids[n].(life := Starting)
          else s'.roster.kids[n] == s.roster.kids[n])
  }

  lemma FinishGood(s: State)
    requires RosterOk(s.roster) && !s.closing && Booked(s, {}) && s.restarting == {}
    ensures Inv(FinishCascade(s)) && Finished(s, FinishCascade(s))
  {
    var s' := FinishCascade(s);
    forall n | n in s'.roster.kids ensures n !in s.cascadeDrop && s'.roster.kids[n].life !in {Dead, ShuttingDown} {
      assert n !in Owing(s.roster.kids);
    }
  }

  /** Midway through the stopping: `todo` are the children not in the cascade yet. */
  ghost predicate Midway(s: State, todo: seq<Name>) {
    && RosterOk(s.roster) && !s.closing && Distinct(todo)
    && s.roster.kids.Keys == s.cascadeRestart + s.cascadeDrop + SetOf(todo)
    && (forall n :: n in todo ==> n !in s.cascadeRestart + s.cascadeDrop)
    && Booked(s, {})
  }

  /** `n` joins the cascade, stopped: dead, or still to be waited for. */
  lemma JoiningBooks(s: State, s1: State, n: Name, never: bool, stopping: bool)
    requires Booked(s, {}) && n in s.roster.kids && n !in s.cascadeRestart + s.cascadeDrop
    requires never == (s.roster.kids[n].mode == Never)
    requires s1.roster.kids.Keys == s.roster.kids.Keys && s1.exiting == s.exiting
    requires forall m :: m in s.roster.kids && m != n ==> s1.roster.kids[m] == s.roster.kids[m]
    requires s1.roster.kids[n].mode == s.roster.kids[n].mode
    requires s1.roster.kids[n].life == if stopping then ShuttingDown else Dead
    requires s1.restarting == if stopping then s.restarting + {n} else s.restarting
    requires s1.cascadeRestart == if never then s.cascadeRestart else s.cascadeRestart + {n}
    requires s1.cascadeDrop == if never then s.cascadeDrop + {n} else s.cascadeDrop
    ensures Booked(s1, {})
  {
    assert n !in Owing(s.roster.kids);
    assert s1.restarting == Owing(s1.roster.kids);
  }

  lemma StopSiblingEffect(s: State, n: Name, now: int) returns (stopping: bool)
    requires n in s.roster.kids
    ensures var (s1, granted) := StopSibling(s, n, now);
            && SameNames(s, s1) && s1.exiting == s.exiting && s1.closing == s.closing
            && (forall m :: m in s.roster.kids && m != n ==> s1.roster.kids[m] == s.roster.kids[m])
            && (granted ==>
                  && var never := s.roster.kids[n].mode == Never;
                  && s1.roster.kids[n].life == (if stopping then ShuttingDown else Dead)
                  && s1.restarting == (if stopping then s.restarting + {n} else s.restarting)
                  && s1.cascadeRestart == (if never then s.cascadeRestart else s.cascadeRestart + {n})
                  && s1.cascadeDrop == (if never then s.cascadeDrop + {n} else s.cascadeDrop))
  {
    var never := s.roster.kids[n].mode == Never;
    var r := if never then s.roster else KidPermit(s.roster, n, now).0;
    stopping := StopKid(r, n).1.Stopping?;
  }

  lemma StopSiblingBooks(s: State, todo: seq<Name>, now: int)
    requires Midway(s, todo) && todo != []
    ensures todo[0] in s.roster.kids
    ensures var (s1, granted) := StopSibling(s, todo[0], now);
            && SameNames(s, s1) && RosterOk(s1.roster)
            && if granted then Midway(s1, todo[1..]) else s1.exiting == {} && !s1.closing
  {
    hide StopSibling, Booked, Distinct, SetOf, RosterOk;
    var n, rest := todo[0], todo[1..];
    assert todo == [n] + rest;
    RestDistinct(n, rest);
    var stopping := StopSiblingEffect(s, n, now);
    var (s1, granted) := StopSibling(s, n, now);
    SameRosterOk(s, s1);
    if granted {
      JoiningBooks(s, s1, n, s.roster.kids[n].mode == Never, stopping);
    } else {
      BookedNotClosing(s);
    }
  }

  lemma SameRosterOk(s: State, s1: State)
    requires RosterOk(s.roster) && SameNames(s, s1)
    ensures RosterOk(s1.roster)
  {
  }

  lemma RestDistinct(n: Name, rest: seq<Name>)
    requires Distinct([n] + rest)
    ensures Distinct(rest) && n !in rest
    ensures SetOf([n] + rest) == {n} + SetOf(rest)
  {
    var all := [n] + rest;
    forall i | 0 <= i < |rest| ensures rest[i] != n {
      assert all[0] != all[i + 1];
    }
    forall i, j | 0 <= i < j < |rest| ensures rest[i] != rest[j] {
      assert all[i + 1] != all[j + 1];
    }
  }

  lemma BookedNotClosing(s: State)
    requires Booked(s, {})
    ensures s.exiting == {}
  {
  }

  ghost predicate SameNames(s: State, s': State) {
    && s'.roster.order == s.roster.order && s'.roster.kids.Keys == s.roster.kids.Keys
    && s'.restarter == s.restarter
    && forall n :: n in s.roster.kids ==> s'.roster.kids[n].mode == s.roster.kids[n].mode
  }

  lemma {:induction false} StopSiblingsBook(s: State, todo: seq<Name>, now: int)
    requires Midway(s, todo)
    ensures var (s1, granted) := StopSiblings(s, todo, now);
            && SameNames(s, s1)
            && if granted then Midway(s1, []) else RosterOk(s1.roster) && s1.exiting == {} && !s1.closing
    decreases |todo|
  {
    hide Midway, StopSibling, RosterOk;
    if todo != [] {
      StopSiblingBooks(s, todo, now);
      var (s1, granted) := StopSibling(s, todo[0], now);
      if granted { StopSiblingsBook(s1, todo[1..], now); }
    }
  }

  lemma {:induction false} SiblingsFacts(s: State, all: seq<Name>, trigger: Name)
    requires Distinct(all)
    ensures Distinct(Siblings(s, all, trigger))
    ensures forall n :: n in Siblings(s, all, trigger) <==>
              n in all && n != trigger && n !in s.cascadeRestart && n !in s.cascadeDrop
  {
    if all != [] {
      var init, last := all[..|all| - 1], all[|all| - 1];
      assert all == init + [last];
      SiblingsFacts(s, init, trigger);
    }
  }

  /** A trigger takes in everyone: short of a shutdown, each child is a member of the cascade,
      dead or waited for; or nobody had to be waited for and the whole group has started. */
  ghost predicate TakenIn(s: State, s': State) {
    && s'.roster.order == s.roster.order
    && if s'.restarting != {} then
         && s'.roster.kids.Keys == s.roster.kids.Keys == s'.cascadeRestart + s'.cascadeDrop
         && (forall n :: n in s'.roster.kids ==> s'.roster.kids[n].mode == s.roster.kids[n].mode)
         && (forall n :: n in s'.roster.kids ==> (n in s'.cascadeDrop <==> s.roster.kids[n].mode == Never))
         && (forall n :: n in s'.roster.kids ==>
               s'.roster.kids[n].life == if n in s'.restarting then ShuttingDown else Dead)
       else
         && (forall n :: n in s'.roster.kids <==> n in s.roster.kids && s.roster.kids[n].mode != Never)
         && (forall n :: n in s'.roster.kids ==> s'.roster.kids[n].life == Starting)
  }

  lemma SiblingsMidway(s: State, n: Name)
    requires RosterOk(s.roster) && !s.closing && Booked(s, {}) && n in s.cascadeRestart
    ensures Midway(s, Siblings(s, Names(s.roster), n))
  {
    NamesAreKids(s.roster);
    var all := Names(s.roster);
    SortedIsDistinct(all, s.roster.order);
    SiblingsFacts(s, all, n);
    hide Names, Siblings, Sorted, Owing;
    var todo := Siblings(s, all, n);
    assert s.roster.kids.Keys == s.cascadeRestart + s.cascadeDrop + SetOf(todo);
  }

  lemma MidwayDone(s: State, s1: State)
    requires Midway(s1, []) && SameNames(s, s1)
    ensures s1.restarting != {} ==> TakenIn(s, s1) && Inv(s1)
    ensures s1.restarting == {} ==> RosterOk(s1.roster) && !s1.closing && Booked(s1, {})
    ensures s1.restarting == {} && Finished(s1, FinishCascade(s1)) ==> TakenIn(s, FinishCascade(s1))
  {
    hide RosterOk;
    assert SetOf([]) == {};
  }

  lemma StartCascadeTakesAll(s: State, n: Name, now: int)
    requires RosterOk(s.roster) && !s.closing && Booked(s, {}) && n in s.cascadeRestart
    ensures var (s', flow) := StartCascade(s, n, now);
            && Good((s', flow))
            && (!s'.closing ==> flow.Continue? && TakenIn(s, s') && s'.restarter == s.restarter)
  {
    SiblingsMidway(s, n);
    hide Names, StopSiblings, Shutdown, FinishCascade, Siblings, Booked, TakenIn, Inv, Midway, Finished;
    var todo := Siblings(s, Names(s.roster), n);
    StopSiblingsBook(s, todo, now);
    var (s1, granted) := StopSiblings(s, todo, now);
    if !granted {
      ShutdownGood(s1);
    } else {
      MidwayDone(s, s1);
      if s1.restarting == {} { FinishGood(s1); }
    }
    FinishKeepsLimiter(s1);
  }

  lemma FinishKeepsLimiter(s: State)
    ensures FinishCascade(s).restarter == s.restarter && FinishCascade(s).closing == s.closing
  {
  }

  /** `s` without the child `n`, in the roster and in the books. */
  function Without(s: State, n: Name): State {
    s.(roster := Remove(s.roster, n), exiting := s.exiting - {n}, restarting := s.restarting - {n},
       cascadeRestart := s.cascadeRestart - {n}, cascadeDrop := s.cascadeDrop - {n})
  }

  lemma RemoveSpecIs(s: State, n: Name)
    requires n in s.roster.kids
    ensures RemoveSpec(s, n) == if s.restarting == {n} then FinishCascade(Without(s, n)) else Without(s, n)
  {
    var kids := s.roster.kids - {n};
    assert kids - s.cascadeDrop == kids - (s.cascadeDrop - {n});
    assert StartMembers(kids - s.cascadeDrop, s.cascadeRestart)
           == StartMembers(kids - s.cascadeDrop, s.cascadeRestart - {n});
    assert s.cascadeDrop * kids.Keys == (s.cascadeDrop - {n}) * kids.Keys;
  }

  lemma WithoutBooks(s: State, n: Name, loose: set<Name>)
    requires RosterOk(s.roster) && Booked(s, loose) && loose <= {n} && n in s.roster.kids
    ensures RosterOk(Without(s, n).roster) && Booked(Without(s, n), {})
  {
    hide Distinct;
    assert Owing(s.roster.kids - {n}) == Owing(s.roster.kids) - {n};
  }

  lemma RemoveSpecGood(s: State, n: Name, loose: set<Name>)
    requires RosterOk(s.roster) && !s.closing && Booked(s, loose) && loose <= {n} && n in s.roster.kids
    requires s.restarting == {} ==> s.cascadeRestart == {} && s.cascadeDrop == {}
    ensures Inv(RemoveSpec(s, n)) && !RemoveSpec(s, n).closing
  {
    RemoveSpecIs(s, n);
    WithoutBooks(s, n, loose);
    hide RemoveSpec, Booked, FinishCascade;
    FinishKeepsLimiter(Without(s, n));
    if s.restarting == {n} { FinishGood(Without(s, n)); }
  }

  /** A child reports its exit while the supervisor is open. */
  lemma ExitBooks(s: State, n: Name, ready: Ready)
    requires Inv(s) && !s.closing && PollKid(s.roster, n, ready).1.Some?
    ensures n in s.roster.kids
    ensures var (r, item) := PollKid(s.roster, n, ready);
            && RosterOk(r)
            && (ReasonOf(item.value).None? ==> Inv(s.(roster := r)))
            && (ReasonOf(item.value).Some? ==> r.kids[n].life == Dead && r.kids[n].mode == s.roster.kids[n].mode)
            && (n in s.restarting ==>
                  && ReasonOf(item.value).Some?
                  && Booked(s.(roster := r, restarting := s.restarting - {n}), {}))
            && (n !in s.restarting ==>
                  && n !in s.cascadeRestart + s.cascadeDrop
                  && (ReasonOf(item.value).Some? ==> Booked(s.(roster := r), {n})))
  {
    hide Distinct;
    var (r, item) := PollKid(s.roster, n, ready);
    assert r.order == s.roster.order && r.kids.Keys == s.roster.kids.Keys;
    assert Owing(r.kids) == Owing(s.roster.kids) - {n};
  }

  /** The last member exits: the cascade finishes, cleanly. */
  lemma LastMemberExits(s: State, e: TimedEvent)
    requires Inv(s) && !s.closing && e.event.Poll? && s.restarting == {e.event.name}
    requires PollKid(s.roster, e.event.name, e.event.ready).1.Some?
    ensures var (s', flow) := Step(s, e);
            flow.Continue? && Inv(s') && Finished(s.(roster := PollKid(s.roster, e.event.name, e.event.ready).0), s')
  {
    var n := e.event.name;
    ExitBooks(s, n, e.event.ready);
    hide Booked, Inv, RosterOk, PollKid, FinishCascade;
    var (r, item) := PollKid(s.roster, n, e.event.ready);
    var s1 := s.(roster := r, restarting := {});
    assert s.restarting - {n} == {};
    NobodyExiting(s, n);
    FinishGood(s1);
    assert Step(s, e) == (FinishCascade(s1), Continue);
    FinishedSame(s1, s.(roster := r), FinishCascade(s1));
  }

  lemma FinishedSame(s: State, t: State, s': State)
    requires s.roster == t.roster && s.cascadeRestart == t.cascadeRestart && s.cascadeDrop == t.cascadeDrop
    ensures Finished(s, s') <==> Finished(t, s')
  {
  }

  lemma NobodyExiting(s: State, n: Name)
    requires Inv(s) && !s.closing
    ensures n !in s.exiting
  {
  }

  /** An exit of a child the cascade does not wait for: it leaves, or it is a trigger. */
  lemma OutsiderExits(s: State, n: Name, reason: ExitReason, now: int)
    requires RosterOk(s.roster) && !s.closing && n in s.roster.kids && s.roster.kids[n].life == Dead
    requires Booked(s, {n}) && n !in s.restarting && n !in s.cascadeRestart + s.cascadeDrop
    requires s.restarting == {} ==> s.cascadeRestart == {} && s.cascadeDrop == {}
    ensures var (s', flow) := HandleExit(s, n, reason, now);
            && Good((s', flow))
            && (if !RequiresRestart(s.roster.kids[n].mode, reason) then !s'.closing && flow.Continue?
                else !s'.closing ==> TakenIn(s, s'))
  {
    hide StartCascade, Shutdown, RemoveSpec, TakenIn;
    if !RequiresRestart(s.roster.kids[n].mode, reason) {
      RemoveSpecGood(s, n, {n});
    } else {
      var s1 := s.(restarter := Permit(s.restarter, now).0);
      ShutdownGood(s1);
      var (r, own) := KidPermit(s.roster, n, now);
      var s2 := s1.(roster := r);
      ShutdownGood(s2);
      TriggerBooks(s, s2, n, reason, now);
      var s3 := s2.(cascadeRestart := s2.cascadeRestart + {n});
      hide Booked, Inv;
      StartCascadeTakesAll(s3, n, now);
      TakenFrom(s, s3, StartCascade(s3, n, now).0);
    }
  }

  lemma TakenFrom(s: State, s1: State, s': State)
    requires s1.roster.order == s.roster.order && s1.roster.kids.Keys == s.roster.kids.Keys
    requires forall n :: n in s.roster.kids ==> s1.roster.kids[n].mode == s.roster.kids[n].mode
    ensures TakenIn(s1, s') <==> TakenIn(s, s')
  {
  }

  lemma TriggerBooks(s: State, s2: State, n: Name, reason: ExitReason, now: int)
    requires RosterOk(s.roster) && !s.closing && n in s.roster.kids && s.roster.kids[n].life == Dead
    requires Booked(s, {n}) && n !in s.restarting && n !in s.cascadeRestart + s.cascadeDrop
    requires RequiresRestart(s.roster.kids[n].mode, reason)
    requires s2 == s.(restarter := Permit(s.restarter, now).0, roster := KidPermit(s.roster, n, now).0)
    ensures s2.roster.order == s.roster.order && s2.roster.kids.Keys == s.roster.kids.Keys && RosterOk(s2.roster)
    ensures forall m :: m in s.roster.kids ==> s2.roster.kids[m].mode == s.roster.kids[m].mode
    ensures Booked(s2.(cascadeRestart := s2.cascadeRestart + {n}), {})
  {
    hide Distinct;
    assert Owing(s2.roster.kids) == Owing(s.roster.kids);
  }

  lemma OpenStep(s: State, e: TimedEvent)
    requires Inv(s) && !s.closing
    ensures Good(Step(s, e))
  {
    hide Shutdown, HandleExit, RemoveSpec, Booked;
    match e.event {
      case Signal(isShutdown) =>
        OpenOwesNobody(s);
        ShutdownGood(s);
      case Register(name, mode, intensity) => RegisterGood(s, name, mode, intensity);
      case Deregister(name) =>
        if name in s.roster.kids { RemoveSpecGood(s, name, {}); } else { RemoveNobody(s, name); }
      case Poll(n, ready) =>
        var (r, item) := PollKid(s.roster, n, ready);
        if item.None? {
          PollNothing(s.roster, n, ready);
        } else {
          ExitBooks(s, n, ready);
          if ReasonOf(item.value).Some? { OpenExit(s, n, ready, e.now); }
        }
    }
  }

  lemma OpenExit(s: State, n: Name, ready: Ready, now: int)
    requires Inv(s) && !s.closing && PollKid(s.roster, n, ready).1.Some?
    requires ReasonOf(PollKid(s.roster, n, ready).1.value).Some?
    ensures var (r, item) := PollKid(s.roster, n, ready);
            Good(HandleExit(s.(roster := r), n, ReasonOf(item.value).value, now))
  {
    ExitBooks(s, n, ready);
    NobodyExiting(s, n);
    hide Booked, PollKid, FinishCascade;
    var (r, item) := PollKid(s.roster, n, ready);
    var s1 := s.(roster := r);
    if n in s.restarting {
      var s2 := s1.(restarting := s.restarting - {n});
      if s2.restarting == {} { FinishGood(s2); }
    } else {
      OutsiderExits(s1, n, ReasonOf(item.value).value, now);
    }
  }

  /** Main result: an exit that calls for a restart takes in everyone or shuts everyone down. */
  lemma TriggerTakesEveryone(s: State, e: TimedEvent)
    requires Inv(s) && !s.closing && e.event.Poll? && e.event.name !in s.restarting
    requires var (_, item) := PollKid(s.roster, e.event.name, e.event.ready);
             && item.Some? && ReasonOf(item.value).Some?
             && RequiresRestart(s.roster.kids[e.event.name].mode, ReasonOf(item.value).value)
    ensures Step(s, e).0.closing || TakenIn(s, Step(s, e).0)
  {
    var n := e.event.name;
    ExitBooks(s, n, e.event.ready);
    NobodyExiting(s, n);
    PollSameNames(s.roster, n, e.event.ready);
    hide Booked, PollKid, TakenIn, HandleExit;
    var (r, item) := PollKid(s.roster, n, e.event.ready);
    OutsiderExits(s.(roster := r), n, ReasonOf(item.value).value, e.now);
    TakenFrom(s, s.(roster := r), Step(s, e).0);
  }

  lemma PollSameNames(r: Roster, n: Name, ready: Ready)
    ensures var r' := PollKid(r, n, ready).0;
            && r'.order == r.order && r'.kids.Keys == r.kids.Keys
            && forall m :: m in r.kids ==> r'.kids[m].mode == r.kids[m].mode
  {
  }

  lemma OpenOwesNobody(s: State)
    requires Inv(s) && !s.closing
    ensures s.exiting == {}
  {
  }

  lemma RemoveNobody(s: State, n: Name)
    requires n !in s.roster.kids
    ensures RemoveSpec(s, n) == s
  {
  }

  lemma PollNothing(r: Roster, n: Name, ready: Ready)
    requires PollKid(r, n, ready).1.None?
    ensures PollKid(r, n, ready).0 == r
  {
    if n in r.kids { assert r.kids[n := r.kids[n]] == r.kids; }
  }

  lemma RegisterGood(s: State, name: Name, mode: RestartMode, intensity: Option<Intensity>)
    requires Inv(s) && !s.closing
    ensures Inv(s.(roster := AddSpec(s.roster, s.closing, name, mode, intensity)))
  {
    if name !in s.roster.kids {
      var r := AddSpec(s.roster, s.closing, name, mode, intensity);
      assert Owing(r.kids) == Owing(s.roster.kids);
    }
  }

  // ----- Shutdown -----

  /** One step of a shutdown. Nobody comes back, and the loop breaks just when the last exit
      owed arrives, or on a signal that finds none owed. */
  lemma ClosingStep(s: State, e: TimedEvent)
    requires Inv(s) && s.closing && Allowed(s, e)
    ensures Good(Step(s, e)) && Step(s, e).0.closing
    ensures NoneRevived(s.roster.kids, Step(s, e).0.roster.kids)
    ensures e.event == Signal(true) ==> Step(s, e).0 == s
    ensures Step(s, e).1.Break? <==>
            || (e.event.Poll? && PollKid(s.roster, e.event.name, e.event.ready).1.Some? && s.exiting == {e.event.name})
            || (e.event == Signal(true) && s.exiting == {})
  {
    hide StopGroup, RemoveSpec, StartCascade;
    match e.event {
      case Signal(isShutdown) => StopGroupAgain(s.roster, s.exiting);
      case Register(_, _, _) =>
      case Deregister(name) => DeregisterClosing(s, name);
      case Poll(n, ready) =>
        if PollKid(s.roster, n, ready).1.Some? {
          OnlyExitsArrive(s.roster, s.exiting, n, ready);
        } else {
          PollNothing(s.roster, n, ready);
        }
    }
  }

  /** Deregistration during a shutdown brings somebody back just if it finishes a group restart
      that the shutdown had cut off, with somebody in it to start. */
  lemma DeregisterClosing(s: State, n: Name)
    requires Inv(s) && s.closing
    ensures var s' := RemoveSpec(s, n);
            && s'.closing && RosterOk(s'.roster)
            && (!Revives(s, n) ==> Inv(s') && NoneRevived(s.roster.kids, s'.roster.kids))
            && (Revives(s, n) ==> !NoneRevived(s.roster.kids, s'.roster.kids) && !Inv(s'))
  {
    if n in s.roster.kids {
      RemoveSpecIs(s, n);
      hide RemoveSpec, NoneRevived, Winding, Distinct;
      if s.restarting != {n} {
        RemovalKeepsWinding(s.roster, s.exiting, {n});
      } else if Revives(s, n) {
        CutOffRevived(s, n);
      } else {
        RemovalKeepsWinding(s.roster, s.exiting, s.cascadeDrop + {n});
        NobodyToStart(s, n);
      }
    } else {
      RemoveNobody(s, n);
    }
  }

  lemma CutOffRevived(s: State, n: Name)
    requires Revives(s, n)
    ensures var kids := FinishCascade(Without(s, n)).roster.kids;
            !NoneRevived(s.roster.kids, kids) && !Winding(kids, FinishCascade(Without(s, n)).exiting)
  {
    var m :| m in s.roster.kids && m != n && m in s.cascadeRestart && m !in s.cascadeDrop
             && s.roster.kids[m].life == Dead;
    assert FinishCascade(Without(s, n)).roster.kids[m].life == Starting;
  }

  lemma NobodyToStart(s: State, n: Name)
    requires Inv(s) && s.closing && n in s.roster.kids && s.restarting == {n} && !Revives(s, n)
    ensures var s' := FinishCascade(Without(s, n));
            && s'.roster.kids == s.roster.kids - (s.cascadeDrop + {n})
            && s'.exiting == s.exiting - (s.cascadeDrop + {n})
  {
    var kids := s.roster.kids - {n} - (s.cascadeDrop - {n});
    var names := s.cascadeRestart - {n};
    forall m | m in kids ensures StartMembers(kids, names)[m] == kids[m] {}
    assert kids == s.roster.kids - (s.cascadeDrop + {n});
  }

  /** Deregistering the one child still waited for, or the one whose leaving drops all others
      waited for, leaves a shutdown with nobody to wait for and the loop running. */
  lemma DeregisterLosesBreakIff(s: State, n: Name, now: int)
    requires Inv(s) && s.closing && s.exiting != {}
    ensures var (s', flow) := Step(s, At(now, Deregister(n)));
            && flow.Continue?
            && (s'.exiting == {} <==>
                  && n in s.roster.kids
                  && s.exiting <= if s.restarting == {n} then s.cascadeDrop + {n} else {n})
  {
    if n in s.roster.kids { RemoveSpecIs(s, n); }
    hide RemoveSpec;
  }

  /** Two children, `b` listed before `c`, both to be restarted always and without limit. */
  ghost predicate Pair(s: State, b: Name, c: Name, lb: Life, lc: Life) {
    && b != c && s.roster == Roster([b, c], map[b := Child(Always, None, lb), c := Child(Always, None, lc)])
    && Unlimited(s.restarter.intensity)
  }

  lemma SiblingsPush(s: State, all: seq<Name>, last: Name, trigger: Name)
    ensures Siblings(s, all + [last], trigger)
            == Siblings(s, all, trigger)
               + if last != trigger && last !in s.cascadeRestart && last !in s.cascadeDrop then [last] else []
  {
    assert (all + [last])[..|all + [last]| - 1] == all;
  }

  lemma PairSiblings(s: State, b: Name, c: Name)
    requires b != c && s.roster.order == [b, c] && s.roster.kids.Keys == {b, c}
    requires s.cascadeRestart == {b} && s.cascadeDrop == {}
    ensures Siblings(s, Names(s.roster), b) == [c]
  {
    NothingPresent(s, {b, c}, b);
    hide Present, Siblings;
    PresentPush([], b, {b, c});
    PresentPush([b], c, {b, c});
    SiblingsPush(s, [], b, b);
    SiblingsPush(s, [b], c, b);
    assert [] + [b] == [b] && [b] + [c] == [b, c];
  }

  lemma NothingPresent(s: State, keys: set<Name>, trigger: Name)
    ensures Present([], keys) == [] && Siblings(s, [], trigger) == []
  {
  }

  /** A crash of a child with no budget of its own, outside any cascade, starts one. */
  lemma CrashStarts(s: State, n: Name)
    requires Unlimited(s.restarter.intensity) && n !in s.exiting && n !in s.restarting
    requires n in s.roster.kids && s.roster.kids[n] == Child(Always, None, Alive)
    ensures var r := PollKid(s.roster, n, Fails(Panicked)).0;
            Step(s, At(0, Poll(n, Fails(Panicked))))
            == StartCascade(s.(roster := r, cascadeRestart := s.cascadeRestart + {n}), n, 0)
  {
    hide StartCascade;
    var r := PollKid(s.roster, n, Fails(Panicked)).0;
    assert r.kids[n := r.kids[n]] == r.kids;
  }

  /** The only sibling is alive and has no budget of its own: it is stopped and waited for. */
  lemma OneSiblingStops(s: State, n: Name)
    requires n in s.roster.kids && s.roster.kids[n] == Child(Always, None, Alive)
    ensures StopSiblings(s, [n], 0)
            == (s.(roster := s.roster.(kids := s.roster.kids[n := Child(Always, None, ShuttingDown)]),
                   restarting := s.restarting + {n}, cascadeRestart := s.cascadeRestart + {n}), true)
  {
    assert s.roster.kids[n := s.roster.kids[n]] == s.roster.kids;
    assert [n][1..] == [];
  }

  /** The first crashes: the second is waited for. */
  lemma FirstCrashes(s: State, b: Name, c: Name)
    requires Pair(s, b, c, Alive, Alive)
    requires !s.closing && s.exiting == {} && s.restarting == {} && s.cascadeRestart == {} && s.cascadeDrop == {}
    ensures var (s', flow) := Step(s, At(0, Poll(b, Fails(Panicked))));
            && flow.Continue? && Pair(s', b, c, Dead, ShuttingDown)
            && s' == s.(roster := s'.roster, restarting := {c}, cascadeRestart := {b, c})
  {
    hide Step, StopSiblings, Siblings, Names, FinishCascade, Shutdown;
    CrashStarts(s, b);
    var r := PollKid(s.roster, b, Fails(Panicked)).0;
    assert r.kids == map[b := Child(Always, None, Dead), c := Child(Always, None, Alive)];
    assert s.cascadeRestart + {b} == {b} && s.restarting + {c} == {c} && {b} + {c} == {b, c};
    var s1 := s.(roster := r, cascadeRestart := {b});
    PairSiblings(s1, b, c);
    OneSiblingStops(s1, c);
    assert r.kids[c := Child(Always, None, ShuttingDown)]
           == map[b := Child(Always, None, Dead), c := Child(Always, None, ShuttingDown)];
  }

  /** A child that is started although the supervisor is shutting down: `b` crashes, a shutdown
      comes while `c` is being stopped for the group restart, and `c` is deregistered. */
  lemma DeregisterRevives(s: State, b: Name, c: Name)
    requires Pair(s, b, c, Alive, Alive)
    requires !s.closing && s.exiting == {} && s.restarting == {} && s.cascadeRestart == {} && s.cascadeDrop == {}
    ensures Inv(s)
    ensures var s1 := Step(s, At(0, Poll(b, Fails(Panicked)))).0;
            var s2 := Step(s1, At(0, Signal(true))).0;
            var s3 := Step(s2, At(0, Deregister(c))).0;
            && s1.restarting == {c} && s2.closing && Winding(s2.roster.kids, s2.exiting) && Revives(s2, c)
            && b in s3.roster.kids && s3.roster.kids[b].life == Starting
  {
    FirstCrashes(s, b, c);
    hide Step, Revives;
    assert Owing(s.roster.kids) == {};
    var s1 := Step(s, At(0, Poll(b, Fails(Panicked)))).0;
    SignalCutsOff(s1, b, c);
    SecondLeaves(Step(s1, At(0, Signal(true))).0, b, c);
  }

  lemma SignalCutsOff(s: State, b: Name, c: Name)
    requires Pair(s, b, c, Dead, ShuttingDown) && !s.closing && s.exiting == {}
    ensures Step(s, At(0, Signal(true))).0 == s.(closing := true, exiting := {c})
    ensures Winding(s.roster.kids, {c})
  {
    hide StopGroup;
    StopGroupIgnores(s.roster, {c});
  }

  lemma SecondLeaves(s: State, b: Name, c: Name)
    requires Pair(s, b, c, Dead, ShuttingDown) && s.closing
    requires s.restarting == {c} && s.cascadeRestart == {b, c} && s.cascadeDrop == {}
    ensures Revives(s, c)
    ensures var s' := Step(s, At(0, Deregister(c))).0;
            b in s'.roster.kids && s'.roster.kids[b].life == Starting
  {
    assert b in s.roster.kids;
  }

  lemma StopGroupIgnores(r: Roster, exiting: set<Name>)
    requires RosterOk(r) && Winding(r.kids, exiting)
    ensures StopGroup(r, {}) == (r, exiting)
  {
    StopGroupWinds(r, {});
    StopGroupAgain(r, exiting);
  }

  // ----- Runs -----

  ghost predicate AllowedRun(s: State, events: seq<TimedEvent>)
    decreases |events|
  {
    events != [] ==>
      && Allowed(s, events[0])
      && (Step(s, events[0]).1.Continue? ==> AllowedRun(Step(s, events[0]).0, events[1..]))
  }

  lemma InitialGood(specs: seq<ChildSpec>, intensity: Intensity)
    ensures Inv(Initial(specs, intensity))
  {
    RosterOfOk(specs);
    StartAllStarts(RosterOf(specs));
    assert Owing(Initial(specs, intensity).roster.kids) == {};
  }

  /** Main result, whole runs: over exits, registrations and deregistrations in any order, the
      books stay right, and the loop ends only with everyone dead. Only a deregistration that
      revives a cascade cut off by a shutdown is left out. */
  lemma {:induction false} RunGood(s: State, events: seq<TimedEvent>)
    requires Inv(s) && AllowedRun(s, events)
    ensures Good(Run(s, events))
    decreases |events|
  {
    if events != [] {
      if s.closing { ClosingStep(s, events[0]); } else { OpenStep(s, events[0]); }
      var (s1, flow) := Step(s, events[0]);
      hide Step, Inv;
      if flow.Continue? { RunGood(s1, events[1..]); }
    }
  }

  /** Main result: once a shutdown has begun, even in the midst of a group restart, nobody comes
      back. */
  lemma {:induction false} ClosingRun(s: State, events: seq<TimedEvent>)
    requires Inv(s) && s.closing && AllowedRun(s, events)
    ensures var (s', flow) := Run(s, events);
            Good((s', flow)) && s'.closing && NoneRevived(s.roster.kids, s'.roster.kids)
    decreases |events|
  {
    if events != [] {
      ClosingStep(s, events[0]);
      var (s1, flow) := Step(s, events[0]);
      hide Step, Inv;
      if flow.Continue? { ClosingRun(s1, events[1..]); }
    }
  }

  /** A run from the start that loses its end: the only child comes up, a shutdown waits for it,
      and it is deregistered. */
  lemma EndLostInShutdown(c: Name, i: Intensity)
    ensures var up := At(0, Poll(c, Succeeds));
            var (s, flow) := Run(Initial(OnlySpecs(c), i), [up, up, At(0, Signal(true)), At(0, Deregister(c))]);
            flow.Continue? && s.closing && s.exiting == {} && s.roster.kids == map[]
  {
    OnlyBegins(c);
    OnlyMoves(c);
    hide StartAll, RosterOf, PollKid, StopGroup;
    var up := At(0, Poll(c, Succeeds));
    var s0 := Initial(OnlySpecs(c), i);
    var s1, s2 := s0.(roster := Only(c, Initializing)), s0.(roster := Only(c, Alive));
    var s3 := s2.(roster := Only(c, ShuttingDown), closing := true, exiting := {c});
    assert Step(s0, up) == (s1, Continue) && Step(s1, up) == (s2, Continue);
    assert Step(s2, At(0, Signal(true))) == (s3, Continue);
    var s4 := Step(s3, At(0, Deregister(c))).0;
    assert Step(s3, At(0, Deregister(c))) == (s4, Continue);
    assert s4.roster.kids == map[] && s4.closing && s4.exiting == {};
    hide Step;
    RunOne(s3, At(0, Deregister(c)), []);
    RunOne(s2, At(0, Signal(true)), [At(0, Deregister(c))]);
    RunOne(s1, up, [At(0, Signal(true)), At(0, Deregister(c))]);
    RunOne(s0, up, [up, At(0, Signal(true)), At(0, Deregister(c))]);
    assert [At(0, Deregister(c))] + [] == [At(0, Deregister(c))];
    assert [At(0, Signal(true))] + [At(0, Deregister(c))] == [At(0, Signal(true)), At(0, Deregister(c))];
    assert [up] + [At(0, Signal(true)), At(0, Deregister(c))] == [up, At(0, Signal(true)), At(0, Deregister(c))];
    assert [up] + [up, At(0, Signal(true)), At(0, Deregister(c))] == [up, up, At(0, Signal(true)), At(0, Deregister(c))];
  }

  lemma RunOne(s: State, e: TimedEvent, rest: seq<TimedEvent>)
    requires Step(s, e).1.Continue?
    ensures Run(s, [e] + rest) == Run(Step(s, e).0, rest)
  {
    assert ([e] + rest)[1..] == rest;
  }

  // ----- The supervisor itself -----

  class OneForAllSupervisor {
    var roster: Roster
    var restarter: Limiter
    var closing: bool
    var exiting: set<Name>
    var restarting: set<Name>
    var cascadeRestart: set<Name>
    var cascadeDrop: set<Name>

    ghost function View(): State
      reads this
    {
      State(roster, restarter, closing, exiting, restarting, cascadeRestart, cascadeDrop)
    }

    constructor (specs: seq<ChildSpec>, intensity: Intensity)
      ensures View() == Initial(specs, intensity)
    {
      roster := StartAll(RosterOf(specs)).0;
      restarter := Fresh(intensity);
      closing := false;
      exiting, restarting, cascadeRestart, cascadeDrop := {}, {}, {}, {};
    }

    method BeginShutdown() returns (flow: Flow)
      modifies this
      ensures (View(), flow) == Shutdown(old(View()))
    {
      closing := true;
      var (r, stopping) := StopAll(roster);
      roster := r;
      exiting := exiting + SetOf(stopping);
      flow := if exiting == {} then Break else Continue;
    }

    /** Takes the members out of the cascade one at a time, in whatever order the sets give them. */
    method CompleteCascade()
      modifies this
      ensures View() == FinishCascade(old(View()))
    {
      ghost var before := View();
      var todo := cascadeDrop;
      cascadeDrop := {};
      while todo != {}
        invariant todo <= before.cascadeDrop
        invariant roster.order == before.roster.order
        invariant roster.kids == before.roster.kids - (before.cascadeDrop - todo)
        invariant exiting == before.exiting - (before.cascadeDrop - todo) * before.roster.kids.Keys
        invariant View() == before.(roster := roster, exiting := exiting, cascadeDrop := {})
      {
        var n :| n in todo;
        assert before.cascadeDrop - (todo - {n}) == (before.cascadeDrop - todo) + {n};
        todo := todo - {n};
        if n in roster.kids {
          exiting := exiting - {n};
        }
        roster := Remove(roster, n);
      }
      assert before.cascadeDrop - todo == before.cascadeDrop;
      ghost var kept := roster.kids;
      todo := cascadeRestart;
      cascadeRestart := {};
      while todo != {}
        invariant todo <= before.cascadeRestart
        invariant roster.order == before.roster.order
        invariant exiting == before.exiting - before.cascadeDrop * before.roster.kids.Keys
        invariant roster.kids == StartMembers(kept, before.cascadeRestart - todo)
        invariant View() == before.(roster := roster, exiting := exiting, cascadeRestart := {}, cascadeDrop := {})
      {
        var n :| n in todo;
        assert before.cascadeRestart - (todo - {n}) == (before.cascadeRestart - todo) + {n};
        todo := todo - {n};
        if n in roster.kids {
          roster := StartKid(roster, n).0;
        }
      }
      assert before.cascadeRestart - todo == before.cascadeRestart;
    }

    /** The sibling loop of a trigger. */
    method BeginCascade(trigger: Name, now: int) returns (flow: Flow)
      modifies this
      ensures (View(), flow) == StartCascade(old(View()), trigger, now)
    {
      var siblings := Siblings(
        State(roster, restarter, closing, exiting, restarting, cascadeRestart, cascadeDrop), Names(roster), trigger);
      for k := 0 to |siblings|
        invariant StopSiblings(View(), siblings[k..], now) == StopSiblings(old(View()), siblings, now)
      {
        var n := siblings[k];
        assert siblings[k..][0] == n && siblings[k..][1..] == siblings[k + 1..];
        if n !in roster.kids { continue; }
        if roster.kids[n].mode == Never {
          cascadeDrop := cascadeDrop + {n};
        } else {
          var (r, granted) := KidPermit(roster, n, now);
          roster := r;
          if !granted {
            flow := BeginShutdown();
            return;
          }
          cascadeRestart := cascadeRestart + {n};
        }
        var (r, outcome) := StopKid(roster, n);
        roster := r;
        if outcome.Stopping? { restarting := restarting + {n}; }
      }
      assert siblings[|siblings|..] == [];
      if restarting == {} { CompleteCascade(); }
      return Continue;
    }

    method Deregister(n: Name)
      modifies this
      ensures View() == RemoveSpec(old(View()), n)
    {
      if n !in roster.kids { return; }
      roster := Remove(roster, n);
      exiting := exiting - {n};
      if n in restarting {
        restarting := restarting - {n};
        if restarting == {} { CompleteCascade(); }
      }
      cascadeRestart := cascadeRestart - {n};
      cascadeDrop := cascadeDrop - {n};
    }

    method OnExit(n: Name, reason: ExitReason, now: int) returns (flow: Flow)
      modifies this
      ensures (View(), flow) == HandleExit(old(View()), n, reason, now)
    {
      if n in exiting {
        exiting := exiting - {n};
        return if exiting == {} then Break else Continue;
      }
      if n in restarting {
        restarting := restarting - {n};
        if restarting == {} { CompleteCascade(); }
        return Continue;
      }
      if n !in roster.kids { return Continue; }
      if !RequiresRestart(roster.kids[n].mode, reason) {
        Deregister(n);
        return Continue;
      }
      var (limiter, granted) := Permit(restarter, now);
      restarter := limiter;
      if granted {
        var (r, own) := KidPermit(roster, n, now);
        roster, granted := r, own;
      }
      if !granted {
        flow := BeginShutdown();
        return;
      }
      cascadeRestart := cascadeRestart + {n};
      flow := BeginCascade(n, now);
    }

    method HandleNext(e: TimedEvent) returns (flow: Flow)
      modifies this
      ensures (View(), flow) == Step(old(View()), e)
    {
      flow := Continue;
      match e.event {
        case Signal(isShutdown) => if isShutdown { flow := BeginShutdown(); }
        case Register(name, mode, intensity) => roster := AddSpec(roster, closing, name, mode, intensity);
        case Deregister(name) => Deregister(name);
        case Poll(name, ready) =>
          var (r, item) := PollKid(roster, name, ready);
          roster := r;
          if item.Some? && ReasonOf(item.value).Some? {
            flow := OnExit(name, ReasonOf(item.value).value, e.now);
          }
      }
    }

    /** The event loop, up to the event that ends it. */
    method RunLoop(events: seq<TimedEvent>) returns (flow: Flow)
      requires Inv(View()) && AllowedRun(View(), events)
      modifies this
      ensures (View(), flow) == Run(old(View()), events)
      ensures Good((View(), flow))
    {
      RunGood(View(), events);
      for k := 0 to |events|
        invariant Run(View(), events[k..]) == Run(old(View()), events)
      {
        assert events[k..][0] == events[k] && events[k..][1..] == events[k + 1..];
        flow := HandleNext(events[k]);
        if !flow.Continue? { return; }
      }
      assert events[|events|..] == [];
      return Continue;
    }
  }
}
