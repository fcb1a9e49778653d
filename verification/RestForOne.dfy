/** The rest-for-one strategy: when a child needs a restart, every child after it is stopped,
    one at a time and last first, and then the lot is restarted one at a time. */
module RestForOne {
  import opened Common
  import opened RestartBudget
  import opened Supervisees
  import opened Rosters
  import opened Supervision

  datatype Cascade =
    | Idle
    /** Stopping siblings: `current` owes an exit, `pending` are next, from the back. */
    | Exiting(current: Name, pending: seq<Name>, toRestart: seq<Name>, toDrop: seq<Name>)
    /** Restarting: `current` has yet to initialize, `pending` are next, from the front. */
    | Restarting(current: Name, pending: seq<Name>)
    /** The supervisor is shutting down: `current` owes an exit, `pending` are next, from the back. */
    | Closing(current: Name, pending: seq<Name>)

  /** What happened, for stating properties; no step looks at it. `triggers` are the children
      whose exits the present stop phase answers, `stopped` those it told to stop, and
      `launched` those a restart spawned that have neither initialized nor ended since. */
  datatype History = History(triggers: seq<Name>, stopped: seq<Name>, launched: set<Name>)

  datatype State = State(
    roster: Roster, restarter: Limiter, exiting: bool, cascade: Cascade, history: History)

  function CurrentOf(c: Cascade): Option<Name> {
    if c.Idle? then None else Some(c.current)
  }

  predicate PendingContains(c: Cascade, n: Name) {
    (c.Exiting? || c.Closing?) && n in c.pending
  }

  function Without(launched: set<Name>, n: Name): set<Name> {
    launched - {n}
  }

  function Stop(s: State, n: Name): (State, bool)
    requires n in s.roster.kids
  {
    var (r, outcome) := StopKid(s.roster, n);
    (s.(roster := r, history := s.history.(
          stopped := s.history.stopped + [n], launched := Without(s.history.launched, n))),
     outcome.Stopping?)
  }

  function Launch(s: State, n: Name): (State, StartAnswer)
    requires n in s.roster.kids
  {
    var (r, answer) := StartKid(s.roster, n);
    var launched := if answer.Spawned? then s.history.launched + {n} else s.history.launched;
    (s.(roster := r, history := s.history.(launched := launched)), answer)
  }

  function Permitted(s: State, n: Name, now: int): (State, bool)
    requires n in s.roster.kids
  {
    var (r, granted) := KidPermit(s.roster, n, now);
    (s.(roster := r), granted)
  }

  function Drop(s: State, n: Name): State {
    s.(roster := Remove(s.roster, n),
       history := s.history.(launched := Without(s.history.launched, n)))
  }

  function DropAll(s: State, names: seq<Name>): State
    decreases |names|
  {
    if names == [] then s else DropAll(Drop(s, names[0]), names[1..])
  }

  function Reverse(xs: seq<Name>): seq<Name> {
    if xs == [] then [] else [xs[|xs| - 1]] + Reverse(xs[..|xs| - 1])
  }

  function AdvanceRestart(s: State, pending: seq<Name>): (State, Flow)
    decreases |pending|
  {
    if pending == [] then (s.(cascade := Idle), Continue)
    else
      var next, rest := pending[0], pending[1..];
      if next !in s.roster.kids then AdvanceRestart(s, rest)
      else
        var (s1, answer) := Launch(s, next);
        if answer.Spawned? then (s1.(cascade := Restarting(next, rest)), Continue)
        else AdvanceRestart(s1, rest)
  }

  function AdvanceShutdown(s: State, pending: seq<Name>): (State, Flow)
    decreases |pending|
  {
    if pending == [] then (s.(cascade := Idle), Break)
    else
      var next, rest := pending[|pending| - 1], pending[..|pending| - 1];
      if next !in s.roster.kids then AdvanceShutdown(s, rest)
      else
        var (s1, stopping) := Stop(s, next);
        if stopping then (s1.(cascade := Closing(next, rest)), Continue)
        else AdvanceShutdown(s1, rest)
  }

  function Shutdown(s: State): (State, Flow) {
    if s.cascade.Closing? then (s, Continue)
    else
      AdvanceShutdown(s.(exiting := true, history := s.history.(triggers := [], stopped := [])),
                      Names(s.roster))
  }

  function AdvanceStop(
    s: State, pending: seq<Name>, toRestart: seq<Name>, toDrop: seq<Name>, now: int): (State, Flow)
    decreases |pending|
  {
    if pending == [] then AdvanceRestart(DropAll(s, toDrop), Reverse(toRestart))
    else
      var next, rest := pending[|pending| - 1], pending[..|pending| - 1];
      if next !in s.roster.kids then AdvanceStop(s, rest, toRestart, toDrop, now)
      else if s.roster.kids[next].mode == Never then
        var (s1, stopping) := Stop(s, next);
        if stopping then (s1.(cascade := Exiting(next, rest, toRestart, toDrop + [next])), Continue)
        else AdvanceStop(s1, rest, toRestart, toDrop + [next], now)
      else
        var (s1, granted) := Permitted(s, next, now);
        if !granted then Shutdown(s1)
        else
          var (s2, stopping) := Stop(s1, next);
          if stopping then (s2.(cascade := Exiting(next, rest, toRestart + [next], toDrop)), Continue)
          else AdvanceStop(s2, rest, toRestart + [next], toDrop, now)
  }

  function AdvanceCascade(s: State, now: int): (State, Flow) {
    var idle := s.(cascade := Idle);
    match s.cascade
    case Idle => (idle, Continue)
    case Exiting(_, pending, toRestart, toDrop) => AdvanceStop(idle, pending, toRestart, toDrop, now)
    case Restarting(_, pending) => AdvanceRestart(idle, pending)
    case Closing(_, pending) => AdvanceShutdown(idle, pending)
  }

  /** Removes the child `n`. A cascade that was waiting for it moves on; how that ends is not
      passed on to the event loop. */
  function RemoveSpec(s: State, n: Name, now: int): State {
    if n !in s.roster.kids then s
    else if CurrentOf(s.cascade) == Some(n) then AdvanceCascade(Drop(s, n), now).0
    else Drop(s, n)
  }

  /** Starts a cascade: everything listed after the trigger is to be stopped. */
  ghost function StartCascade(s: State, trigger: Name, now: int): (State, Flow) {
    if trigger !in Names(s.roster) then (s, Panic)
    else
      AdvanceStop(s.(history := s.history.(triggers := [trigger], stopped := [])),
                  Tail(s.roster, trigger), [trigger], [], now)
  }

  /** The names of `xs` that are not settled yet. */
  function Unsettled(xs: seq<Name>, settled: seq<Name>): seq<Name> {
    if xs == [] then []
    else
      var rest := Unsettled(xs[..|xs| - 1], settled);
      var last := xs[|xs| - 1];
      if last in settled then rest else rest + [last]
  }

  function Min(a: nat, b: nat): nat { if a <= b then a else b }

  function Max(a: nat, b: nat): nat { if a <= b then b else a }

  /** What there is to stop once a second trigger joins: the unsettled names strictly between
      the trigger and the child being waited for, then those already pending. */
  ghost function Collected(all: seq<Name>, trigger: Name, c: Cascade): seq<Name>
    requires c.Exiting? && trigger in all && c.current in all
  {
    var (t, u) := (Place(all, trigger), Place(all, c.current));
    Unsettled(if t == u then [] else all[Min(t, u) + 1..Max(t, u)], c.toRestart + c.toDrop) + c.pending
  }

  /** Sorting looks up the place of every name, unless there are fewer than two. */
  ghost predicate SortFails(all: seq<Name>, xs: seq<Name>) {
    |xs| >= 2 && exists n :: n in xs && n !in all
  }

  /** `xs` in the order of `all`, without duplicates. */
  function InOrder(all: seq<Name>, xs: seq<Name>): seq<Name> {
    if |xs| < 2 then xs else Present(all, set n | n in xs)
  }

  ghost function MergeIntoStopping(s: State, trigger: Name): (State, Flow)
    requires s.cascade.Exiting?
  {
    var c := s.cascade;
    var all := Names(s.roster);
    if trigger !in all || c.current !in all then (s, Panic)
    else
      var collected := Collected(all, trigger, c);
      if SortFails(all, collected) then (s, Panic)
      else
        (s.(cascade := c.(pending := InOrder(all, collected), toRestart := c.toRestart + [trigger]),
            history := s.history.(triggers := s.history.triggers + [trigger])),
         Continue)
  }

  function HandleCurrentExit(s: State, n: Name, reason: ExitReason, now: int): (State, Flow) {
    if !s.cascade.Restarting? then AdvanceCascade(s, now)
    else if reason.ExitOf? then (s, Panic)
    else if n !in s.roster.kids then AdvanceCascade(s, now)
    else if !RequiresRestart(s.roster.kids[n].mode, reason) then (RemoveSpec(s, n, now), Continue)
    else
      var (s1, granted) := Permitted(s, n, now);
      if !granted then Shutdown(s1) else (Launch(s1, n).0, Continue)
  }

  ghost function HandleExit(s: State, n: Name, reason: ExitReason, now: int): (State, Flow) {
    if CurrentOf(s.cascade) == Some(n) then HandleCurrentExit(s, n, reason, now)
    else if PendingContains(s.cascade, n) || n !in s.roster.kids then (s, Continue)
    else if !RequiresRestart(s.roster.kids[n].mode, reason) then (RemoveSpec(s, n, now), Continue)
    else
      var (restarter, shared) := Permit(s.restarter, now);
      var s1 := s.(restarter := restarter);
      if !shared then Shutdown(s1)
      else
        var (s2, own) := Permitted(s1, n, now);
        if !own then Shutdown(s2)
        else match s2.cascade
          case Idle => StartCascade(s2, n, now)
          case Exiting(_, _, _, _) => MergeIntoStopping(s2, n)
          case Restarting(_, _) => StartCascade(s2.(cascade := Idle), n, now)
          case Closing(_, _) => (s2, Panic)
  }

  function AfterInitialized(s: State, n: Name, now: int): (State, Flow) {
    if CurrentOf(s.cascade) == Some(n) then AdvanceCascade(s, now) else (s, Continue)
  }

  ghost function Step(s: State, e: TimedEvent): (State, Flow) {
    match e.event
    case Signal(isShutdown) => if isShutdown then Shutdown(s) else (s, Continue)
    case Register(name, mode, intensity) =>
      (s.(roster := AddSpec(s.roster, s.exiting, name, mode, intensity)), Continue)
    case Deregister(name) => (RemoveSpec(s, name, e.now), Continue)
    case Poll(name, ready) =>
      var (r, item) := PollKid(s.roster, name, ready);
      if item.None? then (s, Continue)
      else
        var s1 := s.(roster := r);
        match item.value
        case Started(true) => (s1, Continue)
        case Initialized(None) => AfterInitialized(Settle(s1, name), name, e.now)
        case _ => HandleExit(Settle(s1, name), name, ReasonOf(item.value).value, e.now)
  }

  /** Notes that `n` initialized or ended. */
  function Settle(s: State, n: Name): State {
    s.(history := s.history.(launched := Without(s.history.launched, n)))
  }

  /** A supervisor that has just told all its children to start. */
  function Initial(specs: seq<ChildSpec>, intensity: Intensity): State {
    State(StartAll(RosterOf(specs)).0, Fresh(intensity), false, Idle, History([], [], {}))
  }

  /** Handles the events in turn until the loop ends. */
  ghost function Run(s: State, events: seq<TimedEvent>): (State, Flow)
    decreases |events|
  {
    if events == [] then (s, Continue)
    else
      var (s1, flow) := Step(s, events[0]);
      if flow.Continue? then Run(s1, events[1..]) else (s1, flow)
  }
}
