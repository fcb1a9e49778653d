/** What all strategies of a supervisor share: the events it handles and the part of its
    state that does not depend on the strategy. */
module Supervision {
  import opened Common
  import opened RestartBudget
  import opened Supervisees
  import opened Rosters

  /** How a handler leaves the event loop: it goes on, it ends, or the supervisor's own
      code fails (an `expect`, an `unreachable!` or a debug assertion). */
  datatype Flow = Continue | Break | Panic

  /** One thing for the supervisor to handle. `Poll` lets the child `name` make progress;
      whatever item that produces is handled at once. */
  datatype Event =
    | Signal(isShutdown: bool)
    | Register(name: Name, mode: RestartMode, intensity: Option<Intensity>)
    | Deregister(name: Name)
    | Poll(name: Name, ready: Ready)

  datatype TimedEvent = At(now: int, event: Event)

  /** The clock never runs backwards. */
  ghost predicate Orderly(events: seq<TimedEvent>) {
    forall j, k :: 0 <= j <= k < |events| ==> events[j].now <= events[k].now
  }

  /** The time of the last of `events`, or `start` if there is none. */
  function LastTime(events: seq<TimedEvent>, start: int): int {
    if events == [] then start else events[|events| - 1].now
  }

  lemma OrderlyInit(events: seq<TimedEvent>, e: TimedEvent)
    requires Orderly(events + [e])
    ensures Orderly(events) && (events != [] ==> (events + [e])[0].now <= events[0].now)
    ensures LastTime(events, (events + [e])[0].now) <= e.now
  {
    var all := events + [e];
    forall j, k | 0 <= j <= k < |events| ensures events[j].now <= events[k].now {
      assert all[j].now <= all[k].now;
    }
    if events != [] { assert all[|events| - 1].now <= all[|events|].now; }
  }

  datatype ChildSpec = ChildSpec(name: Name, mode: RestartMode, intensity: Option<Intensity>)

  function NewChild(mode: RestartMode, intensity: Option<Intensity>): Child {
    Child(mode, match intensity case None => None case Some(i) => Some(Fresh(i)), Dead)
  }

  /** The roster of a supervisor that was given `specs`; of two with one name the later counts. */
  function RosterOf(specs: seq<ChildSpec>): Roster {
    if specs == [] then Roster([], map[])
    else
      var last := specs[|specs| - 1];
      Add(RosterOf(specs[..|specs| - 1]), last.name, NewChild(last.mode, last.intensity))
  }

  /** Adds a child and tells it to start, unless the supervisor is exiting or has the name already. */
  function AddSpec(r: Roster, exiting: bool, name: Name, mode: RestartMode, intensity: Option<Intensity>): Roster {
    if exiting || name in r.kids then r
    else StartKid(Add(r, name, NewChild(mode, intensity)), name).0
  }

  /** The child `name` was new and is starting, with a budget nobody asked; everyone else is as
      before, and its place is its old one, or the last. */
  ghost predicate Joined(r: Roster, r': Roster, name: Name, mode: RestartMode, intensity: Option<Intensity>) {
    && name !in r.kids && r'.kids.Keys == r.kids.Keys + {name}
    && (forall n :: n in r.kids ==> r'.kids[n] == r.kids[n])
    && r'.kids[name].mode == mode && r'.kids[name].life == Starting
    && (r'.kids[name].budget.None? <==> intensity.None?)
    && (intensity.Some? ==> r'.kids[name].budget.value == Fresh(intensity.value))
    && (if name in r.order then r'.order == r.order else r'.order == r.order + [name])
  }

  /** A supervisor that is open takes in a child whose name is free, and no other ever. */
  lemma AddSpecJoins(r: Roster, exiting: bool, name: Name, mode: RestartMode, intensity: Option<Intensity>)
    ensures var r' := AddSpec(r, exiting, name, mode, intensity);
            if !exiting && name !in r.kids then Joined(r, r', name, mode, intensity) else r' == r
  {
  }

  /** Lets the child `name` make progress. */
  function PollKid(r: Roster, name: Name, ready: Ready): (Roster, Option<Item>) {
    if name !in r.kids then (r, None)
    else
      var (life, item) := PollLife(r.kids[name].life, ready);
      (r.(kids := r.kids[name := r.kids[name].(life := life)]), item)
  }

  /** Why the child that reported `item` is gone, if it is. */
  function ReasonOf(item: Item): Option<ExitReason> {
    match item
    case Started(ok) => if ok then None else Some(StartFailure)
    case Initialized(failure) => (match failure case None => None case Some(status) => Some(InitExit(status)))
    case Exited(exit) => Some(ExitOf(exit))
  }

  lemma {:induction false} RosterOfOk(specs: seq<ChildSpec>)
    ensures RosterOk(RosterOf(specs))
    ensures forall n :: n in RosterOf(specs).kids ==> RosterOf(specs).kids[n].life == Dead
  {
    if specs != [] { RosterOfOk(specs[..|specs| - 1]); }
  }

  function NamesOf(specs: seq<ChildSpec>): seq<Name> {
    if specs == [] then [] else NamesOf(specs[..|specs| - 1]) + [specs[|specs| - 1].name]
  }

  /** The children `specs` describe, all in the state `life`. */
  function KidsOf(specs: seq<ChildSpec>, life: Life): Kids {
    if specs == [] then map[]
    else
      var last := specs[|specs| - 1];
      KidsOf(specs[..|specs| - 1], life)[last.name := NewChild(last.mode, last.intensity).(life := life)]
  }

  lemma {:induction false} KidsOfNames(specs: seq<ChildSpec>, life: Life)
    ensures forall n :: n in KidsOf(specs, life) <==> n in NamesOf(specs)
    ensures KidsOf(specs, life).Keys == KidsOf(specs, Dead).Keys
    ensures forall n :: n in KidsOf(specs, life) ==> KidsOf(specs, life)[n] == KidsOf(specs, Dead)[n].(life := life)
  {
    if specs != [] { KidsOfNames(specs[..|specs| - 1], life); }
  }

  lemma {:induction false} RosterOfDistinct(specs: seq<ChildSpec>)
    requires Distinct(NamesOf(specs))
    ensures RosterOf(specs) == Roster(NamesOf(specs), KidsOf(specs, Dead))
  {
    if specs != [] {
      var init, last := specs[..|specs| - 1], specs[|specs| - 1];
      var names := NamesOf(init);
      assert NamesOf(specs) == names + [last.name];
      forall i, j | 0 <= i < j < |names| ensures names[i] != names[j] {
        assert NamesOf(specs)[i] != NamesOf(specs)[j];
      }
      forall i | 0 <= i < |names| ensures names[i] != last.name {
        assert NamesOf(specs)[i] != NamesOf(specs)[|names|];
      }
      RosterOfDistinct(init);
      assert NewChild(last.mode, last.intensity).life == Dead;
    }
  }

  /** The roster a supervisor begins with: the children in the order given, all starting. */
  lemma InitialRoster(specs: seq<ChildSpec>)
    requires Distinct(NamesOf(specs))
    ensures StartAll(RosterOf(specs)).0 == Roster(NamesOf(specs), KidsOf(specs, Starting))
  {
    RosterOfDistinct(specs);
    RosterOfOk(specs);
    StartAllStarts(RosterOf(specs));
    KidsOfNames(specs, Starting);
    StartEachStarts(RosterOf(specs), RosterOf(specs).order);
    var r := StartAll(RosterOf(specs)).0;
    assert r.kids == KidsOf(specs, Starting);
  }
}
