/** The shutdown that one-for-one and one-for-all share: everyone is told to stop at once, and
    the loop ends when the last exit that is owed arrives. */
module GroupShutdown {
  import opened Common
  import opened RestartBudget
  import opened Supervisees
  import opened Rosters
  import opened Supervision

  /** The children that still owe an exit. */
  function Owing(kids: Kids): set<Name> {
    set n | n in kids && kids[n].life == ShuttingDown
  }

  function Stopped(kids: Kids): Kids {
    map n | n in kids :: kids[n].(life := StopLife(kids[n].life).0)
  }

  /** Tells everyone to stop: the roster afterwards, and the exits owed from then on. */
  function StopGroup(r: Roster, exiting: set<Name>): (Roster, set<Name>) {
    var (r', stopping) := StopAll(r);
    (r', exiting + SetOf(stopping))
  }

  /** A shutdown under way: exactly those shutting down owe an exit, and all others are dead. */
  ghost predicate Winding(kids: Kids, exiting: set<Name>) {
    && exiting == Owing(kids)
    && forall n :: n in kids && n !in exiting ==> kids[n].life == Dead
  }

  /** From `kids` on nobody joined and nobody who was dead came back. */
  ghost predicate NoneRevived(kids: Kids, kids': Kids) {
    && kids'.Keys <= kids.Keys
    && forall n :: n in kids' && kids[n].life == Dead ==> kids'[n].life == Dead
  }

  lemma {:induction false} StopEachStops(r: Roster, names: seq<Name>)
    requires Distinct(names)
    ensures var (r', stopping) := StopEach(r, names);
            && r'.order == r.order && r'.kids.Keys == r.kids.Keys
            && (forall n :: n in r.kids ==> r'.kids[n] == if n in names then Stopped(r.kids)[n] else r.kids[n])
            && (forall n :: n in stopping <==> n in names && n in r.kids && Stopped(r.kids)[n].life == ShuttingDown)
  {
    if names != [] {
      var init, last := names[..|names| - 1], names[|names| - 1];
      StopEachStops(r, init);
      assert names == init + [last] && last !in init;
    }
  }

  /** Wherever it begins, a shutdown leaves everyone dead or owing an exit, and revives nobody. */
  lemma StopGroupWinds(r: Roster, exiting: set<Name>)
    requires RosterOk(r) && exiting <= Owing(r.kids)
    ensures var (r', exiting') := StopGroup(r, exiting);
            && r'.order == r.order && r'.kids.Keys == r.kids.Keys && RosterOk(r')
            && Winding(r'.kids, exiting') && NoneRevived(r.kids, r'.kids)
            && (exiting' == {} ==> AllDead(r'.kids))
  {
    StopEachStops(r, r.order);
  }

  /** Everyone was told to stop, but for `ended`, who has just ended. */
  ghost predicate AllTold(kids: Kids, kids': Kids, ended: Option<Name>) {
    && kids'.Keys == kids.Keys
    && forall n :: n in kids ==>
         && kids'[n].mode == kids[n].mode
         && kids'[n].life == if Some(n) == ended then Dead else ToldToStop(kids[n].life)
  }

  lemma StopGroupTells(r: Roster, exiting: set<Name>)
    requires RosterOk(r)
    ensures var r' := StopGroup(r, exiting).0;
            r'.order == r.order && AllTold(r.kids, r'.kids, None)
  {
    StopEachStops(r, r.order);
  }

  /** Once it is under way, beginning it again changes nothing. */
  lemma StopGroupAgain(r: Roster, exiting: set<Name>)
    requires RosterOk(r) && Winding(r.kids, exiting)
    ensures StopGroup(r, exiting) == (r, exiting)
  {
    StopEachStops(r, r.order);
    var (r', stopping) := StopAll(r);
    forall n | n in r.kids ensures Stopped(r.kids)[n] == r.kids[n] {}
    assert r'.kids == r.kids;
    assert exiting + SetOf(stopping) == exiting;
  }

  /** The only thing a child can still report is the exit it owes. */
  lemma OnlyExitsArrive(r: Roster, exiting: set<Name>, n: Name, ready: Ready)
    requires RosterOk(r) && Winding(r.kids, exiting) && PollKid(r, n, ready).1.Some?
    ensures var (r', item) := PollKid(r, n, ready);
            && n in exiting && item.value.Exited? && RosterOk(r')
            && Winding(r'.kids, exiting - {n}) && NoneRevived(r.kids, r'.kids)
            && (exiting == {n} ==> AllDead(r'.kids))
  {
  }

  lemma RemovalKeepsWinding(r: Roster, exiting: set<Name>, gone: set<Name>)
    requires Winding(r.kids, exiting)
    ensures Winding(r.kids - gone, exiting - gone) && NoneRevived(r.kids, r.kids - gone)
  {
  }

  // ----- A single child -----

  function Only(c: Name, life: Life): Roster {
    Roster([c], map[c := Child(Always, None, life)])
  }

  function OnlySpecs(c: Name): seq<ChildSpec> {
    [ChildSpec(c, Always, None)]
  }

  lemma OnlyBegins(c: Name)
    ensures StartAll(RosterOf(OnlySpecs(c))).0 == Only(c, Starting)
  {
    hide StartAll, RosterOf;
    var specs := OnlySpecs(c);
    assert specs[..|specs| - 1] == [] && specs[|specs| - 1] == ChildSpec(c, Always, None);
    assert NamesOf([]) == [] && KidsOf([], Starting) == map[];
    assert NewChild(Always, None) == Child(Always, None, Dead);
    assert [] + [c] == [c] && NamesOf(specs) == [c];
    assert KidsOf(specs, Starting) == map[c := Child(Always, None, Starting)];
    InitialRoster(specs);
  }

  /** Its reports bring it up, and a shutdown then waits for it. */
  lemma OnlyMoves(c: Name)
    ensures PollKid(Only(c, Starting), c, Succeeds) == (Only(c, Initializing), Some(Started(true)))
    ensures PollKid(Only(c, Initializing), c, Succeeds) == (Only(c, Alive), Some(Initialized(None)))
    ensures StopGroup(Only(c, Alive), {}) == (Only(c, ShuttingDown), {c})
  {
    assert Only(c, Starting).kids[c := Child(Always, None, Initializing)] == Only(c, Initializing).kids;
    assert Only(c, Initializing).kids[c := Child(Always, None, Alive)] == Only(c, Alive).kids;
    assert [c][..0] == [];
    assert StopEach(Only(c, Alive), []) == (Only(c, Alive), []);
    assert Only(c, Alive).kids[c := Child(Always, None, ShuttingDown)] == Only(c, ShuttingDown).kids;
    assert StopAll(Only(c, Alive)) == (Only(c, ShuttingDown), [] + [c]);
    assert {} + SetOf([] + [c]) == {c};
  }
}
