/** The ordered collection of supervisees. A name keeps its place in the order when it is
    removed, and takes it back if it is added again. */
module Rosters {
  import opened Common
  import opened RestartBudget
  import opened Supervisees

  datatype Name = Name(text: string)

  type Kids = map<Name, Child>

  /** `order` holds every name ever added, in the order first added; `kids` the ones still here. */
  datatype Roster = Roster(order: seq<Name>, kids: Kids)

  predicate Distinct(s: seq<Name>) {
    forall i, j :: 0 <= i < j < |s| ==> s[i] != s[j]
  }

  predicate RosterOk(r: Roster) {
    Distinct(r.order) && forall n :: n in r.kids ==> n in r.order
  }

  ghost predicate AllDead(kids: Kids) {
    forall n :: n in kids ==> kids[n].life == Dead
  }

  function SetOf(xs: seq<Name>): set<Name> { set n | n in xs }

  /** The place of `n` in the order. */
  ghost function Place(order: seq<Name>, n: Name): (i: nat)
    ensures n in order ==> i < |order| && order[i] == n
  {
    if n in order then
      var i :| 0 <= i < |order| && order[i] == n;
      i
    else |order|
  }

  /** `xs` lists names strictly in the given order. */
  ghost predicate Sorted(xs: seq<Name>, order: seq<Name>) {
    forall i, j :: 0 <= i < j < |xs| ==> Place(order, xs[i]) < Place(order, xs[j])
  }

  /** The names of `order` that are in `keys`, in order. */
  function Present(order: seq<Name>, keys: set<Name>): seq<Name> {
    if order == [] then []
    else
      var rest := Present(order[..|order| - 1], keys);
      var last := order[|order| - 1];
      if last in keys then rest + [last] else rest
  }

  function Names(r: Roster): seq<Name> {
    Present(r.order, r.kids.Keys)
  }

  function Add(r: Roster, n: Name, c: Child): Roster {
    Roster(if n in r.order then r.order else r.order + [n], r.kids[n := c])
  }

  function Remove(r: Roster, n: Name): Roster {
    r.(kids := r.kids - {n})
  }

  /** Tells the child `n` to start. */
  function StartKid(r: Roster, n: Name): (Roster, StartAnswer)
    requires n in r.kids
  {
    var (life, answer) := StartLife(r.kids[n].life);
    (r.(kids := r.kids[n := r.kids[n].(life := life)]), answer)
  }

  /** Tells the child `n` to stop. */
  function StopKid(r: Roster, n: Name): (Roster, StopOutcome)
    requires n in r.kids
  {
    var (life, outcome) := StopLife(r.kids[n].life);
    (r.(kids := r.kids[n := r.kids[n].(life := life)]), outcome)
  }

  /** Asks the budget of the child `n` for a restart. */
  function KidPermit(r: Roster, n: Name, now: int): (Roster, bool)
    requires n in r.kids
  {
    var (c, granted) := ChildPermit(r.kids[n], now);
    (r.(kids := r.kids[n := c]), granted)
  }

  /** Tells the children `names` to stop, one after the other, and lists those that still
      owe an exit. */
  function StopEach(r: Roster, names: seq<Name>): (Roster, seq<Name>) {
    if names == [] then (r, [])
    else
      var (r1, stopping) := StopEach(r, names[..|names| - 1]);
      var n := names[|names| - 1];
      if n !in r1.kids then (r1, stopping)
      else
        var (r2, outcome) := StopKid(r1, n);
        (r2, if outcome.Stopping? then stopping + [n] else stopping)
  }

  function StopAll(r: Roster): (Roster, seq<Name>) {
    StopEach(r, r.order)
  }

  /** Tells the children `names` to start, up to the first that refuses. */
  function StartEach(r: Roster, names: seq<Name>): (Roster, Option<Name>) {
    if names == [] then (r, None)
    else
      var (r1, refused) := StartEach(r, names[..|names| - 1]);
      var n := names[|names| - 1];
      if refused.Some? || n !in r1.kids then (r1, refused)
      else
        var (r2, answer) := StartKid(r1, n);
        (r2, if answer.RefusedStopping? then Some(n) else None)
  }

  function StartAll(r: Roster): (Roster, Option<Name>) {
    StartEach(r, r.order)
  }

  // ----- Order -----

  lemma PlaceUnique(order: seq<Name>, i: nat)
    requires Distinct(order) && i < |order|
    ensures Place(order, order[i]) == i
  {
  }

  /** Names are told apart by their places. */
  lemma PlaceInjective(order: seq<Name>, a: Name, b: Name)
    requires a in order && b in order && Place(order, a) == Place(order, b)
    ensures a == b
  {
  }

  lemma PlacesDiffer(order: seq<Name>, a: Name, b: Name)
    requires a in order && b in order && a != b
    ensures Place(order, a) != Place(order, b)
  {
  }

  /** Adding a name at the end leaves the others where they are. */
  lemma PlaceStable(order: seq<Name>, added: Name, n: Name)
    requires Distinct(order) && added !in order && n in order
    ensures Place(order + [added], n) == Place(order, n)
  {
    assert Distinct(order + [added]);
    var i := Place(order, n);
    assert (order + [added])[i] == n;
    PlaceUnique(order + [added], i);
  }

  lemma PresentPush(order: seq<Name>, last: Name, keys: set<Name>)
    ensures Present(order + [last], keys) == Present(order, keys) + if last in keys then [last] else []
  {
    assert (order + [last])[..|order + [last]| - 1] == order;
  }

  lemma {:induction false} PresentIsSorted(order: seq<Name>, keys: set<Name>)
    requires Distinct(order)
    ensures Sorted(Present(order, keys), order)
    ensures forall n :: n in Present(order, keys) <==> n in order && n in keys
  {
    if order != [] {
      var init, last := order[..|order| - 1], order[|order| - 1];
      PresentIsSorted(init, keys);
      assert order == init + [last];
      var rest := Present(init, keys);
      forall i | 0 <= i < |rest| ensures Place(order, rest[i]) == Place(init, rest[i]) < |init| {
        assert rest[i] in init;
        PlaceStable(init, last, rest[i]);
      }
      PlaceUnique(order, |order| - 1);
    }
  }

  lemma SortedIsDistinct(xs: seq<Name>, order: seq<Name>)
    requires Sorted(xs, order)
    ensures Distinct(xs)
  {
  }

  /** Of two names in a sorted list, the one placed first comes first. */
  lemma SortedReflects(xs: seq<Name>, order: seq<Name>, i: nat, j: nat)
    requires Sorted(xs, order) && i < |xs| && j < |xs|
    ensures i < j <==> Place(order, xs[i]) < Place(order, xs[j])
  {
  }

  lemma SortedInit(xs: seq<Name>, order: seq<Name>, n: Name)
    requires Sorted(xs, order) && xs != []
    ensures n in xs[..|xs| - 1] <==> n in xs && n != xs[|xs| - 1]
    ensures Sorted(xs[..|xs| - 1], order)
  {
    assert xs == xs[..|xs| - 1] + [xs[|xs| - 1]];
    if n in xs[..|xs| - 1] {
      var i :| 0 <= i < |xs| - 1 && xs[i] == n;
      SortedReflects(xs, order, i, |xs| - 1);
    }
  }

  lemma SortedLastIsLargest(xs: seq<Name>, order: seq<Name>, n: Name)
    requires Sorted(xs, order) && n in xs
    ensures Place(order, n) <= Place(order, xs[|xs| - 1])
  {
    var i :| 0 <= i < |xs| && xs[i] == n;
    SortedReflects(xs, order, i, |xs| - 1);
  }

  /** There is only one sorted way to list a set of names. */
  lemma {:induction false} SortedUnique(xs: seq<Name>, ys: seq<Name>, order: seq<Name>)
    requires Sorted(xs, order) && Sorted(ys, order)
    requires forall n :: n in xs ==> n in order
    requires forall n :: n in xs <==> n in ys
    ensures xs == ys
  {
    if xs != [] { assert xs[0] in ys; }
    if ys != [] { assert ys[0] in xs; }
    if xs != [] {
      var x, y := xs[|xs| - 1], ys[|ys| - 1];
      SortedLastIsLargest(xs, order, y);
      SortedLastIsLargest(ys, order, x);
      PlaceInjective(order, x, y);
      var xs', ys' := xs[..|xs| - 1], ys[..|ys| - 1];
      forall n ensures n in xs' <==> n in ys' {
        SortedInit(xs, order, n);
        SortedInit(ys, order, n);
      }
      SortedUnique(xs', ys', order);
    }
  }

  /** A stretch of a sorted list holds exactly the names placed between its ends. */
  lemma SliceIsBetween(xs: seq<Name>, order: seq<Name>, i: nat, j: nat, n: Name)
    requires Sorted(xs, order) && i < j <= |xs|
    ensures n in xs[i + 1..j] <==>
            n in xs && Place(order, xs[i]) < Place(order, n) && (j < |xs| ==> Place(order, n) < Place(order, xs[j]))
    ensures Sorted(xs[i + 1..j], order)
  {
    if n in xs {
      var k :| 0 <= k < |xs| && xs[k] == n;
      SortedReflects(xs, order, i, k);
      if j < |xs| { SortedReflects(xs, order, k, j); }
      if i < k < j { assert xs[i + 1..j][k - i - 1] == n; }
    }
    if n in xs[i + 1..j] {
      var k :| 0 <= k < |xs[i + 1..j]| && xs[i + 1..j][k] == n;
      assert xs[i + 1 + k] == n;
      SortedReflects(xs, order, i, i + 1 + k);
      if j < |xs| { SortedReflects(xs, order, i + 1 + k, j); }
    }
  }

  lemma NamesAreKids(r: Roster)
    requires RosterOk(r)
    ensures Sorted(Names(r), r.order)
    ensures forall n :: n in Names(r) <==> n in r.kids
  {
    PresentIsSorted(r.order, r.kids.Keys);
  }

  /** What `Names` lists after the child `t`. */
  ghost function Tail(r: Roster, t: Name): seq<Name>
    requires t in Names(r)
  {
    Names(r)[Place(Names(r), t) + 1..]
  }

  lemma TailIsAfter(r: Roster, t: Name)
    requires RosterOk(r) && t in r.kids
    ensures t in Names(r) && Sorted(Tail(r, t), r.order)
    ensures forall n :: n in Tail(r, t) <==> n in r.kids && Place(r.order, t) < Place(r.order, n)
  {
    NamesAreKids(r);
    var all := Names(r);
    var i := Place(all, t);
    assert Tail(r, t) == all[i + 1..|all|];
    forall n ensures n in Tail(r, t) <==> n in r.kids && Place(r.order, t) < Place(r.order, n) {
      SliceIsBetween(all, r.order, i, |all|, n);
    }
    SliceIsBetween(all, r.order, i, |all|, t);
  }

  /** A name that was removed and is added again is back in its old place among the others. */
  lemma ReturnsToItsPlace(r: Roster, n: Name, c: Child)
    requires RosterOk(r) && n in r.kids
    ensures Add(Remove(r, n), n, c) == r.(kids := r.kids[n := c])
    ensures Names(Add(Remove(r, n), n, c)) == Names(r)
  {
    var back := Add(Remove(r, n), n, c);
    assert back.kids == r.kids[n := c];
    assert back.kids.Keys == r.kids.Keys;
  }

  lemma {:induction false} StartEachStarts(r: Roster, names: seq<Name>)
    requires forall n :: n in r.kids ==> r.kids[n].life == Dead
    ensures var (r', refused) := StartEach(r, names);
            && refused == None && r'.order == r.order && r'.kids.Keys == r.kids.Keys
            && forall n :: n in r.kids ==> r'.kids[n] == if n in names then r.kids[n].(life := Starting) else r.kids[n]
  {
    if names != [] {
      StartEachStarts(r, names[..|names| - 1]);
      assert names == names[..|names| - 1] + [names[|names| - 1]];
    }
  }

  /** At the start everyone is told to start and does. */
  lemma StartAllStarts(r: Roster)
    requires RosterOk(r) && AllDead(r.kids)
    ensures var (r', refused) := StartAll(r);
            && refused == None && RosterOk(r') && r'.kids.Keys == r.kids.Keys
            && forall n :: n in r'.kids ==> r'.kids[n] == r.kids[n].(life := Starting)
  {
    StartEachStarts(r, r.order);
  }
}
