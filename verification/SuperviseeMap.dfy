/** The map that holds a supervisor's children: an ordered mapping from names to tokens, with an
    empty token where a child was removed, over a store indexed by token. */
module SuperviseeMaps {
  import opened Common
  import opened RestartBudget
  import opened Supervisees
  import opened Rosters

  datatype Entry = Entry(name: Name, token: Option<nat>)

  type Store = map<nat, Child>

  /** No two entries share a name or a token. */
  ghost predicate Linked(mapping: seq<Entry>) {
    && (forall i, j :: 0 <= i < j < |mapping| ==> mapping[i].name != mapping[j].name)
    && (forall i, j :: 0 <= i < j < |mapping| && mapping[i].token.Some? ==> mapping[i].token != mapping[j].token)
  }

  ghost predicate EntryShows(entry: Entry, store: Store, kids: Kids) {
    && (entry.token.Some? <==> entry.name in kids)
    && (entry.token.Some? ==> entry.token.value in store && store[entry.token.value] == kids[entry.name])
  }

  /** The entries and the store amount to the roster `r`. */
  ghost predicate Represents(mapping: seq<Entry>, store: Store, r: Roster) {
    && Linked(mapping) && RosterOk(r)
    && |r.order| == |mapping|
    && (forall i :: 0 <= i < |mapping| ==> r.order[i] == mapping[i].name)
    && (forall i :: 0 <= i < |mapping| ==> EntryShows(mapping[i], store, r.kids))
  }

  /** The token `vacant`, not in the store, is in no entry. */
  lemma VacantUnused(mapping: seq<Entry>, store: Store, r: Roster, vacant: nat)
    requires Represents(mapping, store, r) && vacant !in store
    ensures forall i :: 0 <= i < |mapping| ==> mapping[i].token != Some(vacant)
  {
    forall i | 0 <= i < |mapping| ensures mapping[i].token != Some(vacant) {
      assert EntryShows(mapping[i], store, r.kids);
    }
  }

  /** A child goes into the store under a free token, into its old entry. */
  lemma ReinsertedKid(mapping: seq<Entry>, store: Store, r: Roster, k: nat, c: Child, vacant: nat)
    requires Represents(mapping, store, r) && vacant !in store
    requires k < |mapping| && mapping[k].token.None?
    ensures var n := mapping[k].name;
            n !in r.kids && Represents(mapping[k := Entry(n, Some(vacant))], store[vacant := c], Add(r, n, c))
  {
    VacantUnused(mapping, store, r, vacant);
    var n := mapping[k].name;
    assert EntryShows(mapping[k], store, r.kids) && r.order[k] == n;
    forall i | 0 <= i < |mapping| && i != k ensures EntryShows(mapping[i], store[vacant := c], r.kids[n := c]) {
      assert r.order[i] == mapping[i].name != n;
    }
  }

  lemma LinkedPush(mapping: seq<Entry>, entry: Entry)
    requires Linked(mapping)
    requires forall i :: 0 <= i < |mapping| ==> mapping[i].name != entry.name && mapping[i].token != entry.token
    ensures Linked(mapping + [entry])
  {
  }

  lemma OrderPush(order: seq<Name>, n: Name)
    requires Distinct(order) && n !in order
    ensures Distinct(order + [n])
  {
  }

  /** A child goes into the store under a free token, into a new entry. */
  lemma AppendedKid(mapping: seq<Entry>, store: Store, r: Roster, n: Name, c: Child, vacant: nat)
    requires Represents(mapping, store, r) && vacant !in store && n !in r.order
    ensures n !in r.kids && Represents(mapping + [Entry(n, Some(vacant))], store[vacant := c], Add(r, n, c))
  {
    VacantUnused(mapping, store, r, vacant);
    OrderPush(r.order, n);
    forall i | 0 <= i < |mapping|
      ensures mapping[i].name != n && EntryShows(mapping[i], store[vacant := c], r.kids[n := c])
    {
      assert r.order[i] == mapping[i].name;
    }
    LinkedPush(mapping, Entry(n, Some(vacant)));
    hide Linked, Distinct;
    var mapping', r' := mapping + [Entry(n, Some(vacant))], Add(r, n, c);
    forall i | 0 <= i < |mapping'|
      ensures r'.order[i] == mapping'[i].name && EntryShows(mapping'[i], store[vacant := c], r'.kids)
    {
      if i < |mapping| { assert mapping'[i] == mapping[i] && r'.order[i] == r.order[i]; }
    }
  }

  lemma EntryAt(mapping: seq<Entry>, store: Store, r: Roster, i: nat)
    requires Represents(mapping, store, r) && i < |mapping|
    ensures |r.order| == |mapping| && r.order[i] == mapping[i].name && EntryShows(mapping[i], store, r.kids)
  {
  }

  /** A child is taken out of the store, and its entry emptied. */
  lemma TakenKid(mapping: seq<Entry>, store: Store, r: Roster, k: nat)
    requires Represents(mapping, store, r) && k < |mapping| && mapping[k].token.Some?
    ensures Represents(mapping[k := Entry(mapping[k].name, None)], store - {mapping[k].token.value},
                       Remove(r, mapping[k].name))
  {
    forall i | 0 <= i < |mapping| && i != k
      ensures EntryShows(mapping[i], store - {mapping[k].token.value}, r.kids - {mapping[k].name})
    {
      assert EntryShows(mapping[i], store, r.kids) && r.order[i] != r.order[k];
    }
  }

  /** A child changes in the store: it changes in the roster, and nobody else does. */
  lemma UpdatedKid(mapping: seq<Entry>, store: Store, r: Roster, k: nat, c: Child)
    requires Represents(mapping, store, r) && k < |mapping| && mapping[k].token.Some?
    ensures Represents(mapping, store[mapping[k].token.value := c], r.(kids := r.kids[mapping[k].name := c]))
  {
    assert EntryShows(mapping[k], store, r.kids);
    forall i | 0 <= i < |mapping| && i != k
      ensures EntryShows(mapping[i], store[mapping[k].token.value := c], r.kids[mapping[k].name := c])
    {
      assert EntryShows(mapping[i], store, r.kids) && r.order[i] != r.order[k];
    }
  }

  lemma {:induction false} RefusedStays(r: Roster, names: seq<Name>, k: nat)
    requires k <= |names| && StartEach(r, names[..k]).1.Some?
    ensures StartEach(r, names) == StartEach(r, names[..k])
    decreases |names| - k
  {
    if k == |names| {
      assert names[..k] == names;
    } else {
      assert names[..k + 1][..k] == names[..k];
      RefusedStays(r, names, k + 1);
    }
  }

  class SuperviseeMap {
    var mapping: seq<Entry>
    var store: Store
    /** The roster that the two fields amount to. */
    ghost var roster: Roster

    ghost predicate Valid()
      reads this
    {
      Represents(mapping, store, roster)
    }

    constructor ()
      ensures Valid() && roster == Roster([], map[])
    {
      mapping := [];
      store := map[];
      roster := Roster([], map[]);
    }

    /** Where the entry of `n` is. */
    method Find(n: Name) returns (at: Option<nat>)
      requires Valid()
      ensures at.Some? ==> at.value < |mapping| && mapping[at.value].name == n
      ensures at.None? ==> n !in roster.order
      ensures at.Some? ==> EntryShows(mapping[at.value], store, roster.kids)
      ensures at.None? ==> n !in roster.kids
    {
      for i := 0 to |mapping|
        invariant forall j :: 0 <= j < i ==> mapping[j].name != n
      {
        if mapping[i].name == n { return Some(i); }
      }
      return None;
    }

    /** Adds a child, unless one of that name is here; `vacant` is whatever token the store has free. */
    method Insert(n: Name, c: Child, vacant: nat) returns (added: bool)
      requires Valid() && vacant !in store
      modifies this
      ensures Valid()
      ensures added <==> n !in old(roster.kids)
      ensures roster == if added then Add(old(roster), n, c) else old(roster)
    {
      hide Represents, Add;
      var at := Find(n);
      if at.Some? {
        if mapping[at.value].token.Some? { return false; }
      }
      if at.Some? {
        ReinsertedKid(mapping, store, roster, at.value, c, vacant);
      } else {
        AppendedKid(mapping, store, roster, n, c, vacant);
      }
      store := store[vacant := c];
      var entry := Entry(n, Some(vacant));
      mapping := if at.Some? then mapping[at.value := entry] else mapping + [entry];
      roster := Add(roster, n, c);
      return true;
    }

    /** Takes the child `n` out; its entry stays, and keeps its place. */
    method Take(n: Name) returns (taken: Option<Child>)
      requires Valid()
      modifies this
      ensures Valid() && roster == Remove(old(roster), n)
      ensures taken == if n in old(roster.kids) then Some(old(roster.kids)[n]) else None
    {
      hide Represents;
      var at := Find(n);
      if at.Some? {
        if mapping[at.value].token.Some? {
          var token := mapping[at.value].token.value;
          TakenKid(mapping, store, roster, at.value);
          taken := Some(store[token]);
          store := store - {token};
          mapping := mapping[at.value := Entry(n, None)];
          roster := Remove(roster, n);
          return;
        }
      }
      assert roster.kids - {n} == roster.kids;
      return None;
    }

    method ListNames() returns (names: seq<Name>)
      requires Valid()
      ensures names == Names(roster)
    {
      names := [];
      for i := 0 to |mapping|
        invariant names == Present(roster.order[..i], roster.kids.Keys)
      {
        assert EntryShows(mapping[i], store, roster.kids);
        PresentPush(roster.order[..i], roster.order[i], roster.kids.Keys);
        assert roster.order[..i + 1] == roster.order[..i] + [roster.order[i]];
        if mapping[i].token.Some? { names := names + [mapping[i].name]; }
      }
      assert roster.order[..|mapping|] == roster.order;
    }

    method StartEntry(i: nat) returns (answer: StartAnswer)
      requires Valid() && i < |mapping| && mapping[i].token.Some?
      modifies this`store, this`roster
      ensures Valid() && mapping[i].name in old(roster.kids)
      ensures (roster, answer) == StartKid(old(roster), mapping[i].name)
    {
      hide Represents;
      EntryAt(mapping, store, roster, i);
      var token := mapping[i].token.value;
      var (life, a) := StartLife(store[token].life);
      UpdatedKid(mapping, store, roster, i, store[token].(life := life));
      roster := StartKid(roster, mapping[i].name).0;
      store := store[token := store[token].(life := life)];
      answer := a;
    }

    method StopEntry(i: nat) returns (outcome: StopOutcome)
      requires Valid() && i < |mapping| && mapping[i].token.Some?
      modifies this`store, this`roster
      ensures Valid() && mapping[i].name in old(roster.kids)
      ensures (roster, outcome) == StopKid(old(roster), mapping[i].name)
    {
      hide Represents;
      EntryAt(mapping, store, roster, i);
      var token := mapping[i].token.value;
      var (life, o) := StopLife(store[token].life);
      UpdatedKid(mapping, store, roster, i, store[token].(life := life));
      roster := StopKid(roster, mapping[i].name).0;
      store := store[token := store[token].(life := life)];
      outcome := o;
    }

    /** Starts everyone in order, up to the first that refuses. */
    method StartEveryone() returns (refused: Option<Name>)
      requires Valid()
      modifies this`store, this`roster
      ensures Valid() && (roster, refused) == StartAll(old(roster))
    {
      hide Represents, StartKid;
      ghost var before, order := roster, roster.order;
      SameLength();
      for i := 0 to |mapping|
        invariant Valid() && (roster, None) == StartEach(before, order[..i]) && roster.order == order
      {
        EntryAt(mapping, store, roster, i);
        assert order[..i + 1][..i] == order[..i] && order[..i + 1][i] == mapping[i].name;
        if mapping[i].token.Some? {
          var answer := StartEntry(i);
          StartKeepsOrder(old(roster), order[..i + 1]);
          if answer.RefusedStopping? {
            RefusedStays(before, order, i + 1);
            return Some(mapping[i].name);
          }
        }
      }
      assert order[..|mapping|] == order;
      return None;
    }

    /** Stops everyone, and lists in order those that owe an exit. */
    method StopEveryone() returns (stopping: seq<Name>)
      requires Valid()
      modifies this`store, this`roster
      ensures Valid() && (roster, stopping) == StopAll(old(roster))
    {
      hide Represents, StopKid;
      ghost var before, order := roster, roster.order;
      SameLength();
      stopping := [];
      for i := 0 to |mapping|
        invariant Valid() && (roster, stopping) == StopEach(before, order[..i]) && roster.order == order
      {
        EntryAt(mapping, store, roster, i);
        assert order[..i + 1][..i] == order[..i] && order[..i + 1][i] == mapping[i].name;
        if mapping[i].token.Some? {
          var outcome := StopEntry(i);
          StopKeepsOrder(before, order[..i + 1]);
          if outcome.Stopping? { stopping := stopping + [mapping[i].name]; }
        }
      }
      assert order[..|mapping|] == order;
    }

    lemma SameLength()
      requires Valid()
      ensures |roster.order| == |mapping|
    {
    }
  }

  lemma {:induction false} StartKeepsOrder(r: Roster, names: seq<Name>)
    ensures StartEach(r, names).0.order == r.order
  {
    if names != [] { StartKeepsOrder(r, names[..|names| - 1]); }
  }

  lemma {:induction false} StopKeepsOrder(r: Roster, names: seq<Name>)
    ensures StopEach(r, names).0.order == r.order
  {
    if names != [] { StopKeepsOrder(r, names[..|names| - 1]); }
  }
}
