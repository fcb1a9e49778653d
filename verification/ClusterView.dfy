/** What a node knows about its cluster: the mutators of that view, the events they publish, and
    subscribers that start from a snapshot and follow the events. */
module ClusterView {
  import opened Common

  datatype Member = Member(name: NodeName, addr: nat, generation: nat)

  datatype View = View(members: map<NodeName, Member>, unreachable: set<NodeName>)

  datatype Event = Up(member: Member) | Left(member: Member) | Failed(member: Member)
                 | Unreachable(member: Member) | Reachable(member: Member)

  datatype Op =
    | MemberUp(member: Member)
    | MemberUnreachable(node: NodeName)
    | MemberReachable(node: NodeName)
    | MemberLeft(node: NodeName, generation: nat)
    | MemberFailed(member: Member)
    | MemberRenamed(before: Member, after: Member)

  predicate Contains(v: View, m: Member) {
    m.name in v.members && v.members[m.name] == m
  }

  function Without(v: View, n: NodeName): View {
    View(v.members - {n}, v.unreachable - {n})
  }

  /** One mutator: the view afterwards and the events it publishes. */
  function Mutate(v: View, op: Op): (View, seq<Event>) {
    match op
    case MemberUp(m) =>
      if Contains(v, m) then (v, [])
      else (View(v.members[m.name := m], v.unreachable - {m.name}), [Up(m)])
    case MemberUnreachable(n) =>
      if n !in v.members || n in v.unreachable then (v, [])
      else (v.(unreachable := v.unreachable + {n}), [Unreachable(v.members[n])])
    case MemberReachable(n) =>
      if n !in v.members || n !in v.unreachable then (v, [])
      else (v.(unreachable := v.unreachable - {n}), [Reachable(v.members[n])])
    case MemberLeft(n, generation) =>
      if n !in v.members || v.members[n].generation != generation then (v, [])
      else (Without(v, n), [Left(v.members[n])])
    case MemberFailed(m) =>
      if !Contains(v, m) then (v, []) else (Without(v, m.name), [Failed(m)])
    case MemberRenamed(before, after) =>
      if !Contains(v, before) then (v, [])
      else (View(v.members[after.name := after], v.unreachable - {after.name}), [Failed(before), Up(after)])
  }

  // ----- Following the events -----

  /** What an event tells a subscriber. */
  function Follow(v: View, e: Event): View {
    match e
    case Up(m) => View(v.members[m.name := m], v.unreachable - {m.name})
    case Left(m) => Without(v, m.name)
    case Failed(m) => Without(v, m.name)
    case Unreachable(m) => v.(unreachable := v.unreachable + {m.name})
    case Reachable(m) => v.(unreachable := v.unreachable - {m.name})
  }

  function FollowAll(v: View, events: seq<Event>): View
    decreases |events|
  {
    if events == [] then v else Follow(FollowAll(v, events[..|events| - 1]), events[|events| - 1])
  }

  /** An event is news in the view it finds. */
  ghost predicate Legal(v: View, e: Event) {
    match e
    case Up(m) => !Contains(v, m)
    case Left(m) => Contains(v, m)
    case Failed(m) => Contains(v, m)
    case Unreachable(m) => Contains(v, m) && m.name !in v.unreachable
    case Reachable(m) => Contains(v, m) && m.name in v.unreachable
  }

  ghost predicate AllLegal(v: View, events: seq<Event>) {
    forall k :: 0 <= k < |events| ==> Legal(FollowAll(v, events[..k]), events[k])
  }

  /** Members are filed under their names, and only members are unreachable. */
  ghost predicate ViewOk(v: View) {
    && (forall n :: n in v.members ==> v.members[n].name == n)
    && v.unreachable <= v.members.Keys
  }

  /** A rename keeps the node's name. */
  ghost predicate Keeps(op: Op) {
    op.MemberRenamed? ==> op.before.name == op.after.name
  }

  lemma FollowOne(v: View, e: Event)
    ensures FollowAll(v, [e]) == Follow(v, e)
  {
    assert [e][..0] == [];
  }

  lemma FollowPush(v: View, events: seq<Event>, e: Event)
    ensures FollowAll(v, events + [e]) == Follow(FollowAll(v, events), e)
  {
    assert (events + [e])[..|events + [e]| - 1] == events;
  }

  /** One mutator: following its events gives the view it leaves, each of them is news where it
      comes, and the view stays in order. */
  lemma MutateFollows(v: View, op: Op)
    requires ViewOk(v) && Keeps(op)
    ensures var (v', events) := Mutate(v, op);
            ViewOk(v') && FollowAll(v, events) == v' && AllLegal(v, events)
  {
    var (v', events) := Mutate(v, op);
    assert events[..0] == [];
    if events != [] {
      FollowOne(v, events[0]);
      if op.MemberRenamed? {
        assert events[..1] == [Failed(op.before)];
        FollowPush(v, [Failed(op.before)], Up(op.after));
        assert (v.members - {op.after.name})[op.after.name := op.after] == v.members[op.after.name := op.after];
      }
    }
  }

  /** Nobody but the node `n` is known or reachable otherwise than before. */
  ghost predicate OthersSame(v: View, v': View, n: NodeName) {
    forall k :: k != n ==>
      && (k in v'.members <==> k in v.members) && (k in v.members ==> v'.members[k] == v.members[k])
      && (k in v'.unreachable <==> k in v.unreachable)
  }

  /** What each call leaves of the node it is about, and of nobody else: who is a member
      afterwards, whether it counts as reachable, and what the event says of it. */
  lemma MutateMeans(v: View, op: Op)
    requires ViewOk(v)
    ensures var (v', events) := Mutate(v, op);
            match op
            case MemberUp(m) =>
              && Contains(v', m) && OthersSame(v, v', m.name)
              && (!Contains(v, m) ==> m.name !in v'.unreachable && events == [Up(m)])
              && (Contains(v, m) ==> v' == v && events == [])
            case MemberUnreachable(n) =>
              && v'.members == v.members && OthersSame(v, v', n) && (n in v.members <==> n in v'.unreachable)
              && events == if n in v.members && n !in v.unreachable then [Unreachable(v.members[n])] else []
            case MemberReachable(n) =>
              && v'.members == v.members && OthersSame(v, v', n) && n !in v'.unreachable
              && events == if n in v.unreachable then [Reachable(v.members[n])] else []
            case MemberLeft(n, generation) =>
              && OthersSame(v, v', n)
              && (n in v'.members <==> n in v.members && v.members[n].generation != generation)
              && (n in v'.members ==> v' == v)
              && events == if n in v.members && n !in v'.members then [Left(v.members[n])] else []
            case MemberFailed(m) =>
              && OthersSame(v, v', m.name)
              && (m.name in v'.members <==> m.name in v.members && !Contains(v, m)) && (m.name in v'.members ==> v' == v)
              && events == if Contains(v, m) then [Failed(m)] else []
            case MemberRenamed(before, after) =>
              && OthersSame(v, v', after.name) && (!Contains(v, before) ==> v' == v && events == [])
              && (Contains(v, before) ==>
                    Contains(v', after) && after.name !in v'.unreachable && events == [Failed(before), Up(after)])
  {
  }

  /** A call publishes nothing just if it changes nothing and is no rename of a member: a rename
      to what the member was changes nothing, but is published. */
  lemma SilentIffNoChange(v: View, op: Op)
    requires ViewOk(v)
    ensures Mutate(v, op).1 == [] <==>
            Mutate(v, op).0 == v && !(op.MemberRenamed? && Contains(v, op.before))
  {
    var (v', events) := Mutate(v, op);
    if events != [] {
      match op {
        case MemberUp(m) => assert v'.members[m.name] == m;
        case MemberRenamed(_, _) =>
        case MemberUnreachable(n) => assert n in v'.unreachable;
        case MemberReachable(n) => assert n !in v'.unreachable;
        case MemberLeft(n, _) => assert n !in v'.members;
        case MemberFailed(m) => assert m.name !in v'.members;
      }
    }
  }

  /** Events of a rename lead a subscriber to the right view just if the rename keeps the name. */
  lemma RenameFollowsIff(v: View, before: Member, after: Member)
    requires ViewOk(v) && Contains(v, before)
    ensures var (v', events) := Mutate(v, MemberRenamed(before, after));
            FollowAll(v, events) == v' <==> before.name == after.name
  {
    var (v', events) := Mutate(v, MemberRenamed(before, after));
    if before.name == after.name {
      MutateFollows(v, MemberRenamed(before, after));
    } else {
      FollowOne(v, Failed(before));
      FollowPush(v, [Failed(before)], Up(after));
      assert events == [Failed(before)] + [Up(after)];
      assert before.name in v'.members && before.name !in FollowAll(v, events).members;
    }
  }

  lemma {:induction false} FollowSplits(v: View, first: seq<Event>, rest: seq<Event>)
    ensures FollowAll(v, first + rest) == FollowAll(FollowAll(v, first), rest)
    decreases |rest|
  {
    if rest == [] {
      assert first + rest == first;
    } else {
      var init, last := rest[..|rest| - 1], rest[|rest| - 1];
      assert first + rest == (first + init) + [last];
      FollowPush(v, first + init, last);
      FollowSplits(v, first, init);
    }
  }

  // ----- Subscribing, step by step -----

  /** A subscriber: holding the read lock, then subscribed from the `start`-th event on, and
      finally with its snapshot. */
  datatype Subscriber = Locked | Subscribed(start: nat) | Ready(start: nat, snapshot: View)

  /** The writer holding the write lock: about to change the view, or with events yet to publish. */
  datatype Writer = NoWriter | Holding(op: Op) | Publishing(rest: seq<Event>)

  datatype Shared = Shared(view: View, log: seq<Event>, writer: Writer, readers: map<nat, Subscriber>)

  datatype Step =
    | LockWrite(op: Op)
    | Change
    | Publish
    | Unlock
    | LockRead(id: nat)
    | Subscribe(id: nat)
    | Snapshot(id: nat)

  predicate IsReading(readers: map<nat, Subscriber>, id: nat) {
    id in readers && !readers[id].Ready?
  }

  /** What a reader-writer lock lets happen next. */
  ghost predicate Enabled(s: Shared, a: Step) {
    match a
    case LockWrite(op) => s.writer.NoWriter? && Keeps(op) && forall id :: !IsReading(s.readers, id)
    case Change => s.writer.Holding?
    case Publish => s.writer.Publishing? && s.writer.rest != []
    case Unlock => s.writer.Publishing? && s.writer.rest == []
    case LockRead(id) => s.writer.NoWriter? && id !in s.readers
    case Subscribe(id) => id in s.readers && s.readers[id].Locked?
    case Snapshot(id) => id in s.readers && s.readers[id].Subscribed?
  }

  ghost function Apply(s: Shared, a: Step): Shared
    requires Enabled(s, a)
  {
    match a
    case LockWrite(op) => s.(writer := Holding(op))
    case Change => var (v, events) := Mutate(s.view, s.writer.op); s.(view := v, writer := Publishing(events))
    case Publish => s.(log := s.log + [s.writer.rest[0]], writer := Publishing(s.writer.rest[1..]))
    case Unlock => s.(writer := NoWriter)
    case LockRead(id) => s.(readers := s.readers[id := Locked])
    case Subscribe(id) => s.(readers := s.readers[id := Subscribed(|s.log|)])
    case Snapshot(id) => s.(readers := s.readers[id := Ready(s.readers[id].start, s.view)])
  }

  function Unpublished(w: Writer): seq<Event> {
    if w.Publishing? then w.rest else []
  }

  /** What `sub` makes of the events: its snapshot, and those published since it subscribed. */
  ghost predicate UpToDate(s: Shared, sub: Subscriber) {
    match sub
    case Locked => true
    case Subscribed(start) => start == |s.log|
    case Ready(start, snapshot) =>
      && start <= |s.log| && ViewOk(snapshot)
      && FollowAll(snapshot, s.log[start..] + Unpublished(s.writer)) == s.view
      && AllLegal(snapshot, s.log[start..] + Unpublished(s.writer))
  }

  ghost predicate Inv(s: Shared) {
    && ViewOk(s.view)
    && (!s.writer.NoWriter? ==> forall id :: !IsReading(s.readers, id))
    && (s.writer.Holding? ==> Keeps(s.writer.op))
    && (forall id :: id in s.readers ==> UpToDate(s, s.readers[id]))
  }

  lemma LegalSplits(v: View, first: seq<Event>, rest: seq<Event>)
    requires AllLegal(v, first) && AllLegal(FollowAll(v, first), rest)
    ensures AllLegal(v, first + rest)
  {
    var all := first + rest;
    forall k | 0 <= k < |all| ensures Legal(FollowAll(v, all[..k]), all[k]) {
      if k < |first| {
        assert all[..k] == first[..k];
      } else {
        assert all[..k] == first + rest[..k - |first|];
        FollowSplits(v, first, rest[..k - |first|]);
      }
    }
  }

  lemma ChangeKeeps(s: Shared, sub: Subscriber)
    requires ViewOk(s.view) && s.writer.Holding? && Keeps(s.writer.op) && UpToDate(s, sub)
    ensures UpToDate(Apply(s, Change), sub)
  {
    hide Mutate, AllLegal, ViewOk;
    if sub.Ready? {
      var (v, events) := Mutate(s.view, s.writer.op);
      var seen := s.log[sub.start..];
      assert seen + [] == seen;
      MutateFollows(s.view, s.writer.op);
      FollowSplits(sub.snapshot, seen, events);
      LegalSplits(sub.snapshot, seen, events);
    }
  }

  lemma PublishKeeps(s: Shared, sub: Subscriber)
    requires Enabled(s, Publish) && UpToDate(s, sub) && !sub.Subscribed?
    ensures UpToDate(Apply(s, Publish), sub)
  {
    hide AllLegal, ViewOk;
    if sub.Ready? {
      var s' := Apply(s, Publish);
      assert s'.log[sub.start..] + s'.writer.rest == s.log[sub.start..] + s.writer.rest;
    }
  }

  /** Main result, one step of the interleaving. */
  lemma StepKeeps(s: Shared, a: Step)
    requires Inv(s) && Enabled(s, a)
    ensures Inv(Apply(s, a))
  {
    hide AllLegal, FollowAll;
    var s' := Apply(s, a);
    match a {
      case Change =>
        MutateFollows(s.view, s.writer.op);
        forall id | id in s.readers ensures UpToDate(s', s.readers[id]) { ChangeKeeps(s, s.readers[id]); }
      case Publish =>
        forall id | id in s.readers ensures UpToDate(s', s.readers[id]) {
          assert !IsReading(s.readers, id);
          PublishKeeps(s, s.readers[id]);
        }
      case LockRead(id) => forall j ensures IsReading(s'.readers, j) <==> IsReading(s.readers, j) || j == id {}
      case Subscribe(id) => assert IsReading(s.readers, id);
      case Snapshot(id) =>
        assert IsReading(s.readers, id);
        SnapshotIsView(s, s.readers[id].start);
      case _ =>
    }
  }

  lemma SnapshotIsView(s: Shared, start: nat)
    requires Inv(s) && s.writer.NoWriter? && start == |s.log|
    ensures UpToDate(s, Ready(start, s.view))
  {
    assert s.log[start..] + Unpublished(s.writer) == [];
  }

  ghost predicate EnabledRun(s: Shared, steps: seq<Step>)
    decreases |steps|
  {
    steps != [] ==> Enabled(s, steps[0]) && EnabledRun(Apply(s, steps[0]), steps[1..])
  }

  ghost function ApplyAll(s: Shared, steps: seq<Step>): Shared
    requires EnabledRun(s, steps)
    decreases |steps|
  {
    if steps == [] then s else ApplyAll(Apply(s, steps[0]), steps[1..])
  }

  lemma {:induction false} RunKeeps(s: Shared, steps: seq<Step>)
    requires Inv(s) && EnabledRun(s, steps)
    ensures Inv(ApplyAll(s, steps))
    decreases |steps|
  {
    if steps != [] {
      StepKeeps(s, steps[0]);
      hide Inv, Apply, Enabled;
      RunKeeps(Apply(s, steps[0]), steps[1..]);
    }
  }

  /** Main result: each change is in a subscriber's snapshot or among the events it is sent,
      never both and never neither. In every interleaving of writers and subscribers, whenever
      nobody is writing, the events since a subscription lead from its snapshot to the view as
      it is, and each of them was news. */
  lemma SnapshotPlusEvents(steps: seq<Step>, id: nat)
    requires EnabledRun(Shared(View(map[], {}), [], NoWriter, map[]), steps)
    ensures var s := ApplyAll(Shared(View(map[], {}), [], NoWriter, map[]), steps);
            && s.view.unreachable <= s.view.members.Keys
            && (s.writer.NoWriter? && id in s.readers && s.readers[id].Ready? ==>
                  && s.readers[id].start <= |s.log|
                  && FollowAll(s.readers[id].snapshot, s.log[s.readers[id].start..]) == s.view
                  && AllLegal(s.readers[id].snapshot, s.log[s.readers[id].start..]))
  {
    var s0 := Shared(View(map[], {}), [], NoWriter, map[]);
    RunKeeps(s0, steps);
    var s := ApplyAll(s0, steps);
    hide ApplyAll, EnabledRun, FollowAll, AllLegal;
    if s.writer.NoWriter? && id in s.readers && s.readers[id].Ready? {
      assert UpToDate(s, s.readers[id]);
      assert s.log[s.readers[id].start..] + [] == s.log[s.readers[id].start..];
    }
  }

  // ----- The handle itself -----

  class Cluster {
    var members: map<NodeName, Member>
    var unreachable: set<NodeName>
    var published: seq<Event>

    ghost function Now(): View
      reads this
    {
      View(members, unreachable)
    }

    /** Each mutator changes the view and publishes just as `op` says. */
    twostate predicate Did(op: Op)
      reads this
    {
      Now() == Mutate(old(Now()), op).0 && published == old(published) + Mutate(old(Now()), op).1
    }

    constructor ()
      ensures Now() == View(map[], {}) && published == []
    {
      members := map[];
      unreachable := {};
      published := [];
    }

    method Up(m: Member)
      modifies this
      ensures Did(MemberUp(m))
    {
      var isNews := !(m.name in members && members[m.name] == m);
      members := members[m.name := m];
      if isNews {
        unreachable := unreachable - {m.name};
        published := published + [Event.Up(m)];
      } else {
        assert members == old(members);
      }
    }

    method ReportUnreachable(n: NodeName) returns (news: bool)
      modifies this
      ensures Did(MemberUnreachable(n)) && (news <==> published != old(published))
    {
      if n !in members { return false; }
      news := n !in unreachable;
      if news {
        unreachable := unreachable + {n};
        published := published + [Unreachable(members[n])];
      }
    }

    method ReportReachable(n: NodeName) returns (news: bool)
      modifies this
      ensures Did(MemberReachable(n)) && (news <==> published != old(published))
    {
      if n !in members { return false; }
      news := n in unreachable;
      if news {
        unreachable := unreachable - {n};
        published := published + [Reachable(members[n])];
      }
    }

    method Departed(n: NodeName, generation: nat) returns (known: bool)
      modifies this
      ensures Did(MemberLeft(n, generation))
      ensures known <==> n in old(members) && old(members)[n].generation == generation
    {
      if n !in members || members[n].generation != generation { return false; }
      published := published + [Left(members[n])];
      members := members - {n};
      unreachable := unreachable - {n};
      return true;
    }

    method DeclaredDown(m: Member)
      modifies this
      ensures Did(MemberFailed(m))
    {
      if m.name in members && members[m.name] == m {
        members := members - {m.name};
        unreachable := unreachable - {m.name};
        published := published + [Failed(m)];
      }
    }

    method Renamed(before: Member, after: Member)
      modifies this
      ensures Did(MemberRenamed(before, after))
    {
      if before.name in members && members[before.name] == before {
        members := members[after.name := after];
        unreachable := unreachable - {after.name};
        published := published + [Failed(before)];
        published := published + [Event.Up(after)];
      }
    }
  }
}
