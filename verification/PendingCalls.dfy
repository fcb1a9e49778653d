/** The calls and requests a node has sent and waits to have answered. Any number of sends are
    under way at a time, each in several steps, and one table holds what all of them wait for. */
module PendingCalls {
  import opened Common

  const TWO_TO_THE_64: nat := 0x1_0000_0000_0000_0000

  type CallId = nat

  /** How far a send has come. `Expecting` has its call in the table, if it is one, `Sent` is on
      its way and waited for, and `Over` is no longer waited for. */
  datatype Phase = Encoding | Encoded | Expecting | Sent | Failed | Over

  /** One send to `node`: the requests its message hands over and, for a call, its own id. */
  datatype Send = Send(node: NodeName, exports: seq<CallId>, call: Option<CallId>, phase: Phase)

  /** What became of an id: `node` answered, or it was given up for `node` or for all. */
  datatype Answer = Answer(id: CallId, from: Option<NodeName>)

  /** `issued` counts the ids handed out so far, and `table` holds which node is to answer each.
      `answers`, `owner`, which send an id was issued for, and `monitors`, the ids issued to
      monitors, are for stating properties. */
  datatype State = State(
    issued: nat, table: map<CallId, NodeName>, sends: map<nat, Send>,
    answers: seq<Answer>, owner: map<CallId, nat>, monitors: seq<CallId>)

  datatype Step =
    | Begin(send: nat, node: NodeName)
    | Export(send: nat)
    | EncodeFails(send: nat)
    | EncodeDone(send: nat, replies: bool)
    | TooLarge(send: nat)
    | Expect(send: nat)
    | LaneFails(send: nat)
    | LaneTakes(send: nat)
    | StopWaiting(send: nat)
    | ExportTimesOut(send: nat, k: nat)
    | MonitorId
    | Reply(from: NodeName, id: CallId)
    | NodeLost(node: NodeName, id: CallId)
    | ShutDown(id: CallId)

  /** The next id of the shared counter, which wraps around. */
  function NextId(s: State): CallId { s.issued % TWO_TO_THE_64 }

  function RemoveAll(table: map<CallId, NodeName>, ids: seq<CallId>): map<CallId, NodeName> {
    table - (set id | id in ids)
  }

  function CallOf(send: Send): seq<CallId> {
    if send.call.Some? then [send.call.value] else []
  }

  predicate Enabled(s: State, a: Step) {
    match a
    case Begin(send, _) => send !in s.sends
    case MonitorId => true
    case Reply(_, _) => true
    case NodeLost(_, _) => true
    case ShutDown(_) => true
    case _ =>
      && a.send in s.sends
      && var it := s.sends[a.send];
      match a
      case Export(_) => it.phase.Encoding?
      case EncodeFails(_) => it.phase.Encoding?
      case EncodeDone(_, _) => it.phase.Encoding?
      case TooLarge(_) => it.phase.Encoded?
      case Expect(_) => it.phase.Encoded?
      case LaneFails(_) => it.phase.Expecting?
      case LaneTakes(_) => it.phase.Expecting?
      case StopWaiting(_) => it.phase.Sent?
      case ExportTimesOut(_, k) => k < |it.exports|
      case _ => false
  }

  function Answered(s: State, id: CallId, from: Option<NodeName>): State {
    s.(table := s.table - {id}, answers := s.answers + [Answer(id, from)])
  }

  function Do(s: State, a: Step): State
    requires Enabled(s, a)
  {
    match a
    case Begin(send, node) => s.(sends := s.sends[send := Send(node, [], None, Encoding)])
    case Export(send) =>
      var (it, id) := (s.sends[send], NextId(s));
      s.(issued := s.issued + 1, table := s.table[id := it.node], owner := s.owner[id := send],
         sends := s.sends[send := it.(exports := it.exports + [id])])
    case EncodeFails(send) =>
      var it := s.sends[send];
      s.(table := RemoveAll(s.table, it.exports), sends := s.sends[send := it.(phase := Failed)])
    case EncodeDone(send, replies) =>
      var (it, id) := (s.sends[send], NextId(s));
      if replies then
        s.(issued := s.issued + 1, owner := s.owner[id := send],
           sends := s.sends[send := it.(call := Some(id), phase := Encoded)])
      else s.(sends := s.sends[send := it.(phase := Encoded)])
    case TooLarge(send) =>
      var it := s.sends[send];
      s.(table := RemoveAll(s.table, it.exports), sends := s.sends[send := it.(phase := Failed)])
    case Expect(send) =>
      var it := s.sends[send];
      s.(table := if it.call.Some? then s.table[it.call.value := it.node] else s.table,
         sends := s.sends[send := it.(phase := Expecting)])
    case LaneFails(send) =>
      var it := s.sends[send];
      s.(table := RemoveAll(RemoveAll(s.table, it.exports), CallOf(it)),
         sends := s.sends[send := it.(phase := Failed)])
    case LaneTakes(send) => s.(sends := s.sends[send := s.sends[send].(phase := Sent)])
    case StopWaiting(send) =>
      var it := s.sends[send];
      s.(table := RemoveAll(s.table, CallOf(it)), sends := s.sends[send := it.(phase := Over)])
    case ExportTimesOut(send, k) => s.(table := s.table - {s.sends[send].exports[k]})
    case MonitorId => s.(issued := s.issued + 1, monitors := s.monitors + [NextId(s)])
    case Reply(from, id) =>
      if id in s.table && s.table[id] == from then Answered(s, id, Some(from)) else s
    case NodeLost(node, id) =>
      if id in s.table && s.table[id] == node then Answered(s, id, None) else s
    case ShutDown(id) =>
      if id in s.table then Answered(s, id, None) else s
  }

  // ----- What every step keeps -----

  predicate Has(it: Send, id: CallId) {
    id in it.exports || it.call == Some(id)
  }

  /** The ids a send was given are all different. */
  ghost predicate Apart(it: Send) {
    && (it.call.Some? ==> it.call.value !in it.exports)
    && (it.phase.Encoding? ==> it.call.None?)
    && (forall i, j :: 0 <= i < j < |it.exports| ==> it.exports[i] != it.exports[j])
  }

  /** The monitors' ids were handed out, all different, and to no send. */
  ghost predicate MonitorsApart(s: State) {
    && (forall k :: 0 <= k < |s.monitors| ==> s.monitors[k] < s.issued && s.monitors[k] !in s.owner)
    && (forall j, k :: 0 <= j < k < |s.monitors| ==> s.monitors[j] != s.monitors[k])
  }

  /** Every id a send has is its own, and was handed out. */
  ghost predicate Owned(s: State) {
    && MonitorsApart(s)
    && (forall id :: id in s.owner ==> id < s.issued && s.owner[id] in s.sends)
    && (forall send :: send in s.sends ==> Apart(s.sends[send]))
    && (forall send, id :: send in s.sends && Has(s.sends[send], id) ==> id in s.owner && s.owner[id] == send)
  }

  /** The send `it` still has a use for an answer to `id`. */
  predicate WaitsFor(it: Send, id: CallId) {
    || (id in it.exports && !it.phase.Failed?)
    || (it.call == Some(id) && it.phase in {Expecting, Sent})
  }

  /** What the table holds is waited for, by a send to the node that is to answer. */
  ghost predicate TableOk(s: State) {
    forall id :: id in s.table ==>
      && id in s.owner && s.owner[id] in s.sends
      && s.table[id] == s.sends[s.owner[id]].node && WaitsFor(s.sends[s.owner[id]], id)
  }

  /** An id is answered once, by its own node if by any, and then no longer in the table. */
  ghost predicate AnswersOk(s: State) {
    && (forall k :: 0 <= k < |s.answers| ==> AnswerOk(s, s.answers[k]))
    && (forall j, k :: 0 <= j < k < |s.answers| ==> s.answers[j].id != s.answers[k].id)
  }

  ghost predicate AnswerOk(s: State, a: Answer) {
    && a.id !in s.table && a.id in s.owner && s.owner[a.id] in s.sends
    && (a.from.Some? ==> a.from.value == s.sends[s.owner[a.id]].node)
    && (s.sends[s.owner[a.id]].call == Some(a.id) ==> !s.sends[s.owner[a.id]].phase.Encoded?)
  }

  ghost predicate Inv(s: State) {
    Owned(s) && TableOk(s) && AnswersOk(s)
  }

  /** The counter has not gone all the way round. */
  predicate NotWrapped(s: State) {
    s.issued <= TWO_TO_THE_64
  }

  lemma FreshId(s: State)
    requires Inv(s) && s.issued < TWO_TO_THE_64
    ensures NextId(s) == s.issued && NextId(s) !in s.owner && NextId(s) !in s.table
    ensures forall k :: 0 <= k < |s.answers| ==> s.answers[k].id != NextId(s)
    ensures forall send :: send in s.sends ==> !Has(s.sends[send], NextId(s))
    ensures forall k :: 0 <= k < |s.monitors| ==> s.monitors[k] != NextId(s)
  {
    forall k | 0 <= k < |s.answers| ensures s.answers[k].id != NextId(s) {
      assert AnswerOk(s, s.answers[k]);
    }
  }

  /** One send moves on, and the table gains at most an id that is new or was not expected yet. */
  lemma AnswersCarry(s: State, s': State, send: nat, it': Send)
    requires AnswersOk(s) && s'.answers == s.answers && send in s.sends
    requires s'.sends == s.sends[send := it'] && it'.node == s.sends[send].node
    requires forall id :: id in s.owner ==> id in s'.owner && s'.owner[id] == s.owner[id]
    requires forall id :: id in s'.table && id !in s.table ==>
               id !in s.owner || (s.owner[id] == send && s.sends[send].call == Some(id) && s.sends[send].phase.Encoded?)
    requires it'.phase.Encoded? && it'.call.Some? ==> it'.call.value !in s.owner
    ensures AnswersOk(s')
  {
    forall k | 0 <= k < |s'.answers| ensures AnswerOk(s', s'.answers[k]) { assert AnswerOk(s, s.answers[k]); }
  }

  /** One send moves on, with at most one id more. */
  lemma OwnedCarry(s: State, s': State, send: nat, it': Send, added: Option<CallId>)
    requires Owned(s) && send in s.sends && s'.sends == s.sends[send := it'] && Apart(it')
    requires forall id: CallId :: Has(it', id) <==> Has(s.sends[send], id) || added == Some(id)
    requires s'.owner == if added.Some? then s.owner[added.value := send] else s.owner
    requires s.issued <= s'.issued && (added.Some? ==> added.value !in s.owner && added.value < s'.issued)
    requires s'.monitors == s.monitors && (added.Some? ==> added.value !in s.monitors)
    ensures Owned(s')
  {
  }

  /** One send moves on, and the table gains at most an id it now waits for. */
  lemma TableCarry(s: State, s': State, send: nat, it': Send)
    requires TableOk(s) && send in s.sends && s'.sends == s.sends[send := it'] && it'.node == s.sends[send].node
    requires forall id :: id in s.owner ==> id in s'.owner && s'.owner[id] == s.owner[id]
    requires forall id :: id in s'.table && id in s.table ==>
               s'.table[id] == s.table[id] && (WaitsFor(s.sends[send], id) ==> WaitsFor(it', id))
    requires forall id :: id in s'.table && id !in s.table ==>
               id in s'.owner && s'.owner[id] == send && s'.table[id] == it'.node && WaitsFor(it', id)
    ensures TableOk(s')
  {
  }

  lemma ApartAt(s: State, send: nat)
    requires Owned(s) && send in s.sends
    ensures Apart(s.sends[send])
    ensures forall id :: Has(s.sends[send], id) ==> id in s.owner && s.owner[id] == send
  {
  }

  lemma ExportKeeps(s: State, send: nat)
    requires Inv(s) && Enabled(s, Export(send)) && s.issued < TWO_TO_THE_64
    ensures Inv(Do(s, Export(send)))
  {
    hide NextId, AnswersOk, Owned, TableOk;
    FreshId(s);
    ApartAt(s, send);
    var (s', id) := (Do(s, Export(send)), NextId(s));
    var it' := s'.sends[send];
    forall j: CallId ensures Has(it', j) <==> Has(s.sends[send], j) || Some(id) == Some(j) {}
    AnswersCarry(s, s', send, it');
    OwnedCarry(s, s', send, it', Some(id));
    TableCarry(s, s', send, it');
  }

  lemma EncodeDoneKeeps(s: State, send: nat, replies: bool)
    requires Inv(s) && Enabled(s, EncodeDone(send, replies)) && (replies ==> s.issued < TWO_TO_THE_64)
    ensures Inv(Do(s, EncodeDone(send, replies)))
  {
    hide NextId, AnswersOk, Owned, TableOk;
    if replies { FreshId(s); }
    ApartAt(s, send);
    var s' := Do(s, EncodeDone(send, replies));
    var added := if replies then Some(NextId(s)) else None;
    var it' := s'.sends[send];
    forall j: CallId ensures Has(it', j) <==> Has(s.sends[send], j) || added == Some(j) {}
    AnswersCarry(s, s', send, it');
    OwnedCarry(s, s', send, it', added);
    TableCarry(s, s', send, it');
  }

  lemma ExpectKeeps(s: State, send: nat)
    requires Inv(s) && Enabled(s, Expect(send))
    ensures Inv(Do(s, Expect(send)))
  {
    hide AnswersOk, Owned, TableOk;
    ApartAt(s, send);
    var s' := Do(s, Expect(send));
    var (it, it') := (s.sends[send], s'.sends[send]);
    if it.call.Some? {
      CallNotExpected(s, send);
      assert Has(it, it.call.value);
    }
    forall j: CallId ensures Has(it', j) <==> Has(it, j) || None == Some(j) {}
    AnswersCarry(s, s', send, it');
    OwnedCarry(s, s', send, it', None);
    TableCarry(s, s', send, it');
  }

  /** A step that only takes entries out of the table, and moves one send on to `phase`. */
  ghost predicate Releases(s: State, s': State, send: nat)
    requires send in s'.sends
  {
    && s'.issued == s.issued && s'.answers == s.answers && s'.owner == s.owner && s'.monitors == s.monitors
    && s'.table.Keys <= s.table.Keys && (forall id :: id in s'.table ==> s'.table[id] == s.table[id])
    && send in s.sends && s'.sends == s.sends[send := s.sends[send].(phase := s'.sends[send].phase)]
    && !s'.sends[send].phase.Encoded? && !s'.sends[send].phase.Encoding?
    && (forall id :: id in s'.table && WaitsFor(s.sends[send], id) ==> WaitsFor(s'.sends[send], id))
  }

  lemma ReleaseKeeps(s: State, s': State, send: nat)
    requires Inv(s) && send in s'.sends && Releases(s, s', send)
    ensures Inv(s')
  {
    hide AnswersOk, Owned, TableOk;
    ApartAt(s, send);
    var (it, it') := (s.sends[send], s'.sends[send]);
    forall j: CallId ensures Has(it', j) <==> Has(it, j) || None == Some(j) {}
    AnswersCarry(s, s', send, it');
    OwnedCarry(s, s', send, it', None);
    TableCarry(s, s', send, it');
  }

  lemma AnsweredKeeps(s: State, id: CallId, from: Option<NodeName>)
    requires Inv(s) && id in s.table && (from.Some? ==> s.table[id] == from.value)
    ensures Inv(Answered(s, id, from))
  {
    AnswerAdds(s, id, from);
    hide AnswersOk;
  }

  lemma AnswerAdds(s: State, id: CallId, from: Option<NodeName>)
    requires Inv(s) && id in s.table && (from.Some? ==> s.table[id] == from.value)
    ensures AnswersOk(Answered(s, id, from))
  {
    var s' := Answered(s, id, from);
    var it := s.sends[s.owner[id]];
    assert Apart(it) && WaitsFor(it, id);
    hide Owned, TableOk;
    forall k | 0 <= k < |s.answers| ensures AnswerOk(s', s.answers[k]) && s.answers[k].id != id {
      assert AnswerOk(s, s.answers[k]);
    }
    assert AnswerOk(s', Answer(id, from));
  }

  lemma BeginKeeps(s: State, send: nat, node: NodeName)
    requires Inv(s) && Enabled(s, Begin(send, node))
    ensures Inv(Do(s, Begin(send, node)))
  {
    var s' := Do(s, Begin(send, node));
    assert Apart(s'.sends[send]);
    forall k | 0 <= k < |s'.answers| ensures AnswerOk(s', s'.answers[k]) { assert AnswerOk(s, s.answers[k]); }
  }

  lemma SameBooks(s: State, s': State)
    requires Inv(s) && s'.sends == s.sends && s'.answers == s.answers && s'.owner == s.owner && s'.issued >= s.issued
    requires MonitorsApart(s')
    requires s'.table.Keys <= s.table.Keys && forall id :: id in s'.table ==> s'.table[id] == s.table[id]
    ensures Inv(s')
  {
    forall k | 0 <= k < |s'.answers| ensures AnswerOk(s', s'.answers[k]) { assert AnswerOk(s, s.answers[k]); }
  }

  /** Main result, one step: whatever happens next, as long as the counter has not wrapped. */
  lemma StepKeeps(s: State, a: Step)
    requires Inv(s) && Enabled(s, a) && NotWrapped(Do(s, a))
    ensures Inv(Do(s, a))
  {
    hide Owned, TableOk, AnswersOk, Has, Inv, NextId;
    match a {
      case Begin(send, node) => BeginKeeps(s, send, node);
      case Export(send) => ExportKeeps(s, send);
      case EncodeDone(send, replies) => EncodeDoneKeeps(s, send, replies);
      case Expect(send) => ExpectKeeps(s, send);
      case EncodeFails(send) =>
        NoCallYet(s, send);
        ReleaseKeeps(s, Do(s, a), send);
      case TooLarge(send) =>
        if s.sends[send].call.Some? { CallNotExpected(s, send); }
        ReleaseKeeps(s, Do(s, a), send);
      case LaneFails(send) => ReleaseKeeps(s, Do(s, a), send);
      case LaneTakes(send) => ReleaseKeeps(s, Do(s, a), send);
      case StopWaiting(send) => ReleaseKeeps(s, Do(s, a), send);
      case ExportTimesOut(send, k) =>
        MonitorsStay(s, Do(s, a));
        SameBooks(s, Do(s, a));
      case MonitorId =>
        MonitorAdds(s);
        SameBooks(s, Do(s, a));
      case Reply(from, id) =>
        if id in s.table && s.table[id] == from { AnsweredKeeps(s, id, Some(from)); }
      case NodeLost(node, id) =>
        if id in s.table && s.table[id] == node { AnsweredKeeps(s, id, None); }
      case ShutDown(id) =>
        if id in s.table { AnsweredKeeps(s, id, None); }
    }
  }

  lemma MonitorsStay(s: State, s': State)
    requires Inv(s) && s'.monitors == s.monitors && s'.owner == s.owner && s'.issued == s.issued
    ensures MonitorsApart(s')
  {
    hide TableOk, AnswersOk;
  }

  lemma MonitorAdds(s: State)
    requires Inv(s) && s.issued < TWO_TO_THE_64
    ensures MonitorsApart(Do(s, MonitorId))
  {
    FreshId(s);
    hide NextId, TableOk, AnswersOk;
  }

  lemma NoCallYet(s: State, send: nat)
    requires Inv(s) && send in s.sends && s.sends[send].phase.Encoding?
    ensures s.sends[send].call.None?
  {
    assert Apart(s.sends[send]);
  }

  lemma CallNotExpected(s: State, send: nat)
    requires Inv(s) && send in s.sends && s.sends[send].phase.Encoded? && s.sends[send].call.Some?
    ensures s.sends[send].call.value !in s.table
  {
    var it := s.sends[send];
    assert Apart(it) && Has(it, it.call.value);
  }

  // ----- Runs -----

  ghost predicate EnabledRun(s: State, steps: seq<Step>)
    decreases |steps|
  {
    steps != [] ==> Enabled(s, steps[0]) && EnabledRun(Do(s, steps[0]), steps[1..])
  }

  ghost function DoAll(s: State, steps: seq<Step>): State
    requires EnabledRun(s, steps)
    decreases |steps|
  {
    if steps == [] then s else DoAll(Do(s, steps[0]), steps[1..])
  }

  lemma IssuedGrows(s: State, a: Step)
    requires Enabled(s, a)
    ensures s.issued <= Do(s, a).issued
  {
    hide NextId, RemoveAll;
  }

  lemma {:induction false} RunIssues(s: State, steps: seq<Step>)
    requires EnabledRun(s, steps)
    ensures s.issued <= DoAll(s, steps).issued
    decreases |steps|
  {
    if steps != [] {
      IssuedGrows(s, steps[0]);
      hide Do, Enabled;
      RunIssues(Do(s, steps[0]), steps[1..]);
    }
  }

  lemma {:induction false} RunKeeps(s: State, steps: seq<Step>)
    requires Inv(s) && EnabledRun(s, steps) && NotWrapped(DoAll(s, steps))
    ensures Inv(DoAll(s, steps))
    decreases |steps|
  {
    if steps != [] {
      RunIssues(Do(s, steps[0]), steps[1..]);
      StepKeeps(s, steps[0]);
      hide Do, Enabled, Inv;
      RunKeeps(Do(s, steps[0]), steps[1..]);
    }
  }

  function Idle(): State {
    State(0, map[], map[], [], map[], [])
  }

  /** What holds for the send `send`: no two of its ids are equal, and none is another send's or
      a monitor's; once it has failed it has no entry, and once it is over none for its call; and
      what answers one of its ids is its own node, if it is a node. */
  ghost predicate SoundFor(s: State, send: nat)
    requires send in s.sends
  {
    var it := s.sends[send];
    && Apart(it)
    && (forall other, id :: other in s.sends && other != send && Has(it, id) ==> !Has(s.sends[other], id))
    && (forall k :: 0 <= k < |s.monitors| ==> !Has(it, s.monitors[k]))
    && (it.phase.Failed? ==> forall id :: Has(it, id) ==> id !in s.table)
    && (it.phase.Over? && it.call.Some? ==> it.call.value !in s.table)
    && (forall k :: 0 <= k < |s.answers| && Has(it, s.answers[k].id) ==> s.answers[k].from in {None, Some(it.node)})
  }

  /** Main result: in every interleaving of sends, replies, losses and timeouts, until the
      counter wraps: no id is given out twice, be it for a call, a request or a monitor; no entry
      is left by a send that failed or is no longer waited for; and an id is answered at most
      once, by the node it went to if by any. */
  lemma CallsAreSound(steps: seq<Step>)
    requires EnabledRun(Idle(), steps) && NotWrapped(DoAll(Idle(), steps))
    ensures var s := DoAll(Idle(), steps);
            && (forall send :: send in s.sends ==> SoundFor(s, send))
            && (forall j, k :: 0 <= j < k < |s.monitors| ==> s.monitors[j] != s.monitors[k])
            && (forall j, k :: 0 <= j < k < |s.answers| ==> s.answers[j].id != s.answers[k].id)
  {
    RunKeeps(Idle(), steps);
    var s := DoAll(Idle(), steps);
    hide DoAll, EnabledRun, SoundFor;
    forall send | send in s.sends ensures SoundFor(s, send) { SoundAt(s, send); }
  }

  lemma SoundAt(s: State, send: nat)
    requires Inv(s) && send in s.sends
    ensures SoundFor(s, send)
  {
    ApartAt(s, send);
    var it := s.sends[send];
    if it.call.Some? { assert Has(it, it.call.value); }
    forall other, id | other in s.sends && send != other && Has(it, id) ensures !Has(s.sends[other], id) {
      assert s.owner[id] == send;
    }
    forall k | 0 <= k < |s.answers| && Has(it, s.answers[k].id)
      ensures s.answers[k].from in {None, Some(it.node)}
    {
      assert AnswerOk(s, s.answers[k]);
    }
  }

  /** Main result: whatever one send gives up, because it fails, is no longer waited for or has
      a request time out, the entries of every other send stay. */
  lemma OnlyOwnEntriesGo(s: State, a: Step, other: nat, id: CallId)
    requires Inv(s) && Enabled(s, a)
    requires a.EncodeFails? || a.TooLarge? || a.LaneFails? || a.StopWaiting? || a.ExportTimesOut?
    requires other in s.sends && other != a.send && Has(s.sends[other], id) && id in s.table
    ensures id in Do(s, a).table && Do(s, a).table[id] == s.table[id]
  {
    ApartAt(s, other);
    ApartAt(s, a.send);
    assert !Has(s.sends[a.send], id);
    hide Inv;
    if a.ExportTimesOut? { assert Has(s.sends[a.send], s.sends[a.send].exports[a.k]); }
  }

  // ----- Nothing is lost -----

  predicate IsAnswered(s: State, id: CallId) {
    exists k :: 0 <= k < |s.answers| && s.answers[k].id == id
  }

  /** A call that is being sent or was sent waits for the answer of its node, unless it has one. */
  ghost predicate CallsWait(s: State) {
    forall send :: send in s.sends && s.sends[send].call.Some? && s.sends[send].phase in {Expecting, Sent} ==>
      CallWaits(s, s.sends[send])
  }

  ghost predicate CallWaits(s: State, it: Send)
    requires it.call.Some?
  {
    IsAnswered(s, it.call.value) || (it.call.value in s.table && s.table[it.call.value] == it.node)
  }

  /** What takes an entry out of the table: an answer of its own node, the loss of that node, the
      end of everything, or something that its own send gives up. */
  predicate LetsGo(s: State, a: Step, id: CallId)
    requires id in s.table && id in s.owner
  {
    match a
    case Reply(from, i) => i == id && s.table[id] == from
    case NodeLost(node, i) => i == id && s.table[id] == node
    case ShutDown(i) => i == id
    case EncodeFails(send) => s.owner[id] == send
    case TooLarge(send) => s.owner[id] == send
    case LaneFails(send) => s.owner[id] == send
    case StopWaiting(send) => s.owner[id] == send && send in s.sends && s.sends[send].call == Some(id)
    case ExportTimesOut(send, k) =>
      s.owner[id] == send && send in s.sends && k < |s.sends[send].exports| && s.sends[send].exports[k] == id
    case _ => false
  }

  /** An entry stays in the table, for the same node, until one of these, and these do take it. */
  lemma EntryStaysUntil(s: State, a: Step, id: CallId)
    requires Inv(s) && Enabled(s, a) && NotWrapped(Do(s, a)) && id in s.table
    ensures id in s.owner
    ensures id in Do(s, a).table <==> !LetsGo(s, a, id)
    ensures id in Do(s, a).table ==> Do(s, a).table[id] == s.table[id]
  {
    var send := s.owner[id];
    ApartAt(s, send);
    assert WaitsFor(s.sends[send], id);
    if a.Export? { FreshId(s); }
    if a.Expect? && s.sends[a.send].call.Some? { CallNotExpected(s, a.send); }
    match a {
      case EncodeFails(other) => ApartAt(s, other);
      case TooLarge(other) => ApartAt(s, other);
      case LaneFails(other) => ApartAt(s, other);
      case StopWaiting(other) =>
        ApartAt(s, other);
        if s.sends[other].call.Some? { assert Has(s.sends[other], s.sends[other].call.value); }
      case ExportTimesOut(other, k) =>
        ApartAt(s, other);
        assert Has(s.sends[other], s.sends[other].exports[k]);
      case _ =>
    }
    hide Inv, NextId;
  }

  /** Where a step of the send `send` takes it from `phase`; a step of any other leaves it there. */
  function PhaseAfter(a: Step, send: nat, phase: Phase): Phase {
    match a
    case EncodeDone(it, _) => if it == send then Encoded else phase
    case Expect(it) => if it == send then Expecting else phase
    case LaneTakes(it) => if it == send then Sent else phase
    case StopWaiting(it) => if it == send then Over else phase
    case EncodeFails(it) => if it == send then Failed else phase
    case TooLarge(it) => if it == send then Failed else phase
    case LaneFails(it) => if it == send then Failed else phase
    case _ => phase
  }

  /** How far a step brings its own send; no other moves, none is forgotten, and each begins with
      nothing asked. */
  lemma SendsMoveOn(s: State, a: Step)
    requires Enabled(s, a)
    ensures var s' := Do(s, a);
            && s'.sends.Keys == s.sends.Keys + (if a.Begin? then {a.send} else {})
            && (a.Begin? ==> s'.sends[a.send] == Send(a.node, [], None, Encoding))
            && forall send :: send in s.sends ==>
                 && s'.sends[send].phase == PhaseAfter(a, send, s.sends[send].phase)
                 && s'.sends[send].node == s.sends[send].node
                 && (s'.sends[send].exports != s.sends[send].exports ==> a == Export(send))
                 && (s'.sends[send].call != s.sends[send].call ==> a == EncodeDone(send, true))
  {
    hide NextId, RemoveAll;
  }

  /** What enters the table: a request as it is exported and a call as it is expected, each for
      the node it goes to; and an answer is recorded just as it is taken, from whom it came. */
  lemma EntriesAndAnswers(s: State, a: Step)
    requires Inv(s) && Enabled(s, a) && NotWrapped(Do(s, a))
    ensures var s' := Do(s, a);
            && (a.Export? ==> NextId(s) in s'.table && s'.table[NextId(s)] == s.sends[a.send].node
                              && s'.sends[a.send].exports == s.sends[a.send].exports + [NextId(s)])
            && (a.Expect? && s.sends[a.send].call.Some? ==>
                  s.sends[a.send].call.value in s'.table && s'.table[s.sends[a.send].call.value] == s.sends[a.send].node)
            && (a.EncodeDone? && a.replies ==> s'.sends[a.send].call == Some(NextId(s)))
            && s'.answers == s.answers + match a
                 case Reply(from, id) => if id in s.table && s.table[id] == from then [Answer(id, Some(from))] else []
                 case NodeLost(node, id) => if id in s.table && s.table[id] == node then [Answer(id, None)] else []
                 case ShutDown(id) => if id in s.table then [Answer(id, None)] else []
                 case _ => []
  {
    hide Inv, NextId;
  }

  lemma CallsWaitStep(s: State, a: Step)
    requires Inv(s) && CallsWait(s) && Enabled(s, a) && NotWrapped(Do(s, a))
    ensures CallsWait(Do(s, a))
  {
    var s' := Do(s, a);
    EntriesAndAnswers(s, a);
    forall send | send in s'.sends && s'.sends[send].call.Some? && s'.sends[send].phase in {Expecting, Sent}
      ensures CallWaits(s', s'.sends[send])
    {
      CallWaitsStep(s, a, send);
    }
    hide Do, Inv, CallWaits, Enabled;
  }

  lemma AnsweredStays(s: State, a: Step, id: CallId)
    requires Enabled(s, a) && IsAnswered(s, id)
    ensures IsAnswered(Do(s, a), id)
  {
    var k :| 0 <= k < |s.answers| && s.answers[k].id == id;
    assert Do(s, a).answers[k] == s.answers[k];
  }

  lemma CallWaitsStep(s: State, a: Step, send: nat)
    requires Inv(s) && CallsWait(s) && Enabled(s, a) && NotWrapped(Do(s, a))
    requires var s' := Do(s, a);
             send in s'.sends && s'.sends[send].call.Some? && s'.sends[send].phase in {Expecting, Sent}
    ensures CallWaits(Do(s, a), Do(s, a).sends[send])
  {
    hide Inv, NextId, LetsGo, IsAnswered, RemoveAll;
    EntriesAndAnswers(s, a);
    if send in s.sends && s.sends[send].call.Some? && s.sends[send].phase in {Expecting, Sent} {
      assert CallWaits(s, s.sends[send]);
      CallGoesOnWaiting(s, a, send);
      assert Do(s, a).sends[send].call == s.sends[send].call && Do(s, a).sends[send].node == s.sends[send].node;
    }
  }

  lemma CallGoesOnWaiting(s: State, a: Step, send: nat)
    requires Inv(s) && Enabled(s, a) && NotWrapped(Do(s, a)) && send in s.sends && s.sends[send].call.Some?
    requires CallWaits(s, s.sends[send])
    requires send in Do(s, a).sends && Do(s, a).sends[send].phase in {Expecting, Sent}
    ensures CallWaits(Do(s, a), s.sends[send])
  {
    hide Inv, Do, LetsGo, IsAnswered, Owned;
    var id := s.sends[send].call.value;
    if IsAnswered(s, id) {
      AnsweredStays(s, a, id);
    } else {
      EntryStaysUntil(s, a, id);
      OwnCall(s, send);
      if LetsGo(s, a, id) { GoesAnswered(s, a, id, send); }
    }
  }

  lemma OwnCall(s: State, send: nat)
    requires Inv(s) && send in s.sends && s.sends[send].call.Some?
    ensures s.sends[send].call.value in s.owner && s.owner[s.sends[send].call.value] == send
  {
    ApartAt(s, send);
    assert Has(s.sends[send], s.sends[send].call.value);
  }

  lemma GoesAnswered(s: State, a: Step, id: CallId, send: nat)
    requires Inv(s) && Enabled(s, a) && id in s.table && id in s.owner && LetsGo(s, a, id)
    requires s.owner[id] == send && send in s.sends && send in Do(s, a).sends
    requires s.sends[send].call == Some(id) && Do(s, a).sends[send].phase in {Expecting, Sent}
    ensures IsAnswered(Do(s, a), id)
  {
    ApartAt(s, send);
    hide Inv;
    var s' := Do(s, a);
    if a.Reply? || a.NodeLost? || a.ShutDown? {
      assert s'.answers[|s.answers|].id == id;
    }
  }

  /** Main result: in every interleaving, until the counter wraps, a call that was sent and is
      waited for is in the table, for the node it went to, until it is answered or given up; so
      that node's reply to it is recorded. */
  lemma {:induction false} SentCallsWait(s: State, steps: seq<Step>)
    requires Inv(s) && CallsWait(s) && EnabledRun(s, steps) && NotWrapped(DoAll(s, steps))
    ensures CallsWait(DoAll(s, steps))
    decreases |steps|
  {
    if steps != [] {
      RunIssues(Do(s, steps[0]), steps[1..]);
      StepKeeps(s, steps[0]);
      CallsWaitStep(s, steps[0]);
      hide Do, Enabled, Inv, CallsWait;
      SentCallsWait(Do(s, steps[0]), steps[1..]);
    }
  }

  /** From the start: the reply of the node a waiting call went to is recorded as its answer. */
  lemma RepliesArrive(steps: seq<Step>, send: nat)
    requires EnabledRun(Idle(), steps) && NotWrapped(DoAll(Idle(), steps))
    requires var s := DoAll(Idle(), steps);
             send in s.sends && s.sends[send].phase.Sent? && s.sends[send].call.Some?
             && !IsAnswered(s, s.sends[send].call.value)
    ensures var s := DoAll(Idle(), steps);
            var it := s.sends[send];
            Do(s, Reply(it.node, it.call.value)).answers == s.answers + [Answer(it.call.value, Some(it.node))]
  {
    SentCallsWait(Idle(), steps);
    var s := DoAll(Idle(), steps);
    hide DoAll, EnabledRun;
    assert CallWaits(s, s.sends[send]);
  }

  /** Ids are given out twice just if the counter goes all the way round in between. */
  lemma IdsRepeatIff(s: State, s': State)
    requires s.issued <= s'.issued
    ensures NextId(s) == NextId(s') <==> exists laps: nat :: s'.issued == s.issued + laps * TWO_TO_THE_64
  {
    var d := s'.issued - s.issued;
    if NextId(s) == NextId(s') {
      var laps := s'.issued / TWO_TO_THE_64 - s.issued / TWO_TO_THE_64;
      assert s'.issued == s.issued + laps * TWO_TO_THE_64;
    }
    forall laps: nat | s'.issued == s.issued + laps * TWO_TO_THE_64 ensures NextId(s) == NextId(s') {
      LapsKeepRemainder(s.issued, laps);
    }
  }

  lemma {:induction false} LapsKeepRemainder(n: nat, laps: nat)
    ensures (n + laps * TWO_TO_THE_64) % TWO_TO_THE_64 == n % TWO_TO_THE_64
  {
    if laps > 0 {
      LapsKeepRemainder(n, laps - 1);
      var m := n + (laps - 1) * TWO_TO_THE_64;
      assert n + laps * TWO_TO_THE_64 == m + TWO_TO_THE_64;
    }
  }

  // ----- The table and a whole send -----

  class Pending {
    var next: CallId
    var calls: map<CallId, NodeName>
    ghost var answers: seq<Answer>

    constructor ()
      ensures next == 0 && calls == map[] && answers == []
    {
      next := 0;
      calls := map[];
      answers := [];
    }

    method FetchId() returns (id: CallId)
      requires next < TWO_TO_THE_64
      modifies this`next
      ensures id == old(next) && next == (id + 1) % TWO_TO_THE_64
    {
      id := next;
      next := (next + 1) % TWO_TO_THE_64;
    }

    /** `from` answers the call `id`: only the node it went to may. */
    method Complete(from: NodeName, id: CallId) returns (answered: bool)
      modifies this
      ensures answered <==> id in old(calls) && old(calls)[id] == from
      ensures next == old(next) && calls == if answered then old(calls) - {id} else old(calls)
      ensures answers == old(answers) + if answered then [Answer(id, Some(from))] else []
    {
      answered := id in calls && calls[id] == from;
      if answered {
        calls := calls - {id};
        answers := answers + [Answer(id, Some(from))];
      }
    }

    /** The node is gone: exactly the calls that went to it are given up, each once. */
    method FailNode(node: NodeName)
      modifies this
      ensures next == old(next)
      ensures calls == old(calls) - (set id | id in old(calls) && old(calls)[id] == node)
      ensures old(answers) <= answers
      ensures GivenUp(answers[|old(answers)|..], set id | id in old(calls) && old(calls)[id] == node)
    {
      var failed := set id | id in calls && calls[id] == node;
      ghost var all, before := failed, |answers|;
      while failed != {}
        invariant failed <= all && next == old(next)
        invariant calls == old(calls) - (all - failed)
        invariant old(answers) <= answers
        invariant GivenUp(answers[before..], all - failed)
      {
        var id :| id in failed;
        GiveUpOne(answers[before..], all - failed, id);
        assert answers[before..] + [Answer(id, None)] == (answers + [Answer(id, None)])[before..];
        assert all - failed + {id} == all - (failed - {id});
        failed := failed - {id};
        calls := calls - {id};
        answers := answers + [Answer(id, None)];
      }
      assert all - failed == all;
    }

    /** Nothing more will be answered: every call is given up, once. */
    method FailAll()
      modifies this
      ensures next == old(next) && calls == map[] && old(answers) <= answers
      ensures GivenUp(answers[|old(answers)|..], old(calls).Keys)
    {
      var left := calls.Keys;
      ghost var all, before := left, |answers|;
      while left != {}
        invariant left <= all && next == old(next)
        invariant calls == old(calls) - (all - left)
        invariant old(answers) <= answers
        invariant GivenUp(answers[before..], all - left)
      {
        var id :| id in left;
        GiveUpOne(answers[before..], all - left, id);
        assert answers[before..] + [Answer(id, None)] == (answers + [Answer(id, None)])[before..];
        assert all - left + {id} == all - (left - {id});
        left := left - {id};
        calls := calls - {id};
        answers := answers + [Answer(id, None)];
      }
      assert all - left == all;
    }

    /** Registers `count` requests for `node` to answer. */
    method ExportAll(node: NodeName, count: nat) returns (ids: seq<CallId>)
      requires next + count < TWO_TO_THE_64 && forall id :: id in calls ==> id < next
      modifies this`next, this`calls
      ensures next == old(next) + count && |ids| == count
      ensures Gained(old(calls), calls, ids, node)
      ensures forall id :: id in calls ==> id < next
    {
      ids := [];
      for k := 0 to count
        invariant next == old(next) + k && |ids| == k
        invariant Gained(old(calls), calls, ids, node)
        invariant forall id :: id in calls ==> id < next
      {
        var id := FetchId();
        GainOne(old(calls), calls, ids, node, id);
        calls := calls[id := node];
        ids := ids + [id];
      }
    }

    /** Hands `count` requests to `node` with a message and, if it `replies`, waits for its reply.
        Whether the message encodes, how long its frame is and whether the lane takes it are up to
        the surroundings. However far the send gets before it fails, the table ends up as it was;
        if it succeeds the table gains the requests and the call, and nothing else changes. */
    method SendMessage(node: NodeName, count: nat, replies: bool, encodes: bool, frameLen: nat, laneTakes: bool)
      returns (ids: seq<CallId>, sent: bool)
      requires next + count + 1 < TWO_TO_THE_64 && forall id :: id in calls ==> id < next
      modifies this`next, this`calls
      ensures sent <==> encodes && frameLen <= MAX_MESSAGE_SIZE && laneTakes
      ensures !sent ==> calls == old(calls)
      ensures sent ==> |ids| == count + (if replies then 1 else 0) && Gained(old(calls), calls, ids, node)
      ensures forall id :: id in calls ==> id < next
    {
      ids := ExportAll(node, count);
      if !encodes {
        Forget(old(calls), ids, node);
        return ids, false;
      }
      var call := None;
      if replies {
        var id := FetchId();
        call := Some(id);
      }
      if frameLen > MAX_MESSAGE_SIZE {
        Forget(old(calls), ids, node);
        return ids, false;
      }
      if call.Some? {
        GainOne(old(calls), calls, ids, node, call.value);
        calls := calls[call.value := node];
        ids := ids + [call.value];
      }
      if !laneTakes {
        Forget(old(calls), ids, node);
        return ids, false;
      }
      return ids, true;
    }

    /** Takes `ids` out of the table again; `before` is what is left then. */
    method Forget(ghost before: map<CallId, NodeName>, ids: seq<CallId>, node: NodeName)
      requires Gained(before, calls, ids, node)
      modifies this`calls
      ensures calls == before
    {
      for k := 0 to |ids|
        invariant calls == old(calls) - (set id | id in ids[..k])
      {
        assert ids[..k + 1] == ids[..k] + [ids[k]];
        calls := calls - {ids[k]};
      }
      assert ids[..|ids|] == ids;
    }
  }

  /** `answers` gives up each of `ids` once, and nothing else. */
  ghost predicate GivenUp(answers: seq<Answer>, ids: set<CallId>) {
    && (forall k :: 0 <= k < |answers| ==> answers[k].id in ids && answers[k].from == None)
    && (forall j, k :: 0 <= j < k < |answers| ==> answers[j].id != answers[k].id)
    && (forall id :: id in ids ==> exists k :: 0 <= k < |answers| && answers[k].id == id)
  }

  lemma GiveUpOne(answers: seq<Answer>, ids: set<CallId>, id: CallId)
    requires GivenUp(answers, ids) && id !in ids
    ensures GivenUp(answers + [Answer(id, None)], ids + {id})
  {
    var all := answers + [Answer(id, None)];
    forall j | j in ids + {id} ensures exists k :: 0 <= k < |all| && all[k].id == j {
      if j == id {
        assert all[|answers|].id == j;
      } else {
        var k :| 0 <= k < |answers| && answers[k].id == j;
        assert all[k].id == j;
      }
    }
  }

  /** `after` is `before` and, new in it, `ids`, which `node` is to answer. */
  ghost predicate Gained(before: map<CallId, NodeName>, after: map<CallId, NodeName>, ids: seq<CallId>, node: NodeName) {
    && after.Keys == before.Keys + (set id | id in ids)
    && (forall id :: id in ids ==> id !in before && after[id] == node)
    && (forall id :: id in before ==> after[id] == before[id])
    && (forall i, j :: 0 <= i < j < |ids| ==> ids[i] != ids[j])
  }

  lemma GainOne(before: map<CallId, NodeName>, after: map<CallId, NodeName>, ids: seq<CallId>, node: NodeName, id: CallId)
    requires Gained(before, after, ids, node) && id !in after
    ensures Gained(before, after[id := node], ids + [id], node)
  {
  }
}
