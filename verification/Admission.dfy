/** The bound on what waits for one actor: two counters, which the router checks and adds to and
    the actor's task takes from, each in steps that interleave. */
module Admission {
  import opened Common

  const QUEUE_MESSAGES: nat := 100_000
  const QUEUE_BYTES: nat := 16 * 1024 * 1024

  /** Where the router is with a message of `len` bytes. What it loaded may be out of date. */
  datatype Router =
    | Resting
    | Counted(len: nat, messages: int)
    | Measured(len: nat, messages: int, bytes: int)
    | AddedMessage(len: nat)
    | Admitted(len: nat)
    | Rejected(len: nat)
    | TakingBack(len: nat)
    | Gone

  /** Where the actor's task is with the message it took. */
  datatype Task = Waiting | Took(len: nat) | Uncounted(len: nat)

  /** `sent` and `taken` are all messages that ever entered and left the queue, for stating properties. */
  datatype State = State(
    messages: int, bytes: int, queue: seq<nat>, closed: bool, router: Router, task: Task,
    sent: seq<nat>, taken: seq<nat>)

  datatype Step =
    | LoadMessages(len: nat, value: int)
    | LoadBytes(value: int)
    | Decide
    | AddBytes
    | Enqueue
    | TakeBackMessage
    | TakeBackBytes
    | Take
    | SubtractMessage
    | SubtractBytes
    | CloseQueue

  /** The router's verdict on a message of `len` bytes. */
  predicate LetsIn(len: nat, messages: int, bytes: int) {
    !(messages > 0 && (messages >= QUEUE_MESSAGES || bytes + len > QUEUE_BYTES))
  }

  /** Only the router adds, so what it loads is what there is now or what there was before the
      actor took something away. */
  predicate Enabled(s: State, a: Step) {
    match a
    case LoadMessages(_, value) => s.router.Resting? && value >= s.messages
    case LoadBytes(value) => s.router.Counted? && value >= s.bytes
    case Decide => s.router.Measured?
    case AddBytes => s.router.AddedMessage?
    case Enqueue => s.router.Admitted?
    case TakeBackMessage => s.router.Rejected?
    case TakeBackBytes => s.router.TakingBack?
    case Take => s.task.Waiting? && s.queue != []
    case SubtractMessage => s.task.Took?
    case SubtractBytes => s.task.Uncounted?
    case CloseQueue => s.task.Waiting?
  }

  function Do(s: State, a: Step): State
    requires Enabled(s, a)
  {
    match a
    case LoadMessages(len, value) => s.(router := Counted(len, value))
    case LoadBytes(value) => s.(router := Measured(s.router.len, s.router.messages, value))
    case Decide =>
      if LetsIn(s.router.len, s.router.messages, s.router.bytes)
      then s.(messages := s.messages + 1, router := AddedMessage(s.router.len))
      else s.(router := Resting)
    case AddBytes => s.(bytes := s.bytes + s.router.len, router := Admitted(s.router.len))
    case Enqueue =>
      if s.closed then s.(router := Rejected(s.router.len))
      else s.(queue := s.queue + [s.router.len], sent := s.sent + [s.router.len], router := Resting)
    case TakeBackMessage => s.(messages := s.messages - 1, router := TakingBack(s.router.len))
    case TakeBackBytes => s.(bytes := s.bytes - s.router.len, router := Gone)
    case Take => s.(queue := s.queue[1..], taken := s.taken + [s.queue[0]], task := Took(s.queue[0]))
    case SubtractMessage => s.(messages := s.messages - 1, task := Uncounted(s.task.len))
    case SubtractBytes => s.(bytes := s.bytes - s.task.len, task := Waiting)
    case CloseQueue => s.(closed := true)
  }

  function Sum(lens: seq<nat>): nat {
    if lens == [] then 0 else Sum(lens[..|lens| - 1]) + lens[|lens| - 1]
  }

  lemma {:induction false} SumSplits(a: seq<nat>, b: seq<nat>)
    ensures Sum(a + b) == Sum(a) + Sum(b)
  {
    if b == [] {
      assert a + b == a;
    } else {
      assert (a + b)[..|a + b| - 1] == a + b[..|b| - 1];
      SumSplits(a, b[..|b| - 1]);
    }
  }

  lemma SumFirst(a: seq<nat>)
    requires a != []
    ensures Sum(a) == a[0] + Sum(a[1..])
  {
    assert a == [a[0]] + a[1..];
    SumSplits([a[0]], a[1..]);
    assert [a[0]][..0] == [];
  }

  // ----- What every step keeps -----

  /** What of the two counters the router has added but not sent. */
  function RouterMessages(r: Router): nat {
    if r.AddedMessage? || r.Admitted? || r.Rejected? then 1 else 0
  }

  function RouterBytes(r: Router): nat {
    if r.Admitted? || r.Rejected? || r.TakingBack? then r.len else 0
  }

  /** What the actor has taken but not subtracted. */
  function TaskMessages(t: Task): nat { if t.Took? then 1 else 0 }

  function TaskBytes(t: Task): nat { if t.Took? || t.Uncounted? then t.len else 0 }

  ghost predicate Bounded(queue: seq<nat>) {
    |queue| <= QUEUE_MESSAGES && (|queue| >= 2 ==> Sum(queue) <= QUEUE_BYTES)
  }

  /** There is room for a message of `len` bytes. */
  ghost predicate RoomFor(queue: seq<nat>, len: nat) {
    queue == [] || (|queue| < QUEUE_MESSAGES && Sum(queue) + len <= QUEUE_BYTES)
  }

  ghost predicate Inv(s: State) {
    && s.messages == |s.queue| + RouterMessages(s.router) + TaskMessages(s.task)
    && s.bytes == Sum(s.queue) + RouterBytes(s.router) + TaskBytes(s.task)
    && Bounded(s.queue)
    && (s.router.Counted? || s.router.Measured? ==> s.router.messages >= |s.queue|)
    && (s.router.Measured? ==> s.router.bytes >= Sum(s.queue))
    && (s.router.AddedMessage? || s.router.Admitted? ==> RoomFor(s.queue, s.router.len))
    && s.taken + s.queue == s.sent
  }

  lemma EnqueueKeeps(s: State)
    requires Inv(s) && s.router.Admitted?
    ensures Inv(Do(s, Enqueue))
  {
    if !s.closed {
      SumSplits(s.queue, [s.router.len]);
      assert [s.router.len][..0] == [];
      assert Sum([]) == 0;
      assert s.taken + (s.queue + [s.router.len]) == s.taken + s.queue + [s.router.len];
      hide Sum;
    }
  }

  lemma TakeKeeps(s: State)
    requires Inv(s) && s.task.Waiting? && s.queue != []
    ensures Inv(Do(s, Take))
  {
    SumFirst(s.queue);
    assert s.queue == [s.queue[0]] + s.queue[1..];
    assert s.taken + [s.queue[0]] + s.queue[1..] == s.taken + s.queue;
    if |s.queue| == 1 { assert s.queue[1..] == []; }
  }

  /** Main result, one step of the interleaving. */
  lemma StepKeeps(s: State, a: Step)
    requires Inv(s) && Enabled(s, a)
    ensures Inv(Do(s, a))
  {
    match a {
      case Enqueue => EnqueueKeeps(s);
      case Take => TakeKeeps(s);
      case Decide => hide Sum;
      case _ => hide Sum, Bounded, RoomFor, LetsIn;
    }
  }

  /** A queue nothing was ever sent to. */
  ghost predicate Unused(s: State) {
    && s.messages == 0 && s.bytes == 0 && s.queue == [] && s.sent == [] && s.taken == []
    && !s.closed && s.router.Resting? && s.task.Waiting?
  }

  ghost predicate EnabledRun(s: State, steps: seq<Step>)
    decreases |steps|
  {
    steps != [] ==> Enabled(s, steps[0]) && EnabledRun(Do(s, steps[0]), steps[1..])
  }

  ghost function DoAll(s: State, steps: seq<Step>): State
    requires EnabledRun(s, steps)
    decreases |steps|
  {
    if steps == [] then s else DoAll(Do(s, steps[0]), steps[1..])
  }

  lemma {:induction false} RunKeeps(s: State, steps: seq<Step>)
    requires Inv(s) && EnabledRun(s, steps)
    ensures Inv(DoAll(s, steps))
    decreases |steps|
  {
    if steps != [] {
      StepKeeps(s, steps[0]);
      hide Inv, Do, Enabled;
      RunKeeps(Do(s, steps[0]), steps[1..]);
    }
  }

  lemma UnusedOk(s: State)
    requires Unused(s)
    ensures Inv(s)
  {
  }

  lemma BoundedMeans(queue: seq<nat>)
    requires Bounded(queue)
    ensures |queue| <= QUEUE_MESSAGES && (|queue| >= 2 ==> Sum(queue) <= QUEUE_BYTES)
  {
  }

  /** Main result: in every interleaving of the router's steps and the actor's, the counters
      never go below zero and never below what waits, no more messages wait than there may, two
      or more of them never add up to more than they may, and none is lost or overtaken. */
  lemma WaitingIsBounded(start: State, steps: seq<Step>)
    requires Unused(start) && EnabledRun(start, steps)
    ensures var s := DoAll(start, steps);
            && s.messages >= |s.queue| && s.bytes >= Sum(s.queue)
            && |s.queue| <= QUEUE_MESSAGES
            && (|s.queue| >= 2 ==> Sum(s.queue) <= QUEUE_BYTES)
            && s.taken + s.queue == s.sent
  {
    hide DoAll, EnabledRun, Sum, Bounded, Unused;
    UnusedOk(start);
    RunKeeps(start, steps);
    BoundedMeans(DoAll(start, steps).queue);
  }

  /** When the router and the actor are both at rest the counters are exact. */
  lemma ExactAtRest(start: State, steps: seq<Step>)
    requires Unused(start) && EnabledRun(start, steps)
    ensures var s := DoAll(start, steps);
            (s.router.Resting? || s.router.Gone?) && s.task.Waiting? ==>
              s.messages == |s.queue| && s.bytes == Sum(s.queue)
  {
    hide DoAll, EnabledRun, Sum, Bounded, Unused;
    UnusedOk(start);
    RunKeeps(start, steps);
    BoundedMeans(DoAll(start, steps).queue);
  }

  /** With both at rest, a message is let in just if nothing waits or both limits leave room
      for it. So one that finds the queue empty is let in, however large. */
  lemma SettledVerdict(s: State, len: nat)
    requires Inv(s) && s.router.Resting? && s.task.Waiting?
    ensures var s1 := Do(s, LoadMessages(len, s.messages));
            var s2 := Do(s1, LoadBytes(s1.bytes));
            Do(s2, Decide).router == (if RoomFor(s.queue, len) then AddedMessage(len) else Resting)
  {
    if s.queue == [] {
      assert Sum(s.queue) == 0;
    } else {
      assert |s.queue| > 0;
      hide Sum;
    }
  }

  // ----- Refused with nothing waiting -----

  /** With nothing waiting any more, the verdict is on what was loaded: a message is refused just
      if something was counted and what was loaded is at one of the limits. */
  lemma RefusedWithNothingWaiting(s: State)
    requires Inv(s) && s.router.Measured? && s.queue == []
    ensures Do(s, Decide).router.Resting? <==>
            s.router.messages > 0
            && (s.router.messages >= QUEUE_MESSAGES || s.router.bytes + s.router.len > QUEUE_BYTES)
    ensures !Do(s, Decide).router.Resting? ==> Do(s, Decide).router == AddedMessage(s.router.len)
  {
  }

  lemma {:induction false} RunAppend(s: State, first: seq<Step>, rest: seq<Step>)
    requires EnabledRun(s, first) && EnabledRun(DoAll(s, first), rest)
    ensures EnabledRun(s, first + rest) && DoAll(s, first + rest) == DoAll(DoAll(s, first), rest)
    decreases |first|
  {
    hide Enabled, Do;
    if first == [] {
      assert first + rest == rest;
    } else {
      assert (first + rest)[1..] == first[1..] + rest && (first + rest)[0] == first[0];
      RunAppend(Do(s, first[0]), first[1..], rest);
    }
  }

  /** Every load is up to date when it is made, and no message is larger than messages between
      nodes can be. */
  ghost predicate PromptRun(s: State, steps: seq<Step>)
    decreases |steps|
  {
    steps != [] ==>
      && Enabled(s, steps[0]) && Prompt(s, steps[0])
      && PromptRun(Do(s, steps[0]), steps[1..])
  }

  predicate Prompt(s: State, a: Step) {
    match a
    case LoadMessages(len, value) => value == s.messages && len <= MAX_MESSAGE_SIZE
    case LoadBytes(value) => value == s.bytes
    case _ => true
  }

  lemma {:induction false} PromptIsEnabled(s: State, steps: seq<Step>)
    requires PromptRun(s, steps)
    ensures EnabledRun(s, steps)
    decreases |steps|
  {
    if steps != [] { PromptIsEnabled(Do(s, steps[0]), steps[1..]); }
  }

  lemma PromptPush(s: State, a: Step, steps: seq<Step>)
    requires Enabled(s, a) && Prompt(s, a) && PromptRun(Do(s, a), steps)
    ensures PromptRun(s, [a] + steps) && EnabledRun(s, [a] + steps) && EnabledRun(Do(s, a), steps)
    ensures DoAll(s, [a] + steps) == DoAll(Do(s, a), steps)
  {
    PromptIsEnabled(Do(s, a), steps);
    assert ([a] + steps)[1..] == steps && ([a] + steps)[0] == a;
    hide Enabled, Do, Prompt;
  }

  lemma {:induction false} PromptAppend(s: State, first: seq<Step>, rest: seq<Step>)
    requires PromptRun(s, first) && EnabledRun(s, first) && PromptRun(DoAll(s, first), rest)
    ensures PromptRun(s, first + rest)
    decreases |first|
  {
    hide Enabled, Do, Prompt;
    if first == [] {
      assert first + rest == rest;
    } else {
      assert (first + rest)[1..] == first[1..] + rest && (first + rest)[0] == first[0];
      PromptAppend(Do(s, first[0]), first[1..], rest);
    }
  }

  /** Where both are at rest with `queue` waiting. */
  ghost predicate Settled(s: State, queue: seq<nat>) {
    Inv(s) && s.queue == queue && s.router.Resting? && s.task.Waiting? && !s.closed
  }

  /** A message for which there is room goes in, in five steps of the router. */
  lemma MessageGoesIn(s: State, queue: seq<nat>, len: nat) returns (steps: seq<Step>)
    requires Settled(s, queue) && RoomFor(queue, len) && len <= MAX_MESSAGE_SIZE
    ensures PromptRun(s, steps) && EnabledRun(s, steps) && Settled(DoAll(s, steps), queue + [len])
  {
    SettledVerdict(s, len);
    hide Sum, Bounded, RoomFor;
    var s1 := Do(s, LoadMessages(len, s.messages));
    var s2 := Do(s1, LoadBytes(s1.bytes));
    var s3 := Do(s2, Decide);
    var s4 := Do(s3, AddBytes);
    var s5 := Do(s4, Enqueue);
    hide LetsIn;
    assert DoAll(s5, []) == s5;
    PromptPush(s4, Enqueue, []);
    PromptPush(s3, AddBytes, [Enqueue] + []);
    PromptPush(s2, Decide, [AddBytes] + ([Enqueue] + []));
    PromptPush(s1, LoadBytes(s1.bytes), [Decide] + ([AddBytes] + ([Enqueue] + [])));
    steps := [LoadBytes(s1.bytes)] + ([Decide] + ([AddBytes] + ([Enqueue] + [])));
    PromptPush(s, LoadMessages(len, s.messages), steps);
    steps := [LoadMessages(len, s.messages)] + steps;
    hide DoAll;
    PromptIsEnabled(s, steps);
    RunKeeps(s, steps);
  }

  lemma {:induction false} MessagesGoIn(s: State, len: nat, count: nat) returns (steps: seq<Step>)
    requires Settled(s, []) && len <= MAX_MESSAGE_SIZE && count <= 4
    ensures PromptRun(s, steps) && EnabledRun(s, steps) && Settled(DoAll(s, steps), Copies(len, count))
  {
    hide Settled, Enabled, Do, Prompt;
    if count == 0 {
      steps := [];
      assert DoAll(s, []) == s;
    } else {
      var first := MessagesGoIn(s, len, count - 1);
      var s1 := DoAll(s, first);
      CopiesSum(len, count - 1);
      var rest := MessageGoesIn(s1, Copies(len, count - 1), len);
      RunAppend(s, first, rest);
      PromptAppend(s, first, rest);
      steps := first + rest;
    }
  }

  function Copies(len: nat, count: nat): seq<nat> {
    if count == 0 then [] else Copies(len, count - 1) + [len]
  }

  lemma {:induction false} CopiesSum(len: nat, count: nat)
    ensures |Copies(len, count)| == count && Sum(Copies(len, count)) == count * len
    ensures count < 4 && len <= MAX_MESSAGE_SIZE ==> RoomFor(Copies(len, count), len)
  {
    if count > 0 {
      CopiesSum(len, count - 1);
      assert Copies(len, count)[..count - 1] == Copies(len, count - 1);
    }
  }

  /** The actor takes what waits, one after the other. */
  lemma {:induction false} QueueDrains(s: State) returns (steps: seq<Step>)
    requires Inv(s) && s.router.Measured? && s.task.Waiting?
    ensures PromptRun(s, steps) && EnabledRun(s, steps)
    ensures var s' := DoAll(s, steps);
            Inv(s') && s'.router == s.router && s'.task.Waiting? && s'.queue == []
    decreases |s.queue|
  {
    hide Sum, Bounded;
    if s.queue == [] {
      steps := [];
      assert DoAll(s, []) == s;
    } else {
      var s1 := Do(s, Take);
      var s2 := Do(s1, SubtractMessage);
      var s3 := Do(s2, SubtractBytes);
      StepKeeps(s, Take);
      StepKeeps(s1, SubtractMessage);
      StepKeeps(s2, SubtractBytes);
      hide Inv;
      var rest := QueueDrains(s3);
      PromptPush(s2, SubtractBytes, rest);
      PromptPush(s1, SubtractMessage, [SubtractBytes] + rest);
      steps := [SubtractMessage] + ([SubtractBytes] + rest);
      PromptPush(s, Take, steps);
      steps := [Take] + steps;
    }
  }

  /** A run on which it happens: four messages wait when the router counts them for a fifth, and
      the actor is through with all of them before the router decides. Every load was up to date
      when it was made, and no message is larger than messages can be. */
  lemma EmptiedQueueRefuses(start: State, len: nat) returns (steps: seq<Step>)
    requires Unused(start) && len <= MAX_MESSAGE_SIZE && 5 * len > QUEUE_BYTES
    ensures PromptRun(start, steps) && EnabledRun(start, steps)
    ensures var s := DoAll(start, steps);
            && s.queue == [] && s.messages == 0 && s.bytes == 0 && s.router == Measured(len, 4, 4 * len)
            && s.taken == s.sent && Do(s, Decide).router.Resting?
  {
    hide Unused, Copies, Inv, Sum;
    UnusedSettled(start);
    var fill := MessagesGoIn(start, len, 4);
    var s1 := DoAll(start, fill);
    CopiesSum(len, 4);
    CountsAre(s1, Copies(len, 4));
    var (count, measure) := (LoadMessages(len, s1.messages), LoadBytes(s1.bytes));
    var s2 := Do(s1, count);
    var s3 := Do(s2, measure);
    StepKeeps(s1, count);
    StepKeeps(s2, measure);
    var drain := QueueDrains(s3);
    PromptPush(s2, measure, drain);
    PromptPush(s1, count, [measure] + drain);
    var rest := [count] + ([measure] + drain);
    RunAppend(start, fill, rest);
    PromptAppend(start, fill, rest);
    steps := fill + rest;
    var s := DoAll(start, steps);
    assert s == DoAll(s3, drain);
    hide DoAll, EnabledRun, PromptRun;
    DrainedCounts(s);
  }

  lemma UnusedSettled(s: State)
    requires Unused(s)
    ensures Settled(s, [])
  {
  }

  lemma CountsAre(s: State, queue: seq<nat>)
    requires Settled(s, queue)
    ensures Inv(s) && s.messages == |queue| && s.bytes == Sum(queue)
  {
  }

  lemma DrainedCounts(s: State)
    requires Inv(s) && s.router.Measured? && s.task.Waiting? && s.queue == []
    ensures s.messages == 0 && s.bytes == 0 && s.taken == s.sent
  {
    assert Sum([]) == 0;
    assert s.taken + [] == s.taken;
  }

  // ----- Never, if nothing waits as it is counted -----

  /** In a run whose loads are up to date: nothing is larger than messages can be, and what waits
      or is being taken is no more than the messages counted and one more. */
  ghost predicate PromptInv(s: State) {
    && Inv(s)
    && Sized(s.queue)
    && TaskBytes(s.task) <= MAX_MESSAGE_SIZE
    && (!s.router.Resting? && !s.router.Gone? ==> s.router.len <= MAX_MESSAGE_SIZE)
    && (s.router.Counted? || s.router.Measured? ==>
          s.bytes <= (s.router.messages + 1) * MAX_MESSAGE_SIZE && s.router.messages >= 0)
    && (s.router.Measured? ==> s.router.bytes <= (s.router.messages + 1) * MAX_MESSAGE_SIZE)
  }

  lemma {:induction false} SumAtMost(lens: seq<nat>)
    requires Sized(lens)
    ensures Sum(lens) <= |lens| * MAX_MESSAGE_SIZE
  {
    if lens != [] { SumAtMost(lens[..|lens| - 1]); }
  }

  ghost predicate Sized(queue: seq<nat>) {
    forall k :: 0 <= k < |queue| ==> queue[k] <= MAX_MESSAGE_SIZE
  }

  lemma PromptLoads(s: State, len: nat)
    requires PromptInv(s) && s.router.Resting? && len <= MAX_MESSAGE_SIZE
    ensures s.bytes <= (s.messages + 1) * MAX_MESSAGE_SIZE && s.messages >= 0
  {
    SumAtMost(s.queue);
    hide Sum, Bounded, RoomFor;
  }

  lemma PromptKeeps(s: State, a: Step)
    requires PromptInv(s) && Enabled(s, a) && Prompt(s, a)
    ensures PromptInv(Do(s, a))
  {
    hide Inv, Sized, LetsIn;
    StepKeeps(s, a);
    TaskHasBytes(s);
    match a {
      case LoadMessages(len, _) => PromptLoads(s, len);
      case Enqueue => SizedPush(s.queue, s.router.len);
      case Take => SizedRest(s.queue);
      case _ =>
    }
  }

  lemma SizedPush(queue: seq<nat>, len: nat)
    requires Sized(queue) && len <= MAX_MESSAGE_SIZE
    ensures Sized(queue + [len])
  {
  }

  lemma SizedRest(queue: seq<nat>)
    requires Sized(queue) && queue != []
    ensures Sized(queue[1..]) && queue[0] <= MAX_MESSAGE_SIZE
  {
  }

  lemma TaskHasBytes(s: State)
    requires Inv(s)
    ensures s.bytes >= TaskBytes(s.task)
  {
  }

  lemma {:induction false} PromptRunKeeps(s: State, steps: seq<Step>)
    requires PromptInv(s) && PromptRun(s, steps)
    ensures EnabledRun(s, steps) && PromptInv(DoAll(s, steps))
    decreases |steps|
  {
    if steps != [] {
      PromptKeeps(s, steps[0]);
      hide PromptInv, Do, Enabled, Prompt;
      PromptRunKeeps(Do(s, steps[0]), steps[1..]);
    }
  }

  /** Main result: as long as loads are up to date when they are made, nothing is refused unless
      three messages or more were counted. */
  lemma RefusalCountsThree(start: State, steps: seq<Step>)
    requires Unused(start) && PromptRun(start, steps)
    ensures EnabledRun(start, steps)
    ensures var s := DoAll(start, steps);
            s.router.Measured? && Do(s, Decide).router.Resting? ==> s.router.messages >= 3
  {
    hide DoAll, EnabledRun, PromptRun, Unused;
    UnusedPrompt(start);
    PromptRunKeeps(start, steps);
    var s := DoAll(start, steps);
    if s.router.Measured? && Do(s, Decide).router.Resting? { ThreeCounted(s); }
  }

  lemma UnusedPrompt(s: State)
    requires Unused(s)
    ensures PromptInv(s)
  {
  }

  lemma ThreeCounted(s: State)
    requires PromptInv(s) && s.router.Measured? && Do(s, Decide).router.Resting?
    ensures s.router.messages >= 3
  {
    hide Inv;
  }

  lemma {:induction false} CountStays(s: State, steps: seq<Step>)
    requires s.router.Counted? || s.router.Measured?
    requires EnabledRun(s, steps) && Decide !in steps
    ensures DoAll(s, steps).router.Counted? || DoAll(s, steps).router.Measured?
    ensures DoAll(s, steps).router.len == s.router.len && DoAll(s, steps).router.messages == s.router.messages
    decreases |steps|
  {
    if steps != [] {
      assert steps[0] in steps && forall a :: a in steps[1..] ==> a in steps;
      CountStays(Do(s, steps[0]), steps[1..]);
    }
  }

  /** Main result: in every such run, a message for which the router finds the queue empty as it
      counts is let in, whatever happens before it decides. */
  lemma EmptyQueueLetsIn(start: State, before: seq<Step>, len: nat, after: seq<Step>)
    requires Unused(start) && PromptRun(start, before) && EnabledRun(start, before)
    requires DoAll(start, before).router.Resting? && DoAll(start, before).queue == []
    requires len <= MAX_MESSAGE_SIZE && Decide !in after
    requires PromptRun(Do(DoAll(start, before), LoadMessages(len, DoAll(start, before).messages)), after)
    ensures var s1 := Do(DoAll(start, before), LoadMessages(len, DoAll(start, before).messages));
            && EnabledRun(s1, after)
            && (DoAll(s1, after).router.Measured? ==> Do(DoAll(s1, after), Decide).router == AddedMessage(len))
  {
    hide DoAll, EnabledRun, PromptRun, Unused, Sum;
    UnusedPrompt(start);
    PromptRunKeeps(start, before);
    var s := DoAll(start, before);
    var s1 := Do(s, LoadMessages(len, s.messages));
    assert s.messages <= 1;
    PromptKeeps(s, LoadMessages(len, s.messages));
    PromptRunKeeps(s1, after);
    CountStays(s1, after);
    var s2 := DoAll(s1, after);
    if s2.router.Measured? && Do(s2, Decide).router.Resting? { ThreeCounted(s2); }
  }

  // ----- The counters themselves -----

  class Queued {
    var messages: nat
    var bytes: nat

    constructor ()
      ensures messages == 0 && bytes == 0
    {
      messages, bytes := 0, 0;
    }

    method Admit(len: nat) returns (admitted: bool)
      modifies this
      ensures admitted <==> LetsIn(len, old(messages), old(bytes))
      ensures messages == old(messages) + (if admitted then 1 else 0)
      ensures bytes == old(bytes) + (if admitted then len else 0)
      ensures old(messages) == 0 ==> admitted
    {
      if messages > 0 && (messages >= QUEUE_MESSAGES || bytes + len > QUEUE_BYTES) {
        return false;
      }
      messages := messages + 1;
      bytes := bytes + len;
      return true;
    }

    method Release(len: nat)
      requires messages > 0 && len <= bytes
      modifies this
      ensures messages == old(messages) - 1 && bytes == old(bytes) - len
    {
      messages := messages - 1;
      bytes := bytes - len;
    }
  }
}
