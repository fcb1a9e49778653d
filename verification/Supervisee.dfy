/** One supervised child: its life cycle, the answers it gives when told to start or
    stop, and the items it reports. */
module Supervisees {
  import opened Common
  import opened RestartBudget

  datatype RestartMode = Always | OnError | Never

  datatype Life = Dead | Starting | Initializing | Alive | ShuttingDown

  datatype ExitStatus = Normal | Panicked | Aborted | UnhandledError

  datatype SuperviseeExit = JoinError | NormalExit | NormalShutdown

  /** What a supervisee reports. `Initialized(None)` is success. */
  datatype Item =
    | Started(ok: bool)
    | Initialized(failure: Option<ExitStatus>)
    | Exited(exit: SuperviseeExit)

  datatype StartAnswer = Spawned | AlreadyRunning | RefusedStopping

  datatype StopOutcome = WasDead | Cancelled | Stopping

  /** What the future a poll waits on turns out to do. */
  datatype Ready = NotYet | Succeeds | Fails(status: ExitStatus)

  datatype ExitReason = StartFailure | InitExit(status: ExitStatus) | ExitOf(exit: SuperviseeExit)

  function StartLife(life: Life): (Life, StartAnswer) {
    match life
    case Dead => (Starting, Spawned)
    case ShuttingDown => (life, RefusedStopping)
    case _ => (life, AlreadyRunning)
  }

  function StopLife(life: Life): (Life, StopOutcome) {
    match life
    case Dead => (life, WasDead)
    case Starting => (Dead, Cancelled)
    case _ => (ShuttingDown, Stopping)
  }

  function PollLife(life: Life, ready: Ready): (Life, Option<Item>) {
    if life.Dead? || ready.NotYet? then (life, None)
    else match life
      case Starting =>
        if ready.Succeeds? then (Initializing, Some(Started(true))) else (Dead, Some(Started(false)))
      case Initializing =>
        if ready.Succeeds? then (Alive, Some(Initialized(None)))
        else (Dead, Some(Initialized(Some(ready.status))))
      case Alive =>
        (Dead, Some(Exited(if ready.Succeeds? then NormalExit else JoinError)))
      case ShuttingDown =>
        (Dead, Some(Exited(if ready.Succeeds? then NormalShutdown else JoinError)))
  }

  /** Whether a child that ended this way is to be restarted. */
  predicate RequiresRestart(mode: RestartMode, reason: ExitReason) {
    match reason
    case StartFailure => mode != Never
    case InitExit(status) => mode == Always || (mode == OnError && status != Normal)
    case ExitOf(exit) => mode == Always || (mode == OnError && exit == JoinError)
  }

  /** A child that is not dead comes to an end when what it waits for fails; one that is up, or
      was told to stop, also when it is done. */
  predicate EndsOn(life: Life, ready: Ready) {
    !life.Dead? && (ready.Fails? || (ready.Succeeds? && (life.Alive? || life.ShuttingDown?)))
  }

  /** Whether a child that ends is gone for good: one that failed just if it is never to be
      restarted, one that is done unless it always is. Ending normally before it is up counts as
      done. */
  predicate GoneForGood(mode: RestartMode, life: Life, ready: Ready) {
    var done := if life.Initializing? then ready == Fails(Normal) else ready.Succeeds?;
    if done then mode != Always else mode == Never
  }

  /** What a child that does not end comes to. */
  function ComesUp(life: Life, ready: Ready): Life {
    if ready.Succeeds? && life.Starting? then Initializing
    else if ready.Succeeds? && life.Initializing? then Alive
    else life
  }

  /** What a child that is told to stop comes to: one that has begun to run owes an exit. */
  function ToldToStop(life: Life): Life {
    if life in {Dead, Starting} then Dead else ShuttingDown
  }

  /** A child as its supervisor holds it. */
  datatype Child = Child(mode: RestartMode, budget: Option<Limiter>, life: Life)

  /** Asks the child's own budget, if it has one, for a restart. */
  function ChildPermit(c: Child, now: int): (Child, bool) {
    match c.budget
    case None => (c, true)
    case Some(l) =>
      var (l', granted) := Permit(l, now);
      (c.(budget := Some(l')), granted)
  }

  class Supervisee {
    const mode: RestartMode
    var life: Life
    var restarter: RestartLimiter?

    constructor (mode: RestartMode, intensity: Option<Intensity>)
      ensures life == Dead && this.mode == mode
      ensures (restarter == null) == intensity.None?
      ensures restarter != null ==> fresh(restarter) && restarter.View() == Fresh(intensity.value)
    {
      this.mode := mode;
      life := Dead;
      if intensity.Some? {
        restarter := new RestartLimiter(intensity.value);
      } else {
        restarter := null;
      }
    }

    function View(): Child
      reads this, restarter
    {
      Child(mode, if restarter == null then None else Some(restarter.View()), life)
    }

    method Start() returns (answer: StartAnswer)
      modifies this`life
      ensures (life, answer) == StartLife(old(life))
    {
      match life {
        case Dead => life, answer := Starting, Spawned;
        case ShuttingDown => answer := RefusedStopping;
        case _ => answer := AlreadyRunning;
      }
    }

    method Stop() returns (outcome: StopOutcome)
      modifies this`life
      ensures (life, outcome) == StopLife(old(life))
    {
      match life {
        case Dead => outcome := WasDead;
        case Starting => life, outcome := Dead, Cancelled;
        case Initializing | Alive => life, outcome := ShuttingDown, Stopping;
        case ShuttingDown => outcome := Stopping;
      }
    }

    method Supervise(ready: Ready) returns (item: Option<Item>)
      modifies this`life
      ensures (life, item) == PollLife(old(life), ready)
    {
      if life.Dead? || ready.NotYet? {
        return None;
      }
      match life {
        case Starting =>
          life := if ready.Succeeds? then Initializing else Dead;
          item := Some(Started(ready.Succeeds?));
        case Initializing =>
          if ready.Succeeds? {
            life, item := Alive, Some(Initialized(None));
          } else {
            life, item := Dead, Some(Initialized(Some(ready.status)));
          }
        case Alive =>
          life, item := Dead, Some(Exited(if ready.Succeeds? then NormalExit else JoinError));
        case ShuttingDown =>
          life, item := Dead, Some(Exited(if ready.Succeeds? then NormalShutdown else JoinError));
      }
    }

    method AcquireRestartPermit(now: int) returns (granted: bool)
      modifies restarter
      ensures (View(), granted) == ChildPermit(old(View()), now)
    {
      if restarter == null {
        return true;
      }
      granted := restarter.AcquirePermit(now);
    }
  }

  // ----- The protocol over whole runs -----

  datatype Op = StartOp | StopOp | PollOp(ready: Ready)

  datatype Answer =
    | DidStart(start: StartAnswer)
    | DidStop(stop: StopOutcome)
    | DidPoll(item: Option<Item>)
  {
    predicate HasItem() { DidPoll? && item.Some? }

    /** The item after which the child is no more. */
    predicate Ends() {
      || (DidStop? && stop.Cancelled?)
      || (HasItem() && match item.value {
            case Started(ok) => !ok
            case Initialized(failure) => failure.Some?
            case Exited(_) => true
          })
    }

    predicate Spawns() { DidStart? && start.Spawned? }
  }

  function Perform(life: Life, op: Op): (Life, Answer) {
    match op
    case StartOp => var (l, a) := StartLife(life); (l, DidStart(a))
    case StopOp => var (l, a) := StopLife(life); (l, DidStop(a))
    case PollOp(ready) => var (l, a) := PollLife(life, ready); (l, DidPoll(a))
  }

  /** The life after the first `k` operations. */
  function LifeAt(life: Life, ops: seq<Op>, k: nat): Life
    requires k <= |ops|
  {
    if k == 0 then life else Perform(LifeAt(life, ops, k - 1), ops[k - 1]).0
  }

  function AnswerAt(life: Life, ops: seq<Op>, k: nat): Answer
    requires k < |ops|
  {
    Perform(LifeAt(life, ops, k), ops[k]).1
  }

  /** A stop that answers `Stopping` owes an exit: until some item appears every start is
      refused, and the first item to appear is an `Exited`. */
  lemma {:induction false} StopOwesExit(life: Life, ops: seq<Op>, i: nat, j: nat)
    requires i < j < |ops|
    requires AnswerAt(life, ops, i) == DidStop(Stopping)
    requires forall k :: i < k < j ==> !AnswerAt(life, ops, k).HasItem()
    ensures AnswerAt(life, ops, j).DidStart? ==> AnswerAt(life, ops, j).start == RefusedStopping
    ensures AnswerAt(life, ops, j).HasItem() ==>
              AnswerAt(life, ops, j).item.value.Exited? && LifeAt(life, ops, j + 1) == Dead
    ensures LifeAt(life, ops, j) == ShuttingDown
  {
    if j > i + 1 {
      StopOwesExit(life, ops, i, j - 1);
    }
  }

  /** Once a child has ended, or a stop found nothing to wait for, nothing is reported
      until a start spawns it again. With `StopOwesExit`: exactly one exit follows a stop. */
  lemma {:induction false} SilentUntilSpawned(life: Life, ops: seq<Op>, i: nat, j: nat)
    requires i < j < |ops|
    requires AnswerAt(life, ops, i).Ends() || AnswerAt(life, ops, i) == DidStop(WasDead)
    requires forall k :: i < k < j ==> !AnswerAt(life, ops, k).Spawns()
    ensures !AnswerAt(life, ops, j).HasItem() && !AnswerAt(life, ops, j).Ends()
    ensures LifeAt(life, ops, j) == Dead
  {
    if j > i + 1 {
      SilentUntilSpawned(life, ops, i, j - 1);
    }
  }

  function Spawnings(life: Life, ops: seq<Op>, k: nat): nat
    requires k <= |ops|
  {
    if k == 0 then 0
    else Spawnings(life, ops, k - 1) + if AnswerAt(life, ops, k - 1).Spawns() then 1 else 0
  }

  function Endings(life: Life, ops: seq<Op>, k: nat): nat
    requires k <= |ops|
  {
    if k == 0 then 0
    else Endings(life, ops, k - 1) + if AnswerAt(life, ops, k - 1).Ends() then 1 else 0
  }

  /** Conservation: at every point of every run, each spawned child has either ended or is
      the one running now. */
  lemma {:induction false} SpawnsMatchEndings(life: Life, ops: seq<Op>, k: nat)
    requires k <= |ops|
    ensures (if life.Dead? then 0 else 1) + Spawnings(life, ops, k)
            == Endings(life, ops, k) + if LifeAt(life, ops, k).Dead? then 0 else 1
  {
    if k > 0 {
      SpawnsMatchEndings(life, ops, k - 1);
    }
  }

  /** Between one spawning start and the next there is exactly one ending. */
  lemma OneEndingBetweenSpawns(life: Life, ops: seq<Op>, i: nat, j: nat)
    requires i < j < |ops|
    requires AnswerAt(life, ops, i).Spawns() && AnswerAt(life, ops, j).Spawns()
    requires forall k :: i < k < j ==> !AnswerAt(life, ops, k).Spawns()
    ensures Endings(life, ops, j) == Endings(life, ops, i) + 1
  {
    SpawnsMatchEndings(life, ops, i);
    SpawnsMatchEndings(life, ops, j);
    NoSpawnsBetween(life, ops, i + 1, j);
  }

  lemma {:induction false} NoSpawnsBetween(life: Life, ops: seq<Op>, i: nat, j: nat)
    requires i <= j <= |ops|
    requires forall k :: i <= k < j ==> !AnswerAt(life, ops, k).Spawns()
    ensures Spawnings(life, ops, j) == Spawnings(life, ops, i)
  {
    if i < j {
      NoSpawnsBetween(life, ops, i, j - 1);
    }
  }
}
