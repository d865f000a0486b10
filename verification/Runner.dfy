/**
 The runner process of src/runner.ts: every event handler up to its next await is one step. The
 shared locals of the program are the fields of State; promises are the calls a state is awaiting.
 */
module Runner {
  import opened Wrappers
  import opened JobTypes
  import opened StoreEvidence
  import opened JobStore
  import opened GuardianProtocol

  /** Where the main function is. */
  datatype Stage = Claiming | Loading | WithoutGuardian | Supervising

  datatype Coordinator = Observing | CuttingOver | Freezing | Publishing | Closed

  /** The budget timer is armed at most once; a spent one is never armed again. */
  datatype Budget = Unset | Armed | Spent

  /** One link of the publication chain. */
  datatype Task = Task(input: Observation, final: bool)

  /** What the first link of the publication chain is awaiting. */
  datatype Awaiting = Nothing | PublishAnswer | ObserveAnswer

  /** What the guardian has reported. */
  datatype Facts = Facts(
    launched: bool, shellCode: Option<int>, shellSignal: Option<string>,
    term: Option<TermObservation>, killIntent: bool, deadlineObserved: bool)

  /** decides counts the decision calls that have not returned. */
  datatype Gate = Gate(topologySucceeded: bool, grantSent: bool, grantAttempted: bool, decides: nat)

  datatype Life = Life(stopping: bool, settled: bool, closed: bool, coordinator: Coordinator)

  datatype Timers = Timers(
    readinessArmed: bool, deadlineArmed: bool, budget: Budget, cutoverArmed: bool, cutoverDeadline: Option<int>)

  /** The capture facts of the two streams at the freeze. */
  datatype Frozen = Frozen(stdout: StreamInput, stderr: StreamInput)

  datatype Capture = Capture(attached: bool, setupFailed: bool, stdoutEnded: bool, stderrEnded: bool, frozen: Option<Frozen>)

  /** The publication chain. */
  datatype Chain = Chain(revision: Option<int>, queue: seq<Task>, awaiting: Awaiting)

  datatype State = State(
    stage: Stage, orders: Option<Orders>, facts: Facts, gate: Gate, life: Life,
    timers: Timers, capture: Capture, chain: Chain, discarding: bool, sealing: bool)

  /** What sealing a capture reports. */
  datatype SealResult = SealResult(available: bool, truncated: bool, incomplete: bool, openAtCutover: bool)

  const START := State(
    Claiming, None, Facts(false, None, None, None, false, false), Gate(false, false, false, 0),
    Life(false, false, false, Observing), Timers(false, false, Unset, false, None),
    Capture(false, false, false, false, None), Chain(None, [], Nothing), false, false)

  const CUTOVER := 1_000

  /** What a step asks of the outside. */
  datatype Request =
    | CallClaim
    | CallLoad
    | CallDecide
    | CallPublish(expected: Option<int>, input: Observation)
    | CallObserve
    | SendHelloReply(orders: Orders)
    | SendGrant
    | DisconnectGuardian

  datatype Turn = Turn(state: State, requests: seq<Request>)

  /** now is a reading of the monotonic clock. */
  datatype Event =
    | ClaimReturned(ok: bool)
    | LoadReturned(loaded: Option<Orders>, utilities: bool, spawned: bool)
    | MessageArrived(message: GuardianMessage)
    | DecideReturned(decision: Result<DecideDisposition, StoreError>, connected: bool, setup: bool, sent: bool, now: int)
    | GrantSendFailed(now: int)
    | GuardianLost(now: int)
    | GuardianExited(now: int)
    | ReadinessFired
    | DeadlineFired
    | BudgetFired(now: int)
    | CutoverFired(now: int)
    | StreamEnded(isStdout: bool)
    | DiscardReturned
    | SealReturned(stdout: SealResult, stderr: SealResult)
    | PublicationStarted
    | PublishReturned(published: Option<int>)
    | ObserveReturned(observed: Option<int>)

  predicate Enabled(s: State, e: Event) {
    match e
    case ClaimReturned(_) => s.stage.Claiming?
    case LoadReturned(_, _, _) => s.stage.Loading?
    case MessageArrived(_) => s.stage.Supervising?
    case DecideReturned(_, _, _, _, _) => s.gate.decides > 0
    case GrantSendFailed(_) => s.gate.grantSent
    case GuardianLost(_) => s.stage.Supervising?
    case GuardianExited(_) => s.stage.Supervising?
    case ReadinessFired => s.timers.readinessArmed
    case DeadlineFired => s.timers.deadlineArmed
    case BudgetFired(_) => s.timers.budget.Armed?
    case CutoverFired(_) => s.timers.cutoverArmed
    case StreamEnded(_) => s.capture.attached
    case DiscardReturned => s.discarding
    case SealReturned(_, _) => s.sealing
    case PublicationStarted => s.chain.queue != [] && s.chain.awaiting.Nothing?
    case PublishReturned(_) => s.chain.queue != [] && s.chain.awaiting.PublishAnswer?
    case ObserveReturned(_) => s.chain.queue != [] && s.chain.awaiting.ObserveAnswer?
  }

  // ---------------------------------------------------------------- evidence

  const UNAVAILABLE_COMPLETE := StreamInput(Some(Some(false)), Some(false), Some(false), Some(false))

  const LAUNCHED := NO_OBSERVATION.(launch := Some(Launched), cleanup := Some(NotRequested), finalized := Some(false))

  function SpawnFailure(deadlineObserved: bool): Observation {
    NO_OBSERVATION.(launch := Some(SpawnFailed), cleanup := Some(NotRequired), deadlineTrigger := Some(deadlineObserved),
                    stdout := Some(UNAVAILABLE_COMPLETE), stderr := Some(UNAVAILABLE_COMPLETE), finalized := Some(true))
  }

  function UnavailableAtCutover(ended: bool): StreamInput {
    StreamInput(Some(Some(false)), Some(false), Some(true), Some(!ended))
  }

  function CutoverFacts(c: Capture, ended: bool, sealed: SealResult): StreamInput {
    if !c.attached || c.setupFailed then UnavailableAtCutover(ended)
    else StreamInput(Some(Some(sealed.available)), Some(sealed.truncated), Some(sealed.incomplete), Some(sealed.openAtCutover))
  }

  function TerminalEvidence(f: Facts, frozen: Frozen): Observation {
    Observation(
      Some(if f.launched then Launched else Unknown), Some(f.shellCode), Some(f.shellSignal),
      Some(if f.launched || f.deadlineObserved || f.term.Some? || f.killIntent then Unconfirmed else NotRequested),
      Some(f.term), Some(f.killIntent), None, Some(f.deadlineObserved),
      Some(frozen.stdout), Some(frozen.stderr), Some(true))
  }

  // ---------------------------------------------------------------- helpers of the program

  function Cleared(t: Timers): Timers {
    t.(readinessArmed := false, deadlineArmed := false, budget := if t.budget.Armed? then Spent else t.budget, cutoverArmed := false)
  }

  function Close(s: State): Turn {
    if s.life.closed then Turn(s, [])
    else
      Turn(s.(life := Life(true, s.life.settled, true, Closed), timers := Cleared(s.timers)),
           if s.stage.Supervising? then [DisconnectGuardian] else [])
  }

  function Stopping(s: State): State {
    s.(life := s.life.(stopping := true))
  }

  function PublishSpawnFailure(s: State): State {
    if s.life.stopping || s.life.settled || s.life.closed then s
    else s.(life := s.life.(stopping := true), discarding := true)
  }

  function BeginCutover(s: State, now: int): State {
    if !s.life.coordinator.Observing? || s.life.stopping || s.life.closed then s
    else s.(life := s.life.(coordinator := CuttingOver),
            timers := s.timers.(cutoverDeadline := Some(now + CUTOVER), cutoverArmed := true))
  }

  function BeginBudget(s: State): State {
    if !s.timers.budget.Unset? || s.life.stopping || !s.life.coordinator.Observing? then s
    else s.(timers := s.timers.(budget := Armed))
  }

  function Enqueue(s: State, input: Observation, final: bool): State {
    s.(chain := s.chain.(queue := s.chain.queue + [Task(input, final)]))
  }

  function FinishTask(c: Chain): Chain
    requires c.queue != []
  {
    c.(queue := c.queue[1..], awaiting := Nothing)
  }

  /**
   The first link of the chain is done. Whoever awaited a terminal link closes at once: its
   continuation is queued before the one that starts the next link.
   */
  function Finish(s: State): Turn
    requires s.chain.queue != []
  {
    var done := s.(chain := FinishTask(s.chain));
    if s.chain.queue[0].final then Close(done) else Turn(done, [])
  }

  // ---------------------------------------------------------------- steps

  function LoadStep(s: State, loaded: Option<Orders>, utilities: bool, spawned: bool): Turn {
    var alone := s.(stage := WithoutGuardian, orders := loaded);
    if loaded.None? then Close(alone)
    else if !utilities then Turn(PublishSpawnFailure(alone), [])
    else if !spawned then Close(alone)
    else Turn(s.(stage := Supervising, orders := loaded, timers := s.timers.(readinessArmed := true, deadlineArmed := true)), [])
  }

  function TopologyStep(s: State, ok: bool): Turn {
    if !ok then Turn(PublishSpawnFailure(s), [])
    else if s.gate.grantSent then Turn(s.(gate := s.gate.(topologySucceeded := true)), [])
    else Turn(s.(gate := s.gate.(topologySucceeded := true, decides := s.gate.decides + 1)), [CallDecide])
  }

  /** A shell outcome without the spawn receipt stays unknown. */
  function FactsAfter(f: Facts, m: GuardianMessage): Facts {
    match m
    case ShellSpawned => f.(launched := true)
    case ShellError(reason) => if reason.ExpiredBeforeSpawn? then f.(deadlineObserved := true) else f
    case ShellExit(code, signal) => if f.launched then f.(shellCode := code, shellSignal := signal) else f
    case CleanupTerm(observation) => f.(term := Some(observation))
    case CleanupKillIntent => f.(killIntent := true)
    case Deadline => f.(deadlineObserved := true)
    case _ => f
  }

  function MessageStep(s: State, m: GuardianMessage): Turn {
    if s.life.stopping then Turn(s, [])
    else
      var heard := s.(facts := FactsAfter(s.facts, m));
      match m
      case Hello => Turn(s, if s.orders.Some? then [SendHelloReply(s.orders.value)] else [])
      case Topology(ok) => TopologyStep(s, ok)
      case ShellSpawned => Turn(Enqueue(heard, LAUNCHED, false), [])
      case ShellError(_) => Turn(PublishSpawnFailure(heard), [])
      case ShellExit(_, _) => Turn(BeginBudget(heard), [])
      case Deadline => Turn(BeginBudget(heard), [])
      case _ => Turn(heard, [])
  }

  /** After a fresh authorization: captures are attached, then the one grant is sent. */
  function AuthorizedStep(s: State, connected: bool, setup: bool, sent: bool, now: int): Turn {
    var prepared := s.(capture := Capture(true, s.capture.setupFailed || !setup, false, false, s.capture.frozen));
    if !connected || s.gate.grantSent then Turn(prepared, [])
    else
      var granted := prepared.(gate := s.gate.(grantAttempted := true, grantSent := true));
      if sent then Turn(granted, [SendGrant]) else Turn(BeginCutover(granted, now), [])
  }

  function DecideStep(s: State, decision: Result<DecideDisposition, StoreError>, connected: bool, setup: bool, sent: bool, now: int)
    : Turn
    requires s.gate.decides > 0
  {
    var returned := s.(gate := s.gate.(decides := s.gate.decides - 1));
    if decision.Success? && s.life.stopping then Turn(returned, [])
    else if decision == Success(AuthorizedNow) then AuthorizedStep(returned, connected, setup, sent, now)
    else
      var suppressed := decision == Success(SuppressedNow);
      Close(returned.(life := s.life.(stopping := true, settled := s.life.settled || suppressed)))
  }

  function LossStep(s: State, now: int): Turn {
    if s.life.stopping then Turn(s, [])
    else if !s.gate.topologySucceeded then Turn(PublishSpawnFailure(s), [])
    else if s.gate.grantAttempted then Turn(BeginCutover(s, now), [])
    else Close(Stopping(s))
  }

  function ExitStep(s: State, now: int): Turn {
    if s.life.stopping then Turn(s, [])
    else if !s.gate.topologySucceeded then Turn(PublishSpawnFailure(s), [])
    else if !s.gate.grantSent then Close(Stopping(s))
    else Turn(BeginCutover(s, now), [])
  }

  function CutoverStep(s: State, now: int): State {
    var fired := s.(timers := s.timers.(cutoverArmed := false));
    if !s.life.coordinator.CuttingOver? || s.timers.cutoverDeadline.None? then fired
    else if s.timers.cutoverDeadline.value - now > 0 then s
    else fired.(life := s.life.(coordinator := Freezing, stopping := true), sealing := true)
  }

  function SealStep(s: State, stdout: SealResult, stderr: SealResult): State {
    var frozen := Frozen(CutoverFacts(s.capture, s.capture.stdoutEnded, stdout), CutoverFacts(s.capture, s.capture.stderrEnded, stderr));
    var publishing := s.(sealing := false, life := s.life.(coordinator := Publishing), capture := s.capture.(frozen := Some(frozen)));
    Enqueue(publishing, TerminalEvidence(s.facts, frozen), true)
  }

  function StreamStep(s: State, isStdout: bool): State {
    if s.life.coordinator.Freezing? || s.life.coordinator.Publishing? || s.life.closed then s
    else if isStdout then s.(capture := s.capture.(stdoutEnded := true))
    else s.(capture := s.capture.(stderrEnded := true))
  }

  function PublicationStep(s: State): Turn
    requires s.chain.queue != []
  {
    if (s.life.settled && !s.chain.queue[0].final) || s.life.closed then Finish(s)
    else Turn(s.(chain := s.chain.(awaiting := PublishAnswer)), [CallPublish(s.chain.revision, s.chain.queue[0].input)])
  }

  function PublishedStep(s: State, published: Option<int>): Turn
    requires s.chain.queue != []
  {
    var final := s.chain.queue[0].final;
    if published.Some? then
      Finish(s.(chain := s.chain.(revision := published), life := s.life.(settled := s.life.settled || final)))
    else if final then Finish(s)
    else Turn(s.(chain := s.chain.(awaiting := ObserveAnswer)), [CallObserve])
  }

  function ObservedStep(s: State, observed: Option<int>): Turn
    requires s.chain.queue != []
  {
    Finish(if observed.Some? then s.(chain := s.chain.(revision := observed)) else s)
  }

  function Step(s: State, e: Event): Turn
    requires Enabled(s, e)
  {
    match e
    case ClaimReturned(ok) => if ok then Turn(s.(stage := Loading), [CallLoad]) else Close(s.(stage := WithoutGuardian))
    case LoadReturned(loaded, utilities, spawned) => LoadStep(s, loaded, utilities, spawned)
    case MessageArrived(m) => MessageStep(s, m)
    case DecideReturned(decision, connected, setup, sent, now) => DecideStep(s, decision, connected, setup, sent, now)
    case GrantSendFailed(now) => if s.life.stopping then Turn(s, []) else Turn(BeginCutover(s, now), [])
    case GuardianLost(now) => LossStep(s, now)
    case GuardianExited(now) => ExitStep(s, now)
    case ReadinessFired =>
      var fired := s.(timers := s.timers.(readinessArmed := false));
      if s.gate.topologySucceeded || s.life.stopping then Turn(fired, []) else Turn(PublishSpawnFailure(fired), [])
    case DeadlineFired =>
      var fired := s.(timers := s.timers.(deadlineArmed := false));
      if s.life.stopping then Turn(fired, []) else Turn(BeginBudget(fired), [])
    case BudgetFired(now) => Turn(BeginCutover(s.(timers := s.timers.(budget := Spent)), now), [])
    case CutoverFired(now) => Turn(CutoverStep(s, now), [])
    case StreamEnded(isStdout) => Turn(StreamStep(s, isStdout), [])
    case DiscardReturned => Turn(Enqueue(s.(discarding := false), SpawnFailure(s.facts.deadlineObserved), true), [])
    case SealReturned(stdout, stderr) => Turn(SealStep(s, stdout, stderr), [])
    case PublicationStarted => PublicationStep(s)
    case PublishReturned(published) => PublishedStep(s, published)
    case ObserveReturned(observed) => ObservedStep(s, observed)
  }
}
