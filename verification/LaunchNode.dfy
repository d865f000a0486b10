/**
 One launch attempt: a runner, its guardian, the channel between them and the shell. The store is
 seen only through the view of the job that the runner was given.
 */
module LaunchNode {
  import opened Wrappers
  import opened Sequences
  import opened JobTypes
  import opened StoreEvidence
  import opened JobStore
  import opened GuardianProtocol
  import Guardian
  import Runner
  import RunnerProgress

  /** What really happened to the command; only the model sees this directly. */
  datatype Shell = NoShell | Running(orders: Orders) | Ended(orders: Orders, code: Option<int>, signal: Option<string>)

  /**
   answers are the committed results of this runner's decision calls; outbox are the publications it
   has handed to its store client, each of which may commit at any later time, repeatedly or never.
   */
  datatype Node = Node(
    owner: Owner, job: JobId, token: Token,
    runner: Runner.State, runnerAlive: bool,
    guardian: Guardian.State, guardianAlive: bool,
    toRunner: seq<GuardianMessage>, toGuardian: seq<RunnerMessage>,
    decideCalled: bool, answers: seq<Result<Reply, StoreError>>, outbox: set<Op>,
    shells: nat, shell: Shell)

  function FreshNode(owner: Owner, job: JobId, token: Token): Node {
    Node(owner, job, token, Runner.START, true, Guardian.INITIAL, true, [Hello], [], false, [], {}, 0, NoShell)
  }

  function OrdersOf(job: Job): Orders {
    Orders(job.invocation.command, job.invocation.cwd, job.deadlineAt)
  }

  // ---------------------------------------------------------------- steps of one node

  function MessageOf(x: Guardian.Effect): seq<GuardianMessage> {
    match x case Sent(m) => [m] case _ => []
  }

  function OutgoingOf(r: Runner.Request): seq<RunnerMessage> {
    match r case SendHelloReply(orders) => [HelloReply(orders)] case SendGrant => [Grant] case _ => []
  }

  function PublicationsOf(n: Node, claim: ClaimId, requests: seq<Runner.Request>): set<Op> {
    set r | r in requests && r.CallPublish? :: Publish(n.owner, n.job, claim, r.expected, r.input, n.token)
  }

  predicate Answered(answers: seq<Result<Reply, StoreError>>, decision: DecideDisposition) {
    exists i :: 0 <= i < |answers| && answers[i].Success? && answers[i].value.DecideReply? && answers[i].value.decision == decision
  }

  /** What can happen to the runner: messages come in order, loaded orders and decisions from the store. */
  predicate RunnerCan(n: Node, view: Option<View>, e: Runner.Event) {
    && n.runnerAlive && Runner.Enabled(n.runner, e)
    && (e.MessageArrived? ==> n.toRunner != [] && n.toRunner[0] == e.message)
    && (e.LoadReturned? && e.loaded.Some? ==> view.Some? && e.loaded.value == OrdersOf(view.value.job))
    && (e.DecideReturned? && e.decision.Success? ==> Answered(n.answers, e.decision.value))
  }

  function RunnerMoves(n: Node, claim: ClaimId, e: Runner.Event): Node
    requires Runner.Enabled(n.runner, e) && (e.MessageArrived? ==> n.toRunner != [])
  {
    var turn := Runner.Step(n.runner, e);
    n.(runner := turn.state,
       toRunner := if e.MessageArrived? then n.toRunner[1..] else n.toRunner,
       toGuardian := n.toGuardian + FlatMap(OutgoingOf, turn.requests),
       decideCalled := n.decideCalled || Runner.CallDecide in turn.requests,
       outbox := n.outbox + PublicationsOf(n, claim, turn.requests))
  }

  predicate Consumes(e: Guardian.Event) {
    e.HelloReplied? || e.GrantReceived?
  }

  /** What can happen to the guardian, once its runner has spawned it. */
  predicate GuardianCan(n: Node, e: Guardian.Event) {
    && n.guardianAlive && n.runner.stage.Supervising? && Guardian.Enabled(n.guardian, e)
    && (e.HelloReplied? ==> n.toGuardian != [] && n.toGuardian[0] == HelloReply(e.orders))
    && (e.GrantReceived? ==> n.toGuardian != [] && n.toGuardian[0] == Grant)
    && (e.ChildExited? ==> n.shell.Ended? && n.shell.code == e.code && n.shell.signal == e.signal)
  }

  function GuardianMoves(n: Node, e: Guardian.Event): Node
    requires Guardian.Enabled(n.guardian, e) && (Consumes(e) ==> n.toGuardian != [])
  {
    var turn := Guardian.Step(n.guardian, e);
    var started := Guardian.Shells(turn.effects);
    n.(guardian := turn.state,
       toGuardian := if Consumes(e) then n.toGuardian[1..] else n.toGuardian,
       toRunner := n.toRunner + FlatMap(MessageOf, turn.effects),
       shells := n.shells + |started|,
       shell := if started == [] then n.shell else Running(started[|started| - 1]))
  }

  // ---------------------------------------------------------------- what holds of a node

  /** No shell was started, and none can be: the guardian is past its chance or will get no grant. */
  predicate Hopeless(n: Node) {
    n.shell.NoShell? && (Guardian.Spent(n.guardian) || (n.runner.life.stopping && !n.runner.gate.grantSent))
  }

  predicate CodeHonest(code: Option<int>, shell: Shell) {
    code.Some? ==> shell.Ended? && shell.code == code
  }

  predicate SignalHonest(signal: Option<string>, shell: Shell) {
    signal.Some? ==> shell.Ended? && shell.signal == signal
  }

  predicate LaunchHonest(launch: LaunchPhase, n: Node) {
    match launch
    case Unknown => true
    case Launched => !n.shell.NoShell?
    case SpawnFailed => Hopeless(n)
    case _ => false
  }

  /** An observation claims nothing about the launch that did not happen. */
  predicate ObservationHonest(input: Observation, n: Node) {
    && (input.launch.Some? ==> LaunchHonest(input.launch.value, n))
    && (input.shellCode.Some? ==> CodeHonest(input.shellCode.value, n.shell))
    && (input.shellSignal.Some? ==> SignalHonest(input.shellSignal.value, n.shell))
  }

  predicate MessageHonest(m: GuardianMessage, n: Node) {
    match m
    case ShellSpawned => !n.shell.NoShell?
    case ShellExit(code, signal) => n.shell.Ended? && n.shell.code == code && n.shell.signal == signal
    case ShellError(_) => n.shell.NoShell? && Guardian.Spent(n.guardian)
    case Topology(ok) => !ok ==> n.shell.NoShell? && Guardian.Spent(n.guardian)
    case _ => true
  }

  ghost predicate MessagesHonest(n: Node) {
    forall i :: 0 <= i < |n.toRunner| ==> MessageHonest(n.toRunner[i], n)
  }

  ghost predicate TasksHonest(n: Node) {
    && (n.runner.discarding ==> Hopeless(n))
    && forall i :: 0 <= i < |n.runner.chain.queue| ==> ObservationHonest(n.runner.chain.queue[i].input, n)
  }

  predicate OwnPublication(op: Op, n: Node, claim: ClaimId) {
    op.Publish? && op.owner == n.owner && op.job == n.job && op.claim == claim && op.token == n.token
  }

  /** A publication is one that the runner would make with what it knows now. */
  predicate Current(input: Observation, s: Runner.State) {
    RunnerProgress.TaskOk(Runner.Task(input, input.finalized == Some(true)), s.facts, s.capture.frozen, s.life.stopping)
  }

  ghost predicate OutboxHonest(n: Node, claim: ClaimId) {
    forall op :: op in n.outbox ==> OwnPublication(op, n, claim) && ObservationHonest(op.input, n) && Current(op.input, n.runner)
  }

  /** At most one hello is on its way, as itself or as its reply, and none after the reply arrived. */
  ghost predicate HelloOnce(toRunner: seq<GuardianMessage>, toGuardian: seq<RunnerMessage>, reply: Option<Orders>) {
    && (forall i, k :: 0 <= i < k < |toRunner| ==> !(toRunner[i].Hello? && toRunner[k].Hello?))
    && (forall i, k :: 0 <= i < k < |toGuardian| ==> !(toGuardian[i].HelloReply? && toGuardian[k].HelloReply?))
    && (forall i, k :: 0 <= i < |toRunner| && 0 <= k < |toGuardian| ==> !(toRunner[i].Hello? && toGuardian[k].HelloReply?))
    && (reply.Some? ==> (forall i :: 0 <= i < |toRunner| ==> !toRunner[i].Hello?) && (forall k :: 0 <= k < |toGuardian| ==> !toGuardian[k].HelloReply?))
  }

  predicate OrdersGiven(orders: Option<Orders>, view: Option<View>) {
    orders.Some? ==> view.Some? && orders.value == OrdersOf(view.value.job)
  }

  /** Every copy of the orders is the reserved invocation. */
  ghost predicate OrdersOk(n: Node, view: Option<View>) {
    && OrdersGiven(n.runner.orders, view)
    && OrdersGiven(n.guardian.reply, view)
    && (forall k :: 0 <= k < |n.toGuardian| && n.toGuardian[k].HelloReply? ==> OrdersGiven(Some(n.toGuardian[k].orders), view))
    && (!n.shell.NoShell? ==> OrdersGiven(Some(n.shell.orders), view))
  }

  predicate FactsHonest(facts: Runner.Facts, shell: Shell) {
    && (facts.launched ==> !shell.NoShell?)
    && CodeHonest(facts.shellCode, shell)
    && SignalHonest(facts.shellSignal, shell)
  }

  predicate GateOk(s: Runner.State) {
    && (s.gate.decides > 0 || s.gate.grantSent ==> s.gate.topologySucceeded)
    && (s.gate.topologySucceeded ==> s.stage.Supervising?)
    && (s.discarding ==> s.life.stopping)
  }

  /** How the real shell, the guardian's view of it and the grant belong together. */
  predicate ShellOk(n: Node) {
    && n.shells == (if n.shell.NoShell? then 0 else 1)
    && (!n.shell.NoShell? ==> Guardian.Spent(n.guardian) && n.runner.gate.grantSent && !n.guardian.child.NoChild? && !n.guardian.child.ForkFailed?)
    && (n.guardian.child.Forked? || n.guardian.child.Spawned? ==> !n.shell.NoShell?)
    && (n.runner.gate.grantSent ==> Answered(n.answers, AuthorizedNow))
  }

  ghost predicate GrantsSent(n: Node) {
    (exists k :: 0 <= k < |n.toGuardian| && n.toGuardian[k].Grant?) ==> n.runner.gate.grantSent
  }

  /** A process ends by exiting or by a signal, not both. */
  predicate EndOk(shell: Shell) {
    shell.Ended? ==> !(shell.code.Some? && shell.signal.Some?)
  }

  ghost predicate NodeOk(n: Node, claim: ClaimId, view: Option<View>) {
    && RunnerProgress.Live(n.runner) && RunnerProgress.Snapshotted(n.runner)
    && EndOk(n.shell)
    && GateOk(n.runner)
    && Guardian.Sound(n.guardian)
    && ShellOk(n)
    && GrantsSent(n)
    && HelloOnce(n.toRunner, n.toGuardian, n.guardian.reply)
    && FactsHonest(n.runner.facts, n.shell)
    && MessagesHonest(n)
    && TasksHonest(n)
    && OutboxHonest(n, claim)
    && OrdersOk(n, view)
  }

  lemma FreshNodeIsOk(owner: Owner, job: JobId, token: Token, claim: ClaimId, view: Option<View>)
    ensures NodeOk(FreshNode(owner, job, token), claim, view)
  {
  }

  // ---------------------------------------------------------------- what time does to a node

  predicate ShellAdvances(a: Shell, b: Shell) {
    match a
    case NoShell => true
    case Running(orders) => !b.NoShell? && b.orders == orders
    case Ended(_, _, _) => b == a
  }

  predicate NodeAdvances(n: Node, m: Node) {
    && m.job == n.job && m.owner == n.owner && m.token == n.token
    && ShellAdvances(n.shell, m.shell)
    && (n.runner.facts.launched ==> m.runner.facts.launched)
    && (Hopeless(n) ==> Hopeless(m))
    && (n.shell.NoShell? && Guardian.Spent(n.guardian) ==> m.shell.NoShell? && Guardian.Spent(m.guardian))
  }

  lemma HonestyLasts(n: Node, m: Node, input: Observation)
    requires NodeAdvances(n, m) && ObservationHonest(input, n)
    ensures ObservationHonest(input, m)
  {
  }

  lemma MessageHonestyLasts(n: Node, m: Node, message: GuardianMessage)
    requires NodeAdvances(n, m) && MessageHonest(message, n)
    ensures MessageHonest(message, m)
  {
  }
}
