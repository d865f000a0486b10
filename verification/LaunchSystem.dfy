/**
 The whole launch protocol: one store, any number of clients, and any number of runners with their
 guardians, channels and shells. Any actor may crash at any point, any reply may be lost, timers
 fire whenever they like, and a store call that was made may commit at any later time or never.
 */
module LaunchSystem {
  import opened Wrappers
  import opened StoreEvidence
  import opened JobStore
  import opened StoreInvariants
  import Guardian
  import Runner
  import opened RunnerProgress
  import opened LaunchNode
  import opened LaunchNodeSteps

  /** Runners are known by the fresh claim identifier each one draws. */
  datatype System = System(store: Store, nodes: map<ClaimId, Node>)

  const START := System(EMPTY, map[])

  /** The operations that need no runner token. */
  predicate ClientOp(op: Op) {
    op.Reserve? || op.Cancel? || op.PublishUncertain? || op.Acknowledge?
  }

  datatype Step =
    | ClientCommits(op: Op, now: int)
    | LaunchRunner(claim: ClaimId, owner: Owner, job: JobId, token: Token)
    | ClaimCommits(claim: ClaimId, now: int)
    | DecisionCommits(claim: ClaimId, now: int)
    | PublicationCommits(claim: ClaimId, op: Op, now: int)
    | RunnerSteps(claim: ClaimId, runnerEvent: Runner.Event)
    | GuardianSteps(claim: ClaimId, guardianEvent: Guardian.Event)
    | ShellExits(claim: ClaimId, code: Option<int>, signal: Option<string>)
    | Losses(claim: ClaimId, runnerAlive: bool, guardianAlive: bool, toRunner: nat, toGuardian: nat)

  function ViewOf(s: Store, job: JobId): Option<View> {
    if job in s.views then Some(s.views[job]) else None
  }

  /** A runner reads the job it was given; another owner's job is not found. */
  function ReadOf(s: Store, n: Node): Option<View> {
    if n.job in s.views && s.views[n.job].job.request.owner == n.owner then Some(s.views[n.job]) else None
  }

  predicate Possible(y: System, step: Step) {
    && (!step.ClientCommits? && !step.LaunchRunner? ==> step.claim in y.nodes)
    && match step
       case ClientCommits(op, _) => ClientOp(op)
       case LaunchRunner(claim, _, _, _) => claim !in y.nodes && ValidClaimId(claim)
       case ClaimCommits(_, _) => true
       case DecisionCommits(claim, _) => y.nodes[claim].decideCalled
       case PublicationCommits(claim, op, _) => op in y.nodes[claim].outbox
       case RunnerSteps(claim, e) => RunnerCan(y.nodes[claim], ReadOf(y.store, y.nodes[claim]), e)
       case GuardianSteps(claim, e) => GuardianCan(y.nodes[claim], e)
       case ShellExits(claim, code, signal) => y.nodes[claim].shell.Running? && (code.Some? <==> signal.None?)
       case Losses(claim, _, _, toRunner, toGuardian) =>
         toRunner <= |y.nodes[claim].toRunner| && toGuardian <= |y.nodes[claim].toGuardian|
  }

  /** The transaction that a step commits, if any. */
  function Transaction(y: System, step: Step): Option<Op>
    requires Possible(y, step)
  {
    match step
    case ClientCommits(op, _) => Some(op)
    case ClaimCommits(claim, _) => var n := y.nodes[claim]; Some(ClaimRunner(n.owner, n.job, claim, n.token))
    case DecisionCommits(claim, _) => var n := y.nodes[claim]; Some(Decide(n.owner, n.job, claim, n.token))
    case PublicationCommits(_, op, _) => Some(op)
    case _ => None
  }

  /** The node that a step changes, and what becomes of it. */
  function NodeAfter(y: System, step: Step): Node
    requires Possible(y, step) && !step.ClientCommits?
  {
    match step
    case ClaimCommits(claim, _) => y.nodes[claim]
    case PublicationCommits(claim, _, _) => y.nodes[claim]
    case LaunchRunner(_, owner, job, token) => FreshNode(owner, job, token)
    case DecisionCommits(claim, now) => Hears(y.nodes[claim], Apply(y.store, Transaction(y, step).value, now).result)
    case RunnerSteps(claim, e) => RunnerMoves(y.nodes[claim], claim, e)
    case GuardianSteps(claim, e) => GuardianMoves(y.nodes[claim], e)
    case ShellExits(claim, code, signal) => ShellEnds(y.nodes[claim], code, signal)
    case Losses(claim, runnerAlive, guardianAlive, toRunner, toGuardian) =>
      Lose(y.nodes[claim], runnerAlive, guardianAlive, toRunner, toGuardian)
  }

  function Next(y: System, step: Step): System
    requires Possible(y, step)
  {
    System(if Transaction(y, step).Some? then Apply(y.store, Transaction(y, step).value, step.now).store else y.store,
           if step.ClientCommits? then y.nodes else y.nodes[step.claim := NodeAfter(y, step)])
  }

  // ---------------------------------------------------------------- what is true of the whole system

  /** The node was authorized by the store, as the holder of its job's claim. */
  predicate AuthorizedBy(n: Node, claim: ClaimId, view: Option<View>) {
    && view.Some? && ClaimMatches(view.value, claim)
    && view.value.job.request.owner == n.owner
    && view.value.control.Some? && view.value.control.value.decision == Some(Authorized)
  }

  predicate LaunchTrue(e: Evidence, control: Option<Control>, n: Node) {
    match e.launch
    case Unknown => true
    case Launched => !n.shell.NoShell?
    case SpawnFailed => Hopeless(n)
    case SuppressedCancelled => control.Some? && control.value.decision == Some(CancelledFirst)
    case SuppressedDeadline => control.Some? && control.value.decision == Some(DeadlinePassed)
  }

  /** A durable snapshot is true of the node that holds the claim. */
  predicate EvidenceTrue(e: Evidence, control: Option<Control>, n: Node) {
    LaunchTrue(e, control, n) && CodeHonest(e.shellCode, n.shell) && SignalHonest(e.shellSignal, n.shell)
  }

  /** A revision is true, and before the final one it holds nothing but the launch that the holder reported. */
  predicate RevisionTrue(e: Evidence, control: Option<Control>, n: Node) {
    EvidenceTrue(e, control, n) && (e.finalized || OnlyLaunch(e, n.runner.facts))
  }

  /** The claim holder was given this job, with its token. */
  predicate Holds(n: Node, job: JobId, v: View) {
    n.job == job && n.owner == v.job.request.owner && n.token == v.job.token
  }

  /** Every revision of the job is true; the claim, if any, belongs to a runner that was given this job. */
  ghost predicate JobTrue(job: JobId, v: View, nodes: map<ClaimId, Node>) {
    match v.claim
    case None => forall i :: 0 <= i < |v.rows| ==> SameFacts(v.rows[i].evidence, INITIAL)
    case Some(claim) =>
      && claim.id in nodes && Holds(nodes[claim.id], job, v)
      && forall i :: 0 <= i < |v.rows| ==> RevisionTrue(v.rows[i].evidence, v.control, nodes[claim.id])
  }

  ghost predicate NodeTrue(claim: ClaimId, n: Node, store: Store) {
    && ValidClaimId(claim)
    && NodeOk(n, claim, ReadOf(store, n))
    && (Answered(n.answers, AuthorizedNow) ==> AuthorizedBy(n, claim, ViewOf(store, n.job)))
  }

  ghost predicate SystemOk(y: System) {
    && StoreOk(y.store)
    && (forall c :: c in y.nodes ==> NodeTrue(c, y.nodes[c], y.store))
    && (forall j :: j in y.store.views ==> JobTrue(j, y.store.views[j], y.nodes))
  }
}
