/**
 The durable store of src/job-store.ts. Every operation is one transaction on six tables; the
 functions below say what a transaction commits and what it returns.
 */
module JobStore {
  import opened Wrappers
  import opened JobTypes
  import opened StoreEvidence

  type Owner = string
  type JobId = string
  type ClaimId = string
  type Token = string

  datatype Namespace = ToolCall | Explicit

  datatype RequestKey = RequestKey(owner: Owner, namespace: Namespace, key: string)

  datatype Invocation = Invocation(command: string, cwd: string, deadlineMs: int)

  datatype JobState = Reserved | Claimed | Settled

  datatype Job = Job(
    request: RequestKey, invocation: Invocation, acceptedAt: int, deadlineAt: int,
    token: Token, state: JobState)

  datatype Decision = Authorized | CancelledFirst | DeadlinePassed

  datatype Control = Control(cancelledAt: Option<int>, decision: Option<Decision>, decidedAt: Option<int>)

  datatype Claim = Claim(id: ClaimId, claimedAt: int, counter: int)

  /** Which operation appended a row: bookkeeping of this model, read by no operation. */
  datatype Author = ByRunner | ByReconciler | ByDecision

  datatype ResultRow = ResultRow(revision: int, evidence: Evidence, publishedAt: int, author: Author)

  datatype NoticeRow = NoticeRow(revision: int, owner: Owner, pending: bool, acknowledgedAt: Option<int>)

  datatype WitnessRow = WitnessRow(claimKey: ClaimId, counter: int, observedRevision: int, committedAt: int)

  /** All rows of one job: one or none in jobs' sibling tables, any number in the other three. */
  datatype View = View(
    job: Job,
    control: Option<Control>,
    claim: Option<Claim>,
    rows: seq<ResultRow>,
    notices: seq<NoticeRow>,
    witnesses: seq<WitnessRow>)

  /** The store, job by job; byRequest and claimIds are the UNIQUE indexes on jobs and job_claims. */
  datatype Store = Store(
    views: map<JobId, View>,
    byRequest: map<RequestKey, JobId>,
    claimIds: set<ClaimId>)

  const EMPTY := Store(map[], map[], {})

  datatype Op =
    | Reserve(request: RequestKey, invocation: Invocation, candidate: JobId, capability: Token)
    | Cancel(owner: Owner, job: JobId)
    | Decide(owner: Owner, job: JobId, claim: ClaimId, token: Token)
    | ClaimRunner(owner: Owner, job: JobId, claim: ClaimId, token: Token)
    | Heartbeat(owner: Owner, job: JobId, claim: ClaimId, expected: int, token: Token)
    | Publish(owner: Owner, job: JobId, claim: ClaimId, expectedRevision: Option<int>, input: Observation, token: Token)
    | PublishUncertain(owner: Owner, job: JobId, observedClaim: Option<ClaimId>, observedCounter: int, observedRevision: int)
    | Acknowledge(owner: Owner, job: JobId, revision: int)

  datatype CancelDisposition = Recorded | AlreadyRecorded | AlreadyTerminal

  datatype DecideDisposition = AuthorizedNow | SuppressedNow | AlreadyDecided | Precluded

  datatype Reply =
    | ReserveReply(created: bool, job: JobId, granted: Option<Token>)
    | CancelReply(cancellation: CancelDisposition, control: Control)
    | DecideReply(decision: DecideDisposition, control: Control)
    | ClaimReply(claim: ClaimId)
    | HeartbeatReply(counter: int)
    | PublishReply(revision: int, evidence: Evidence)
    | AcknowledgeReply

  /** What a transaction leaves of one job, and what it returns or throws. */
  datatype JobOutcome = JobOutcome(view: View, result: Result<Reply, StoreError>)

  /** What a transaction leaves in the store, and what it returns or throws. */
  datatype Outcome = Outcome(store: Store, result: Result<Reply, StoreError>)

  // ---------------------------------------------------------------- rows

  /** The row with the greatest revision. */
  function Latest(rows: seq<ResultRow>): Option<ResultRow> {
    if rows == [] then None
    else
      var last := rows[|rows| - 1];
      match Latest(rows[..|rows| - 1])
      case None => Some(last)
      case Some(best) => if best.revision > last.revision then Some(best) else Some(last)
  }

  function LatestRevision(latest: Option<ResultRow>): int {
    match latest case None => 0 case Some(row) => row.revision
  }

  function LatestEvidence(latest: Option<ResultRow>): Evidence {
    match latest case None => INITIAL case Some(row) => row.evidence
  }

  predicate Finalized(latest: Option<ResultRow>) {
    latest.Some? && latest.value.evidence.finalized
  }

  predicate ClaimMatches(v: View, claim: ClaimId) {
    v.claim.Some? && v.claim.value.id == claim
  }

  /** A control row exists and its decision and decision time are present together. */
  predicate ControlReadable(v: View) {
    v.control.Some? && v.control.value.decision.None? == v.control.value.decidedAt.None?
  }

  /** Claim identifiers are nonempty and NUL-free; a char is never a lone surrogate. */
  predicate ValidClaimId(claim: ClaimId) {
    claim != "" && '\0' !in claim
  }

  predicate IsInitialEvidenceOnly(latest: Option<ResultRow>) {
    latest.None? || (!latest.value.evidence.finalized && SameFacts(latest.value.evidence, INITIAL))
  }

  /** Inserting this revision would violate a primary key. */
  predicate HasRevision(v: View, revision: int) {
    || (exists i :: 0 <= i < |v.rows| && v.rows[i].revision == revision)
    || (exists i :: 0 <= i < |v.notices| && v.notices[i].revision == revision)
  }

  /** The view with a result row and its notice. */
  function AppendRevision(v: View, row: ResultRow): View {
    v.(rows := v.rows + [row],
       notices := v.notices + [NoticeRow(row.revision, v.job.request.owner, true, None)])
  }

  function SetState(v: View, state: JobState): View {
    v.(job := v.job.(state := state))
  }

  function Fail(v: View, e: StoreError): JobOutcome {
    JobOutcome(v, Failure(e))
  }

  // ---------------------------------------------------------------- operations on one owned job

  function CancelJob(v: View, now: int): JobOutcome {
    if !ControlReadable(v) then Fail(v, StoreCorrupt)
    else
      var control := v.control.value;
      if v.job.state.Settled? || Finalized(Latest(v.rows)) then
        JobOutcome(v, Success(CancelReply(AlreadyTerminal, control)))
      else if control.cancelledAt.Some? then JobOutcome(v, Success(CancelReply(AlreadyRecorded, control)))
      else
        var recorded := control.(cancelledAt := Some(now));
        JobOutcome(v.(control := Some(recorded)), Success(CancelReply(Recorded, recorded)))
  }

  /** What a first decision at this time is. */
  function FirstDecision(control: Control, job: Job, now: int): Decision {
    if control.cancelledAt.Some? then CancelledFirst
    else if now >= job.deadlineAt then DeadlinePassed
    else Authorized
  }

  const ABSENT := StreamInput(Some(Some(false)), Some(false), Some(false), Some(false))

  function SuppressionEvidence(decision: Decision): Observation {
    Observation(Some(if decision.CancelledFirst? then SuppressedCancelled else SuppressedDeadline),
                None, None, Some(NotRequired), None, None,
                Some(decision.CancelledFirst?), Some(decision.DeadlinePassed?),
                Some(ABSENT), Some(ABSENT), Some(true))
  }

  function DecideJob(v: View, claim: ClaimId, token: Token, now: int): JobOutcome {
    if v.job.token != token || !ClaimMatches(v, claim) then Fail(v, ClaimTaken)
    else if !ControlReadable(v) then Fail(v, StoreCorrupt)
    else
      var control, latest := v.control.value, Latest(v.rows);
      if control.decision.Some? then JobOutcome(v, Success(DecideReply(AlreadyDecided, control)))
      else if v.job.state.Settled? || !IsInitialEvidenceOnly(latest) then
        JobOutcome(v, Success(DecideReply(Precluded, control)))
      else
        var decision := FirstDecision(control, v.job, now);
        var decided := control.(decision := Some(decision), decidedAt := Some(now));
        var withDecision := v.(control := Some(decided));
        if decision.Authorized? then JobOutcome(withDecision, Success(DecideReply(AuthorizedNow, decided)))
        else
          var merged := Merge(LatestEvidence(latest), SuppressionEvidence(decision), false, true);
          var revision := LatestRevision(latest) + 1;
          if merged.Failure? then Fail(v, ValidationFailed)
          else if HasRevision(v, revision) then Fail(v, StoreUnavailable)
          else
            var row := ResultRow(revision, merged.value, now, ByDecision);
            JobOutcome(SetState(AppendRevision(withDecision, row), Settled), Success(DecideReply(SuppressedNow, decided)))
  }

  function ClaimJob(v: View, claim: ClaimId, token: Token, taken: bool, now: int): JobOutcome {
    if v.job.token != token || v.claim.Some? || !v.job.state.Reserved? then Fail(v, ClaimTaken)
    else if taken then Fail(v, StoreUnavailable)
    else JobOutcome(SetState(v.(claim := Some(Claim(claim, now, 0))), Claimed), Success(ClaimReply(claim)))
  }

  function HeartbeatJob(v: View, claim: ClaimId, expected: int, token: Token): JobOutcome {
    if v.job.token != token then Fail(v, ClaimTaken)
    else if !ClaimMatches(v, claim) || v.claim.value.counter != expected then Fail(v, RevisionStale)
    else JobOutcome(v.(claim := Some(v.claim.value.(counter := expected + 1))), Success(HeartbeatReply(expected + 1)))
  }

  function PublishJob(v: View, claim: ClaimId, expectedRevision: Option<int>, input: Observation, token: Token, now: int)
    : JobOutcome
  {
    var latest := Latest(v.rows);
    var revision := LatestRevision(latest) + 1;
    var finalized := input.finalized == Some(true);
    var merged := Merge(LatestEvidence(latest), input, !finalized, finalized);
    if v.job.token != token || !ClaimMatches(v, claim) then Fail(v, ClaimTaken)
    else if Finalized(latest) then Fail(v, RevisionStale)
    else if (match expectedRevision
             case None => LatestRevision(latest) != 0
             case Some(expected) => expected != LatestRevision(latest)) then Fail(v, RevisionStale)
    else if merged.Failure? then Fail(v, ValidationFailed)
    else if HasRevision(v, revision) then Fail(v, StoreUnavailable)
    else
      var appended := AppendRevision(v, ResultRow(revision, merged.value, now, ByRunner));
      JobOutcome(if finalized then SetState(appended, Settled) else appended,
                 Success(PublishReply(revision, merged.value)))
  }

  function ClaimKey(claim: Option<ClaimId>): ClaimId {
    match claim case None => "" case Some(id) => id
  }

  predicate HasWitness(v: View, claimKey: ClaimId, counter: int) {
    exists i :: 0 <= i < |v.witnesses| && v.witnesses[i].claimKey == claimKey && v.witnesses[i].counter == counter
  }

  function UncertainJob(v: View, observedClaim: Option<ClaimId>, observedCounter: int, observedRevision: int, now: int)
    : JobOutcome
  {
    var latest := Latest(v.rows);
    var revision := LatestRevision(latest) + 1;
    var currentClaim := if v.claim.Some? then Some(v.claim.value.id) else None;
    var currentCounter := if v.claim.Some? then v.claim.value.counter else 0;
    var merged := Merge(LatestEvidence(latest), NO_OBSERVATION, true, false);
    if v.job.state.Settled? || Finalized(latest) then Fail(v, RevisionStale)
    else if observedRevision != LatestRevision(latest) then Fail(v, RevisionStale)
    else if currentClaim != observedClaim || currentCounter != observedCounter then Fail(v, RevisionStale)
    else if HasWitness(v, ClaimKey(observedClaim), observedCounter) then Fail(v, RevisionStale)
    else if merged.Failure? then Fail(v, ValidationFailed)
    else if HasRevision(v, revision) then Fail(v, StoreUnavailable)
    else
      var appended := AppendRevision(v, ResultRow(revision, merged.value, now, ByReconciler));
      JobOutcome(appended.(witnesses := v.witnesses + [WitnessRow(ClaimKey(observedClaim), observedCounter, observedRevision, now)]),
                 Success(PublishReply(revision, merged.value)))
  }

  predicate NoticeMatches(n: NoticeRow, owner: Owner, revision: int) {
    n.revision == revision && n.owner == owner
  }

  function Acknowledged(n: NoticeRow, owner: Owner, revision: int, now: int): NoticeRow {
    if NoticeMatches(n, owner, revision) then n.(pending := false, acknowledgedAt := Some(now)) else n
  }

  predicate AnyNotice(notices: seq<NoticeRow>, owner: Owner, revision: int) {
    exists i :: 0 <= i < |notices| && NoticeMatches(notices[i], owner, revision)
  }

  function AcknowledgedAll(notices: seq<NoticeRow>, owner: Owner, revision: int, now: int): seq<NoticeRow> {
    seq(|notices|, i requires 0 <= i < |notices| => Acknowledged(notices[i], owner, revision, now))
  }

  function AcknowledgeJob(v: View, owner: Owner, revision: int, now: int): JobOutcome {
    if !AnyNotice(v.notices, owner, revision) then Fail(v, NotFound)
    else JobOutcome(v.(notices := AcknowledgedAll(v.notices, owner, revision, now)), Success(AcknowledgeReply))
  }

  // ---------------------------------------------------------------- transactions

  /** Every mutation but an acknowledgement starts with the owner-fenced job lookup. */
  function ApplyToJob(s: Store, op: Op, now: int): JobOutcome
    requires !op.Reserve? && op.job in s.views
  {
    var v := s.views[op.job];
    if !op.Acknowledge? && v.job.request.owner != op.owner then Fail(v, NotFound)
    else
      match op
      case Cancel(_, _) => CancelJob(v, now)
      case Decide(_, _, claim, token) => DecideJob(v, claim, token, now)
      case ClaimRunner(_, _, claim, token) => ClaimJob(v, claim, token, claim in s.claimIds, now)
      case Heartbeat(_, _, claim, expected, token) => HeartbeatJob(v, claim, expected, token)
      case Publish(_, _, claim, expected, input, token) => PublishJob(v, claim, expected, input, token, now)
      case PublishUncertain(_, _, claim, counter, revision) => UncertainJob(v, claim, counter, revision, now)
      case Acknowledge(owner, _, revision) => AcknowledgeJob(v, owner, revision, now)
  }

  predicate CarriesInvalidClaim(op: Op) {
    (op.Decide? || op.ClaimRunner? || op.Heartbeat? || op.Publish?) && !ValidClaimId(op.claim)
  }

  function ApplyReserve(s: Store, request: RequestKey, invocation: Invocation, candidate: JobId, capability: Token, now: int)
    : Outcome
  {
    if request in s.byRequest && s.byRequest[request] in s.views then
      var existing := s.byRequest[request];
      if s.views[existing].job.invocation != invocation then Outcome(s, Failure(RequestKeyConflict))
      else Outcome(s, Success(ReserveReply(false, existing, None)))
    else if candidate in s.views then Outcome(s, Failure(StoreUnavailable))
    else
      var job := Job(request, invocation, now, now + invocation.deadlineMs, capability, Reserved);
      var view := View(job, Some(Control(None, None, None)), None, [], [], []);
      Outcome(s.(views := s.views[candidate := view], byRequest := s.byRequest[request := candidate]),
              Success(ReserveReply(true, candidate, Some(capability))))
  }

  /** One transaction: its commit and its reply. */
  function Apply(s: Store, op: Op, now: int): Outcome {
    if op.Reserve? then ApplyReserve(s, op.request, op.invocation, op.candidate, op.capability, now)
    else if CarriesInvalidClaim(op) then Outcome(s, Failure(ValidationFailed))
    else if op.job !in s.views then Outcome(s, Failure(NotFound))
    else
      var o := ApplyToJob(s, op, now);
      Outcome(s.(views := s.views[op.job := o.view],
                 claimIds := if op.ClaimRunner? && o.result.Success? then s.claimIds + {op.claim} else s.claimIds),
              o.result)
  }
}
