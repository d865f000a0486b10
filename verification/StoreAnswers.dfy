/**
 What each operation answers and stores, said of the rows before, the rows after and the answer
 alone. v and w are the rows of one job before and after the operation.
 */
module StoreAnswers {
  import opened Wrappers
  import opened JobTypes
  import opened StoreEvidence
  import opened JobStore
  import opened StoreInvariants
  import opened StoreRuns
  import opened StoreConnection
  import opened StoreGuarantees

  function LastEvidence(rows: seq<ResultRow>): Evidence {
    if rows == [] then INITIAL else rows[|rows| - 1].evidence
  }

  predicate HasClaim(v: View, claim: ClaimId) {
    v.claim.Some? && v.claim.value.id == claim
  }

  /** One revision more, with its notice. */
  predicate OneMore(v: View, w: View, row: ResultRow) {
    && w.rows == v.rows + [row]
    && row.revision == |v.rows| + 1
    && w.notices == v.notices + [NoticeRow(|v.rows| + 1, v.job.request.owner, true, None)]
  }

  function NewRow(v: View, w: View): Option<ResultRow> {
    if |w.rows| == |v.rows| + 1 then Some(w.rows[|v.rows|]) else None
  }

  // ---------------------------------------------------------------- publication

  /** The capability is the claim holder's, the job is open, the revision is current and nothing contradicts. */
  ghost predicate Publishable(v: View, claim: ClaimId, expected: Option<int>, input: Observation, token: Token) {
    && v.job.token == token && HasClaim(v, claim) && !v.job.state.Settled?
    && (match expected case None => v.rows == [] case Some(revision) => revision == |v.rows|)
    && !Retracts(LastEvidence(v.rows), input)
    && exists e :: LeastAbove(LastEvidence(v.rows), Says(input), e) && Consistent(e)
  }

  /** A publication stores the least snapshot above what was established and what was observed, and answers with it. */
  ghost predicate PublishAnswers(v: View, w: View, claim: ClaimId, expected: Option<int>, input: Observation, token: Token,
                                 result: Result<Reply, StoreError>, now: int) {
    && (result.Success? <==> Publishable(v, claim, expected, input, token))
    && (result.Success? ==> result.value.PublishReply? && NewRow(v, w).Some? && PublishStores(v, w, input, result.value, NewRow(v, w).value, now))
  }

  ghost predicate PublishStores(v: View, w: View, input: Observation, reply: Reply, row: ResultRow, now: int)
    requires reply.PublishReply?
  {
    var final := input.finalized == Some(true);
    && OneMore(v, w, row)
    && LeastAbove(LastEvidence(v.rows), Says(input), row.evidence)
    && row.evidence.finalized == final && row.evidence.uncertain == !final
    && row.author.ByRunner? && row.publishedAt == now && row.evidence == reply.evidence && row.revision == reply.revision
    && w.job == v.job.(state := if final then Settled else v.job.state)
    && w.control == v.control && w.claim == v.claim && w.witnesses == v.witnesses
  }

  lemma LastIsLatest(v: View)
    requires ViewOk(v)
    ensures LatestEvidence(Latest(v.rows)) == LastEvidence(v.rows) && LatestRevision(Latest(v.rows)) == |v.rows|
    ensures Finalized(Latest(v.rows)) <==> v.job.state.Settled?
    ensures Consistent(LastEvidence(v.rows)) && !HasRevision(v, |v.rows| + 1)
    ensures v.control.Some? && ControlReadable(v)
  {
    LatestOfView(v);
    NextRevisionIsFree(v);
    SuppressedIsSettled(v);
  }

  lemma PublishJobAnswers(v: View, claim: ClaimId, expected: Option<int>, input: Observation, token: Token, now: int)
    requires ViewOk(v)
    ensures var o := PublishJob(v, claim, expected, input, token, now);
            PublishAnswers(v, o.view, claim, expected, input, token, o.result, now)
  {
    LastIsLatest(v);
    var prior, finalized := LastEvidence(v.rows), input.finalized == Some(true);
    MergeSucceedsIff(prior, input, !finalized, finalized);
    if Merge(prior, input, !finalized, finalized).Success? {
      MergedIsLeastAbove(prior, input, !finalized, finalized);
      MergeSetsFlags(prior, input, !finalized, finalized);
    }
    hide ViewOk, Merge, Latest, LastEvidence, LatestEvidence, LatestRevision, Finalized, HasRevision, LeastAbove, Says, Retracts, Consistent, ControlReadable;
  }

  // ---------------------------------------------------------------- reconciliation

  function ObservedKey(observedClaim: Option<ClaimId>): ClaimId {
    if observedClaim.Some? then observedClaim.value else ""
  }

  /** The observation is of the job as it is, and has not been used before. */
  predicate FreshObservation(v: View, observedClaim: Option<ClaimId>, counter: int, revision: int) {
    && !v.job.state.Settled? && revision == |v.rows|
    && (match v.claim
        case None => observedClaim.None? && counter == 0
        case Some(c) => observedClaim == Some(c.id) && counter == c.counter)
    && forall i :: 0 <= i < |v.witnesses| ==> v.witnesses[i].claimKey != ObservedKey(observedClaim) || v.witnesses[i].counter != counter
  }

  /** A reconciler succeeds exactly on a fresh observation; it repeats the facts as uncertain and leaves its witness. */
  predicate UncertainAnswers(v: View, w: View, observedClaim: Option<ClaimId>, counter: int, revision: int,
                             result: Result<Reply, StoreError>, now: int) {
    && (result.Success? <==> FreshObservation(v, observedClaim, counter, revision))
    && (result.Success? ==>
          && NewRow(v, w).Some?
          && var row := NewRow(v, w).value;
          && OneMore(v, w, row) && row.author.ByReconciler? && row.publishedAt == now
          && row.evidence == LastEvidence(v.rows).(uncertain := true, finalized := false)
          && result.value == PublishReply(row.revision, row.evidence)
          && w.witnesses == v.witnesses + [WitnessRow(ObservedKey(observedClaim), counter, revision, now)]
          && w.job == v.job && w.control == v.control && w.claim == v.claim)
  }

  lemma UncertainJobAnswers(v: View, observedClaim: Option<ClaimId>, counter: int, revision: int, now: int)
    requires ViewOk(v)
    ensures var o := UncertainJob(v, observedClaim, counter, revision, now);
            UncertainAnswers(v, o.view, observedClaim, counter, revision, o.result, now)
  {
    LastIsLatest(v);
    EmptyMergeNeverThrows(LastEvidence(v.rows), true, false);
    hide ViewOk, Merge, Latest, LastEvidence, LatestEvidence, LatestRevision, Finalized, HasRevision, Consistent, ControlReadable;
  }

  // ---------------------------------------------------------------- cancellation

  /** An open job without a cancellation gets one now; otherwise the answer says why not. The stored control row is answered. */
  predicate CancelAnswers(v: View, w: View, result: Result<Reply, StoreError>, now: int) {
    && result.Success? && result.value.CancelReply? && v.control.Some? && w == v.(control := Some(result.value.control))
    && var before, after := v.control.value, result.value.control;
    && (if v.job.state.Settled? then result.value.cancellation.AlreadyTerminal? && after == before
        else if before.cancelledAt.Some? then result.value.cancellation.AlreadyRecorded? && after == before
        else result.value.cancellation.Recorded? && after == Control(Some(now), before.decision, before.decidedAt))
  }

  lemma CancelJobAnswers(v: View, now: int)
    requires ViewOk(v)
    ensures var o := CancelJob(v, now); CancelAnswers(v, o.view, o.result, now)
  {
    LastIsLatest(v);
    assert v.(control := v.control) == v;
    hide ViewOk, Latest, Finalized;
  }

  // ---------------------------------------------------------------- decision

  /** The one snapshot of a job that was suppressed: it was not launched, needs no cleanup and has no output. */
  function Suppressed(cancelled: bool): Evidence {
    var nothing := StreamFacts(Some(false), false, false, false);
    Evidence(if cancelled then SuppressedCancelled else SuppressedDeadline, None, None, NotRequired, None, false,
             cancelled, !cancelled, nothing, nothing, false, true)
  }

  /** Nothing but uncertainty has been recorded of the job. */
  predicate Untouched(v: View) {
    !v.job.state.Settled? && SameFacts(LastEvidence(v.rows), INITIAL)
  }

  predicate DecideAnswers(v: View, w: View, claim: ClaimId, token: Token, result: Result<Reply, StoreError>, now: int) {
    && (result.Success? <==> v.job.token == token && HasClaim(v, claim))
    && (result.Success? ==> result.value.DecideReply? && v.control.Some? && DecisionStored(v, w, result.value, now))
  }

  /** Which answer is given, and what a fresh decision stores: cancellation goes before the deadline. */
  predicate DecisionStored(v: View, w: View, reply: Reply, now: int)
    requires reply.DecideReply? && v.control.Some?
  {
    var before := v.control.value;
    var decided := (d: Decision) => Control(before.cancelledAt, Some(d), Some(now));
    if before.decision.Some? then reply == DecideReply(AlreadyDecided, before) && w == v
    else if !Untouched(v) then reply == DecideReply(Precluded, before) && w == v
    else if before.cancelledAt.None? && now < v.job.deadlineAt then
      reply == DecideReply(AuthorizedNow, decided(Authorized)) && w == v.(control := Some(decided(Authorized)))
    else
      var cancelled := before.cancelledAt.Some?;
      && reply == DecideReply(SuppressedNow, decided(if cancelled then CancelledFirst else DeadlinePassed))
      && NewRow(v, w).Some? && OneMore(v, w, NewRow(v, w).value)
      && NewRow(v, w).value == ResultRow(|v.rows| + 1, Suppressed(cancelled), now, ByDecision)
      && w == v.(control := Some(reply.control), rows := w.rows, notices := w.notices, job := v.job.(state := Settled))
  }

  lemma SuppressionIsLiteral(prior: Evidence, decision: Decision)
    requires SameFacts(prior, INITIAL) && !decision.Authorized?
    ensures Merge(prior, SuppressionEvidence(decision), false, true) == Success(Suppressed(decision.CancelledFirst?))
  {
  }

  lemma DecideJobAnswers(v: View, claim: ClaimId, token: Token, now: int)
    requires ViewOk(v)
    ensures var o := DecideJob(v, claim, token, now); DecideAnswers(v, o.view, claim, token, o.result, now)
  {
    LastIsLatest(v);
    LatestOfView(v);
    assert v.rows == [] ==> SameFacts(LastEvidence(v.rows), INITIAL);
    assert v.job.state.Settled? || !IsInitialEvidenceOnly(Latest(v.rows)) <==> !Untouched(v);
    var d := FirstDecision(v.control.value, v.job, now);
    if Untouched(v) && !d.Authorized? {
      SuppressionIsLiteral(LastEvidence(v.rows), d);
    }
    hide ViewOk, Merge, Latest, LastEvidence, LatestEvidence, LatestRevision, Finalized, HasRevision, Consistent,
         SuppressionEvidence, Suppressed, SameFacts, IsInitialEvidenceOnly, Untouched;
  }

  // ---------------------------------------------------------------- claim, heartbeat, acknowledgement

  predicate ClaimAnswers(v: View, w: View, claim: ClaimId, used: bool, token: Token, result: Result<Reply, StoreError>, now: int) {
    && (result.Success? <==> v.job.token == token && v.job.state.Reserved? && !used)
    && (result.Success? ==> result.value == ClaimReply(claim)
                            && w == v.(claim := Some(Claim(claim, now, 0)), job := v.job.(state := Claimed)))
  }

  lemma ClaimJobAnswers(v: View, claim: ClaimId, token: Token, used: bool, now: int)
    requires ViewOk(v)
    ensures var o := ClaimJob(v, claim, token, used, now); ClaimAnswers(v, o.view, claim, used, token, o.result, now)
  {
  }

  predicate HeartbeatAnswers(v: View, w: View, claim: ClaimId, expected: int, token: Token, result: Result<Reply, StoreError>) {
    && (result.Success? <==> v.job.token == token && HasClaim(v, claim) && v.claim.value.counter == expected)
    && (result.Success? ==> result.value == HeartbeatReply(expected + 1)
                            && w == v.(claim := Some(Claim(claim, v.claim.value.claimedAt, expected + 1))))
  }

  lemma HeartbeatJobAnswers(v: View, claim: ClaimId, expected: int, token: Token)
    ensures var o := HeartbeatJob(v, claim, expected, token); HeartbeatAnswers(v, o.view, claim, expected, token, o.result)
  {
  }

  /** The notice of this revision, and no other, is acknowledged now. */
  predicate AcknowledgeAnswers(v: View, w: View, owner: Owner, revision: int, result: Result<Reply, StoreError>, now: int) {
    && (result.Success? <==> v.job.request.owner == owner && 1 <= revision <= |v.notices|)
    && (result.Success? ==>
          result.value.AcknowledgeReply? &&
          w == v.(notices := v.notices[revision - 1 := NoticeRow(revision, owner, false, Some(now))]))
  }

  lemma AcknowledgeJobAnswers(v: View, owner: Owner, revision: int, now: int)
    requires ViewOk(v)
    ensures var o := AcknowledgeJob(v, owner, revision, now); AcknowledgeAnswers(v, o.view, owner, revision, o.result, now)
  {
    var o := AcknowledgeJob(v, owner, revision, now);
    if v.job.request.owner == owner && 1 <= revision <= |v.notices| {
      assert NoticeMatches(v.notices[revision - 1], owner, revision);
    }
    hide RowsShaped, HistoryMonotone, LifecycleOk, DecisionOk, WitnessesOk;
  }

  // ---------------------------------------------------------------- reservation

  /** A replay names the job of the first reservation and conflicts on other inputs; a new request gets a new open job. */
  predicate ReserveAnswers(s: Store, t: Store, request: RequestKey, invocation: Invocation, candidate: JobId, capability: Token,
                           result: Result<Reply, StoreError>, now: int) {
    if exists j :: j in s.views && s.views[j].job.request == request then
      && t == s
      && forall j :: j in s.views && s.views[j].job.request == request ==>
           result == if s.views[j].job.invocation == invocation then Success(ReserveReply(false, j, None)) else Failure(RequestKeyConflict)
    else if candidate in s.views then t == s && result == Failure(StoreUnavailable)
    else
      && result == Success(ReserveReply(true, candidate, Some(capability)))
      && t.views == s.views[candidate := View(
           Job(request, invocation, now, now + invocation.deadlineMs, capability, Reserved), Some(Control(None, None, None)), None, [], [], [])]
      && t.claimIds == s.claimIds && t.byRequest == s.byRequest[request := candidate]
  }

  lemma ReservationAnswers(s: Store, op: Op, now: int)
    requires StoreOk(s) && op.Reserve?
    ensures var o := Apply(s, op, now);
            ReserveAnswers(s, o.store, op.request, op.invocation, op.candidate, op.capability, o.result, now)
  {
    hide ViewOk, ClaimsUnique;
    if j :| j in s.views && s.views[j].job.request == op.request {
      assert s.byRequest[op.request] == j;
    }
  }

  // ---------------------------------------------------------------- every operation

  /** The job exists, belongs to the caller and the claim identifier is well formed: the operation looks at its rows. */
  predicate Reaches(s: Store, op: Op)
    requires !op.Reserve?
  {
    && op.job in s.views && (op.Acknowledge? || s.views[op.job].job.request.owner == op.owner)
    && (op.Decide? || op.ClaimRunner? || op.Heartbeat? || op.Publish? ==> ValidClaimId(op.claim))
  }

  ghost predicate JobAnswers(v: View, w: View, op: Op, used: bool, result: Result<Reply, StoreError>, now: int)
    requires !op.Reserve?
  {
    match op
    case Cancel(_, _) => CancelAnswers(v, w, result, now)
    case Decide(_, _, claim, token) => DecideAnswers(v, w, claim, token, result, now)
    case ClaimRunner(_, _, claim, token) => ClaimAnswers(v, w, claim, used, token, result, now)
    case Heartbeat(_, _, claim, expected, token) => HeartbeatAnswers(v, w, claim, expected, token, result)
    case Publish(_, _, claim, expected, input, token) => PublishAnswers(v, w, claim, expected, input, token, result, now)
    case PublishUncertain(_, _, claim, counter, revision) => UncertainAnswers(v, w, claim, counter, revision, result, now)
    case Acknowledge(owner, _, revision) => AcknowledgeAnswers(v, w, owner, revision, result, now)
  }

  /** The operation answers as it should, changes nothing when it fails and no other job when it succeeds. */
  ghost predicate Answers(s: Store, t: Store, op: Op, result: Result<Reply, StoreError>, now: int) {
    && (result.Failure? ==> t == s)
    && if op.Reserve? then ReserveAnswers(s, t, op.request, op.invocation, op.candidate, op.capability, result, now)
       else if !Reaches(s, op) then result.Failure?
       else
         && op.job in t.views && t.views == s.views[op.job := t.views[op.job]] && t.byRequest == s.byRequest
         && t.claimIds == (if op.ClaimRunner? && result.Success? then s.claimIds + {op.claim} else s.claimIds)
         && JobAnswers(s.views[op.job], t.views[op.job], op, op.ClaimRunner? && op.claim in s.claimIds, result, now)
  }

  /** What an operation on one job leaves of the rest. */
  predicate OneJobOutcome(s: Store, op: Op, now: int, o: Outcome)
    requires !op.Reserve? && op.job in s.views
  {
    if Reaches(s, op) then
      && o.result == ApplyToJob(s, op, now).result && o.store.byRequest == s.byRequest
      && op.job in o.store.views && o.store.views[op.job] == ApplyToJob(s, op, now).view
      && o.store.views == s.views[op.job := o.store.views[op.job]]
      && o.store.claimIds == (if op.ClaimRunner? && o.result.Success? then s.claimIds + {op.claim} else s.claimIds)
    else o.result.Failure?
  }

  lemma OnOneJob(s: Store, op: Op, now: int)
    requires !op.Reserve? && op.job in s.views
    ensures OneJobOutcome(s, op, now, Apply(s, op, now))
  {
    if !op.Acknowledge? && s.views[op.job].job.request.owner != op.owner {
      assert ApplyToJob(s, op, now).result == Failure(NotFound);
    }
    hide ApplyToJob;
  }

  lemma JobOutcomeAnswers(s: Store, op: Op, now: int, o: Outcome)
    requires !op.Reserve? && op.job in s.views && ViewOk(s.views[op.job])
    requires OneJobOutcome(s, op, now, o) && (o.result.Failure? ==> o.store == s)
    ensures Answers(s, o.store, op, o.result, now)
  {
    hide ApplyToJob, ViewOk, JobAnswers;
    if Reaches(s, op) {
      ApplyToJobAnswers(s, op, now);
    }
    hide Reaches;
  }

  lemma ApplyToJobAnswers(s: Store, op: Op, now: int)
    requires !op.Reserve? && Reaches(s, op) && ViewOk(s.views[op.job])
    ensures var o := ApplyToJob(s, op, now);
            JobAnswers(s.views[op.job], o.view, op, op.ClaimRunner? && op.claim in s.claimIds, o.result, now)
  {
    var v := s.views[op.job];
    hide ViewOk, CancelJob, DecideJob, ClaimJob, HeartbeatJob, PublishJob, UncertainJob, AcknowledgeJob;
    hide CancelAnswers, DecideAnswers, ClaimAnswers, HeartbeatAnswers, PublishAnswers, UncertainAnswers, AcknowledgeAnswers;
    match op
    case Cancel(_, _) => CancelJobAnswers(v, now);
    case Decide(_, _, claim, token) => DecideJobAnswers(v, claim, token, now);
    case ClaimRunner(_, _, claim, token) => ClaimJobAnswers(v, claim, token, claim in s.claimIds, now);
    case Heartbeat(_, _, claim, expected, token) => HeartbeatJobAnswers(v, claim, expected, token);
    case Publish(_, _, claim, expected, input, token) => PublishJobAnswers(v, claim, expected, input, token, now);
    case PublishUncertain(_, _, claim, counter, revision) => UncertainJobAnswers(v, claim, counter, revision, now);
    case Acknowledge(owner, _, revision) => AcknowledgeJobAnswers(v, owner, revision, now);
  }

  /** On every store that satisfies the invariant every operation answers and stores as said above. */
  lemma EveryOperationAnswers(s: Store, op: Op, now: int)
    requires StoreOk(s)
    ensures Answers(s, Apply(s, op, now).store, op, Apply(s, op, now).result, now)
  {
    FailedOperationChangesNothing(s, op, now);
    if op.Reserve? {
      ReservationAnswers(s, op, now);
      hide Apply, ReserveAnswers, StoreOk;
    } else {
      JobOperationAnswers(s, op, now);
    }
  }

  lemma MissingJob(s: Store, op: Op, now: int)
    requires !op.Reserve? && op.job !in s.views
    ensures Apply(s, op, now).result.Failure?
  {
  }

  lemma JobOperationAnswers(s: Store, op: Op, now: int)
    requires StoreOk(s) && !op.Reserve?
    ensures Answers(s, Apply(s, op, now).store, op, Apply(s, op, now).result, now)
  {
    FailedOperationChangesNothing(s, op, now);
    assert op.job in s.views ==> ViewOk(s.views[op.job]);
    if op.job in s.views {
      OnOneJob(s, op, now);
      hide Apply, StoreOk, ViewOk, OneJobOutcome, Answers;
      JobOutcomeAnswers(s, op, now, Apply(s, op, now));
    } else {
      MissingJob(s, op, now);
      hide Apply, StoreOk, ViewOk, ApplyToJob, JobAnswers;
    }
  }

  /** And so it does at every point of every run. */
  lemma EveryRunAnswers(trace: seq<Event>, k: nat)
    requires k < |trace|
    ensures Answers(After(trace, k), After(trace, k + 1), trace[k].op, ReplyTo(trace, k), trace[k].now)
  {
    RunKeepsStore(trace, k);
    AfterStep(trace, k);
    hide After, Answers, StoreOk;
    EveryOperationAnswers(After(trace, k), trace[k].op, trace[k].now);
  }

  /**
   Over every run: a publication that succeeded added one row, which says everything that was known
   before and everything that was published and nothing more, at that time and as the answer says.
   */
  lemma PublishedIsStored(trace: seq<Event>, k: nat)
    requires k < |trace| && trace[k].op.Publish? && ReplyTo(trace, k).Success?
    ensures var op, s, t, reply := trace[k].op, After(trace, k), After(trace, k + 1), ReplyTo(trace, k).value;
            && op.job in s.views && op.job in t.views && reply.PublishReply?
            && var rows := s.views[op.job].rows;
               var row := NewRow(s.views[op.job], t.views[op.job]);
               && row.Some? && t.views[op.job].rows == rows + [row.value]
               && Below(LastEvidence(rows), row.value.evidence) && Below(Says(op.input), row.value.evidence)
               && LeastAbove(LastEvidence(rows), Says(op.input), row.value.evidence)
               && row.value.evidence.finalized == (op.input.finalized == Some(true))
               && row.value == ResultRow(reply.revision, reply.evidence, trace[k].now, ByRunner)
               && reply.revision == |rows| + 1
  {
    EveryRunAnswers(trace, k);
    hide After, RunFrom, Apply, Says, Below, LastEvidence;
    var op, s, t, reply := trace[k].op, After(trace, k), After(trace, k + 1), ReplyTo(trace, k).value;
    assert Reaches(s, op);
    assert JobAnswers(s.views[op.job], t.views[op.job], op, false, ReplyTo(trace, k), trace[k].now);
    assert PublishStores(s.views[op.job], t.views[op.job], op.input, reply, NewRow(s.views[op.job], t.views[op.job]).value, trace[k].now);
  }

  predicate NeverRan(l: LaunchPhase) {
    l.SuppressedCancelled? || l.SuppressedDeadline? || l.SpawnFailed?
  }

  /** No revision of any run says the impossible: two outcomes, an outcome or a cleanup of what never ran. */
  lemma StoredFactsArePossible(trace: seq<Event>, k: nat, job: JobId, r: nat)
    requires k <= |trace| && job in After(trace, k).views && r < |After(trace, k).views[job].rows|
    ensures var e := After(trace, k).views[job].rows[r].evidence;
            && (e.shellCode.None? || e.shellSignal.None?)
            && (NeverRan(e.launch) ==> e.shellCode.None? && e.shellSignal.None?)
            && (e.cleanup.NotRequired? ==> NeverRan(e.launch) && e.term.None? && !e.killIntent)
            && !(e.uncertain && e.finalized)
  {
    RunKeepsStore(trace, k);
    assert ViewOk(After(trace, k).views[job]);
    hide After, StoreOk;
  }

  // ---------------------------------------------------------------- refusals

  predicate Capable(v: View, claim: ClaimId, token: Token) {
    v.job.token == token && HasClaim(v, claim)
  }

  /** The revision the publisher expects is the last one; with none yet, 0 does as well as none. */
  predicate Current(v: View, expected: Option<int>) {
    match expected case None => v.rows == [] case Some(revision) => revision == |v.rows|
  }

  /** Why an operation on an existing job of its owner is refused, if it is. */
  function JobRefusal(v: View, op: Op): StoreError
    requires !op.Reserve? && !op.Cancel?
  {
    match op
    case Decide(_, _, _, _) => ClaimTaken
    case ClaimRunner(_, _, _, token) => if v.job.token == token && v.job.state.Reserved? then StoreUnavailable else ClaimTaken
    case Heartbeat(_, _, _, _, token) => if v.job.token == token then RevisionStale else ClaimTaken
    case Publish(_, _, claim, expected, _, token) =>
      if !Capable(v, claim, token) then ClaimTaken
      else if v.job.state.Settled? || !Current(v, expected) then RevisionStale
      else ValidationFailed
    case PublishUncertain(_, _, _, _, _) => RevisionStale
    case Acknowledge(_, _, _) => NotFound
  }

  predicate MalformedClaim(op: Op) {
    (op.Decide? || op.ClaimRunner? || op.Heartbeat? || op.Publish?) && !ValidClaimId(op.claim)
  }

  /** Why an operation is refused: a job of another owner is as good as none. */
  function Refusal(s: Store, op: Op): StoreError
    requires op.Cancel? ==> !Reaches(s, op)
  {
    if op.Reserve? then
      if exists j :: j in s.views && s.views[j].job.request == op.request then RequestKeyConflict else StoreUnavailable
    else if MalformedClaim(op) then ValidationFailed
    else if !Reaches(s, op) then NotFound
    else JobRefusal(s.views[op.job], op)
  }

  lemma PublisherIsTold(v: View, claim: ClaimId, expected: Option<int>, input: Observation, token: Token, now: int)
    requires ViewOk(v)
    ensures var r := PublishJob(v, claim, expected, input, token, now).result;
            r.Failure? ==> r.error == (if !Capable(v, claim, token) then ClaimTaken
                                       else if v.job.state.Settled? || !Current(v, expected) then RevisionStale
                                       else ValidationFailed)
  {
    LastIsLatest(v);
    hide ViewOk, Merge, Latest, LatestEvidence, LatestRevision, Finalized, HasRevision, ControlReadable;
  }

  lemma ReconcilerIsTold(v: View, observedClaim: Option<ClaimId>, counter: int, revision: int, now: int)
    requires ViewOk(v)
    ensures var r := UncertainJob(v, observedClaim, counter, revision, now).result; r.Failure? ==> r.error.RevisionStale?
  {
    LastIsLatest(v);
    EmptyMergeNeverThrows(LastEvidence(v.rows), true, false);
    hide ViewOk, Merge, Latest, LastEvidence, LatestEvidence, LatestRevision, Finalized, HasRevision, Consistent, ControlReadable;
  }

  lemma JobIsTold(s: Store, op: Op, now: int)
    requires !op.Reserve? && Reaches(s, op) && ViewOk(s.views[op.job])
    ensures var r := ApplyToJob(s, op, now).result; r.Failure? ==> !op.Cancel? && r.error == JobRefusal(s.views[op.job], op)
  {
    var v := s.views[op.job];
    hide ViewOk, CancelJob, DecideJob, PublishJob, UncertainJob, PublishAnswers;
    match op
    case Cancel(_, _) => CancelJobAnswers(v, now);
    case Decide(_, _, claim, token) => DeciderFailsOnlyUnclaimed(v, claim, token, now);
    case ClaimRunner(_, _, _, _) => ClaimedIsNotReserved(v);
    case Publish(_, _, claim, expected, input, token) => PublisherIsTold(v, claim, expected, input, token, now);
    case PublishUncertain(_, _, claim, counter, revision) => ReconcilerIsTold(v, claim, counter, revision, now);
    case _ =>
  }

  lemma ClaimedIsNotReserved(v: View)
    requires ViewOk(v)
    ensures v.claim.Some? ==> !v.job.state.Reserved?
  {
  }

  /** Neither a malformed claim nor the job of someone else gets as far as the rows. */
  lemma OutsiderIsTold(s: Store, op: Op, now: int)
    requires !op.Reserve? && !Reaches(s, op)
    ensures Apply(s, op, now).result == Failure(if MalformedClaim(op) then ValidationFailed else NotFound)
  {
    if op.job in s.views && !MalformedClaim(op) {
      assert ApplyToJob(s, op, now).result == Failure(NotFound);
    }
    hide ApplyToJob;
  }

  /** Every refusal names its reason. */
  lemma RefusalsAreNamed(s: Store, op: Op, now: int)
    requires StoreOk(s) && Apply(s, op, now).result.Failure?
    ensures (op.Cancel? ==> !Reaches(s, op)) && Apply(s, op, now).result.error == Refusal(s, op)
  {
    hide Apply, ApplyToJob, ViewOk, JobRefusal;
    assert !op.Reserve? && op.job in s.views ==> ViewOk(s.views[op.job]);
    if op.Reserve? {
      ReservationAnswers(s, op, now);
      hide StoreOk;
    } else if Reaches(s, op) {
      assert !MalformedClaim(op);
      hide StoreOk;
      OnOneJob(s, op, now);
      hide Reaches;
      JobIsTold(s, op, now);
    } else {
      OutsiderIsTold(s, op, now);
      hide StoreOk, Reaches, MalformedClaim;
    }
  }
}
