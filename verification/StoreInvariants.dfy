/**
 What every transaction keeps. The invariant is stated job by job on a view of all rows that
 belong to one job; a transaction changes the view of at most one job.
 */
module StoreInvariants {
  import opened Wrappers
  import opened StoreEvidence
  import opened JobStore

  // ---------------------------------------------------------------- the invariant of one job

  /** Revisions are exactly 1..n, only the last can be finalized, and uncertain means not finalized. */
  ghost predicate RowsShaped(rows: seq<ResultRow>) {
    && (forall i :: 0 <= i < |rows| ==> rows[i].revision == i + 1)
    && (forall i :: 0 <= i < |rows| ==> rows[i].evidence.uncertain == !rows[i].evidence.finalized)
    && (forall i :: 0 <= i < |rows| - 1 ==> !rows[i].evidence.finalized)
  }

  /** Notices exist for exactly the revisions, with the job's owner. */
  ghost predicate NoticesShaped(rows: seq<ResultRow>, notices: seq<NoticeRow>, owner: Owner) {
    && |notices| == |rows|
    && (forall i :: 0 <= i < |notices| ==> notices[i].revision == i + 1 && notices[i].owner == owner)
  }

  /** Every snapshot is consistent and every later one is at or above every earlier one. */
  ghost predicate HistoryMonotone(rows: seq<ResultRow>) {
    && (forall i :: 0 <= i < |rows| ==> Consistent(rows[i].evidence))
    && (forall i, k :: 0 <= i < k < |rows| ==> Below(rows[i].evidence, rows[k].evidence))
  }

  predicate LastFinalized(rows: seq<ResultRow>) {
    rows != [] && rows[|rows| - 1].evidence.finalized
  }

  ghost predicate LifecycleOk(job: Job, claim: Option<Claim>, rows: seq<ResultRow>) {
    && (claim.Some? <==> !job.state.Reserved?)
    && (job.state.Settled? <==> LastFinalized(rows))
    && (claim.Some? ==> claim.value.counter >= 0 && ValidClaimId(claim.value.id))
    && job.deadlineAt == job.acceptedAt + job.invocation.deadlineMs
  }

  ghost predicate DecisionOk(deadlineAt: int, control: Option<Control>, claim: Option<Claim>, rows: seq<ResultRow>) {
    && control.Some?
    && var c := control.value;
    && c.decision.None? == c.decidedAt.None?
    && (c.decision.Some? ==> claim.Some?)
    && (c.decision == Some(Authorized) ==> c.decidedAt.value < deadlineAt)
    && (c.decision == Some(CancelledFirst) ==>
          && c.cancelledAt.Some?
          && LastFinalized(rows) && rows[|rows| - 1].evidence.launch.SuppressedCancelled?)
    && (c.decision == Some(DeadlinePassed) ==>
          && c.cancelledAt.None? && c.decidedAt.value >= deadlineAt
          && LastFinalized(rows) && rows[|rows| - 1].evidence.launch.SuppressedDeadline?)
  }

  /** The revisions that reconcilers appended, in order. */
  function ReconcilerRevisions(rows: seq<ResultRow>): seq<int> {
    if rows == [] then []
    else
      var last := rows[|rows| - 1];
      ReconcilerRevisions(rows[..|rows| - 1]) + if last.author.ByReconciler? then [last.revision] else []
  }

  /** The revisions that the witness rows account for, in order. */
  function WitnessedRevisions(witnesses: seq<WitnessRow>): seq<int> {
    seq(|witnesses|, i requires 0 <= i < |witnesses| => witnesses[i].observedRevision + 1)
  }

  /** A witness observed either the unclaimed job or a heartbeat the claim has reached. */
  predicate WitnessInRange(w: WitnessRow, claim: Option<Claim>) {
    || (w.claimKey == "" && w.counter == 0)
    || (claim.Some? && w.claimKey == claim.value.id && 0 <= w.counter <= claim.value.counter)
  }

  ghost predicate WitnessesOk(rows: seq<ResultRow>, witnesses: seq<WitnessRow>, claim: Option<Claim>) {
    && (forall i, k :: 0 <= i < k < |witnesses| ==>
          witnesses[i].claimKey != witnesses[k].claimKey || witnesses[i].counter != witnesses[k].counter)
    && (forall i :: 0 <= i < |witnesses| ==> WitnessInRange(witnesses[i], claim))
    && ReconcilerRevisions(rows) == WitnessedRevisions(witnesses)
  }

  ghost predicate ViewOk(v: View) {
    && RowsShaped(v.rows)
    && NoticesShaped(v.rows, v.notices, v.job.request.owner)
    && HistoryMonotone(v.rows)
    && LifecycleOk(v.job, v.claim, v.rows)
    && DecisionOk(v.job.deadlineAt, v.control, v.claim, v.rows)
    && WitnessesOk(v.rows, v.witnesses, v.claim)
  }

  // ---------------------------------------------------------------- the invariant of the store

  /** The unique indexes agree with the rows. */
  ghost predicate IndexesOk(s: Store) {
    && (forall j :: j in s.views ==> s.views[j].job.request in s.byRequest && s.byRequest[s.views[j].job.request] == j)
    && (forall k :: k in s.byRequest ==> s.byRequest[k] in s.views && s.views[s.byRequest[k]].job.request == k)
    && (forall j :: j in s.views && s.views[j].claim.Some? ==> s.views[j].claim.value.id in s.claimIds)
  }

  predicate SameClaim(v: View, w: View) {
    v.claim.Some? && w.claim.Some? && v.claim.value.id == w.claim.value.id
  }

  /** No two jobs share a claim. */
  ghost predicate ClaimsUnique(s: Store) {
    forall j, k :: j in s.views && k in s.views && SameClaim(s.views[j], s.views[k]) ==> j == k
  }

  ghost predicate StoreOk(s: Store) {
    && IndexesOk(s)
    && ClaimsUnique(s)
    && forall j :: j in s.views ==> ViewOk(s.views[j])
  }

  // ---------------------------------------------------------------- steps

  lemma {:induction false} LatestIsLast(rows: seq<ResultRow>)
    requires forall i :: 0 <= i < |rows| ==> rows[i].revision == i + 1
    ensures Latest(rows) == if rows == [] then None else Some(rows[|rows| - 1])
  {
    if rows != [] {
      LatestIsLast(rows[..|rows| - 1]);
    }
  }

  /** The revision the code computes is always free: no insert can violate a primary key. */
  lemma NextRevisionIsFree(v: View)
    requires RowsShaped(v.rows) && NoticesShaped(v.rows, v.notices, v.job.request.owner)
    ensures LatestRevision(Latest(v.rows)) == |v.rows|
    ensures !HasRevision(v, |v.rows| + 1)
  {
    LatestIsLast(v.rows);
  }

  /** A merged snapshot on top of the latest one keeps the history monotone. */
  lemma AppendKeepsHistory(rows: seq<ResultRow>, input: Observation, row: ResultRow)
    requires RowsShaped(rows) && HistoryMonotone(rows) && !LastFinalized(rows)
    requires Merge(LatestEvidence(Latest(rows)), input, !row.evidence.finalized, row.evidence.finalized) == Success(row.evidence)
    requires row.revision == |rows| + 1
    ensures RowsShaped(rows + [row]) && HistoryMonotone(rows + [row])
  {
    LatestIsLast(rows);
    var prior := LatestEvidence(Latest(rows));
    AcceptedIffConsistent(prior, input, !row.evidence.finalized, row.evidence.finalized);
    MergeIsLeastUpperBound(prior, input, !row.evidence.finalized, row.evidence.finalized, prior);
    forall i | 0 <= i < |rows| ensures Below(rows[i].evidence, row.evidence) {
      if i < |rows| - 1 {
        BelowTransitive(rows[i].evidence, prior, row.evidence);
      }
    }
  }

  lemma AppendReconciler(rows: seq<ResultRow>, row: ResultRow)
    ensures ReconcilerRevisions(rows + [row])
         == ReconcilerRevisions(rows) + if row.author.ByReconciler? then [row.revision] else []
  {
    assert (rows + [row])[..|rows|] == rows;
  }

  /** The suppression that follows an initial-only check is never a contradiction. */
  lemma SuppressionNeverThrows(latest: Option<ResultRow>, decision: Decision)
    requires IsInitialEvidenceOnly(latest) && !decision.Authorized?
    ensures Merge(LatestEvidence(latest), SuppressionEvidence(decision), false, true).Success?
    ensures var e := Merge(LatestEvidence(latest), SuppressionEvidence(decision), false, true).value;
            && e.finalized && !e.uncertain
            && e.launch == (if decision.CancelledFirst? then SuppressedCancelled else SuppressedDeadline)
            && e.cleanup.NotRequired? && e.shellCode.None? && e.shellSignal.None?
  {
  }

  // ---------------------------------------------------------------- one job

  lemma CancelKeeps(v: View, now: int)
    requires ViewOk(v)
    ensures ViewOk(CancelJob(v, now).view)
  {
    hide RowsShaped, NoticesShaped, HistoryMonotone, WitnessesOk;
    LatestOfView(v);
  }

  lemma LatestOfView(v: View)
    requires ViewOk(v)
    ensures Latest(v.rows) == if v.rows == [] then None else Some(v.rows[|v.rows| - 1])
  {
    LatestIsLast(v.rows);
  }

  lemma ClaimKeeps(v: View, claim: ClaimId, token: Token, taken: bool, now: int)
    requires ViewOk(v) && ValidClaimId(claim)
    ensures ViewOk(ClaimJob(v, claim, token, taken, now).view)
  {
    hide RowsShaped, NoticesShaped, HistoryMonotone;
  }

  lemma HeartbeatKeeps(v: View, claim: ClaimId, expected: int, token: Token)
    requires ViewOk(v)
    ensures ViewOk(HeartbeatJob(v, claim, expected, token).view)
  {
    hide RowsShaped, NoticesShaped, HistoryMonotone;
  }

  lemma AcknowledgeKeeps(v: View, owner: Owner, revision: int, now: int)
    requires ViewOk(v)
    ensures ViewOk(AcknowledgeJob(v, owner, revision, now).view)
  {
    hide RowsShaped, HistoryMonotone, LifecycleOk, DecisionOk, WitnessesOk;
  }

  /** What appending a merged, non-reconciler row does to the parts of the invariant. */
  lemma AppendKeeps(v: View, input: Observation, row: ResultRow)
    requires ViewOk(v) && !LastFinalized(v.rows)
    requires Merge(LatestEvidence(Latest(v.rows)), input, !row.evidence.finalized, row.evidence.finalized) == Success(row.evidence)
    requires row.revision == |v.rows| + 1
    ensures var w := AppendRevision(v, row);
            && RowsShaped(w.rows) && HistoryMonotone(w.rows)
            && NoticesShaped(w.rows, w.notices, w.job.request.owner)
            && LastFinalized(w.rows) == row.evidence.finalized
            && w.rows[|w.rows| - 1] == row
            && ReconcilerRevisions(w.rows) == ReconcilerRevisions(v.rows) + if row.author.ByReconciler? then [row.revision] else []
  {
    AppendKeepsHistory(v.rows, input, row);
    AppendReconciler(v.rows, row);
    hide HistoryMonotone, LifecycleOk, DecisionOk, WitnessesOk;
  }

  /** The remaining parts, for an appended row that no decision and no witness accounts for. */
  lemma AppendKeepsRest(v: View, row: ResultRow, settled: bool)
    requires ViewOk(v) && !LastFinalized(v.rows) && v.claim.Some? && row.author.ByRunner?
    requires settled == row.evidence.finalized
    ensures var w := AppendRevision(v, row);
            var u := if settled then SetState(w, Settled) else w;
            && LifecycleOk(u.job, u.claim, u.rows)
            && DecisionOk(u.job.deadlineAt, u.control, u.claim, u.rows)
            && WitnessesOk(u.rows, u.witnesses, u.claim)
  {
    hide RowsShaped, NoticesShaped, HistoryMonotone;
    AppendReconciler(v.rows, row);
    assert v.rows + [row] != [] && (v.rows + [row])[|v.rows|] == row;
  }

  lemma MergeSetsFlags(prior: Evidence, input: Observation, uncertain: bool, finalized: bool)
    requires Merge(prior, input, uncertain, finalized).Success?
    ensures Merge(prior, input, uncertain, finalized).value.uncertain == uncertain
    ensures Merge(prior, input, uncertain, finalized).value.finalized == finalized
  {
  }

  lemma PublishKeeps(v: View, claim: ClaimId, expected: Option<int>, input: Observation, token: Token, now: int)
    requires ViewOk(v)
    ensures ViewOk(PublishJob(v, claim, expected, input, token, now).view)
  {
    var o := PublishJob(v, claim, expected, input, token, now);
    if o.result.Success? {
      LatestOfView(v);
      NextRevisionIsFree(v);
      var finalized := input.finalized == Some(true);
      var merged := Merge(LatestEvidence(Latest(v.rows)), input, !finalized, finalized);
      var row := ResultRow(|v.rows| + 1, merged.value, now, ByRunner);
      var w := AppendRevision(v, row);
      assert o.view == if finalized then SetState(w, Settled) else w;
      MergeSetsFlags(LatestEvidence(Latest(v.rows)), input, !finalized, finalized);
      assert !LastFinalized(v.rows);
      hide RowsShaped, NoticesShaped, HistoryMonotone, LifecycleOk, DecisionOk, WitnessesOk;
      hide Merge, Latest, PublishJob, HasRevision, ReconcilerRevisions;
      AppendKeeps(v, input, row);
      AppendKeepsRest(v, row, finalized);
    }
  }

  /** The remaining parts for the atomic suppression: decision, final row and settled state. */
  lemma SuppressionKeepsRest(v: View, row: ResultRow, decided: Control)
    requires ViewOk(v) && v.claim.Some? && row.author.ByDecision? && row.evidence.finalized
    requires decided.decidedAt.Some?
    requires || (decided.decision == Some(CancelledFirst) && decided.cancelledAt.Some? && row.evidence.launch.SuppressedCancelled?)
             || (decided.decision == Some(DeadlinePassed) && decided.cancelledAt.None?
                 && decided.decidedAt.value >= v.job.deadlineAt && row.evidence.launch.SuppressedDeadline?)
    ensures var u := SetState(AppendRevision(v.(control := Some(decided)), row), Settled);
            && LifecycleOk(u.job, u.claim, u.rows)
            && DecisionOk(u.job.deadlineAt, u.control, u.claim, u.rows)
            && WitnessesOk(u.rows, u.witnesses, u.claim)
  {
    hide RowsShaped, NoticesShaped, HistoryMonotone;
    AppendReconciler(v.rows, row);
    assert v.rows + [row] != [] && (v.rows + [row])[|v.rows|] == row;
  }

  lemma AuthorizeKeeps(v: View, decided: Control)
    requires ViewOk(v) && v.claim.Some? && decided.decision == Some(Authorized)
    requires decided.decidedAt.Some? && decided.decidedAt.value < v.job.deadlineAt
    ensures ViewOk(v.(control := Some(decided)))
  {
  }

  lemma DecideKeeps(v: View, claim: ClaimId, token: Token, now: int)
    requires ViewOk(v)
    ensures ViewOk(DecideJob(v, claim, token, now).view)
  {
    var o := DecideJob(v, claim, token, now);
    LatestOfView(v);
    NextRevisionIsFree(v);
    var latest := Latest(v.rows);
    if o.result.Success? && o.result.value.decision.AuthorizedNow? {
      AuthorizeKeeps(v, o.result.value.control);
    } else if o.result.Success? && o.result.value.decision.SuppressedNow? {
      var decided := o.result.value.control;
      var decision := decided.decision.value;
      SuppressionNeverThrows(latest, decision);
      var row := ResultRow(|v.rows| + 1, Merge(LatestEvidence(latest), SuppressionEvidence(decision), false, true).value, now, ByDecision);
      assert o.view == SetState(AppendRevision(v.(control := Some(decided)), row), Settled);
      assert !LastFinalized(v.rows);
      hide RowsShaped, NoticesShaped, HistoryMonotone, LifecycleOk, DecisionOk, WitnessesOk;
      hide Merge, Latest, DecideJob, HasRevision, ReconcilerRevisions, SuppressionEvidence, IsInitialEvidenceOnly;
      AppendKeeps(v, SuppressionEvidence(decision), row);
      SuppressionKeepsRest(v, row, decided);
    }
  }

  /** The remaining parts for a reconciler's row together with its witness. */
  lemma UncertainKeepsRest(v: View, row: ResultRow, observed: WitnessRow)
    requires ViewOk(v) && !LastFinalized(v.rows) && row.author.ByReconciler? && !row.evidence.finalized
    requires row.revision == observed.observedRevision + 1
    requires WitnessInRange(observed, v.claim) && !HasWitness(v, observed.claimKey, observed.counter)
    ensures var u := AppendRevision(v, row).(witnesses := v.witnesses + [observed]);
            && LifecycleOk(u.job, u.claim, u.rows)
            && DecisionOk(u.job.deadlineAt, u.control, u.claim, u.rows)
            && WitnessesOk(u.rows, u.witnesses, u.claim)
  {
    hide RowsShaped, NoticesShaped, HistoryMonotone;
    AppendReconciler(v.rows, row);
    assert v.rows + [row] != [] && (v.rows + [row])[|v.rows|] == row;
    assert WitnessedRevisions(v.witnesses + [observed]) == WitnessedRevisions(v.witnesses) + [row.revision];
  }

  lemma UncertainKeeps(v: View, observedClaim: Option<ClaimId>, observedCounter: int, observedRevision: int, now: int)
    requires ViewOk(v)
    ensures ViewOk(UncertainJob(v, observedClaim, observedCounter, observedRevision, now).view)
  {
    var o := UncertainJob(v, observedClaim, observedCounter, observedRevision, now);
    if o.result.Success? {
      LatestOfView(v);
      NextRevisionIsFree(v);
      var merged := Merge(LatestEvidence(Latest(v.rows)), NO_OBSERVATION, true, false);
      var row := ResultRow(|v.rows| + 1, merged.value, now, ByReconciler);
      var observed := WitnessRow(ClaimKey(observedClaim), observedCounter, observedRevision, now);
      assert o.view == AppendRevision(v, row).(witnesses := v.witnesses + [observed]);
      MergeSetsFlags(LatestEvidence(Latest(v.rows)), NO_OBSERVATION, true, false);
      assert !LastFinalized(v.rows) && WitnessInRange(observed, v.claim);
      hide RowsShaped, NoticesShaped, HistoryMonotone, LifecycleOk, DecisionOk, WitnessesOk;
      hide Merge, Latest, UncertainJob, HasRevision, ReconcilerRevisions, HasWitness;
      AppendKeeps(v, NO_OBSERVATION, row);
      UncertainKeepsRest(v, row, observed);
    }
  }

  // ---------------------------------------------------------------- every transaction

  lemma StepKeepsView(s: Store, op: Op, now: int)
    requires !op.Reserve? && op.job in s.views && !CarriesInvalidClaim(op) && ViewOk(s.views[op.job])
    ensures ViewOk(ApplyToJob(s, op, now).view)
  {
    hide ViewOk, CancelJob, DecideJob, ClaimJob, HeartbeatJob, PublishJob, UncertainJob, AcknowledgeJob;
    var v := s.views[op.job];
    match op
    case Cancel(_, _) => CancelKeeps(v, now);
    case Decide(_, _, claim, token) => DecideKeeps(v, claim, token, now);
    case ClaimRunner(_, _, claim, token) => ClaimKeeps(v, claim, token, claim in s.claimIds, now);
    case Heartbeat(_, _, claim, expected, token) => HeartbeatKeeps(v, claim, expected, token);
    case Publish(_, _, claim, expected, input, token) => PublishKeeps(v, claim, expected, input, token, now);
    case PublishUncertain(_, _, claim, counter, revision) => UncertainKeeps(v, claim, counter, revision, now);
    case Acknowledge(owner, _, revision) => AcknowledgeKeeps(v, owner, revision, now);
  }

  /** A transaction leaves a claim alone, or makes the first one with an unused identifier. */
  lemma StepClaims(s: Store, op: Op, now: int)
    requires !op.Reserve? && op.job in s.views
    ensures var v, w := s.views[op.job], ApplyToJob(s, op, now).view;
            && w.job.request == v.job.request
            && (w.claim == v.claim
                || (v.claim.Some? && w.claim.Some? && w.claim.value.id == v.claim.value.id)
                || (op.ClaimRunner? && ApplyToJob(s, op, now).result.Success?
                    && v.claim.None? && w.claim.Some? && w.claim.value.id == op.claim && op.claim !in s.claimIds))
  {
    hide Latest, Merge, HasRevision, HasWitness, IsInitialEvidenceOnly, SuppressionEvidence, Acknowledged;
  }

  lemma FreshJobOk(request: RequestKey, invocation: Invocation, capability: Token, now: int)
    ensures ViewOk(View(Job(request, invocation, now, now + invocation.deadlineMs, capability, Reserved),
                        Some(Control(None, None, None)), None, [], [], []))
  {
  }

  /** Adding one unclaimed job with a new request key keeps the store. */
  lemma InsertKeeps(s: Store, t: Store, job: JobId, v: View)
    requires StoreOk(s) && ViewOk(v) && job !in s.views && v.job.request !in s.byRequest && v.claim.None?
    requires t == Store(s.views[job := v], s.byRequest[v.job.request := job], s.claimIds)
    ensures StoreOk(t)
  {
    hide ViewOk;
    assert ClaimsUnique(t) by {
      hide IndexesOk;
    }
    assert IndexesOk(t) by {
      hide ClaimsUnique, SameClaim;
    }
    hide ClaimsUnique, IndexesOk;
  }

  lemma ReserveKeeps(s: Store, op: Op, now: int)
    requires StoreOk(s) && op.Reserve?
    ensures StoreOk(Apply(s, op, now).store)
  {
    var job := Job(op.request, op.invocation, now, now + op.invocation.deadlineMs, op.capability, Reserved);
    var v := View(job, Some(Control(None, None, None)), None, [], [], []);
    FreshJobOk(op.request, op.invocation, op.capability, now);
    assert op.request in s.byRequest ==> s.byRequest[op.request] in s.views;
    hide StoreOk, ViewOk;
    if op.request !in s.byRequest && op.candidate !in s.views {
      InsertKeeps(s, Apply(s, op, now).store, op.candidate, v);
    } else {
      assert Apply(s, op, now).store == s;
    }
  }

  /** Replacing one job's view by a good one keeps the store, if request and claim stay or are new. */
  lemma ReplaceKeeps(s: Store, t: Store, job: JobId, w: View)
    requires StoreOk(s) && job in s.views && ViewOk(w)
    requires t.views == s.views[job := w] && t.byRequest == s.byRequest && s.claimIds <= t.claimIds
    requires w.job.request == s.views[job].job.request
    requires w.claim.Some? ==> w.claim.value.id in t.claimIds
    requires w.claim.Some? ==> SameClaim(w, s.views[job]) || w.claim.value.id !in s.claimIds
    ensures StoreOk(t)
  {
    hide ViewOk;
  }

  /** Every transaction keeps the invariant of the whole store. */
  lemma StepKeepsStore(s: Store, op: Op, now: int)
    requires StoreOk(s)
    ensures StoreOk(Apply(s, op, now).store)
  {
    hide ViewOk, ApplyToJob;
    if op.Reserve? {
      ReserveKeeps(s, op, now);
    } else if !CarriesInvalidClaim(op) && op.job in s.views {
      StepKeepsView(s, op, now);
      StepClaims(s, op, now);
      ReplaceKeeps(s, Apply(s, op, now).store, op.job, ApplyToJob(s, op, now).view);
    }
  }

  // ---------------------------------------------------------------- immutable facts

  function StateRank(state: JobState): nat {
    match state case Reserved => 0 case Claimed => 1 case Settled => 2
  }

  predicate Suppressed(v: View) {
    v.control.Some? && (v.control.value.decision == Some(CancelledFirst) || v.control.value.decision == Some(DeadlinePassed))
  }

  ghost predicate ClaimAdvances(a: Option<Claim>, b: Option<Claim>) {
    a.Some? ==> b.Some? && b.value == a.value.(counter := b.value.counter) && a.value.counter <= b.value.counter
  }

  ghost predicate ControlAdvances(a: Option<Control>, b: Option<Control>) {
    a.Some? && b.Some?
    && OptionBelow(a.value.cancelledAt, b.value.cancelledAt)
    && OptionBelow(a.value.decision, b.value.decision)
    && OptionBelow(a.value.decidedAt, b.value.decidedAt)
  }

  /** w is v or a later view of the same job: what is recorded once stays as recorded. */
  ghost predicate Persists(v: View, w: View) {
    && w.job == v.job.(state := w.job.state)
    && StateRank(v.job.state) <= StateRank(w.job.state)
    && ClaimAdvances(v.claim, w.claim)
    && ControlAdvances(v.control, w.control)
    && v.rows <= w.rows
    && v.witnesses <= w.witnesses
    && |v.notices| <= |w.notices|
    && (forall i :: 0 <= i < |v.notices| ==>
          w.notices[i].revision == v.notices[i].revision && w.notices[i].owner == v.notices[i].owner)
    && (Suppressed(v) ==> w.rows == v.rows && w.control == v.control)
  }

  lemma PersistsTransitive(a: View, b: View, c: View)
    requires Persists(a, b) && Persists(b, c)
    ensures Persists(a, c)
  {
  }

  lemma CancelPersists(v: View, now: int)
    requires v.control.Some? && (Suppressed(v) ==> v.job.state.Settled?)
    ensures Persists(v, CancelJob(v, now).view)
  {
    hide Latest;
  }

  lemma ClaimAndHeartbeatPersists(v: View, claim: ClaimId, token: Token, taken: bool, expected: int, now: int)
    requires v.control.Some?
    ensures Persists(v, ClaimJob(v, claim, token, taken, now).view)
    ensures Persists(v, HeartbeatJob(v, claim, expected, token).view)
  {
  }

  lemma AcknowledgePersists(v: View, owner: Owner, revision: int, now: int)
    requires v.control.Some?
    ensures Persists(v, AcknowledgeJob(v, owner, revision, now).view)
  {
  }

  lemma DecidePersists(v: View, claim: ClaimId, token: Token, now: int)
    requires v.control.Some? && (Suppressed(v) ==> v.job.state.Settled?)
    ensures Persists(v, DecideJob(v, claim, token, now).view)
  {
    hide Latest, Merge, HasRevision, IsInitialEvidenceOnly, SuppressionEvidence, FirstDecision;
  }

  lemma PublishPersists(v: View, claim: ClaimId, expected: Option<int>, input: Observation, token: Token, now: int)
    requires v.control.Some? && (Suppressed(v) ==> Finalized(Latest(v.rows)))
    ensures Persists(v, PublishJob(v, claim, expected, input, token, now).view)
  {
    hide Latest, Merge, HasRevision;
  }

  lemma UncertainPersists(v: View, observedClaim: Option<ClaimId>, counter: int, revision: int, now: int)
    requires v.control.Some? && (Suppressed(v) ==> Finalized(Latest(v.rows)))
    ensures Persists(v, UncertainJob(v, observedClaim, counter, revision, now).view)
  {
    hide Latest, Merge, HasRevision, HasWitness;
  }

  lemma SuppressedIsSettled(v: View)
    requires ViewOk(v)
    ensures v.control.Some? && (Suppressed(v) ==> v.job.state.Settled? && Finalized(Latest(v.rows)))
  {
    LatestOfView(v);
  }

  lemma JobPersists(s: Store, op: Op, now: int)
    requires !op.Reserve? && op.job in s.views && ViewOk(s.views[op.job])
    ensures Persists(s.views[op.job], ApplyToJob(s, op, now).view)
  {
    var v := s.views[op.job];
    SuppressedIsSettled(v);
    hide ViewOk, CancelJob, DecideJob, ClaimJob, HeartbeatJob, PublishJob, UncertainJob, AcknowledgeJob, Latest;
    match op
    case Cancel(_, _) => CancelPersists(v, now);
    case Decide(_, _, claim, token) => DecidePersists(v, claim, token, now);
    case ClaimRunner(_, _, claim, token) => ClaimAndHeartbeatPersists(v, claim, token, claim in s.claimIds, 0, now);
    case Heartbeat(_, _, claim, expected, token) => ClaimAndHeartbeatPersists(v, claim, token, false, expected, now);
    case Publish(_, _, claim, expected, input, token) => PublishPersists(v, claim, expected, input, token, now);
    case PublishUncertain(_, _, claim, counter, revision) => UncertainPersists(v, claim, counter, revision, now);
    case Acknowledge(owner, _, revision) => AcknowledgePersists(v, owner, revision, now);
  }

  lemma PersistsReflexive(v: View)
    requires v.control.Some?
    ensures Persists(v, v)
  {
  }

  /** No transaction takes anything back that is recorded for a job. */
  lemma StepPersists(s: Store, op: Op, now: int, job: JobId)
    requires StoreOk(s) && job in s.views
    ensures var t := Apply(s, op, now).store; job in t.views && Persists(s.views[job], t.views[job])
  {
    hide ViewOk, ApplyToJob, Persists;
    SuppressedIsSettled(s.views[job]);
    PersistsReflexive(s.views[job]);
    if !op.Reserve? && op.job == job {
      JobPersists(s, op, now);
    }
  }
}
