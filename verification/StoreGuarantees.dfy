/** What the whole-run invariants mean for the callers of the store. */
module StoreGuarantees {
  import opened Wrappers
  import opened JobTypes
  import opened StoreEvidence
  import opened JobStore
  import opened StoreInvariants
  import opened StoreRuns

  // ---------------------------------------------------------------- decision against cancellation

  /** Some cancellation request for the job was recorded among the first k transactions. */
  predicate CancelledBefore(trace: seq<Event>, k: nat, job: JobId)
    requires k <= |trace|
  {
    exists i :: 0 <= i < k && RecordsCancellation(trace, i, job)
  }

  /** The stored cancellation time says exactly whether a request has been recorded. */
  lemma CancelledIffRecorded(trace: seq<Event>, k: nat, job: JobId)
    requires k <= |trace| && job in After(trace, k).views
    ensures var control := After(trace, k).views[job].control;
            control.Some? && (control.value.cancelledAt.Some? <==> CancelledBefore(trace, k, job))
  {
    RunKeepsStore(trace, k);
    HasControl(After(trace, k), job);
    hide After, RecordsCancellation, StoreOk;
    if HasCancellationTime(After(trace, k), job) {
      var i := CancellationWasRecorded(trace, k, job);
    } else if CancelledBefore(trace, k, job) {
      var i :| 0 <= i < k && RecordsCancellation(trace, i, job);
      CancellationStays(trace, i, k, job);
    }
  }

  lemma CancellationStays(trace: seq<Event>, i: nat, k: nat, job: JobId)
    requires i < k <= |trace| && RecordsCancellation(trace, i, job)
    ensures HasCancellationTime(After(trace, k), job)
  {
    RecordedCancellation(trace, i, job);
    hide After, RecordsCancellation;
    RunPersists(trace, i + 1, k, job);
  }

  /** What each fresh decision means, read off the run: which committed first, and when. */
  lemma FreshDecisionMeans(trace: seq<Event>, k: nat, job: JobId, disposition: DecideDisposition)
    requires k < |trace| && RepliesDecision(trace, k, job, disposition) && IsFresh(disposition)
    ensures job in After(trace, k + 1).views && After(trace, k + 1).views[job].control.Some?
    ensures var v := After(trace, k + 1).views[job];
            var cancelled, late := CancelledBefore(trace, k, job), trace[k].now >= v.job.deadlineAt;
            && (v.control.value.decision == Some(CancelledFirst) <==> cancelled)
            && (v.control.value.decision == Some(DeadlinePassed) <==> !cancelled && late)
            && (v.control.value.decision == Some(Authorized) <==> !cancelled && !late)
            && (disposition.AuthorizedNow? <==> !cancelled && !late)
  {
    FreshDecision(trace, k, job, disposition);
    hide After, RepliesDecision, RecordsCancellation;
    CancelledIffRecorded(trace, k, job);
  }

  /** Once the decision is suppression, nothing about the decision or the evidence changes again. */
  lemma SuppressionIsFinal(trace: seq<Event>, i: nat, k: nat, job: JobId)
    requires i <= k <= |trace| && job in After(trace, i).views && Suppressed(After(trace, i).views[job])
    ensures job in After(trace, k).views
    ensures After(trace, k).views[job].rows == After(trace, i).views[job].rows
    ensures After(trace, k).views[job].control == After(trace, i).views[job].control
  {
    hide After;
    RunPersists(trace, i, k, job);
  }

  /** A job suppressed by its deadline has no recorded cancellation, before or after the decision. */
  lemma DeadlineSuppressionExcludesCancellation(trace: seq<Event>, k: nat, job: JobId)
    requires k <= |trace| && job in After(trace, k).views
    requires After(trace, k).views[job].control.Some? && After(trace, k).views[job].control.value.decision == Some(DeadlinePassed)
    ensures !CancelledBefore(trace, |trace|, job)
  {
    RunKeepsStore(trace, k);
    HasControl(After(trace, k), job);
    hide After, RecordsCancellation, StoreOk;
    SuppressionIsFinal(trace, k, |trace|, job);
    CancelledIffRecorded(trace, |trace|, job);
  }

  /** A cancellation that commits before the decision keeps the job from ever being authorized. */
  lemma CancelledNeverAuthorized(trace: seq<Event>, i: nat, k: nat, job: JobId)
    requires i < |trace| && k < |trace| && RecordsCancellation(trace, i, job)
    requires RepliesDecision(trace, k, job, AuthorizedNow)
    ensures k < i
  {
    hide After, RecordsCancellation, RepliesDecision;
    FreshDecisionMeans(trace, k, job, AuthorizedNow);
    if k == i {
      SameEventIsNotBoth(trace, i, job);
    }
  }

  lemma SameEventIsNotBoth(trace: seq<Event>, k: nat, job: JobId)
    requires k < |trace|
    ensures !(RecordsCancellation(trace, k, job) && RepliesDecision(trace, k, job, AuthorizedNow))
  {
  }

  /** A recorded cancellation is recorded once. */
  lemma {:induction false} CancelledAtMostOnce(trace: seq<Event>, i: nat, k: nat, job: JobId)
    requires i < |trace| && k < |trace| && RecordsCancellation(trace, i, job) && RecordsCancellation(trace, k, job)
    ensures i == k
  {
    if i < k {
      RecordedCancellation(trace, i, job);
      RecordedCancellation(trace, k, job);
      hide After, RecordsCancellation;
      RunPersists(trace, i + 1, k, job);
    } else if k < i {
      CancelledAtMostOnce(trace, k, i, job);
    }
  }

  // ---------------------------------------------------------------- evidence over a run

  /** What reading revision r now and any revision s later shows. */
  ghost predicate LaterKeeps(now: seq<ResultRow>, later: seq<ResultRow>, r: int, s: int)
    requires 1 <= r <= |now| && r <= s
  {
    && r <= |later| && later[r - 1] == now[r - 1]
    && now[r - 1].revision == r
    && Consistent(now[r - 1].evidence)
    && (s <= |later| ==> later[s - 1].revision == s && Below(now[r - 1].evidence, later[s - 1].evidence))
    && (now[r - 1].evidence.finalized ==> later == now && r == |now|)
  }

  lemma LaterRowsKeep(now: seq<ResultRow>, later: seq<ResultRow>, r: int, s: int)
    requires now <= later && RowsShaped(later) && HistoryMonotone(later)
    requires 1 <= r <= |now| && r <= s
    ensures LaterKeeps(now, later, r, s)
  {
    hide Consistent, Below;
    BelowReflexive(now[r - 1].evidence);
    assert now == later[..|now|];
    if now[r - 1].evidence.finalized {
      assert later[r - 1] == now[r - 1] && r == |later|;
    }
  }

  /** Later revisions of a job never lose or change a fact, at whatever times they are read. */
  lemma HistoryOverRun(trace: seq<Event>, i: nat, k: nat, job: JobId, r: int, s: int)
    requires i <= k <= |trace| && job in After(trace, i).views
    requires 1 <= r <= |After(trace, i).views[job].rows| && r <= s
    ensures job in After(trace, k).views
    ensures LaterKeeps(After(trace, i).views[job].rows, After(trace, k).views[job].rows, r, s)
  {
    hide After;
    RunPersists(trace, i, k, job);
    RunKeepsStore(trace, k);
    hide IndexesOk, ClaimsUnique, LaterKeeps;
    HasControl(After(trace, k), job);
    LaterRowsKeep(After(trace, i).views[job].rows, After(trace, k).views[job].rows, r, s);
  }

  lemma BelowReflexive(e: Evidence)
    ensures Below(e, e)
  {
  }

  // ---------------------------------------------------------------- owners

  /** On whose behalf an operation runs. */
  function Caller(op: Op): Owner {
    if op.Reserve? then op.request.owner else op.owner
  }

  lemma AcknowledgeNeedsOwner(v: View, owner: Owner, revision: int, now: int)
    requires NoticesShaped(v.rows, v.notices, v.job.request.owner) && v.job.request.owner != owner
    ensures AcknowledgeJob(v, owner, revision, now) == JobOutcome(v, Failure(NotFound))
  {
  }

  lemma StrangersChangeNothing(s: Store, op: Op, now: int)
    requires !op.Reserve? && op.job in s.views && ViewOk(s.views[op.job])
    requires s.views[op.job].job.request.owner != op.owner
    ensures ApplyToJob(s, op, now) == JobOutcome(s.views[op.job], Failure(NotFound))
  {
    if op.Acknowledge? {
      AcknowledgeNeedsOwner(s.views[op.job], op.owner, op.revision, now);
    }
  }

  /** An operation of one owner changes, adds and removes no row of another owner. */
  lemma OwnersAreIsolated(s: Store, op: Op, now: int, job: JobId)
    requires StoreOk(s)
    ensures var t := Apply(s, op, now).store;
            && (job in s.views && s.views[job].job.request.owner != Caller(op) ==> job in t.views && t.views[job] == s.views[job])
            && (job in t.views && t.views[job].job.request.owner != Caller(op) ==> job in s.views && t.views[job] == s.views[job])
  {
    hide ApplyToJob, ViewOk;
    if !op.Reserve? && op.job in s.views {
      if s.views[op.job].job.request.owner != op.owner {
        StrangersChangeNothing(s, op, now);
      }
      StepClaims(s, op, now);
      if s.views[op.job].job.request.owner == Caller(op) {
        assert ApplyToJob(s, op, now).view.job.request.owner == Caller(op);
      }
    }
  }

  // ---------------------------------------------------------------- reconcilers

  /** An injective list of numbers below n has at most n entries. */
  lemma {:induction false} Pigeonhole(slots: seq<nat>, n: nat)
    requires forall i :: 0 <= i < |slots| ==> slots[i] < n
    requires forall i, k :: 0 <= i < k < |slots| ==> slots[i] != slots[k]
    ensures |slots| <= n
    decreases |slots|
  {
    if |slots| > 1 {
      assert slots[0] != slots[1];
      var last := |slots| - 1;
      var moved: seq<nat> := seq(last, i requires 0 <= i < last => if slots[i] == n - 1 then slots[last] else slots[i]);
      Pigeonhole(moved, n - 1);
    }
  }

  function WitnessSlot(w: WitnessRow): int {
    if w.claimKey == "" then 0 else w.counter + 1
  }

  /** Reconciler-made revisions are the witnessed ones, and there are few of them. */
  lemma ReconcilersAreBounded(v: View)
    requires ViewOk(v)
    ensures ReconcilerRevisions(v.rows) == WitnessedRevisions(v.witnesses)
    ensures |ReconcilerRevisions(v.rows)| == |v.witnesses|
    ensures |v.witnesses| <= match v.claim case None => 1 case Some(c) => c.counter + 2
  {
    hide RowsShaped, NoticesShaped, HistoryMonotone, DecisionOk, ReconcilerRevisions;
    var bound := match v.claim case None => 1 case Some(c) => c.counter + 2;
    forall i | 0 <= i < |v.witnesses| ensures 0 <= WitnessSlot(v.witnesses[i]) < bound {
      assert WitnessInRange(v.witnesses[i], v.claim);
    }
    var slots: seq<nat> := seq(|v.witnesses|, i requires 0 <= i < |v.witnesses| => WitnessSlot(v.witnesses[i]));
    forall i, k | 0 <= i < k < |slots| ensures slots[i] != slots[k] {
      assert WitnessInRange(v.witnesses[i], v.claim) && WitnessInRange(v.witnesses[k], v.claim);
    }
    Pigeonhole(slots, bound);
  }

  /** In every run, racing reconcilers add at most one revision per heartbeat interval. */
  lemma ReconcilersAreBoundedOverRun(trace: seq<Event>, k: nat, job: JobId)
    requires k <= |trace| && job in After(trace, k).views
    ensures var v := After(trace, k).views[job];
            && ReconcilerRevisions(v.rows) == WitnessedRevisions(v.witnesses)
            && |ReconcilerRevisions(v.rows)| <= match v.claim case None => 1 case Some(c) => c.counter + 2
  {
    RunKeepsStore(trace, k);
    hide After;
    ReconcilersAreBounded(After(trace, k).views[job]);
  }

  /** A reconciler of a reachable job is stopped by staleness and by nothing else. */
  lemma ReconcilerFailsOnlyStale(v: View, observedClaim: Option<ClaimId>, counter: int, revision: int, now: int)
    requires ViewOk(v)
    ensures var r := UncertainJob(v, observedClaim, counter, revision, now).result;
            r.Failure? ==> r.error.RevisionStale?
  {
    LatestOfView(v);
    NextRevisionIsFree(v);
    hide NoticesShaped, LifecycleOk, DecisionOk, WitnessesOk, HasWitness, HasRevision, Latest;
    EmptyMergeNeverThrows(LatestEvidence(Latest(v.rows)), true, false);
  }

  /** A decision of a reachable job fails only for the wrong token or claim. */
  lemma DeciderFailsOnlyUnclaimed(v: View, claim: ClaimId, token: Token, now: int)
    requires ViewOk(v)
    ensures DecideJob(v, claim, token, now).result == Failure(ClaimTaken)
       <==> v.job.token != token || v.claim.None? || v.claim.value.id != claim
    ensures var r := DecideJob(v, claim, token, now).result; r.Failure? ==> r.error.ClaimTaken?
  {
    LatestOfView(v);
    NextRevisionIsFree(v);
    if v.control.Some? {
      var d := FirstDecision(v.control.value, v.job, now);
      if IsInitialEvidenceOnly(Latest(v.rows)) && !d.Authorized? {
        SuppressionNeverThrows(Latest(v.rows), d);
      }
    }
    hide RowsShaped, NoticesShaped, HistoryMonotone, LifecycleOk, WitnessesOk, HasRevision, Latest, Merge, SuppressionEvidence;
  }

  /** A publication with the right capability fails only for a stale revision or a contradiction. */
  lemma PublisherFailsOnlyStaleOrContradicting(v: View, claim: ClaimId, expected: Option<int>, input: Observation, token: Token, now: int)
    requires ViewOk(v) && v.job.token == token && ClaimMatches(v, claim)
    ensures var r := PublishJob(v, claim, expected, input, token, now).result;
            var stale := v.job.state.Settled? || expected != (if v.rows == [] then None else Some(|v.rows|));
            var finalized := input.finalized == Some(true);
            && (r.Failure? ==> r.error.RevisionStale? || r.error.ValidationFailed?)
            && (stale ==> r == Failure(RevisionStale) || (v.rows == [] && expected == Some(0)))
            && (!stale ==> (r.Success? <==> Merge(LatestEvidence(Latest(v.rows)), input, !finalized, finalized).Success?))
            && (r.Success? ==> r.value.revision == |v.rows| + 1)
  {
    LatestOfView(v);
    NextRevisionIsFree(v);
    hide NoticesShaped, HistoryMonotone, DecisionOk, WitnessesOk, HasRevision, Latest, Merge;
  }
}
