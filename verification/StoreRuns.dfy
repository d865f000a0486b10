/** Guarantees over whole runs: any clients, any interleaving, any clock. */
module StoreRuns {
  import opened Wrappers
  import opened JobTypes
  import opened StoreEvidence
  import opened JobStore
  import opened StoreInvariants

  /** One committed transaction, with the wall-clock time it sampled; clocks need not be monotone. */
  datatype Event = Event(op: Op, now: int)

  function RunFrom(s: Store, trace: seq<Event>): Store {
    if trace == [] then s
    else
      var last := trace[|trace| - 1];
      Apply(RunFrom(s, trace[..|trace| - 1]), last.op, last.now).store
  }

  /** The store after the first k transactions of a run from the empty store. */
  function After(trace: seq<Event>, k: nat): Store
    requires k <= |trace|
  {
    RunFrom(EMPTY, trace[..k])
  }

  function ReplyTo(trace: seq<Event>, k: nat): Result<Reply, StoreError>
    requires k < |trace|
  {
    Apply(After(trace, k), trace[k].op, trace[k].now).result
  }

  lemma AfterStep(trace: seq<Event>, k: nat)
    requires k < |trace|
    ensures After(trace, k + 1) == Apply(After(trace, k), trace[k].op, trace[k].now).store
  {
    assert trace[..k + 1][..k] == trace[..k];
  }

  /** The invariant holds after every prefix of every run. */
  lemma {:induction false} RunKeepsStore(trace: seq<Event>, k: nat)
    requires k <= |trace|
    ensures StoreOk(After(trace, k))
  {
    if k > 0 {
      RunKeepsStore(trace, k - 1);
      AfterStep(trace, k - 1);
      StepKeepsStore(After(trace, k - 1), trace[k - 1].op, trace[k - 1].now);
    }
  }

  /** What is recorded for a job at one point of a run is recorded at every later point. */
  lemma {:induction false} RunPersists(trace: seq<Event>, i: nat, k: nat, job: JobId)
    requires i <= k <= |trace| && job in After(trace, i).views
    ensures job in After(trace, k).views && Persists(After(trace, i).views[job], After(trace, k).views[job])
    decreases k - i
  {
    hide StoreOk, Persists;
    RunKeepsStore(trace, i);
    if i == k {
      HasControl(After(trace, i), job);
      PersistsReflexive(After(trace, i).views[job]);
    } else {
      RunPersists(trace, i, k - 1, job);
      RunKeepsStore(trace, k - 1);
      AfterStep(trace, k - 1);
      StepPersists(After(trace, k - 1), trace[k - 1].op, trace[k - 1].now, job);
      PersistsTransitive(After(trace, i).views[job], After(trace, k - 1).views[job], After(trace, k).views[job]);
    }
  }

  lemma HasControl(s: Store, job: JobId)
    requires StoreOk(s) && job in s.views
    ensures s.views[job].control.Some? && ViewOk(s.views[job])
  {
    SuppressedIsSettled(s.views[job]);
  }

  // ---------------------------------------------------------------- decisions

  predicate RepliesDecision(trace: seq<Event>, k: nat, job: JobId, disposition: DecideDisposition)
    requires k < |trace|
  {
    && trace[k].op.Decide? && trace[k].op.job == job
    && ReplyTo(trace, k).Success? && ReplyTo(trace, k).value.decision == disposition
  }

  predicate Records(op: Op, result: Result<Reply, StoreError>) {
    op.Cancel? && result.Success? && result.value.CancelReply? && result.value.cancellation.Recorded?
  }

  predicate RecordsCancellation(trace: seq<Event>, k: nat, job: JobId)
    requires k < |trace|
  {
    Records(trace[k].op, ReplyTo(trace, k)) && trace[k].op.job == job
  }

  predicate IsFresh(d: DecideDisposition) {
    d.AuthorizedNow? || d.SuppressedNow?
  }

  /** What a fresh decision found and left. */
  ghost predicate DecidesNow(v: View, w: View, now: int, disposition: DecideDisposition) {
    && v.control.Some? && w.control.Some?
    && v.control.value.decision.None?
    && w.control.value == v.control.value.(decision := Some(FirstDecision(v.control.value, v.job, now)), decidedAt := Some(now))
    && (disposition.AuthorizedNow? <==> w.control.value.decision == Some(Authorized))
    && w.job == v.job.(state := w.job.state)
  }

  lemma FreshDecisionOfJob(v: View, claim: ClaimId, token: Token, now: int)
    requires var r := DecideJob(v, claim, token, now).result; r.Success? && IsFresh(r.value.decision)
    ensures var o := DecideJob(v, claim, token, now); DecidesNow(v, o.view, now, o.result.value.decision)
  {
    hide Latest, Merge, HasRevision, IsInitialEvidenceOnly, SuppressionEvidence;
  }

  lemma FreshDecision(trace: seq<Event>, k: nat, job: JobId, disposition: DecideDisposition)
    requires k < |trace| && RepliesDecision(trace, k, job, disposition) && IsFresh(disposition)
    ensures job in After(trace, k).views && job in After(trace, k + 1).views
    ensures DecidesNow(After(trace, k).views[job], After(trace, k + 1).views[job], trace[k].now, disposition)
  {
    var s, op := After(trace, k), trace[k].op;
    AfterStep(trace, k);
    assert job in s.views;
    hide DecideJob, DecidesNow;
    FreshDecisionOfJob(s.views[job], op.claim, op.token, trace[k].now);
  }

  /** Over a whole run, a fresh decision is returned at most once for a job. */
  lemma DecidedAtMostOnce(trace: seq<Event>, i: nat, k: nat, job: JobId, a: DecideDisposition, b: DecideDisposition)
    requires i < |trace| && k < |trace| && IsFresh(a) && IsFresh(b)
    requires RepliesDecision(trace, i, job, a) && RepliesDecision(trace, k, job, b)
    ensures i == k
  {
    if i < k {
      DecidedBefore(trace, i, k, job, a, b);
    } else if k < i {
      DecidedBefore(trace, k, i, job, b, a);
    }
    hide *;
  }

  lemma DecidedBefore(trace: seq<Event>, i: nat, k: nat, job: JobId, a: DecideDisposition, b: DecideDisposition)
    requires i < k < |trace| && IsFresh(a) && IsFresh(b)
    ensures !(RepliesDecision(trace, i, job, a) && RepliesDecision(trace, k, job, b))
  {
    if RepliesDecision(trace, i, job, a) && RepliesDecision(trace, k, job, b) {
      FreshDecision(trace, i, job, a);
      FreshDecision(trace, k, job, b);
      hide After, RepliesDecision, FirstDecision;
      RunPersists(trace, i + 1, k, job);
    }
  }

  lemma RecordedCancellation(trace: seq<Event>, k: nat, job: JobId)
    requires k < |trace| && RecordsCancellation(trace, k, job)
    ensures job in After(trace, k).views && job in After(trace, k + 1).views
    ensures var v, w := After(trace, k).views[job], After(trace, k + 1).views[job];
            && !v.job.state.Settled?
            && v.control.Some? && v.control.value.cancelledAt.None?
            && w.control == Some(v.control.value.(cancelledAt := Some(trace[k].now)))
  {
    AfterStep(trace, k);
    hide Latest;
  }

  predicate HasCancellationTime(s: Store, job: JobId) {
    job in s.views && s.views[job].control.Some? && s.views[job].control.value.cancelledAt.Some?
  }

  /** A cancellation time is in the store only because a request was recorded earlier in the run. */
  lemma {:induction false} CancellationWasRecorded(trace: seq<Event>, k: nat, job: JobId) returns (i: nat)
    requires k <= |trace| && HasCancellationTime(After(trace, k), job)
    ensures i < k && RecordsCancellation(trace, i, job)
  {
    AfterStep(trace, k - 1);
    RunKeepsStore(trace, k - 1);
    hide HasCancellationTime, StoreOk, Apply, After, Records;
    if RecordsCancellation(trace, k - 1, job) {
      i := k - 1;
    } else {
      OnlyCancelSetsTime(After(trace, k - 1), trace[k - 1].op, trace[k - 1].now, job);
      i := CancellationWasRecorded(trace, k - 1, job);
    }
  }

  /** Every operation but a recorded cancellation keeps the cancellation time of every job. */
  lemma OnlyCancelSetsTime(s: Store, op: Op, now: int, job: JobId)
    requires StoreOk(s) && HasCancellationTime(Apply(s, op, now).store, job)
    requires !(Records(op, Apply(s, op, now).result) && op.job == job)
    ensures HasCancellationTime(s, job)
  {
    hide StoreOk, Latest, Merge, HasRevision, HasWitness, IsInitialEvidenceOnly, SuppressionEvidence, FirstDecision;
  }
}
