/** What the launch system guarantees over every run, at every moment and between any two moments. */
module LaunchGuarantees {
  import opened Wrappers
  import opened JobTypes
  import opened StoreEvidence
  import opened JobStore
  import opened StoreInvariants
  import Runner
  import RunnerProgress
  import opened LaunchNode
  import opened LaunchNodeSteps
  import opened LaunchSystem
  import opened LaunchSafety

  /** The systems a run goes through. */
  ghost predicate IsRun(states: seq<System>, steps: seq<Step>) {
    && |states| == |steps| + 1
    && states[0] == START
    && forall i :: 0 <= i < |steps| ==> Possible(states[i], steps[i]) && states[i + 1] == Next(states[i], steps[i])
  }

  lemma StartIsOk()
    ensures SystemOk(START)
  {
  }

  lemma {:induction false} RunKeepsSystem(states: seq<System>, steps: seq<Step>, k: nat)
    requires IsRun(states, steps) && k < |states|
    ensures SystemOk(states[k])
  {
    hide SystemOk, Next, Possible;
    if k == 0 {
      StartIsOk();
    } else {
      RunKeepsSystem(states, steps, k - 1);
      assert states[k - 1 + 1] == Next(states[k - 1], steps[k - 1]);
      StepKeepsSystem(states[k - 1], steps[k - 1]);
    }
  }

  /** A run never takes back what is recorded for a job. */
  lemma {:induction false} RunKeepsJob(states: seq<System>, steps: seq<Step>, i: nat, k: nat, job: JobId)
    requires IsRun(states, steps) && i <= k < |states| && job in states[i].store.views
    ensures job in states[k].store.views && Persists(states[i].store.views[job], states[k].store.views[job])
    decreases k - i
  {
    hide Persists, Possible, Next, SystemOk;
    RunKeepsSystem(states, steps, i);
    if i == k {
      JobHasControl(states[i], job);
      PersistsReflexive(states[i].store.views[job]);
    } else {
      RunKeepsJob(states, steps, i, k - 1, job);
      RunKeepsSystem(states, steps, k - 1);
      var y, step := states[k - 1], steps[k - 1];
      assert states[k - 1 + 1] == Next(y, step);
      OneStepKeepsJob(y, step, job);
      PersistsTransitive(states[i].store.views[job], y.store.views[job], states[k].store.views[job]);
    }
  }

  lemma JobHasControl(y: System, job: JobId)
    requires SystemOk(y) && job in y.store.views
    ensures y.store.views[job].control.Some?
  {
    SuppressedIsSettled(y.store.views[job]);
  }

  lemma OneStepKeepsJob(y: System, step: Step, job: JobId)
    requires SystemOk(y) && Possible(y, step) && job in y.store.views
    ensures job in Next(y, step).store.views && Persists(y.store.views[job], Next(y, step).store.views[job])
  {
    SuppressedIsSettled(y.store.views[job]);
    hide Persists, NodeAfter, Apply;
    PersistsReflexive(y.store.views[job]);
    if Transaction(y, step).Some? {
      StepPersists(y.store, Transaction(y, step).value, step.now, job);
    }
  }

  // ---------------------------------------------------------------- one shell, only when authorized

  /** A shell exists only where the store authorized the holder of the job's claim, and runs what was reserved. */
  lemma ShellWasAuthorized(y: System, claim: ClaimId)
    requires SystemOk(y) && claim in y.nodes && y.nodes[claim].shells > 0
    ensures var n := y.nodes[claim];
            && n.shells == 1 && !n.shell.NoShell?
            && AuthorizedBy(n, claim, ViewOf(y.store, n.job))
            && n.shell.orders == OrdersOf(y.store.views[n.job].job)
  {
    assert NodeTrue(claim, y.nodes[claim], y.store);
    hide StoreOk, JobTrue, HelloOnce, MessagesHonest, TasksHonest, OutboxHonest, Answered;
  }

  /** Over all runs: at most one shell is ever started for an owner, namespace and request key. */
  lemma OneShellPerRequest(states: seq<System>, steps: seq<Step>, k: nat, a: ClaimId, b: ClaimId)
    requires IsRun(states, steps) && k < |states| && a in states[k].nodes && b in states[k].nodes
    requires states[k].nodes[a].shells > 0 && states[k].nodes[b].shells > 0
    requires var views := states[k].store.views;
             states[k].nodes[a].job in views && states[k].nodes[b].job in views
             && views[states[k].nodes[a].job].job.request == views[states[k].nodes[b].job].job.request
    ensures a == b && states[k].nodes[a].shells == 1
  {
    RunKeepsSystem(states, steps, k);
    ShellWasAuthorized(states[k], a);
    ShellWasAuthorized(states[k], b);
  }

  // ---------------------------------------------------------------- cancelled before the decision

  /** A cancellation is recorded and no authorization can follow it. */
  predicate CancelledInTime(v: View) {
    v.control.Some? && v.control.value.cancelledAt.Some? && v.control.value.decision != Some(Authorized)
  }

  lemma CancellationHolds(v: View, claim: ClaimId, token: Token, now: int)
    requires CancelledInTime(v)
    ensures CancelledInTime(CancelJob(v, now).view) && CancelledInTime(DecideJob(v, claim, token, now).view)
  {
    hide Latest, Merge, SuppressionEvidence, IsInitialEvidenceOnly, HasRevision;
  }

  lemma OthersKeepControl(s: Store, op: Op, now: int)
    requires !op.Reserve? && !op.Cancel? && !op.Decide? && op.job in s.views
    ensures ApplyToJob(s, op, now).view.control == s.views[op.job].control
  {
    hide Latest, LatestEvidence, LatestRevision, Merge, HasRevision, HasWitness, NoticeMatches, Acknowledged;
    if op.Publish? {
    } else if op.PublishUncertain? {
    }
  }

  lemma StepKeepsCancellation(s: Store, op: Op, now: int, job: JobId)
    requires job in s.views && CancelledInTime(s.views[job])
    ensures job in Apply(s, op, now).store.views && CancelledInTime(Apply(s, op, now).store.views[job])
  {
    if !op.Reserve? && op.job == job {
      if op.Cancel? {
        CancellationHolds(s.views[job], "", "", now);
      } else if op.Decide? {
        CancellationHolds(s.views[job], op.claim, op.token, now);
      } else {
        OthersKeepControl(s, op, now);
        hide ApplyToJob;
      }
    }
    hide CancelJob, DecideJob;
  }

  lemma {:induction false} CancellationLasts(states: seq<System>, steps: seq<Step>, i: nat, k: nat, job: JobId)
    requires IsRun(states, steps) && i <= k < |states|
    requires job in states[i].store.views && CancelledInTime(states[i].store.views[job])
    ensures job in states[k].store.views && CancelledInTime(states[k].store.views[job])
    decreases k - i
  {
    hide CancelledInTime, Possible, NodeAfter, Apply;
    if i < k {
      CancellationLasts(states, steps, i, k - 1, job);
      RunKeepsSystem(states, steps, k - 1);
      var y, step := states[k - 1], steps[k - 1];
      assert states[k - 1 + 1] == Next(y, step);
      if Transaction(y, step).Some? {
        StepKeepsCancellation(y.store, Transaction(y, step).value, step.now, job);
      }
    }
  }

  lemma UncancelledIfShell(y: System, job: JobId, claim: ClaimId)
    requires SystemOk(y) && job in y.store.views && claim in y.nodes && y.nodes[claim].job == job
    ensures y.nodes[claim].shells > 0 ==> !CancelledInTime(y.store.views[job])
  {
    hide SystemOk;
    if y.nodes[claim].shells > 0 {
      ShellWasAuthorized(y, claim);
    }
  }

  /** A job whose cancellation commits before its decision never gets a shell from any runner. */
  lemma CancelledNeverRuns(states: seq<System>, steps: seq<Step>, i: nat, k: nat, job: JobId, claim: ClaimId)
    requires IsRun(states, steps) && i <= k < |states|
    requires job in states[i].store.views && CancelledInTime(states[i].store.views[job])
    requires claim in states[k].nodes && states[k].nodes[claim].job == job
    ensures states[k].nodes[claim].shells == 0
  {
    assert k < |states|;
    hide IsRun, SystemOk, CancelledInTime;
    RunKeepsSystem(states, steps, k);
    CancellationLasts(states, steps, i, k, job);
    UncancelledIfShell(states[k], job, claim);
  }

  // ---------------------------------------------------------------- durable evidence is honest

  predicate SaysNoShell(e: Evidence) {
    e.launch.SpawnFailed? || e.launch.SuppressedCancelled? || e.launch.SuppressedDeadline?
  }

  lemma HolderIsKnown(y: System, job: JobId, r: int, claim: ClaimId)
    requires SystemOk(y) && job in y.store.views && 0 <= r < |y.store.views[job].rows|
    requires claim in y.nodes && y.nodes[claim].job == job && y.nodes[claim].shells > 0
    ensures EvidenceTrue(y.store.views[job].rows[r].evidence, y.store.views[job].control, y.nodes[claim])
    ensures y.store.views[job].control.Some? && y.store.views[job].control.value.decision == Some(Authorized)
  {
    ShellWasAuthorized(y, claim);
    assert JobTrue(job, y.store.views[job], y.nodes);
    hide EvidenceTrue, StoreOk, NodeTrue;
  }

  /**
   A revision that reports a suppressed or failed launch is the truth forever: at that moment and
   at every later one, no runner of the job has a shell.
   */
  lemma NoShellMeansNever(states: seq<System>, steps: seq<Step>, i: nat, k: nat, job: JobId, r: int, claim: ClaimId)
    requires IsRun(states, steps) && i <= k < |states| && job in states[i].store.views
    requires 0 <= r < |states[i].store.views[job].rows| && SaysNoShell(states[i].store.views[job].rows[r].evidence)
    requires claim in states[k].nodes && states[k].nodes[claim].job == job
    ensures states[k].nodes[claim].shells == 0
  {
    RunKeepsJob(states, steps, i, k, job);
    RunKeepsSystem(states, steps, k);
    hide IsRun, SystemOk;
    var later := states[k].store.views[job].rows;
    assert later[r] == states[i].store.views[job].rows[r];
    SaysNoShellIfNone(states[k], job, r, claim);
  }

  lemma SaysNoShellIfNone(y: System, job: JobId, r: int, claim: ClaimId)
    requires SystemOk(y) && job in y.store.views && 0 <= r < |y.store.views[job].rows|
    requires claim in y.nodes && y.nodes[claim].job == job
    ensures y.nodes[claim].shells > 0 ==> !SaysNoShell(y.store.views[job].rows[r].evidence)
  {
    hide SystemOk;
    if y.nodes[claim].shells > 0 {
      ShellWasAuthorized(y, claim);
      HolderIsKnown(y, job, r, claim);
    }
  }

  /** A revision that reports a launch, a code or a signal reports the one shell that there was. */
  lemma ReportedShellWasReal(states: seq<System>, steps: seq<Step>, k: nat, job: JobId, r: int) returns (claim: ClaimId)
    requires IsRun(states, steps) && k < |states| && job in states[k].store.views && 0 <= r < |states[k].store.views[job].rows|
    requires var e := states[k].store.views[job].rows[r].evidence;
             e.launch.Launched? || e.shellCode.Some? || e.shellSignal.Some?
    ensures claim in states[k].nodes && states[k].nodes[claim].job == job && states[k].nodes[claim].shells == 1
    ensures var e, shell := states[k].store.views[job].rows[r].evidence, states[k].nodes[claim].shell;
            && !shell.NoShell? && shell.orders == OrdersOf(states[k].store.views[job].job)
            && (e.shellCode.Some? ==> shell.Ended? && shell.code == e.shellCode)
            && (e.shellSignal.Some? ==> shell.Ended? && shell.signal == e.shellSignal)
  {
    RunKeepsSystem(states, steps, k);
    var v := states[k].store.views[job];
    assert JobTrue(job, v, states[k].nodes);
    claim := v.claim.value.id;
    assert EvidenceTrue(v.rows[r].evidence, v.control, states[k].nodes[claim]);
    assert NodeTrue(claim, states[k].nodes[claim], states[k].store);
    assert ShellOk(states[k].nodes[claim]);
    ShellWasAuthorized(states[k], claim);
  }

  // ---------------------------------------------------------------- publications are refused for staleness only

  /** What a runner publishes never contradicts a true snapshot of its own job. */
  lemma PublicationMerges(prior: Evidence, input: Observation, control: Option<Control>, n: Node)
    requires EvidenceTrue(prior, control, n) && RunnerProgress.OnlyLaunch(prior, n.runner.facts)
    requires ObservationHonest(input, n) && Current(input, n.runner) && FactsHonest(n.runner.facts, n.shell) && EndOk(n.shell)
    ensures Merge(prior, input, input.finalized != Some(true), input.finalized == Some(true)).Success?
  {
    var facts, frozen := n.runner.facts, n.runner.capture.frozen;
    if input.finalized != Some(true) {
      LaunchReportMerges(prior, input, n);
    } else if input == Runner.SpawnFailure(facts.deadlineObserved) {
      RunnerProgress.SpawnFailureIsAccepted(prior, facts);
    } else {
      RunnerProgress.TerminalIsAccepted(prior, facts, frozen.value);
    }
    hide Merge, RunnerProgress.OnlyLaunch;
  }

  predicate IsCurrentRevision(expected: Option<int>, rows: seq<ResultRow>) {
    match expected case None => rows == [] case Some(revision) => revision == |rows|
  }

  /**
   Whenever a publication of any runner commits, it fails for want of the job or the claim or for a
   stale revision, never as a contradiction; and that of the claim holder fails for staleness only.
   */
  lemma PublicationsOnlyGoStale(y: System, claim: ClaimId, op: Op, now: int)
    requires SystemOk(y) && claim in y.nodes && op in y.nodes[claim].outbox
    ensures op.Publish?
    ensures var r := Apply(y.store, op, now).result;
            r.Failure? ==> r.error.NotFound? || r.error.ClaimTaken? || r.error.RevisionStale?
    ensures op.job in y.store.views && ClaimMatches(y.store.views[op.job], claim) ==>
              var v := y.store.views[op.job];
              Apply(y.store, op, now).result.Success? <==> !v.job.state.Settled? && IsCurrentRevision(op.expectedRevision, v.rows)
  {
    var n := y.nodes[claim];
    assert NodeTrue(claim, n, y.store);
    assert OwnPublication(op, n, claim) && ObservationHonest(op.input, n) && Current(op.input, n.runner);
    if op.job in y.store.views && ClaimMatches(y.store.views[op.job], claim) {
      var v := y.store.views[op.job];
      assert JobTrue(op.job, v, y.nodes) && ViewOk(v);
      assert RowsTrue(v.rows, v.control, n) && Holds(n, op.job, v) && FactsHonest(n.runner.facts, n.shell) && EndOk(n.shell);
      hide SystemOk, NodeTrue, RowsTrue, ObservationHonest, Current, JobTrue;
      HolderGoesStaleOnly(v, claim, op.expectedRevision, op.input, op.token, now, n);
      hide ViewOk, PublishJob;
    } else {
      hide SystemOk, NodeTrue;
      if op.job in y.store.views {
        StrangerIsRefused(y.store.views[op.job], claim, op.expectedRevision, op.input, op.token, now);
      }
      hide PublishJob;
    }
  }

  lemma StrangerIsRefused(v: View, claim: ClaimId, expected: Option<int>, input: Observation, token: Token, now: int)
    requires !ClaimMatches(v, claim)
    ensures PublishJob(v, claim, expected, input, token, now).result == Failure(ClaimTaken)
  {
  }

  lemma HolderGoesStaleOnly(v: View, claim: ClaimId, expected: Option<int>, input: Observation, token: Token, now: int, n: Node)
    requires ViewOk(v) && RowsTrue(v.rows, v.control, n) && ClaimMatches(v, claim) && v.job.token == token
    requires ObservationHonest(input, n) && Current(input, n.runner) && FactsHonest(n.runner.facts, n.shell) && EndOk(n.shell)
    ensures var r := PublishJob(v, claim, expected, input, token, now).result;
            && (r.Success? <==> !v.job.state.Settled? && IsCurrentRevision(expected, v.rows))
            && (r.Failure? ==> r.error.RevisionStale?)
  {
    LatestOfView(v);
    LatestIsTrue(v, n);
    NextRevisionIsFree(v);
    assert v.job.state.Settled? <==> Finalized(Latest(v.rows));
    if !Finalized(Latest(v.rows)) {
      PublicationMerges(LatestEvidence(Latest(v.rows)), input, v.control, n);
    }
    hide ViewOk, RowsTrue, ObservationHonest, Current, FactsHonest, Latest, LatestEvidence, Finalized, Merge, HasRevision;
  }
}
