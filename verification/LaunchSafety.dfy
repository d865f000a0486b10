/** Every step of the launch system keeps its invariant. */
module LaunchSafety {
  import opened Wrappers
  import opened StoreEvidence
  import opened JobStore
  import opened StoreInvariants
  import Guardian
  import Runner
  import RunnerProgress
  import opened LaunchNode
  import opened LaunchNodeSteps
  import opened LaunchSystem

  // ---------------------------------------------------------------- evidence stays true

  lemma MergeTrue(prior: Evidence, input: Observation, uncertain: bool, finalized: bool, control: Option<Control>, n: Node)
    requires EvidenceTrue(prior, control, n) && ObservationHonest(input, n)
    requires Merge(prior, input, uncertain, finalized).Success?
    ensures EvidenceTrue(Merge(prior, input, uncertain, finalized).value, control, n)
  {
    hide Hopeless;
  }

  ghost predicate RowsTrue(rows: seq<ResultRow>, control: Option<Control>, n: Node) {
    forall i :: 0 <= i < |rows| ==> RevisionTrue(rows[i].evidence, control, n)
  }

  ghost predicate RowsInitial(rows: seq<ResultRow>) {
    forall i :: 0 <= i < |rows| ==> SameFacts(rows[i].evidence, INITIAL)
  }

  /** The runner's one report before the terminal evidence adds the launch and nothing else. */
  lemma LaunchReportMerges(prior: Evidence, input: Observation, n: Node)
    requires RunnerProgress.OnlyLaunch(prior, n.runner.facts) && Current(input, n.runner) && input.finalized != Some(true)
    ensures Merge(prior, input, true, false).Success?
    ensures RunnerProgress.OnlyLaunch(Merge(prior, input, true, false).value, n.runner.facts)
  {
  }

  /** The snapshot that a publication or a reconciler starts from. */
  lemma LatestIsTrue(v: View, n: Node)
    requires ViewOk(v) && RowsTrue(v.rows, v.control, n)
    ensures EvidenceTrue(LatestEvidence(Latest(v.rows)), v.control, n)
    ensures Finalized(Latest(v.rows)) || RunnerProgress.OnlyLaunch(LatestEvidence(Latest(v.rows)), n.runner.facts)
  {
    LatestOfView(v);
    if v.rows != [] {
      assert RevisionTrue(v.rows[|v.rows| - 1].evidence, v.control, n);
    }
    hide ViewOk, Latest;
  }

  lemma PublishTrue(v: View, claim: ClaimId, expected: Option<int>, input: Observation, token: Token, now: int, n: Node)
    requires ViewOk(v) && RowsTrue(v.rows, v.control, n) && ObservationHonest(input, n) && Current(input, n.runner)
    ensures var w := PublishJob(v, claim, expected, input, token, now).view;
            w.claim == v.claim && w.control == v.control && RowsTrue(w.rows, w.control, n)
  {
    LatestIsTrue(v, n);
    var prior := LatestEvidence(Latest(v.rows));
    var finalized := input.finalized == Some(true);
    if !Finalized(Latest(v.rows)) && Merge(prior, input, !finalized, finalized).Success? {
      MergeTrue(prior, input, !finalized, finalized, v.control, n);
      MergeSetsFlags(prior, input, !finalized, finalized);
      if !finalized {
        LaunchReportMerges(prior, input, n);
      }
      assert RevisionTrue(Merge(prior, input, !finalized, finalized).value, v.control, n);
    }
    hide ViewOk, Merge, RevisionTrue, EvidenceTrue, ObservationHonest, Current, HasRevision, Latest, LatestEvidence, Finalized;
  }

  /** A reconciler only repeats the facts it found, on a revision that is not final. */
  lemma UncertainRepeats(v: View, observedClaim: Option<ClaimId>, counter: int, revision: int, now: int)
    requires ViewOk(v)
    ensures var w := UncertainJob(v, observedClaim, counter, revision, now).view;
            && w.claim == v.claim && w.control == v.control
            && (w.rows == v.rows
                || (|w.rows| == |v.rows| + 1 && w.rows[..|v.rows|] == v.rows && !Finalized(Latest(v.rows))
                    && SameFacts(w.rows[|v.rows|].evidence, LatestEvidence(Latest(v.rows)))))
  {
    LatestOfView(v);
    EmptyMergeNeverThrows(LatestEvidence(Latest(v.rows)), true, false);
    hide ViewOk, Merge, HasRevision, HasWitness, Latest, LatestEvidence;
  }

  lemma SameFactsAreTrue(e: Evidence, f: Evidence, control: Option<Control>, n: Node)
    requires SameFacts(e, f) && EvidenceTrue(f, control, n) && RunnerProgress.OnlyLaunch(f, n.runner.facts)
    ensures RevisionTrue(e, control, n)
  {
  }

  lemma UncertainTrue(v: View, observedClaim: Option<ClaimId>, counter: int, revision: int, now: int, n: Node)
    requires ViewOk(v) && RowsTrue(v.rows, v.control, n)
    ensures RowsTrue(UncertainJob(v, observedClaim, counter, revision, now).view.rows, v.control, n)
  {
    var w := UncertainJob(v, observedClaim, counter, revision, now).view;
    UncertainRepeats(v, observedClaim, counter, revision, now);
    LatestIsTrue(v, n);
    if w.rows != v.rows {
      SameFactsAreTrue(w.rows[|v.rows|].evidence, LatestEvidence(Latest(v.rows)), v.control, n);
      assert w.rows == v.rows + [w.rows[|v.rows|]];
    }
    hide ViewOk, UncertainJob, RevisionTrue, EvidenceTrue, Latest, LatestEvidence, Finalized;
  }

  lemma UncertainStaysInitial(v: View, observedClaim: Option<ClaimId>, counter: int, revision: int, now: int)
    requires ViewOk(v) && RowsInitial(v.rows)
    ensures RowsInitial(UncertainJob(v, observedClaim, counter, revision, now).view.rows)
  {
    var w := UncertainJob(v, observedClaim, counter, revision, now).view;
    UncertainRepeats(v, observedClaim, counter, revision, now);
    LatestOfView(v);
    if w.rows != v.rows {
      assert SameFacts(LatestEvidence(Latest(v.rows)), INITIAL);
      assert w.rows == v.rows + [w.rows[|v.rows|]];
    }
    hide ViewOk, UncertainJob, Latest, LatestEvidence;
  }

  /** A decision that appends a row appends the suppression it decided on. */
  lemma DecideTrue(v: View, claim: ClaimId, token: Token, now: int, n: Node)
    requires ViewOk(v) && RowsTrue(v.rows, v.control, n)
    ensures var w := DecideJob(v, claim, token, now).view; w.claim == v.claim && RowsTrue(w.rows, w.control, n)
  {
    var o := DecideJob(v, claim, token, now);
    LatestOfView(v);
    DecidePersistsDecision(v, claim, token, now);
    forall i | 0 <= i < |v.rows| ensures RevisionTrue(v.rows[i].evidence, o.view.control, n) {
      assert RevisionTrue(v.rows[i].evidence, v.control, n);
    }
    if o.view.rows != v.rows {
      var decision := FirstDecision(v.control.value, v.job, now);
      SuppressionNeverThrows(Latest(v.rows), decision);
      var merged := Merge(LatestEvidence(Latest(v.rows)), SuppressionEvidence(decision), false, true).value;
      assert RevisionTrue(merged, o.view.control, n);
      assert o.view.rows == v.rows + [ResultRow(LatestRevision(Latest(v.rows)) + 1, merged, now, ByDecision)];
    }
    hide ViewOk, DecideJob, RevisionTrue, EvidenceTrue, Latest, Merge, SuppressionEvidence;
  }

  lemma DecidePersistsDecision(v: View, claim: ClaimId, token: Token, now: int)
    requires ViewOk(v)
    ensures var w := DecideJob(v, claim, token, now).view;
            v.control.Some? && w.control.Some? && OptionBelow(v.control.value.decision, w.control.value.decision)
  {
    SuppressedIsSettled(v);
    DecidePersists(v, claim, token, now);
  }

  // ---------------------------------------------------------------- one transaction

  /** What an operation may bring: only a runner with its own claim and job uses its token, for what it would publish. */
  predicate OpAllowed(op: Op, nodes: map<ClaimId, Node>) {
    || ClientOp(op)
    || ((op.ClaimRunner? || op.Decide?) && op.claim in nodes && OwnOperation(op, nodes[op.claim]))
    || (op.Publish? && op.claim in nodes && OwnOperation(op, nodes[op.claim])
        && ObservationHonest(op.input, nodes[op.claim]) && Current(op.input, nodes[op.claim].runner))
  }

  predicate OwnOperation(op: Op, n: Node)
    requires op.ClaimRunner? || op.Decide? || op.Publish?
  {
    op.owner == n.owner && op.job == n.job && op.token == n.token
  }

  lemma TransactionIsAllowed(y: System, step: Step)
    requires SystemOk(y) && Possible(y, step) && Transaction(y, step).Some?
    ensures OpAllowed(Transaction(y, step).value, y.nodes)
  {
    if step.PublicationCommits? {
      assert NodeTrue(step.claim, y.nodes[step.claim], y.store);
      assert OutboxHonest(y.nodes[step.claim], step.claim);
    }
    hide ObservationHonest, Current;
  }

  /** A transaction never changes whose job it is, nor its token. */
  lemma JobStaysGiven(s: Store, op: Op, now: int)
    requires StoreOk(s) && !op.Reserve? && op.job in s.views
    ensures var v, w := s.views[op.job], ApplyToJob(s, op, now).view;
            w.job.request == v.job.request && w.job.token == v.job.token
  {
    assert ViewOk(s.views[op.job]);
    JobPersists(s, op, now);
    hide ViewOk, ApplyToJob;
  }

  lemma HeldRowsStayTrue(s: Store, op: Op, now: int, nodes: map<ClaimId, Node>, n: Node)
    requires StoreOk(s) && !op.Reserve? && op.job in s.views && OpAllowed(op, nodes)
    requires var v := s.views[op.job];
             v.claim.Some? && v.claim.value.id in nodes && n == nodes[v.claim.value.id] && RowsTrue(v.rows, v.control, n)
    ensures var w := ApplyToJob(s, op, now).view; RowsTrue(w.rows, w.control, n)
  {
    var v := s.views[op.job];
    assert ViewOk(v);
    hide StoreOk, ViewOk, RowsTrue, DecideJob, PublishJob, UncertainJob, CancelJob, AcknowledgeJob, ObservationHonest, Current;
    if v.job.request.owner == op.owner || op.Acknowledge? {
      match op
      case Publish(_, _, claim, expected, input, token) =>
        if v.claim.value.id == claim {
          PublishTrue(v, claim, expected, input, token, now, n);
        } else {
          StrangerPublishesNothing(v, claim, expected, input, token, now);
        }
      case PublishUncertain(_, _, claim, counter, revision) =>
        UncertainTrue(v, claim, counter, revision, now, n);
        UncertainRepeats(v, claim, counter, revision, now);
      case Decide(_, _, claim, token) => DecideTrue(v, claim, token, now, n);
      case Cancel(_, _) => CancelKeepsTruth(v, now, n);
      case Acknowledge(owner, _, revision) => OthersKeepRows(v, owner, revision, now);
      case _ =>
    }
  }

  /** The rows of a job stay true under a transaction on it that leaves its claim alone. */
  lemma HeldJobStaysTrue(s: Store, op: Op, now: int, nodes: map<ClaimId, Node>)
    requires StoreOk(s) && !op.Reserve? && op.job in s.views && OpAllowed(op, nodes)
    requires s.views[op.job].claim.Some? && JobTrue(op.job, s.views[op.job], nodes)
    ensures JobTrue(op.job, ApplyToJob(s, op, now).view, nodes)
  {
    var n := nodes[s.views[op.job].claim.value.id];
    JobStaysGiven(s, op, now);
    StepClaims(s, op, now);
    HeldRowsStayTrue(s, op, now, nodes, n);
    hide ApplyToJob, StoreOk, OpAllowed, RevisionTrue;
  }

  lemma StrangerPublishesNothing(v: View, claim: ClaimId, expected: Option<int>, input: Observation, token: Token, now: int)
    requires !ClaimMatches(v, claim)
    ensures PublishJob(v, claim, expected, input, token, now).view == v
    ensures DecideJob(v, claim, token, now).view == v
  {
  }

  lemma CancelKeepsTruth(v: View, now: int, n: Node)
    requires RowsTrue(v.rows, v.control, n)
    ensures var w := CancelJob(v, now).view; w.claim == v.claim && w.rows == v.rows && RowsTrue(w.rows, w.control, n)
  {
    var w := CancelJob(v, now).view;
    forall i | 0 <= i < |v.rows| ensures RevisionTrue(v.rows[i].evidence, w.control, n) {
      assert RevisionTrue(v.rows[i].evidence, v.control, n);
    }
    hide Latest;
  }

  /** These operations change neither rows nor claim. */
  lemma OthersKeepRows(v: View, owner: Owner, revision: int, now: int)
    ensures CancelJob(v, now).view.rows == v.rows && CancelJob(v, now).view.claim == v.claim
    ensures AcknowledgeJob(v, owner, revision, now).view.rows == v.rows
    ensures AcknowledgeJob(v, owner, revision, now).view.claim == v.claim
    ensures AcknowledgeJob(v, owner, revision, now).view.control == v.control
  {
    hide Latest, AnyNotice, AcknowledgedAll;
  }

  lemma UnheldRowsStayTrue(s: Store, op: Op, now: int, nodes: map<ClaimId, Node>)
    requires StoreOk(s) && !op.Reserve? && op.job in s.views && OpAllowed(op, nodes)
    requires s.views[op.job].claim.None? && RowsInitial(s.views[op.job].rows)
    ensures var w := ApplyToJob(s, op, now).view;
            match w.claim
            case None => RowsInitial(w.rows)
            case Some(claim) => claim.id in nodes && Holds(nodes[claim.id], op.job, s.views[op.job]) && RowsTrue(w.rows, w.control, nodes[claim.id])
  {
    var v := s.views[op.job];
    assert ViewOk(v);
    hide StoreOk, ViewOk, UncertainJob, DecideJob, PublishJob, ClaimJob, CancelJob, AcknowledgeJob, RowsInitial, RowsTrue, ObservationHonest, Current;
    if v.job.request.owner == op.owner || op.Acknowledge? {
      match op
      case PublishUncertain(_, _, claim, counter, revision) =>
        UncertainStaysInitial(v, claim, counter, revision, now);
        UncertainRepeats(v, claim, counter, revision, now);
      case Publish(_, _, claim, expected, input, token) => StrangerPublishesNothing(v, claim, expected, input, token, now);
      case Decide(_, _, claim, token) => StrangerPublishesNothing(v, claim, None, NO_OBSERVATION, token, now);
      case ClaimRunner(_, _, claim, token) => ClaimTellsNothing(v, claim, token, claim in s.claimIds, now, nodes[claim]);
      case Acknowledge(owner, _, revision) => OthersKeepRows(v, owner, revision, now);
      case Cancel(owner, _) => OthersKeepRows(v, owner, 0, now);
      case _ =>
    }
  }

  lemma UnheldJobStaysTrue(s: Store, op: Op, now: int, nodes: map<ClaimId, Node>)
    requires StoreOk(s) && !op.Reserve? && op.job in s.views && OpAllowed(op, nodes)
    requires s.views[op.job].claim.None? && JobTrue(op.job, s.views[op.job], nodes)
    ensures JobTrue(op.job, ApplyToJob(s, op, now).view, nodes)
  {
    JobStaysGiven(s, op, now);
    UnheldRowsStayTrue(s, op, now, nodes);
    hide ApplyToJob, StoreOk, OpAllowed, RevisionTrue, SameFacts;
  }

  lemma ClaimTellsNothing(v: View, claim: ClaimId, token: Token, taken: bool, now: int, n: Node)
    requires RowsInitial(v.rows) && v.claim.None?
    ensures var w := ClaimJob(v, claim, token, taken, now).view;
            && w.rows == v.rows && RowsTrue(w.rows, w.control, n)
            && (w.claim.None? || (w.claim.value.id == claim && v.job.token == token))
  {
    var w := ClaimJob(v, claim, token, taken, now).view;
    forall i | 0 <= i < |v.rows| ensures RevisionTrue(v.rows[i].evidence, w.control, n) {
      assert SameFacts(v.rows[i].evidence, INITIAL);
    }
  }

  /** Every job stays true under every allowed transaction. */
  lemma JobsStayTrue(s: Store, op: Op, now: int, nodes: map<ClaimId, Node>, job: JobId)
    requires StoreOk(s) && OpAllowed(op, nodes)
    requires forall j :: j in s.views ==> JobTrue(j, s.views[j], nodes)
    requires job in Apply(s, op, now).store.views
    ensures JobTrue(job, Apply(s, op, now).store.views[job], nodes)
  {
    hide ApplyToJob, StoreOk, OpAllowed;
    if !op.Reserve? && op.job == job {
      if s.views[job].claim.Some? {
        HeldJobStaysTrue(s, op, now, nodes);
      } else {
        UnheldJobStaysTrue(s, op, now, nodes);
      }
    }
  }

  // ---------------------------------------------------------------- nodes under a transaction

  lemma NodeSeesTheSameJob(n: Node, claim: ClaimId, v: Option<View>, w: Option<View>)
    requires NodeOk(n, claim, v) && (v.Some? ==> w.Some? && OrdersOf(w.value.job) == OrdersOf(v.value.job))
    ensures NodeOk(n, claim, w)
  {
    hide Guardian.Sound, ShellOk, GrantsSent, HelloOnce, FactsHonest, MessagesHonest, TasksHonest, OutboxHonest, GateOk, OrdersOf;
  }

  lemma NodeOutlivesTransaction(s: Store, op: Op, now: int, claim: ClaimId, n: Node)
    requires StoreOk(s) && NodeTrue(claim, n, s)
    ensures NodeTrue(claim, n, Apply(s, op, now).store)
  {
    var t := Apply(s, op, now).store;
    if n.job in s.views {
      StepPersists(s, op, now, n.job);
    }
    assert ReadOf(s, n).Some? ==> ReadOf(t, n).Some? && OrdersOf(ReadOf(t, n).value.job) == OrdersOf(ReadOf(s, n).value.job);
    hide Apply, StoreOk, NodeOk, Answered;
    NodeSeesTheSameJob(n, claim, ReadOf(s, n), ReadOf(t, n));
  }

  /** A fresh authorization means that the store authorized the holder of the claim. */
  lemma AuthorizationCommits(s: Store, n: Node, claim: ClaimId, now: int)
    requires var r := Apply(s, Decide(n.owner, n.job, claim, n.token), now).result;
             r.Success? && r.value.DecideReply? && r.value.decision.AuthorizedNow?
    ensures AuthorizedBy(n, claim, ViewOf(Apply(s, Decide(n.owner, n.job, claim, n.token), now).store, n.job))
  {
    hide Latest, Merge, SuppressionEvidence, IsInitialEvidenceOnly, HasRevision;
  }

  // ---------------------------------------------------------------- every step

  lemma TruthLasts(e: Evidence, control: Option<Control>, n: Node, m: Node)
    requires RevisionTrue(e, control, n) && NodeAdvances(n, m)
    ensures RevisionTrue(e, control, m)
  {
    hide Hopeless;
  }

  lemma JobOutlivesNodeStep(job: JobId, v: View, nodes: map<ClaimId, Node>, claim: ClaimId, m: Node)
    requires JobTrue(job, v, nodes) && (claim in nodes ==> NodeAdvances(nodes[claim], m))
    ensures JobTrue(job, v, nodes[claim := m])
  {
    if v.claim.Some? && v.claim.value.id == claim {
      forall i | 0 <= i < |v.rows| ensures RevisionTrue(v.rows[i].evidence, v.control, m) {
        TruthLasts(v.rows[i].evidence, v.control, nodes[claim], m);
      }
    }
    hide RevisionTrue;
  }

  /** What becomes of the node of a step, against the store before the step. */
  lemma NodeStepKeeps(y: System, step: Step)
    requires SystemOk(y) && Possible(y, step) && !step.ClientCommits?
    ensures var m := NodeAfter(y, step);
            && NodeOk(m, step.claim, ReadOf(y.store, m))
            && (step.claim in y.nodes ==> NodeAdvances(y.nodes[step.claim], m))
  {
    hide NodeOk, NodeAdvances, RunnerMoves, GuardianMoves, RunnerCan, GuardianCan, Apply, StoreOk, JobTrue;
    var view := if step.claim in y.nodes then ReadOf(y.store, y.nodes[step.claim]) else None;
    match step
    case LaunchRunner(claim, owner, job, token) => FreshNodeIsOk(owner, job, token, claim, ReadOf(y.store, FreshNode(owner, job, token)));
    case DecisionCommits(claim, now) =>
      HearingKeepsNode(y.nodes[claim], claim, view, Apply(y.store, Transaction(y, step).value, now).result);
      AdvancingKeepsIdentity(y.nodes[claim], NodeAfter(y, step));
    case RunnerSteps(claim, e) =>
      RunnerKeepsNode(y.nodes[claim], claim, view, e);
      AdvancingKeepsIdentity(y.nodes[claim], NodeAfter(y, step));
    case GuardianSteps(claim, e) =>
      GuardianKeepsNode(y.nodes[claim], claim, view, e);
      AdvancingKeepsIdentity(y.nodes[claim], NodeAfter(y, step));
    case ShellExits(claim, code, signal) =>
      ShellEndKeepsNode(y.nodes[claim], claim, view, code, signal);
      AdvancingKeepsIdentity(y.nodes[claim], NodeAfter(y, step));
    case Losses(claim, runnerAlive, guardianAlive, toRunner, toGuardian) =>
      LossKeepsNode(y.nodes[claim], claim, view, runnerAlive, guardianAlive, toRunner, toGuardian);
      AdvancingKeepsIdentity(y.nodes[claim], NodeAfter(y, step));
    case ClaimCommits(claim, _) => AdvancesReflexive(y.nodes[claim]);
    case PublicationCommits(claim, _, _) => AdvancesReflexive(y.nodes[claim]);
  }

  lemma AdvancingKeepsIdentity(n: Node, m: Node)
    requires NodeAdvances(n, m)
    ensures m.job == n.job && m.owner == n.owner
  {
  }

  lemma AdvancesReflexive(n: Node)
    ensures NodeAdvances(n, n)
  {
  }

  /** The store's authorization backs every answer the node of a step has heard. */
  lemma AnswersAreBacked(y: System, step: Step)
    requires SystemOk(y) && Possible(y, step) && !step.ClientCommits?
    ensures Answered(NodeAfter(y, step).answers, AuthorizedNow) ==>
              AuthorizedBy(NodeAfter(y, step), step.claim, ViewOf(Next(y, step).store, NodeAfter(y, step).job))
  {
    if step.claim in y.nodes {
      var n, m := y.nodes[step.claim], NodeAfter(y, step);
      HearsOnlyDecisions(y, step);
      assert NodeTrue(step.claim, n, y.store);
      hide SystemOk, NodeOk, Apply, NodeAfter, AuthorizedBy;
      if Answered(n.answers, AuthorizedNow) {
        AuthorizationLasts(y, step, n);
        SameIdentity(n, m, step.claim, ViewOf(Next(y, step).store, n.job));
      } else if step.DecisionCommits? && Answered(m.answers, AuthorizedNow) {
        AuthorizationCommits(y.store, n, step.claim, step.now);
        SameIdentity(n, m, step.claim, ViewOf(Next(y, step).store, n.job));
      }
    }
  }

  lemma SameIdentity(n: Node, m: Node, claim: ClaimId, view: Option<View>)
    requires m.job == n.job && m.owner == n.owner
    ensures AuthorizedBy(m, claim, view) == AuthorizedBy(n, claim, view)
  {
  }

  lemma AuthorizationLasts(y: System, step: Step, n: Node)
    requires StoreOk(y.store) && Possible(y, step) && !step.ClientCommits? && AuthorizedBy(n, step.claim, ViewOf(y.store, n.job))
    ensures AuthorizedBy(n, step.claim, ViewOf(Next(y, step).store, n.job))
  {
    if Transaction(y, step).Some? {
      StepPersists(y.store, Transaction(y, step).value, step.now, n.job);
    }
    hide Apply, StoreOk;
  }

  lemma HearsOnlyDecisions(y: System, step: Step)
    requires Possible(y, step) && !step.ClientCommits? && step.claim in y.nodes
    ensures var n, m := y.nodes[step.claim], NodeAfter(y, step);
            && m.job == n.job && m.owner == n.owner
            && (!step.DecisionCommits? ==> m.answers == n.answers)
  {
    hide RunnerCan, GuardianCan, Apply;
  }

  /** The invariant is kept by every step of every actor. */
  lemma StepKeepsSystem(y: System, step: Step)
    requires SystemOk(y) && Possible(y, step)
    ensures SystemOk(Next(y, step))
  {
    var z := Next(y, step);
    hide NodeOk, NodeAfter, Apply, Transaction, StoreOk, JobTrue, NodeTrue, NodeAdvances, OpAllowed, AuthorizedBy, Answered;
    StoreStepKeeps(y, step);
    if !step.ClientCommits? {
      NodeStepKeeps(y, step);
      AnswersAreBacked(y, step);
      NodeAfterIsTrue(y, step);
      forall j | j in z.store.views ensures JobTrue(j, z.store.views[j], z.nodes) {
        JobOutlivesNodeStep(j, z.store.views[j], y.nodes, step.claim, NodeAfter(y, step));
      }
    }
  }

  /** What a step commits, seen by the nodes as they were. */
  lemma StoreStepKeeps(y: System, step: Step)
    requires SystemOk(y) && Possible(y, step)
    ensures var t := Next(y, step).store;
            && StoreOk(t)
            && (forall c :: c in y.nodes ==> NodeTrue(c, y.nodes[c], t))
            && (forall j :: j in t.views ==> JobTrue(j, t.views[j], y.nodes))
  {
    if Transaction(y, step).Some? {
      var op := Transaction(y, step).value;
      TransactionIsAllowed(y, step);
      hide Apply, StoreOk, JobTrue, NodeTrue, OpAllowed, Transaction, Possible;
      var t := Apply(y.store, op, step.now).store;
      StepKeepsStore(y.store, op, step.now);
      forall c | c in y.nodes ensures NodeTrue(c, y.nodes[c], t) {
        NodeOutlivesTransaction(y.store, op, step.now, c, y.nodes[c]);
      }
      forall j | j in t.views ensures JobTrue(j, t.views[j], y.nodes) {
        JobsStayTrue(y.store, op, step.now, y.nodes, j);
      }
    }
  }

  lemma NodeAfterIsTrue(y: System, step: Step)
    requires SystemOk(y) && Possible(y, step) && !step.ClientCommits?
    requires NodeOk(NodeAfter(y, step), step.claim, ReadOf(y.store, NodeAfter(y, step)))
    requires Answered(NodeAfter(y, step).answers, AuthorizedNow) ==>
               AuthorizedBy(NodeAfter(y, step), step.claim, ViewOf(Next(y, step).store, NodeAfter(y, step).job))
    ensures NodeTrue(step.claim, NodeAfter(y, step), Next(y, step).store)
  {
    var m := NodeAfter(y, step);
    var s, t := y.store, Next(y, step).store;
    hide NodeOk, NodeAfter, JobTrue, AuthorizedBy, Answered;
    if Transaction(y, step).Some? {
      if m.job in s.views {
        StepPersists(s, Transaction(y, step).value, step.now, m.job);
      }
    }
    assert ReadOf(s, m).Some? ==> ReadOf(t, m).Some? && OrdersOf(ReadOf(t, m).value.job) == OrdersOf(ReadOf(s, m).value.job) by {
      hide Apply, StoreOk;
    }
    NodeSeesTheSameJob(m, step.claim, ReadOf(s, m), ReadOf(t, m));
  }
}
