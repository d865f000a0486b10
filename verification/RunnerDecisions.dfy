/**
 When the runner asks for something and what it remembers. The laws here read the event that was
 handled and the facts the runner had, not the functions that compute the step.
 */
module RunnerDecisions {
  import opened Wrappers
  import opened StoreEvidence
  import opened JobStore
  import opened GuardianProtocol
  import opened Runner

  // ---------------------------------------------------------------- what happened

  /** The message counts: a stopping runner hears nothing. */
  predicate Hears(s: State, e: Event, m: GuardianMessage) {
    e == MessageArrived(m) && !s.life.stopping
  }

  /** A fresh authorization returned to a runner that still wants it; the captures are attached now. */
  predicate Authorizes(s: State, e: Event) {
    e.DecideReturned? && e.decision == Success(AuthorizedNow) && !s.life.stopping
  }

  predicate Attempts(s: State, e: Event) {
    Authorizes(s, e) && e.connected && !s.gate.grantSent
  }

  /** The guardian is gone: its channel closed, or it exited. */
  predicate Loses(e: Event) {
    e.GuardianLost? || e.GuardianExited?
  }

  /** Whether the handler of this kind of loss considers the grant given. */
  predicate GrantGiven(s: State, e: Event) {
    if e.GuardianLost? then s.gate.grantAttempted else s.gate.grantSent
  }

  /** No shell can have started, and the runner says so. */
  predicate FailsSpawn(s: State, e: Event) {
    && !s.life.stopping && !s.life.settled && !s.life.closed
    && (|| (e.LoadReturned? && e.loaded.Some? && !e.utilities)
        || Hears(s, e, Topology(false))
        || (e.MessageArrived? && e.message.ShellError?)
        || (Loses(e) && !s.gate.topologySucceeded)
        || (e.ReadinessFired? && !s.gate.topologySucceeded))
  }

  /** The outcome is uncertain from now on; the captures get the cutover interval. */
  predicate CutsOver(s: State, e: Event) {
    && s.life.coordinator.Observing? && !s.life.stopping && !s.life.closed
    && (|| (Attempts(s, e) && !e.sent)
        || e.GrantSendFailed?
        || (Loses(e) && s.gate.topologySucceeded && GrantGiven(s, e))
        || e.BudgetFired?)
  }

  predicate Freezes(s: State, e: Event) {
    && e.CutoverFired? && s.life.coordinator.CuttingOver?
    && s.timers.cutoverDeadline.Some? && s.timers.cutoverDeadline.value <= e.now
  }

  predicate EndsLink(s: State, e: Event) {
    || (e.PublicationStarted? && (s.life.closed || (s.life.settled && s.chain.queue != [] && !s.chain.queue[0].final)))
    || (e.PublishReturned? && (e.published.Some? || (s.chain.queue != [] && s.chain.queue[0].final)))
    || e.ObserveReturned?
  }

  /** The runner ends here, unless it had ended. */
  predicate Closes(s: State, e: Event) {
    !s.life.closed &&
    (|| e == ClaimReturned(false)
     || (e.LoadReturned? && (e.loaded.None? || (e.utilities && !e.spawned)))
     || (e.DecideReturned? && (e.decision.Failure? || (!s.life.stopping && e.decision != Success(AuthorizedNow))))
     || (Loses(e) && !s.life.stopping && s.gate.topologySucceeded && !GrantGiven(s, e))
     || (EndsLink(s, e) && s.chain.queue != [] && s.chain.queue[0].final))
  }

  predicate BeginsBudget(s: State, e: Event) {
    && s.timers.budget.Unset? && !s.life.stopping && s.life.coordinator.Observing?
    && ((e.MessageArrived? && (e.message.ShellExit? || e.message.Deadline?)) || e.DeadlineFired?)
  }

  /** The one reason there is for each request. */
  predicate Justified(s: State, e: Event, r: Request) {
    match r
    case CallClaim => false
    case CallLoad => e == ClaimReturned(true)
    case CallDecide => Hears(s, e, Topology(true)) && !s.gate.grantSent
    case CallPublish(expected, input) =>
      && e.PublicationStarted? && !EndsLink(s, e)
      && s.chain.queue != [] && input == s.chain.queue[0].input && expected == s.chain.revision
    case CallObserve => e.PublishReturned? && !EndsLink(s, e)
    case SendHelloReply(orders) => Hears(s, e, Hello) && s.orders == Some(orders)
    case SendGrant => Attempts(s, e) && e.sent
    case DisconnectGuardian => s.stage.Supervising? && Closes(s, e)
  }

  // ---------------------------------------------------------------- requests

  lemma LinkAsks(s: State, e: Event, r: Request)
    requires Enabled(s, e) && (e.PublicationStarted? || e.PublishReturned? || e.ObserveReturned?)
    ensures r in Step(s, e).requests <==> Justified(s, e, r)
    ensures |Step(s, e).requests| <= 1
  {
    hide Cleared;
  }

  /** A request is made exactly when its reason holds, and never two at once. */
  lemma AsksExactly(s: State, e: Event, r: Request)
    requires Enabled(s, e)
    ensures r in Step(s, e).requests <==> Justified(s, e, r)
    ensures |Step(s, e).requests| <= 1
  {
    hide TerminalEvidence, SpawnFailure, CutoverFacts, FactsAfter, Cleared;
    match e
    case MessageArrived(_) =>
    case DecideReturned(_, _, _, _, _) =>
    case GuardianLost(_) =>
    case GuardianExited(_) =>
    case PublicationStarted => LinkAsks(s, e, r); hide Step, Justified;
    case PublishReturned(_) => LinkAsks(s, e, r); hide Step, Justified;
    case ObserveReturned(_) => LinkAsks(s, e, r); hide Step, Justified;
    case _ =>
  }

  // ---------------------------------------------------------------- what a step leaves

  /** Stopping, settled, closed and the coordinator, by what sets them; nothing takes them back. */
  ghost predicate LifeAfter(s: State, e: Event, t: Life) {
    && (t.closed <==> s.life.closed || Closes(s, e))
    && (t.stopping <==> s.life.stopping || FailsSpawn(s, e) || Freezes(s, e) || Closes(s, e))
    && (t.settled <==> || s.life.settled
                       || (e.DecideReturned? && e.decision == Success(SuppressedNow) && !s.life.stopping)
                       || (e.PublishReturned? && e.published.Some? && s.chain.queue != [] && s.chain.queue[0].final))
    && t.coordinator == (if Closes(s, e) then Closed
                         else if CutsOver(s, e) then CuttingOver
                         else if Freezes(s, e) then Freezing
                         else if e.SealReturned? then Publishing
                         else s.life.coordinator)
  }

  /** The latches of the grant, and the calls under way. */
  ghost predicate GateAfter(s: State, e: Event, t: State) {
    && (t.gate.topologySucceeded <==> s.gate.topologySucceeded || Hears(s, e, Topology(true)))
    && (t.gate.grantSent <==> s.gate.grantSent || Attempts(s, e))
    && (t.gate.grantAttempted <==> s.gate.grantAttempted || Attempts(s, e))
    && t.gate.decides == s.gate.decides - (if e.DecideReturned? then 1 else 0)
                         + (if Hears(s, e, Topology(true)) && !s.gate.grantSent then 1 else 0)
    && (t.discarding <==> FailsSpawn(s, e) || (s.discarding && !e.DiscardReturned?))
    && (t.sealing <==> Freezes(s, e) || (s.sealing && !e.SealReturned?))
    && t.orders == (if e.LoadReturned? then e.loaded else s.orders)
  }

  predicate Supervises(e: Event) {
    e.LoadReturned? && e.loaded.Some? && e.utilities && e.spawned
  }

  /** An early cutover timer is armed again; a due one, or one that nobody waits for, is not. */
  predicate EndsCutoverTimer(s: State, e: Event) {
    e.CutoverFired? && !(s.life.coordinator.CuttingOver? && s.timers.cutoverDeadline.Some? && s.timers.cutoverDeadline.value > e.now)
  }

  /** Each timer, by what arms it and what ends it; the cutover takes one second. */
  ghost predicate TimersAfter(s: State, e: Event, t: Timers) {
    && (t.readinessArmed <==> Supervises(e) || (s.timers.readinessArmed && !e.ReadinessFired? && !Closes(s, e)))
    && (t.deadlineArmed <==> Supervises(e) || (s.timers.deadlineArmed && !e.DeadlineFired? && !Closes(s, e)))
    && (t.budget.Unset? <==> s.timers.budget.Unset? && !BeginsBudget(s, e))
    && (t.budget.Armed? <==> BeginsBudget(s, e) || (s.timers.budget.Armed? && !e.BudgetFired? && !Closes(s, e)))
    && (t.cutoverArmed <==> CutsOver(s, e) || (s.timers.cutoverArmed && !EndsCutoverTimer(s, e) && !Closes(s, e)))
    && t.cutoverDeadline == (if CutsOver(s, e) then Some(e.now + 1_000) else s.timers.cutoverDeadline)
  }

  ghost predicate Follows(s: State, e: Event, t: State) {
    LifeAfter(s, e, t.life) && GateAfter(s, e, t) && TimersAfter(s, e, t.timers)
  }

  lemma AuthorizationFollows(s: State, e: Event)
    requires Enabled(s, e) && e.DecideReturned? && e.decision == Success(AuthorizedNow) && (Attempts(s, e) ==> e.sent)
    ensures Follows(s, e, Step(s, e).state)
  {
    assert !FailsSpawn(s, e) && !Closes(s, e) && !Freezes(s, e) && !BeginsBudget(s, e) && !CutsOver(s, e);
    hide FailsSpawn, Closes, Freezes, BeginsBudget, CutsOver, Close;
  }

  lemma GrantFailureFollows(s: State, e: Event)
    requires Enabled(s, e) && Attempts(s, e) && !e.sent
    ensures Follows(s, e, Step(s, e).state)
  {
    assert !FailsSpawn(s, e) && !Closes(s, e) && !Freezes(s, e) && !BeginsBudget(s, e);
    hide FailsSpawn, Closes, Freezes, BeginsBudget, Close;
  }

  lemma RefusalFollows(s: State, e: Event)
    requires Enabled(s, e) && e.DecideReturned? && e.decision != Success(AuthorizedNow) && (s.life.closed ==> s.life.stopping)
    ensures Follows(s, e, Step(s, e).state)
  {
  }

  lemma VerdictFollows(s: State, e: Event)
    requires Enabled(s, e) && e.MessageArrived? && (e.message.Topology? || e.message.ShellError?)
    ensures Follows(s, e, Step(s, e).state)
  {
    hide FactsAfter;
  }

  lemma MessageFollows(s: State, e: Event)
    requires Enabled(s, e) && e.MessageArrived? && !e.message.Topology? && !e.message.ShellError?
    ensures Follows(s, e, Step(s, e).state)
  {
    hide FactsAfter;
  }

  lemma LossFollows(s: State, e: Event)
    requires Enabled(s, e) && e.GuardianLost? && (s.life.closed ==> s.life.stopping)
    ensures Follows(s, e, Step(s, e).state)
  {
  }

  lemma ExitFollows(s: State, e: Event)
    requires Enabled(s, e) && e.GuardianExited? && (s.life.closed ==> s.life.stopping)
    ensures Follows(s, e, Step(s, e).state)
  {
  }

  lemma LinkEnds(s: State)
    requires s.chain.queue != []
    ensures var final, t := s.chain.queue[0].final && !s.life.closed, Finish(s).state;
            && t.life == (if final then Life(true, s.life.settled, true, Closed) else s.life)
            && t.timers == (if final then Cleared(s.timers) else s.timers)
            && t.gate == s.gate && t.orders == s.orders && t.discarding == s.discarding && t.sealing == s.sealing
  {
  }

  lemma SendingFollows(s: State, e: Event)
    requires Enabled(s, e) && e.PublicationStarted?
    ensures Follows(s, e, Step(s, e).state)
  {
    LinkEnds(s);
    hide Finish;
  }

  lemma PublishedFollows(s: State, e: Event)
    requires Enabled(s, e) && e.PublishReturned? && e.published.Some?
    ensures Follows(s, e, Step(s, e).state)
  {
    assert !FailsSpawn(s, e) && !CutsOver(s, e) && !Freezes(s, e) && !BeginsBudget(s, e) && !Attempts(s, e);
    hide FailsSpawn, CutsOver, Freezes, BeginsBudget, Attempts;
    LinkEnds(s.(chain := s.chain.(revision := e.published), life := s.life.(settled := s.life.settled || s.chain.queue[0].final)));
    hide Finish;
  }

  lemma UnpublishedFollows(s: State, e: Event)
    requires Enabled(s, e) && e.PublishReturned? && e.published.None?
    ensures Follows(s, e, Step(s, e).state)
  {
    assert !FailsSpawn(s, e) && !CutsOver(s, e) && !Freezes(s, e) && !BeginsBudget(s, e) && !Attempts(s, e);
    hide FailsSpawn, CutsOver, Freezes, BeginsBudget, Attempts;
    LinkEnds(s);
    hide Finish;
  }

  lemma ObservedFollows(s: State, e: Event)
    requires Enabled(s, e) && e.ObserveReturned?
    ensures Follows(s, e, Step(s, e).state)
  {
    LinkEnds(s);
    LinkEnds(s.(chain := s.chain.(revision := e.observed)));
    hide Finish;
  }

  lemma ReadinessFollows(s: State, e: Event)
    requires Enabled(s, e) && e.ReadinessFired?
    ensures Follows(s, e, Step(s, e).state)
  {
  }

  lemma BudgetFollows(s: State, e: Event)
    requires Enabled(s, e) && (e.DeadlineFired? || e.BudgetFired?)
    ensures Follows(s, e, Step(s, e).state)
  {
    assert !FailsSpawn(s, e) && !Closes(s, e) && !Freezes(s, e) && !Attempts(s, e);
    hide FailsSpawn, Closes, Freezes, Attempts;
  }

  lemma CutoverFollows(s: State, e: Event)
    requires Enabled(s, e) && e.CutoverFired?
    ensures Follows(s, e, Step(s, e).state)
  {
    assert !FailsSpawn(s, e) && !Closes(s, e) && !CutsOver(s, e) && !BeginsBudget(s, e) && !Attempts(s, e);
    hide FailsSpawn, Closes, CutsOver, BeginsBudget, Attempts;
  }

  lemma ClaimFollows(s: State, e: Event)
    requires Enabled(s, e) && e.ClaimReturned?
    ensures Follows(s, e, Step(s, e).state)
  {
  }

  lemma LoadFollows(s: State, e: Event)
    requires Enabled(s, e) && e.LoadReturned?
    ensures Follows(s, e, Step(s, e).state)
  {
    assert !Freezes(s, e) && !CutsOver(s, e) && !BeginsBudget(s, e) && !Attempts(s, e);
    hide Freezes, CutsOver, BeginsBudget, Attempts;
  }

  lemma SendFailureFollows(s: State, e: Event)
    requires Enabled(s, e) && e.GrantSendFailed?
    ensures Follows(s, e, Step(s, e).state)
  {
  }

  /** Every decision of the runner has exactly these reasons. */
  lemma StepFollows(s: State, e: Event)
    requires Enabled(s, e) && (s.life.closed ==> s.life.stopping)
    ensures Follows(s, e, Step(s, e).state)
  {
    hide TerminalEvidence, SpawnFailure, CutoverFacts;
    match e
    case MessageArrived(m) =>
      if m.Topology? || m.ShellError? { VerdictFollows(s, e); } else { MessageFollows(s, e); }
      hide Step, Follows;
    case DecideReturned(decision, _, _, _, _) =>
      if decision != Success(AuthorizedNow) { RefusalFollows(s, e); }
      else if Attempts(s, e) && !e.sent { GrantFailureFollows(s, e); }
      else { AuthorizationFollows(s, e); }
      hide Step, Follows;
    case GuardianLost(_) => LossFollows(s, e); hide Step, Follows;
    case GuardianExited(_) => ExitFollows(s, e); hide Step, Follows;
    case PublicationStarted => SendingFollows(s, e); hide Step, Follows;
    case PublishReturned(published) =>
      if published.Some? { PublishedFollows(s, e); } else { UnpublishedFollows(s, e); }
      hide Step, Follows;
    case ObserveReturned(_) => ObservedFollows(s, e); hide Step, Follows;
    case ReadinessFired => ReadinessFollows(s, e); hide Step, Follows;
    case DeadlineFired => BudgetFollows(s, e); hide Step, Follows;
    case BudgetFired(_) => BudgetFollows(s, e); hide Step, Follows;
    case CutoverFired(_) => CutoverFollows(s, e); hide Step, Follows;
    case ClaimReturned(_) => ClaimFollows(s, e); hide Step, Follows;
    case LoadReturned(_, _, _) => LoadFollows(s, e); hide Step, Follows;
    case GrantSendFailed(_) => SendFailureFollows(s, e); hide Step, Follows;
    case StreamEnded(_) =>
    case DiscardReturned =>
    case SealReturned(_, _) =>
  }
}
