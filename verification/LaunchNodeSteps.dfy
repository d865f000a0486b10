/** Every step of a runner, a guardian or a shell keeps what holds of their node. */
module LaunchNodeSteps {
  import opened Wrappers
  import opened Sequences
  import opened JobTypes
  import opened StoreEvidence
  import opened JobStore
  import opened GuardianProtocol
  import Guardian
  import Runner
  import RunnerProgress
  import opened LaunchNode

  // ---------------------------------------------------------------- the runner's steps, seen from outside

  /** The grant is sent on a fresh authorization only, and never once the runner is stopping. */
  lemma RunnerGates(s: Runner.State, e: Runner.Event)
    requires GateOk(s) && Runner.Enabled(s, e)
    ensures GateOk(Runner.Step(s, e).state)
    ensures s.life.stopping ==> Runner.Step(s, e).state.life.stopping
    ensures Runner.Step(s, e).state.gate.grantSent ==>
              s.gate.grantSent || (!s.life.stopping && e.DecideReturned? && e.decision == Success(AuthorizedNow))
    ensures s.gate.grantSent ==> Runner.Step(s, e).state.gate.grantSent
  {
    hide Runner.TerminalEvidence, Runner.SpawnFailure, Runner.CutoverFacts, Runner.FinishTask, Runner.FactsAfter, Runner.Cleared;
    if RunnerProgress.ChainEvent(e) {
      RunnerProgress.TaskMoves(s, e);
      hide Runner.Step;
    } else if e.DecideReturned? {
    } else if e.MessageArrived? {
    } else if RunnerProgress.ReadsClock(e) {
    }
  }

  lemma RunnerSends(s: Runner.State, e: Runner.Event)
    requires Runner.Enabled(s, e)
    ensures var t := Runner.Step(s, e); var out := FlatMap(OutgoingOf, t.requests);
            || out == []
            || (out == [Grant] && t.state.gate.grantSent)
            || (e == Runner.MessageArrived(Hello) && s.orders.Some? && out == [HelloReply(s.orders.value)])
  {
    var requests := Runner.Step(s, e).requests;
    RunnerAsksOnce(s, e);
    hide Runner.Step;
    if requests != [] {
      assert FlatMap(OutgoingOf, requests) == OutgoingOf(requests[0]) by {
        assert requests[..0] == [];
      }
    }
  }

  lemma RunnerAsksOnce(s: Runner.State, e: Runner.Event)
    requires Runner.Enabled(s, e)
    ensures var t := Runner.Step(s, e);
            && |t.requests| <= 1
            && (t.requests == [Runner.SendGrant] ==> t.state.gate.grantSent)
            && (t.requests != [] && t.requests[0].SendHelloReply? ==>
                  e == Runner.MessageArrived(Hello) && s.orders.Some? && t.requests[0].orders == s.orders.value)
  {
    hide Runner.TerminalEvidence, Runner.SpawnFailure, Runner.CutoverFacts, Runner.FinishTask, Runner.FactsAfter, Runner.Cleared;
    if e.DecideReturned? {
    } else if e.MessageArrived? {
    } else if RunnerProgress.ReadsClock(e) {
    }
  }

  predicate ReportsNoShell(e: Runner.Event) {
    e.MessageArrived? && (e.message.ShellError? || e.message == Topology(false))
  }

  /** A spawn failure is declared on the guardian's word, or before any grant. */
  lemma RunnerDeclaresFailure(s: Runner.State, e: Runner.Event)
    requires GateOk(s) && Runner.Enabled(s, e)
    ensures var t := Runner.Step(s, e).state;
            t.discarding ==> s.discarding || (t.life.stopping && t.gate.grantSent == s.gate.grantSent
                                              && (!s.gate.topologySucceeded || ReportsNoShell(e)))
  {
    hide Runner.TerminalEvidence, Runner.SpawnFailure, Runner.CutoverFacts, Runner.FinishTask, Runner.FactsAfter, Runner.Cleared;
    if e.DecideReturned? {
    } else if e.MessageArrived? {
    } else if RunnerProgress.ReadsClock(e) {
    }
  }

  lemma RunnerLearns(s: Runner.State, e: Runner.Event)
    requires Runner.Enabled(s, e)
    ensures var t := Runner.Step(s, e).state;
            && (t.facts == s.facts || (e.MessageArrived? && t.facts == Runner.FactsAfter(s.facts, e.message)))
            && (t.orders == s.orders || (e.LoadReturned? && t.orders == e.loaded))
  {
    hide Runner.TerminalEvidence, Runner.SpawnFailure, Runner.CutoverFacts, Runner.FinishTask, Runner.FactsAfter, Runner.Cleared;
    if e.DecideReturned? {
    } else if e.MessageArrived? {
    } else if RunnerProgress.ReadsClock(e) {
    }
  }

  // ---------------------------------------------------------------- the runner keeps its node

  lemma RunnerAdvances(n: Node, claim: ClaimId, view: Option<View>, e: Runner.Event)
    requires NodeOk(n, claim, view) && RunnerCan(n, view, e)
    ensures NodeAdvances(n, RunnerMoves(n, claim, e))
  {
    RunnerGates(n.runner, e);
    RunnerProgress.FactsSettle(n.runner, e);
    hide Runner.Step, NodeOk;
  }

  /** What a true message adds to the facts is true. */
  lemma HearingTruth(n: Node, m: GuardianMessage)
    requires FactsHonest(n.runner.facts, n.shell) && MessageHonest(m, n)
    ensures FactsHonest(Runner.FactsAfter(n.runner.facts, m), n.shell)
  {
  }

  lemma RunnerKeepsFacts(n: Node, claim: ClaimId, view: Option<View>, e: Runner.Event)
    requires NodeOk(n, claim, view) && RunnerCan(n, view, e)
    ensures FactsHonest(RunnerMoves(n, claim, e).runner.facts, n.shell)
  {
    assert FactsHonest(n.runner.facts, n.shell) && MessagesHonest(n);
    hide NodeOk, FactsHonest, MessageHonest, Runner.Step, Runner.Enabled;
    RunnerLearns(n.runner, e);
    if e.MessageArrived? {
      assert MessageHonest(n.toRunner[0], n);
      HearingTruth(n, e.message);
    }
  }

  lemma RunnerKeepsGrant(n: Node, claim: ClaimId, view: Option<View>, e: Runner.Event)
    requires NodeOk(n, claim, view) && RunnerCan(n, view, e)
    ensures var m := RunnerMoves(n, claim, e); GateOk(m.runner) && ShellOk(m) && GrantsSent(m)
  {
    assert GateOk(n.runner) && ShellOk(n) && GrantsSent(n);
    hide NodeOk, Runner.Step, Runner.Enabled, Answered;
    RunnerGates(n.runner, e);
    RunnerSends(n.runner, e);
  }

  lemma RunnerKeepsShell(n: Node, claim: ClaimId, view: Option<View>, e: Runner.Event)
    requires NodeOk(n, claim, view) && RunnerCan(n, view, e)
    ensures var m := RunnerMoves(n, claim, e);
            GateOk(m.runner) && ShellOk(m) && GrantsSent(m) && FactsHonest(m.runner.facts, m.shell)
  {
    RunnerKeepsFacts(n, claim, view, e);
    RunnerKeepsGrant(n, claim, view, e);
    assert RunnerMoves(n, claim, e).shell == n.shell;
    hide *;
  }

  lemma RunnerKeepsOrders(n: Node, claim: ClaimId, view: Option<View>, e: Runner.Event)
    requires NodeOk(n, claim, view) && RunnerCan(n, view, e)
    ensures OrdersOk(RunnerMoves(n, claim, e), view)
  {
    RunnerSends(n.runner, e);
    RunnerLearns(n.runner, e);
    hide RunnerProgress.Live, RunnerProgress.Snapshotted,
         Runner.Step, HelloOnce, TasksHonest, OutboxHonest, MessagesHonest, ShellOk, GateOk, GrantsSent, FactsHonest, Runner.Enabled, OrdersOf;
  }

  /** What a runner's step does to the channels. */
  lemma RunnerChannels(n: Node, claim: ClaimId, view: Option<View>, e: Runner.Event, out: seq<RunnerMessage>)
    requires RunnerCan(n, view, e) && out == FlatMap(OutgoingOf, Runner.Step(n.runner, e).requests)
    ensures var m := RunnerMoves(n, claim, e);
            && m.toGuardian == n.toGuardian + out && m.guardian == n.guardian
            && (m.toRunner == n.toRunner || (n.toRunner != [] && m.toRunner == n.toRunner[1..]))
    ensures (forall k :: 0 <= k < |out| ==> !out[k].HelloReply?)
            || (|out| == 1 && n.toRunner != [] && n.toRunner[0].Hello? && RunnerMoves(n, claim, e).toRunner == n.toRunner[1..])
  {
    RunnerSends(n.runner, e);
    hide Runner.Step, Runner.Enabled;
  }

  lemma HelloIsAnsweredOnce(toRunner: seq<GuardianMessage>, toGuardian: seq<RunnerMessage>, reply: Option<Orders>,
                            left: seq<GuardianMessage>, out: seq<RunnerMessage>)
    requires HelloOnce(toRunner, toGuardian, reply)
    requires left == toRunner || (toRunner != [] && left == toRunner[1..])
    requires (forall k :: 0 <= k < |out| ==> !out[k].HelloReply?)
             || (|out| == 1 && toRunner != [] && toRunner[0].Hello? && left == toRunner[1..])
    ensures HelloOnce(left, toGuardian + out, reply)
  {
  }

  lemma RunnerKeepsHello(n: Node, claim: ClaimId, view: Option<View>, e: Runner.Event)
    requires NodeOk(n, claim, view) && RunnerCan(n, view, e)
    ensures var m := RunnerMoves(n, claim, e); HelloOnce(m.toRunner, m.toGuardian, m.guardian.reply)
  {
    var m := RunnerMoves(n, claim, e);
    var out := FlatMap(OutgoingOf, Runner.Step(n.runner, e).requests);
    assert HelloOnce(n.toRunner, n.toGuardian, n.guardian.reply);
    hide NodeOk, HelloOnce;
    RunnerChannels(n, claim, view, e, out);
    hide RunnerCan, RunnerMoves, Runner.Step, FlatMap;
    HelloIsAnsweredOnce(n.toRunner, n.toGuardian, n.guardian.reply, m.toRunner, out);
  }

  lemma RunnerKeepsMessages(n: Node, claim: ClaimId, view: Option<View>, e: Runner.Event)
    requires NodeOk(n, claim, view) && RunnerCan(n, view, e) && NodeAdvances(n, RunnerMoves(n, claim, e))
    ensures MessagesHonest(RunnerMoves(n, claim, e))
  {
    var m := RunnerMoves(n, claim, e);
    assert MessagesHonest(n);
    hide NodeOk, NodeAdvances, MessageHonest, Runner.Step, Runner.Enabled;
    forall i | 0 <= i < |m.toRunner| ensures MessageHonest(m.toRunner[i], m) {
      MessageHonestyLasts(n, m, m.toRunner[i]);
    }
  }

  /** A declared spawn failure is hopeless. */
  lemma RunnerDeclaresTruly(n: Node, claim: ClaimId, view: Option<View>, e: Runner.Event)
    requires NodeOk(n, claim, view) && RunnerCan(n, view, e) && NodeAdvances(n, RunnerMoves(n, claim, e))
    ensures RunnerMoves(n, claim, e).runner.discarding || e.DiscardReturned? ==> Hopeless(RunnerMoves(n, claim, e))
  {
    assert GateOk(n.runner) && MessagesHonest(n) && ShellOk(n) && (n.runner.discarding ==> Hopeless(n));
    assert e.DiscardReturned? ==> n.runner.discarding;
    hide NodeOk;
    RunnerDeclaresFailure(n.runner, e);
    if e.MessageArrived? {
      assert MessageHonest(n.toRunner[0], n);
    }
    hide Runner.Step, Runner.Enabled, Answered, MessagesHonest;
  }

  lemma RunnerKeepsTasks(n: Node, claim: ClaimId, view: Option<View>, e: Runner.Event)
    requires NodeOk(n, claim, view) && RunnerCan(n, view, e) && NodeAdvances(n, RunnerMoves(n, claim, e))
    ensures TasksHonest(RunnerMoves(n, claim, e))
  {
    var m := RunnerMoves(n, claim, e);
    var before, after := n.runner.chain.queue, m.runner.chain.queue;
    RunnerKeepsFacts(n, claim, view, e);
    RunnerDeclaresTruly(n, claim, view, e);
    assert TasksHonest(n) && m.shell == n.shell;
    hide NodeOk, ObservationHonest, Hopeless, NodeAdvances;
    RunnerProgress.StepMovesQueue(n.runner, e);
    forall i | 0 <= i < |before| ensures ObservationHonest(before[i].input, m) {
      HonestyLasts(n, m, before[i].input);
    }
    if |after| > |before| {
      NewTaskIsHonest(n, m, e, after[|before|]);
    }
    hide Runner.Step, Runner.Enabled, FactsHonest;
  }

  lemma NewTaskIsHonest(n: Node, m: Node, e: Runner.Event, t: Runner.Task)
    requires FactsHonest(m.runner.facts, m.shell)
    requires e.DiscardReturned? ==> Hopeless(m)
    requires || (m.runner.facts.launched && t == Runner.Task(Runner.LAUNCHED, false))
             || (e.DiscardReturned? && t == Runner.Task(Runner.SpawnFailure(m.runner.facts.deadlineObserved), true))
             || (exists frozen :: t == Runner.Task(Runner.TerminalEvidence(m.runner.facts, frozen), true))
    ensures ObservationHonest(t.input, m)
  {
  }

  /** What the runner may publish it may publish later too: terminal facts are settled and a launch is never withdrawn. */
  lemma CurrencyLasts(s: Runner.State, e: Runner.Event, input: Observation)
    requires RunnerProgress.Live(s) && RunnerProgress.Snapshotted(s) && Runner.Enabled(s, e) && Current(input, s)
    ensures Current(input, Runner.Step(s, e).state)
  {
    RunnerProgress.FactsSettle(s, e);
    RunnerProgress.PublishesWhatItFroze(s, e);
    hide Runner.Step, RunnerProgress.Live, RunnerProgress.Snapshotted, Runner.Enabled;
  }

  /** The head of the chain is such a publication. */
  lemma HeadIsCurrent(s: Runner.State)
    requires RunnerProgress.Snapshotted(s) && s.chain.queue != []
    ensures Current(s.chain.queue[0].input, s)
  {
    assert RunnerProgress.TaskOk(s.chain.queue[0], s.facts, s.capture.frozen, s.life.stopping);
  }

  lemma RunnerKeepsOutbox(n: Node, claim: ClaimId, view: Option<View>, e: Runner.Event)
    requires NodeOk(n, claim, view) && RunnerCan(n, view, e) && NodeAdvances(n, RunnerMoves(n, claim, e))
    ensures OutboxHonest(RunnerMoves(n, claim, e), claim)
  {
    var m := RunnerMoves(n, claim, e);
    RunnerProgress.OnlyHeadIsPublished(n.runner, e);
    forall op | op in m.outbox
      ensures OwnPublication(op, m, claim) && ObservationHonest(op.input, m) && Current(op.input, m.runner)
    {
      assert ObservationHonest(op.input, n) && OwnPublication(op, n, claim);
      if op !in n.outbox {
        HeadIsCurrent(n.runner);
      }
      HonestyLasts(n, m, op.input);
      CurrencyLasts(n.runner, e, op.input);
    }
  }

  /** Every step of the runner keeps its node, and takes nothing back. */
  lemma RunnerKeepsNode(n: Node, claim: ClaimId, view: Option<View>, e: Runner.Event)
    requires NodeOk(n, claim, view) && RunnerCan(n, view, e)
    ensures NodeOk(RunnerMoves(n, claim, e), claim, view) && NodeAdvances(n, RunnerMoves(n, claim, e))
  {
    RunnerProgress.StepKeepsLive(n.runner, e);
    RunnerProgress.PublishesWhatItFroze(n.runner, e);
    RunnerAdvances(n, claim, view, e);
    RunnerKeepsShell(n, claim, view, e);
    RunnerKeepsOrders(n, claim, view, e);
    RunnerKeepsHello(n, claim, view, e);
    RunnerKeepsMessages(n, claim, view, e);
    RunnerKeepsTasks(n, claim, view, e);
    RunnerKeepsOutbox(n, claim, view, e);
    hide NodeAdvances, ShellOk, GrantsSent, HelloOnce, MessagesHonest, TasksHonest, OutboxHonest, OrdersOk, Runner.Step, FactsHonest, GateOk,
         RunnerProgress.Live, RunnerProgress.Snapshotted;
  }

  // ---------------------------------------------------------------- the guardian keeps its node

  lemma GuardianAdvances(n: Node, claim: ClaimId, view: Option<View>, e: Guardian.Event)
    requires NodeOk(n, claim, view) && GuardianCan(n, e)
    ensures var m := GuardianMoves(n, e);
            Guardian.FirstHello(n.guardian, e) && Guardian.Sound(m.guardian) && NodeAdvances(n, m)
  {
    var m := GuardianMoves(n, e);
    assert Guardian.FirstHello(n.guardian, e);
    assert e.GrantReceived? ==> n.runner.gate.grantSent;
    Guardian.StepKeepsSound(n.guardian, e);
    Guardian.SpentStays(n.guardian, e);
    Guardian.StepEffects(n.guardian, e);
    hide RunnerProgress.Live, RunnerProgress.Snapshotted,
         Guardian.Step, HelloOnce, TasksHonest, OutboxHonest, MessagesHonest, OrdersOk, GateOk, FactsHonest, Guardian.Sound, Guardian.Enabled;
  }

  /** What becomes of the child object. */
  lemma GuardianChild(s: Guardian.State, e: Guardian.Event)
    requires Guardian.Sound(s) && Guardian.Enabled(s, e)
    ensures var t := Guardian.Step(s, e).state;
            && (t.child.Forked? || t.child.Spawned? ==> s.child.Forked? || s.child.Spawned? || Guardian.StartsShell(s, e))
            && (Guardian.StartsShell(s, e) ==> t.child.Forked? && s.child.NoChild? && !Guardian.Spent(s))
            && (s.child.Forked? || s.child.Spawned? || s.child.Gone? ==> t.child.Forked? || t.child.Spawned? || t.child.Gone?)
            && (e.HelloReplied? ==> t.reply == s.reply || t.reply == Some(e.orders))
            && (!e.HelloReplied? ==> t.reply == s.reply)
  {
    hide Guardian.Send;
    match e
    case HelloReplied(_) =>
    case Probed(_, _, _) =>
    case GrantReceived(_, _) =>
    case ChildExited(_, _, _) =>
    case TermSignalled(_) =>
    case Disconnected(_) =>
    case _ =>
  }

  lemma GuardianKeepsFacts(n: Node, claim: ClaimId, view: Option<View>, e: Guardian.Event)
    requires NodeOk(n, claim, view) && GuardianCan(n, e)
    ensures var m := GuardianMoves(n, e); GrantsSent(m) && FactsHonest(m.runner.facts, m.shell) && EndOk(m.shell)
  {
    GuardianAdvances(n, claim, view, e);
    assert GrantsSent(n) && FactsHonest(n.runner.facts, n.shell) && EndOk(n.shell);
    hide NodeOk, GuardianCan, Hopeless, Guardian.Step, Guardian.Enabled, Guardian.Shells, Guardian.Spent;
  }

  lemma GuardianKeepsShell(n: Node, claim: ClaimId, view: Option<View>, e: Guardian.Event)
    requires NodeOk(n, claim, view) && GuardianCan(n, e)
    ensures ShellOk(GuardianMoves(n, e))
  {
    assert e.GrantReceived? ==> n.runner.gate.grantSent;
    assert ShellOk(n) && Guardian.Sound(n.guardian) && Guardian.FirstHello(n.guardian, e);
    hide NodeOk;
    Guardian.StepEffects(n.guardian, e);
    GuardianChild(n.guardian, e);
    Guardian.SpentStays(n.guardian, e);
    hide Guardian.Step, Guardian.Enabled, Guardian.Shells, Guardian.Sound, Answered, Guardian.Terms, Guardian.Kills,
         Guardian.StartsCleanup, Guardian.SendsKill;
  }

  lemma GuardianKeepsOrders(n: Node, claim: ClaimId, view: Option<View>, e: Guardian.Event)
    requires NodeOk(n, claim, view) && GuardianCan(n, e)
    ensures OrdersOk(GuardianMoves(n, e), view)
  {
    GuardianChild(n.guardian, e);
    Guardian.StepEffects(n.guardian, e);
    hide RunnerProgress.Live, RunnerProgress.Snapshotted,
         Guardian.Step, HelloOnce, TasksHonest, OutboxHonest, MessagesHonest, ShellOk, GateOk, GrantsSent, FactsHonest,
         Guardian.Sound, Guardian.Enabled, Guardian.Shells, OrdersOf;
  }

  /** What a message that a step sends says is true after the step. */
  lemma GuardianSpeaksTruth(n: Node, claim: ClaimId, view: Option<View>, e: Guardian.Event, x: Guardian.Effect)
    requires NodeOk(n, claim, view) && GuardianCan(n, e) && x in Guardian.Step(n.guardian, e).effects && x.Sent?
    ensures !x.message.Hello? && MessageHonest(x.message, GuardianMoves(n, e))
  {
    var m := GuardianMoves(n, e);
    GuardianAdvances(n, claim, view, e);
    Guardian.StepEffects(n.guardian, e);
    GuardianSends(n.guardian, e, x.message);
    assert ShellOk(n);
    hide Guardian.Step, NodeOk, Guardian.Enabled, Guardian.Shells;
  }

  /** Which step sends which message, and in what state it leaves the guardian. */
  lemma GuardianSends(s: Guardian.State, e: Guardian.Event, message: GuardianMessage)
    requires Guardian.Sound(s) && Guardian.Enabled(s, e) && Guardian.Sent(message) in Guardian.Step(s, e).effects
    ensures var t := Guardian.Step(s, e).state;
            match message
            case Hello => false
            case ShellSpawned => e.ChildSpawned?
            case ShellExit(code, signal) => e.ChildExited? && e.code == code && e.signal == signal
            case ShellError(_) =>
              Guardian.Spent(t) && !Guardian.StartsShell(s, e) && (e.ChildFailed? || (e.GrantReceived? && s.phase.Ready?))
            case Topology(ok) => !ok ==> Guardian.Spent(t) && s.child.NoChild? && e.Probed?
            case _ => true
  {
    match e
    case ChildExited(_, _, term) =>
      CleanupSends(s.(shellExited := true, child := Guardian.Gone), false, term, message);
      hide Guardian.Cleanup;
    case TermSignalled(term) => CleanupSends(s, false, term, message); hide Guardian.Cleanup;
    case Disconnected(term) => CleanupSends(s.(connected := false), false, term, message); hide Guardian.Cleanup;
    case DeadlineFired(term) => CleanupSends(s.(deadlineArmed := false), true, term, message); hide Guardian.Cleanup;
    case Probed(_, _, _) =>
    case GrantReceived(_, _) =>
    case KillFired(_) =>
    case _ =>
  }

  lemma CleanupSends(s: Guardian.State, deadline: bool, term: Guardian.Term, message: GuardianMessage)
    ensures Guardian.Sent(message) in Guardian.Cleanup(s, deadline, term).effects ==> message.Deadline? || message.CleanupTerm?
  {
  }

  /** Every message of a step is true after it, and none is a hello. */
  lemma GuardianMessagesAreTrue(n: Node, claim: ClaimId, view: Option<View>, e: Guardian.Event, sent: seq<GuardianMessage>)
    requires NodeOk(n, claim, view) && GuardianCan(n, e)
    requires sent == FlatMap(MessageOf, Guardian.Step(n.guardian, e).effects)
    ensures forall k :: 0 <= k < |sent| ==> !sent[k].Hello? && MessageHonest(sent[k], GuardianMoves(n, e))
  {
    var m := GuardianMoves(n, e);
    var effects := Guardian.Step(n.guardian, e).effects;
    hide NodeOk, GuardianCan, GuardianMoves, Guardian.Step, MessageHonest;
    forall i, k | 0 <= i < |effects| && 0 <= k < |MessageOf(effects[i])|
      ensures !MessageOf(effects[i])[k].Hello? && MessageHonest(MessageOf(effects[i])[k], m)
    {
      GuardianSpeaksTruth(n, claim, view, e, effects[i]);
    }
    FlatMapAll(MessageOf, effects, (x: GuardianMessage) => !x.Hello? && MessageHonest(x, m));
  }

  /** What a guardian's step does to the channels. */
  lemma GuardianChannels(n: Node, claim: ClaimId, view: Option<View>, e: Guardian.Event, sent: seq<GuardianMessage>)
    requires NodeOk(n, claim, view) && GuardianCan(n, e)
    requires sent == FlatMap(MessageOf, Guardian.Step(n.guardian, e).effects)
    ensures var m := GuardianMoves(n, e);
            && m.toRunner == n.toRunner + sent
            && m.toGuardian == (if Consumes(e) then n.toGuardian[1..] else n.toGuardian)
            && (m.guardian.reply == n.guardian.reply
                || (m.guardian.reply.Some? && n.toGuardian != [] && n.toGuardian[0].HelloReply? && Consumes(e)))
  {
    GuardianChild(n.guardian, e);
    hide Guardian.Step, HelloOnce, MessagesHonest, TasksHonest, OutboxHonest, OrdersOk, ShellOk, GateOk, GrantsSent, FactsHonest,
         Guardian.Sound, RunnerProgress.Live, RunnerProgress.Snapshotted;
  }

  lemma HelloStaysOnce(toRunner: seq<GuardianMessage>, toGuardian: seq<RunnerMessage>, reply: Option<Orders>,
                       sent: seq<GuardianMessage>, left: seq<RunnerMessage>, heard: Option<Orders>)
    requires HelloOnce(toRunner, toGuardian, reply) && forall k :: 0 <= k < |sent| ==> !sent[k].Hello?
    requires left == toGuardian || (toGuardian != [] && left == toGuardian[1..])
    requires heard == reply || (heard.Some? && toGuardian != [] && toGuardian[0].HelloReply? && left == toGuardian[1..])
    ensures HelloOnce(toRunner + sent, left, heard)
  {
  }

  lemma GuardianKeepsMessages(n: Node, claim: ClaimId, view: Option<View>, e: Guardian.Event)
    requires NodeOk(n, claim, view) && GuardianCan(n, e)
    ensures MessagesHonest(GuardianMoves(n, e))
    ensures HelloOnce(GuardianMoves(n, e).toRunner, GuardianMoves(n, e).toGuardian, GuardianMoves(n, e).guardian.reply)
  {
    var m := GuardianMoves(n, e);
    var sent := FlatMap(MessageOf, Guardian.Step(n.guardian, e).effects);
    GuardianAdvances(n, claim, view, e);
    GuardianMessagesAreTrue(n, claim, view, e, sent);
    GuardianChannels(n, claim, view, e, sent);
    assert HelloOnce(n.toRunner, n.toGuardian, n.guardian.reply) && MessagesHonest(n);
    hide NodeOk, GuardianCan, GuardianMoves, MessageHonest, HelloOnce, NodeAdvances, Guardian.Step, FlatMap;
    forall i | 0 <= i < |n.toRunner| ensures MessageHonest(n.toRunner[i], m) {
      MessageHonestyLasts(n, m, n.toRunner[i]);
    }
    HelloStaysOnce(n.toRunner, n.toGuardian, n.guardian.reply, sent, m.toGuardian, m.guardian.reply);
  }

  /** Nothing that a node has promised is broken when it advances without the runner. */
  lemma PromisesLast(n: Node, m: Node, claim: ClaimId)
    requires NodeAdvances(n, m) && m.runner == n.runner && m.outbox == n.outbox
    requires TasksHonest(n) && OutboxHonest(n, claim)
    ensures TasksHonest(m) && OutboxHonest(m, claim)
  {
    forall i | 0 <= i < |n.runner.chain.queue| ensures ObservationHonest(n.runner.chain.queue[i].input, m) {
      HonestyLasts(n, m, n.runner.chain.queue[i].input);
    }
    forall op | op in n.outbox
      ensures OwnPublication(op, m, claim) && ObservationHonest(op.input, m) && Current(op.input, m.runner)
    {
      HonestyLasts(n, m, op.input);
    }
  }

  /** Every step of the guardian keeps its node, and takes nothing back. */
  lemma GuardianKeepsNode(n: Node, claim: ClaimId, view: Option<View>, e: Guardian.Event)
    requires NodeOk(n, claim, view) && GuardianCan(n, e)
    ensures NodeOk(GuardianMoves(n, e), claim, view) && NodeAdvances(n, GuardianMoves(n, e))
  {
    GuardianAdvances(n, claim, view, e);
    GuardianKeepsShell(n, claim, view, e);
    GuardianKeepsFacts(n, claim, view, e);
    GuardianKeepsOrders(n, claim, view, e);
    GuardianKeepsMessages(n, claim, view, e);
    PromisesLast(n, GuardianMoves(n, e), claim);
    hide RunnerProgress.Live, RunnerProgress.Snapshotted,
         NodeAdvances, ShellOk, GrantsSent, HelloOnce, MessagesHonest, TasksHonest, OutboxHonest, OrdersOk, Guardian.Step, FactsHonest, GateOk, Guardian.Sound;
  }

  // ---------------------------------------------------------------- everything else that can happen to a node

  function ShellEnds(n: Node, code: Option<int>, signal: Option<string>): Node
    requires n.shell.Running?
  {
    n.(shell := Ended(n.shell.orders, code, signal))
  }

  lemma ShellEndKeepsNode(n: Node, claim: ClaimId, view: Option<View>, code: Option<int>, signal: Option<string>)
    requires NodeOk(n, claim, view) && n.shell.Running? && (code.Some? <==> signal.None?)
    ensures NodeOk(ShellEnds(n, code, signal), claim, view) && NodeAdvances(n, ShellEnds(n, code, signal))
  {
    var m := ShellEnds(n, code, signal);
    PromisesLast(n, m, claim);
    forall i | 0 <= i < |n.toRunner| ensures MessageHonest(n.toRunner[i], m) {
      MessageHonestyLasts(n, m, n.toRunner[i]);
    }
    hide HelloOnce, TasksHonest, OutboxHonest, Guardian.Sound;
  }

  /** A crash of either process, and the loss of what the channel still held. */
  function Lose(n: Node, runnerAlive: bool, guardianAlive: bool, toRunner: nat, toGuardian: nat): Node
    requires toRunner <= |n.toRunner| && toGuardian <= |n.toGuardian|
  {
    n.(runnerAlive := n.runnerAlive && runnerAlive, guardianAlive := n.guardianAlive && guardianAlive,
       toRunner := n.toRunner[..toRunner], toGuardian := n.toGuardian[..toGuardian])
  }

  lemma LossKeepsNode(n: Node, claim: ClaimId, view: Option<View>, runnerAlive: bool, guardianAlive: bool, toRunner: nat, toGuardian: nat)
    requires NodeOk(n, claim, view) && toRunner <= |n.toRunner| && toGuardian <= |n.toGuardian|
    ensures var m := Lose(n, runnerAlive, guardianAlive, toRunner, toGuardian); NodeOk(m, claim, view) && NodeAdvances(n, m)
  {
    var m := Lose(n, runnerAlive, guardianAlive, toRunner, toGuardian);
    PromisesLast(n, m, claim);
    hide Guardian.Sound, TasksHonest, OutboxHonest;
    forall i | 0 <= i < |m.toRunner| ensures MessageHonest(m.toRunner[i], m) {
      MessageHonestyLasts(n, m, n.toRunner[i]);
    }
  }

  /** The decision call of this node committed with the given result. */
  function Hears(n: Node, answer: Result<Reply, StoreError>): Node {
    n.(answers := n.answers + [answer])
  }

  lemma HearingKeepsNode(n: Node, claim: ClaimId, view: Option<View>, answer: Result<Reply, StoreError>)
    requires NodeOk(n, claim, view)
    ensures NodeOk(Hears(n, answer), claim, view) && NodeAdvances(n, Hears(n, answer))
  {
    var m := Hears(n, answer);
    PromisesLast(n, m, claim);
    if i :| 0 <= i < |n.answers| && n.answers[i].Success? && n.answers[i].value.DecideReply? && n.answers[i].value.decision == AuthorizedNow {
      assert m.answers[i] == n.answers[i];
    }
    hide Guardian.Sound, TasksHonest, OutboxHonest, HelloOnce, Answered;
    forall i | 0 <= i < |m.toRunner| ensures MessageHonest(m.toRunner[i], m) {
      MessageHonestyLasts(n, m, n.toRunner[i]);
    }
  }
}
