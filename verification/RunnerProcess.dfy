/**
 The shared locals and the closures of run() in src/runner.ts. Each closure, up to its next await, is
 proved to take exactly one step of the runner state machine, with its requests in order.
 */
module RunnerProcess {
  import opened Wrappers
  import opened JobTypes
  import opened StoreEvidence
  import opened JobStore
  import opened GuardianProtocol
  import opened Runner

  /** What is published of a stream: what its own seal says, if both captures could be made. */
  ghost predicate Carries(c: Capture, input: Option<StreamInput>, sealed: SealResult, ended: bool) {
    input == Some(
      if c.attached && !c.setupFailed then
        StreamInput(Some(Some(sealed.available)), Some(sealed.truncated), Some(sealed.incomplete), Some(sealed.openAtCutover))
      else StreamInput(Some(Some(false)), Some(false), Some(true), Some(!ended)))
  }

  class Process {
    var stage: Stage
    var record: Option<Orders>
    /** What the guardian has reported. */
    var facts: Facts
    /** topologySucceeded, grantSent, grantAttempted and the decision calls that have not returned. */
    var gate: Gate
    /** stopping, settled, closed and the coordinator. */
    var life: Life
    var timers: Timers
    var capture: Capture
    /** The publication chain, and the sealing and discarding that have not returned. */
    var publication: Chain
    var discarding: bool
    var sealing: bool
    /** Everything asked of the outside so far. */
    ghost var requests: seq<Request>

    ghost function Abstract(): State
      reads this
    {
      State(stage, record, facts, gate, life, timers, capture, publication, discarding, sealing)
    }

    /** From the state before the call, this is the turn that was taken. */
    twostate predicate Became(t: Turn)
      reads this
    {
      Abstract() == t.state && requests == old(requests) + t.requests
    }

    constructor ()
      ensures Abstract() == START && requests == []
    {
      stage, record, facts, gate, life := START.stage, START.orders, START.facts, START.gate, START.life;
      timers, capture, publication := START.timers, START.capture, START.chain;
      discarding, sealing, requests := false, false, [];
    }

    // -------------------------------------------------------------- closures without an event of their own

    method Ask(r: Request)
      modifies this`requests
      ensures requests == old(requests) + [r]
    {
      requests := requests + [r];
    }

    method Publish(input: Observation, final: bool)
      modifies this`publication
      ensures Abstract() == Enqueue(old(Abstract()), input, final)
    {
      publication := publication.(queue := publication.queue + [Task(input, final)]);
    }

    method Close()
      modifies this
      ensures Became(Runner.Close(old(Abstract())))
    {
      if life.closed { return; }
      life := life.(stopping := true, closed := true, coordinator := Closed);
      timers := timers.(deadlineArmed := false, readinessArmed := false, cutoverArmed := false);
      if timers.budget.Armed? { timers := timers.(budget := Spent); }
      if stage.Supervising? { Ask(DisconnectGuardian); }
    }

    method LatchStopping() returns (latched: bool)
      modifies this`life
      ensures latched == !(old(life.stopping) || old(life.settled) || old(life.closed))
      ensures life == old(life).(stopping := old(life.stopping) || latched)
    {
      if life.stopping || life.settled || life.closed { return false; }
      life := life.(stopping := true);
      latched := true;
    }

    method PublishSpawnFailure()
      modifies this`life, this`discarding
      ensures Abstract() == Runner.PublishSpawnFailure(old(Abstract()))
    {
      var latched := LatchStopping();
      if !latched { return; }
      discarding := true;
    }

    method BeginCutover(now: int)
      modifies this`life, this`timers
      ensures Abstract() == Runner.BeginCutover(old(Abstract()), now)
    {
      if !life.coordinator.Observing? || life.stopping || life.closed { return; }
      life := life.(coordinator := CuttingOver);
      timers := timers.(cutoverDeadline := Some(now + CUTOVER));
      timers := timers.(cutoverArmed := true);
    }

    method BeginBudget()
      modifies this`timers
      ensures Abstract() == Runner.BeginBudget(old(Abstract()))
    {
      if !timers.budget.Unset? || life.stopping || !life.coordinator.Observing? { return; }
      timers := timers.(budget := Armed);
    }

    // -------------------------------------------------------------- handlers

    method OnClaimed(ok: bool)
      requires stage.Claiming?
      modifies this
      ensures Became(Step(old(Abstract()), ClaimReturned(ok)))
    {
      if !ok {
        stage := WithoutGuardian;
        Close();
        return;
      }
      stage := Loading;
      Ask(CallLoad);
    }

    method OnLoaded(loaded: Option<Orders>, utilities: bool, spawned: bool)
      requires stage.Loading?
      modifies this
      ensures Became(Step(old(Abstract()), LoadReturned(loaded, utilities, spawned)))
    {
      record := loaded;
      if loaded.Some? && utilities && spawned {
        stage := Supervising;
        timers := timers.(readinessArmed := true);
        timers := timers.(deadlineArmed := true);
        return;
      }
      stage := WithoutGuardian;
      if loaded.Some? && !utilities { PublishSpawnFailure(); } else { Close(); }
    }

    method OnTopology(ok: bool)
      requires stage.Supervising?
      modifies this
      ensures Became(Step(old(Abstract()), MessageArrived(Topology(ok))))
    {
      if life.stopping { return; }
      if !ok {
        PublishSpawnFailure();
        return;
      }
      gate := gate.(topologySucceeded := true);
      if gate.grantSent { return; }
      gate := gate.(decides := gate.decides + 1);
      Ask(CallDecide);
    }

    /** Every message but the topology receipt. */
    method OnMessage(m: GuardianMessage)
      requires stage.Supervising? && !m.Topology?
      modifies this
      ensures Became(Step(old(Abstract()), MessageArrived(m)))
    {
      if life.stopping { return; }
      match m {
        case Hello => if record.Some? { Ask(SendHelloReply(record.value)); }
        case ShellSpawned =>
          facts := facts.(launched := true);
          Publish(LAUNCHED, false);
        case ShellError(reason) =>
          if reason.ExpiredBeforeSpawn? { facts := facts.(deadlineObserved := true); }
          PublishSpawnFailure();
        case ShellExit(code, signal) =>
          if facts.launched { facts := facts.(shellCode := code, shellSignal := signal); }
          BeginBudget();
        case CleanupTerm(observation) => facts := facts.(term := Some(observation));
        case CleanupKillIntent => facts := facts.(killIntent := true);
        case Deadline =>
          facts := facts.(deadlineObserved := true);
          BeginBudget();
        case ProtocolViolation =>
      }
    }

    method OnDecision(decision: Result<DecideDisposition, StoreError>, connected: bool, setup: bool, sent: bool, now: int)
      requires gate.decides > 0
      modifies this
      ensures Became(Step(old(Abstract()), DecideReturned(decision, connected, setup, sent, now)))
    {
      hide AuthorizedStep, Runner.Close;
      gate := gate.(decides := gate.decides - 1);
      if decision.Failure? {
        life := life.(stopping := true);
        Close();
        return;
      }
      if life.stopping { return; }
      if !decision.value.AuthorizedNow? {
        life := life.(stopping := true);
        if decision.value.SuppressedNow? { life := life.(settled := true); }
        Close();
        return;
      }
      SendGrantOnce(connected, setup, sent, now);
    }

    method SendGrantOnce(connected: bool, setup: bool, sent: bool, now: int)
      modifies this
      ensures Became(AuthorizedStep(old(Abstract()), connected, setup, sent, now))
    {
      if !setup { capture := capture.(setupFailed := true); }
      capture := capture.(attached := true, stdoutEnded := false, stderrEnded := false);
      if !connected || gate.grantSent { return; }
      gate := gate.(grantAttempted := true);
      gate := gate.(grantSent := true);
      if sent { Ask(SendGrant); } else { BeginCutover(now); }
    }

    method OnGrantSendFailed(now: int)
      requires gate.grantSent
      modifies this
      ensures Became(Step(old(Abstract()), GrantSendFailed(now)))
    {
      if !life.stopping { BeginCutover(now); }
    }

    method HandleGuardianLoss(now: int)
      requires stage.Supervising?
      modifies this
      ensures Became(Step(old(Abstract()), GuardianLost(now)))
    {
      if life.stopping { return; }
      if !gate.topologySucceeded { PublishSpawnFailure(); }
      else if gate.grantAttempted { BeginCutover(now); }
      else {
        life := life.(stopping := true);
        Close();
      }
    }

    method OnGuardianExit(now: int)
      requires stage.Supervising?
      modifies this
      ensures Became(Step(old(Abstract()), GuardianExited(now)))
    {
      if life.stopping { return; }
      if !gate.topologySucceeded {
        PublishSpawnFailure();
        return;
      }
      if !gate.grantSent {
        life := life.(stopping := true);
        Close();
        return;
      }
      BeginCutover(now);
    }

    method OnReadinessTimeout()
      requires timers.readinessArmed
      modifies this
      ensures Became(Step(old(Abstract()), ReadinessFired))
    {
      timers := timers.(readinessArmed := false);
      if gate.topologySucceeded || life.stopping { return; }
      PublishSpawnFailure();
    }

    method OnDeadline()
      requires timers.deadlineArmed
      modifies this
      ensures Became(Step(old(Abstract()), DeadlineFired))
    {
      timers := timers.(deadlineArmed := false);
      if !life.stopping { BeginBudget(); }
    }

    method OnBudget(now: int)
      requires timers.budget.Armed?
      modifies this
      ensures Became(Step(old(Abstract()), BudgetFired(now)))
    {
      timers := timers.(budget := Spent);
      BeginCutover(now);
    }

    /** freezeAndPublish up to its first await. */
    method FreezeAndPublish(now: int)
      requires timers.cutoverArmed
      modifies this
      ensures Became(Step(old(Abstract()), CutoverFired(now)))
    {
      timers := timers.(cutoverArmed := false);
      if !life.coordinator.CuttingOver? || timers.cutoverDeadline.None? { return; }
      if timers.cutoverDeadline.value - now > 0 {
        timers := timers.(cutoverArmed := true);
        return;
      }
      life := life.(coordinator := Freezing);
      life := life.(stopping := true);
      sealing := true;
    }

    method OnStreamEnd(isStdout: bool)
      requires capture.attached
      modifies this
      ensures Became(Step(old(Abstract()), StreamEnded(isStdout)))
    {
      if life.coordinator.Freezing? || life.coordinator.Publishing? || life.closed { return; }
      if isStdout { capture := capture.(stdoutEnded := true); } else { capture := capture.(stderrEnded := true); }
    }

    method OnDiscarded()
      requires discarding
      modifies this
      ensures Became(Step(old(Abstract()), DiscardReturned))
    {
      discarding := false;
      Publish(SpawnFailure(facts.deadlineObserved), true);
    }

    method CutoverFactsOf(ended: bool, sealed: SealResult) returns (frozen: StreamInput)
      ensures frozen == CutoverFacts(Abstract().capture, ended, sealed) && Carries(capture, Some(frozen), sealed, ended)
    {
      if !capture.attached || capture.setupFailed {
        return UnavailableAtCutover(ended);
      }
      frozen := StreamInput(Some(Some(sealed.available)), Some(sealed.truncated), Some(sealed.incomplete), Some(sealed.openAtCutover));
    }

    /** The terminal evidence from what was reported and what was frozen. */
    method TerminalInput(stdoutFacts: StreamInput, stderrFacts: StreamInput) returns (input: Observation)
      ensures input == TerminalEvidence(facts, Frozen(stdoutFacts, stderrFacts))
      ensures input.stdout == Some(stdoutFacts) && input.stderr == Some(stderrFacts)
    {
      var launch := if facts.launched then Launched else Unknown;
      var cleanup := if facts.launched || facts.deadlineObserved || facts.term.Some? || facts.killIntent then Unconfirmed else NotRequested;
      input := Observation(Some(launch), Some(facts.shellCode), Some(facts.shellSignal), Some(cleanup), Some(facts.term), Some(facts.killIntent), None,
                           Some(facts.deadlineObserved), Some(stdoutFacts), Some(stderrFacts), Some(true));
    }

    /** freezeAndPublish once both captures are sealed. */
    method OnSealed(stdout: SealResult, stderr: SealResult)
      requires sealing
      modifies this
      ensures Became(Step(old(Abstract()), SealReturned(stdout, stderr)))
      ensures var queued := publication.queue;
              && |queued| == |old(publication.queue)| + 1
              && Carries(old(capture), queued[|queued| - 1].input.stdout, stdout, old(capture.stdoutEnded))
              && Carries(old(capture), queued[|queued| - 1].input.stderr, stderr, old(capture.stderrEnded))
    {
      hide Carries, CutoverFacts, TerminalEvidence;
      var stdoutFacts := CutoverFactsOf(capture.stdoutEnded, stdout);
      var stderrFacts := CutoverFactsOf(capture.stderrEnded, stderr);
      sealing := false;
      life := life.(coordinator := Publishing);
      capture := capture.(frozen := Some(Frozen(stdoutFacts, stderrFacts)));
      var input := TerminalInput(stdoutFacts, stderrFacts);
      Publish(input, true);
    }

    /** The first link is done; the awaiter of a terminal one closes before the next link starts. */
    method FinishPublication()
      requires publication.queue != []
      modifies this
      ensures Became(Finish(old(Abstract())))
    {
      var final := publication.queue[0].final;
      publication := publication.(queue := publication.queue[1..], awaiting := Nothing);
      if final { Close(); }
    }

    method StartPublication()
      requires publication.queue != [] && publication.awaiting.Nothing?
      modifies this
      ensures Became(Step(old(Abstract()), PublicationStarted))
    {
      if (life.settled && !publication.queue[0].final) || life.closed {
        FinishPublication();
        return;
      }
      Ask(CallPublish(publication.revision, publication.queue[0].input));
      publication := publication.(awaiting := PublishAnswer);
    }

    method OnPublished(published: Option<int>)
      requires publication.queue != [] && publication.awaiting.PublishAnswer?
      modifies this
      ensures Became(Step(old(Abstract()), PublishReturned(published)))
    {
      if published.Some? {
        publication := publication.(revision := published);
        if publication.queue[0].final { life := life.(settled := true); }
        FinishPublication();
      } else if publication.queue[0].final {
        FinishPublication();
      } else {
        Ask(CallObserve);
        publication := publication.(awaiting := ObserveAnswer);
      }
    }

    method OnObserved(observed: Option<int>)
      requires publication.queue != [] && publication.awaiting.ObserveAnswer?
      modifies this
      ensures Became(Step(old(Abstract()), ObserveReturned(observed)))
    {
      if observed.Some? { publication := publication.(revision := observed); }
      FinishPublication();
    }
  }
}
