/**
 The module-level variables and handlers of src/guardian.ts. Each handler is proved to take exactly
 one step of the guardian state machine, with its effects in order.
 */
module GuardianProcess {
  import opened Wrappers
  import opened StoreEvidence
  import opened GuardianProtocol
  import opened Guardian

  class Process {
    const pid: int
    var state: Phase
    var cleanupStarted: bool
    var shellExited: bool
    var helloReply: Option<Orders>
    var probes: seq<Probe>
    var readinessArmed: bool
    var deadlineArmed: bool
    var killAt: Option<int>
    var shell: Child
    var connected: bool
    /** Everything done to the world so far. */
    ghost var log: seq<Effect>

    ghost function Abstract(): State
      reads this
    {
      State(state, cleanupStarted, shellExited, helloReply, probes, readinessArmed, deadlineArmed, killAt, shell, connected)
    }

    /** The handler takes this step. */
    twostate predicate Takes(e: Event)
      reads this
    {
      old(Guardian.Enabled(Abstract(), e)) &&
      var t := Guardian.Step(old(Abstract()), e);
      Abstract() == t.state && log == old(log) + t.effects
    }

    constructor (pid: int)
      ensures Abstract() == Guardian.INITIAL && log == []
    {
      this.pid := pid;
      state, cleanupStarted, shellExited, helloReply, probes := Starting, false, false, None, [];
      readinessArmed, deadlineArmed, killAt, shell, connected, log := true, false, None, NoChild, true, [];
    }

    method SendGuardianMessage(message: GuardianMessage)
      modifies this`log
      ensures log == old(log) + Send(Abstract(), message)
    {
      if connected { log := log + [Sent(message)]; }
    }

    method AttemptOwnGroupTerm(term: Guardian.Term)
      modifies this`log
      ensures log == old(log) + [GroupTerm(term.returnedAt)]
    {
      log := log + [GroupTerm(term.returnedAt)];
    }

    method Stop()
      modifies this`readinessArmed, this`deadlineArmed, this`killAt, this`state, this`connected
      ensures Abstract() == Guardian.Stop(old(Abstract()))
    {
      readinessArmed := false;
      if cleanupStarted { killAt := None; } else { deadlineArmed := false; }
      state := Exited;
      connected := false;
    }

    method Cleanup(deadline: bool, term: Guardian.Term)
      modifies this
      ensures var t := Guardian.Cleanup(old(Abstract()), deadline, term); Abstract() == t.state && log == old(log) + t.effects
    {
      if cleanupStarted || state.Exited? { return; }
      cleanupStarted := true;
      state := Cleaning;
      if deadline { SendGuardianMessage(Deadline); }
      AttemptOwnGroupTerm(term);
      SendGuardianMessage(CleanupTerm(term.observation));
      killAt := Some(term.returnedAt + GRACE);
    }

    method OnTermSignal(term: Guardian.Term)
      modifies this
      ensures Takes(TermSignalled(term))
    {
      if state.Granted? || state.ShellRunning? || state.Cleaning? { Cleanup(false, term); } else { Stop(); }
    }

    method OnDisconnect(term: Guardian.Term)
      modifies this
      ensures Takes(Disconnected(term))
    {
      connected := false;
      if state.ShellRunning? || state.Granted? { Cleanup(false, term); } else if !state.Exited? { Stop(); }
    }

    method OnDeadline(term: Guardian.Term)
      requires deadlineArmed
      modifies this
      ensures Takes(DeadlineFired(term))
    {
      deadlineArmed := false;
      Cleanup(true, term);
    }

    method OnKillTimer(now: int)
      requires killAt.Some?
      modifies this
      ensures Takes(KillFired(now))
    {
      if killAt.value > now { return; }
      killAt := None;
      SendGuardianMessage(CleanupKillIntent);
      log := log + [GroupKill(now)];
      Stop();
    }

    method OnReadinessTimeout()
      requires readinessArmed
      modifies this
      ensures Takes(ReadinessFired)
    {
      readinessArmed := false;
      Stop();
    }

    method OnHelloReply(orders: Orders)
      modifies this
      ensures Takes(HelloReplied(orders))
    {
      if state.Starting? {
        helloReply := Some(orders);
        readinessArmed := false;
        probes := probes + [OwnGroup];
      }
    }

    /** A probe of the topology check returned. */
    method OnProbe(index: nat, group: Option<int>)
      requires index < |probes|
      modifies this
      ensures Takes(Probed(index, pid, group))
      ensures old(!state.Exited? && probes[index].RunnerGroup?) ==>
                && (state.Ready? <==> old(probes[index].own) == Some(pid) && group.Some? && group.value != pid)
                && (old(connected) ==> log == old(log) + [Sent(Topology(state.Ready?))])
    {
      var probe := probes[index];
      if !state.Exited? && probe.OwnGroup? {
        probes := probes[index := RunnerGroup(group)];
        return;
      }
      probes := probes[..index] + probes[index + 1..];
      if state.Exited? { return; }
      var ok := probe.own.Some? && group.Some? && probe.own.value == pid && probe.own != group;
      SendGuardianMessage(Topology(ok));
      if !ok {
        Stop();
        return;
      }
      state := Ready;
    }

    method OnGrant(wallClock: int, outcome: SpawnOutcome)
      modifies this
      ensures Takes(GrantReceived(wallClock, outcome))
    {
      if !state.Ready? || helloReply.None? {
        SendGuardianMessage(ProtocolViolation);
        return;
      }
      state := Granted;
      var delay := helloReply.value.deadlineAt - wallClock;
      if delay <= 0 {
        SendGuardianMessage(Deadline);
        SendGuardianMessage(ShellError(ExpiredBeforeSpawn));
        Stop();
        return;
      }
      deadlineArmed := true;
      match outcome {
        case Throws =>
          SendGuardianMessage(ShellError(SpawnRefused));
          Stop();
        case ForkFails => shell := ForkFailed;
        case Forks =>
          log := log + [ShellStarted(helloReply.value)];
          shell := Forked;
      }
    }

    method OnSpawn()
      requires shell.Forked?
      modifies this
      ensures Takes(ChildSpawned)
    {
      state := ShellRunning;
      shell := Spawned;
      SendGuardianMessage(ShellSpawned);
    }

    method OnError()
      requires shell.ForkFailed?
      modifies this
      ensures Takes(ChildFailed)
    {
      shell := Gone;
      if !shellExited {
        SendGuardianMessage(ShellError(SpawnRefused));
        Stop();
      }
    }

    method OnExit(code: Option<int>, signal: Option<string>, term: Guardian.Term)
      requires shell.Spawned?
      modifies this
      ensures Takes(ChildExited(code, signal, term))
    {
      shellExited := true;
      shell := Gone;
      SendGuardianMessage(ShellExit(code, signal));
      Cleanup(false, term);
    }
  }
}
