/**
 The guardian process of src/guardian.ts. Each event handler runs to its next await as one step
 of a state machine; the class below keeps the module-level variables of the program and its
 handlers are proved to take exactly these steps.
 */
module Guardian {
  import opened Sequences
  import opened Wrappers
  import opened StoreEvidence
  import opened GuardianProtocol

  datatype Phase = Starting | Ready | Granted | ShellRunning | Cleaning | Exited

  /** What one run of the topology check is awaiting. */
  datatype Probe = OwnGroup | RunnerGroup(own: Option<int>)

  /** The child object: a failed fork still owes an error event, a started one its spawn event. */
  datatype Child = NoChild | ForkFailed | Forked | Spawned | Gone

  datatype SpawnOutcome = Throws | ForkFails | Forks

  /**
   deadlineArmed is the timer of the job's deadline and killAt the absolute due time of the kill
   timer. One variable of the program holds whichever was set last, so only that one can be cleared.
   */
  datatype State = State(
    phase: Phase, cleanupStarted: bool, shellExited: bool, reply: Option<Orders>, probes: seq<Probe>,
    readinessArmed: bool, deadlineArmed: bool, killAt: Option<int>, child: Child, connected: bool)

  const INITIAL := State(Starting, false, false, None, [], true, false, None, NoChild, true)

  const GRACE := 5_000

  /** What a step does to the world; times are readings of the monotonic clock. */
  datatype Effect =
    | Sent(message: GuardianMessage)
    | GroupTerm(returnedAt: int)
    | GroupKill(at: int)
    | ShellStarted(orders: Orders)

  datatype Turn = Turn(state: State, effects: seq<Effect>)

  /** What a group TERM attempt observed and when it returned. */
  datatype Term = Term(observation: TermObservation, returnedAt: int)

  datatype Event =
    | HelloReplied(orders: Orders)
    | Probed(index: nat, pid: int, group: Option<int>)
    | GrantReceived(wallClock: int, outcome: SpawnOutcome)
    | ChildSpawned
    | ChildFailed
    | ChildExited(code: Option<int>, signal: Option<string>, term: Term)
    | TermSignalled(term: Term)
    | Disconnected(term: Term)
    | DeadlineFired(term: Term)
    | KillFired(now: int)
    | ReadinessFired

  /** What the event loop can deliver. */
  predicate Enabled(s: State, e: Event) {
    match e
    case Probed(index, _, _) => index < |s.probes|
    case ChildSpawned => s.child.Forked?
    case ChildFailed => s.child.ForkFailed?
    case ChildExited(_, _, _) => s.child.Spawned?
    case DeadlineFired(_) => s.deadlineArmed
    case KillFired(_) => s.killAt.Some?
    case ReadinessFired => s.readinessArmed
    case _ => true
  }

  // ---------------------------------------------------------------- steps

  function Send(s: State, m: GuardianMessage): seq<Effect> {
    if s.connected then [Sent(m)] else []
  }

  function Stop(s: State): State {
    var cleared := if s.cleanupStarted then s.(killAt := None) else s.(deadlineArmed := false);
    cleared.(readinessArmed := false, phase := Exited, connected := false)
  }

  function Cleanup(s: State, deadline: bool, term: Term): Turn {
    if s.cleanupStarted || s.phase.Exited? then Turn(s, [])
    else
      Turn(s.(cleanupStarted := true, phase := Cleaning, killAt := Some(term.returnedAt + GRACE)),
           (if deadline then Send(s, Deadline) else [])
           + [GroupTerm(term.returnedAt)] + Send(s, CleanupTerm(term.observation)))
  }

  function ProbeStep(s: State, index: nat, pid: int, group: Option<int>): Turn
    requires index < |s.probes|
  {
    var others := s.probes[..index] + s.probes[index + 1..];
    if s.phase.Exited? then Turn(s.(probes := others), [])
    else if s.probes[index].OwnGroup? then Turn(s.(probes := s.probes[index := RunnerGroup(group)]), [])
    else
      var own := s.probes[index].own;
      var ok := own.Some? && group.Some? && own.value == pid && own != group;
      if ok then Turn(s.(probes := others, phase := Ready), Send(s, Topology(true)))
      else Turn(Stop(s.(probes := others)), Send(s, Topology(false)))
  }

  function GrantStep(s: State, wallClock: int, outcome: SpawnOutcome): Turn {
    if !s.phase.Ready? || s.reply.None? then Turn(s, Send(s, ProtocolViolation))
    else
      var granted := s.(phase := Granted);
      if s.reply.value.deadlineAt - wallClock <= 0 then
        Turn(Stop(granted), Send(s, Deadline) + Send(s, ShellError(ExpiredBeforeSpawn)))
      else
        match outcome
        case Throws => Turn(Stop(granted.(deadlineArmed := true)), Send(s, ShellError(SpawnRefused)))
        case ForkFails => Turn(granted.(deadlineArmed := true, child := ForkFailed), [])
        case Forks => Turn(granted.(deadlineArmed := true, child := Forked), [ShellStarted(s.reply.value)])
  }

  function KillStep(s: State, now: int): Turn
    requires s.killAt.Some?
  {
    if s.killAt.value > now then Turn(s, [])
    else Turn(Stop(s.(killAt := None)), Send(s, CleanupKillIntent) + [GroupKill(now)])
  }

  function ExitStep(s: State, code: Option<int>, signal: Option<string>, term: Term): Turn {
    var seen := s.(shellExited := true, child := Gone);
    var cleaned := Cleanup(seen, false, term);
    Turn(cleaned.state, Send(s, ShellExit(code, signal)) + cleaned.effects)
  }

  function Step(s: State, e: Event): Turn
    requires Enabled(s, e)
  {
    match e
    case HelloReplied(orders) =>
      if s.phase.Starting? then Turn(s.(reply := Some(orders), readinessArmed := false, probes := s.probes + [OwnGroup]), [])
      else Turn(s, [])
    case Probed(index, pid, group) => ProbeStep(s, index, pid, group)
    case GrantReceived(wallClock, outcome) => GrantStep(s, wallClock, outcome)
    case ChildSpawned => Turn(s.(phase := ShellRunning, child := Spawned), Send(s, ShellSpawned))
    case ChildFailed =>
      if s.shellExited then Turn(s.(child := Gone), [])
      else Turn(Stop(s.(child := Gone)), Send(s, ShellError(SpawnRefused)))
    case ChildExited(code, signal, term) => ExitStep(s, code, signal, term)
    case TermSignalled(term) =>
      if s.phase.Granted? || s.phase.ShellRunning? || s.phase.Cleaning? then Cleanup(s, false, term)
      else Turn(Stop(s), [])
    case Disconnected(term) =>
      var lost := s.(connected := false);
      if s.phase.ShellRunning? || s.phase.Granted? then Cleanup(lost, false, term)
      else if !s.phase.Exited? then Turn(Stop(lost), [])
      else Turn(lost, [])
    case DeadlineFired(term) => Cleanup(s.(deadlineArmed := false), true, term)
    case KillFired(now) => KillStep(s, now)
    case ReadinessFired => Turn(Stop(s.(readinessArmed := false)), [])
  }

  // ---------------------------------------------------------------- runs

  function TermOf(x: Effect): seq<int> {
    match x case GroupTerm(at) => [at] case _ => []
  }

  function KillOf(x: Effect): seq<int> {
    match x case GroupKill(at) => [at] case _ => []
  }

  function ShellOf(x: Effect): seq<Orders> {
    match x case ShellStarted(orders) => [orders] case _ => []
  }

  function Terms(log: seq<Effect>): seq<int> {
    FlatMap(TermOf, log)
  }

  function Kills(log: seq<Effect>): seq<int> {
    FlatMap(KillOf, log)
  }

  function Shells(log: seq<Effect>): seq<Orders> {
    FlatMap(ShellOf, log)
  }

  lemma LogConcat(a: seq<Effect>, b: seq<Effect>)
    ensures Terms(a + b) == Terms(a) + Terms(b)
    ensures Kills(a + b) == Kills(a) + Kills(b)
    ensures Shells(a + b) == Shells(a) + Shells(b)
  {
    FlatMapConcat(TermOf, a, b);
    FlatMapConcat(KillOf, a, b);
    FlatMapConcat(ShellOf, a, b);
  }

  /** Messages only. */
  predicate Quiet(log: seq<Effect>) {
    forall i :: 0 <= i < |log| ==> log[i].Sent?
  }

  lemma QuietLog(log: seq<Effect>)
    requires Quiet(log)
    ensures Terms(log) == [] && Kills(log) == [] && Shells(log) == []
  {
    FlatMapEmpty(TermOf, log);
    FlatMapEmpty(KillOf, log);
    FlatMapEmpty(ShellOf, log);
  }

  /** One effect among messages. */
  lemma LoudLog(a: seq<Effect>, x: Effect, b: seq<Effect>)
    requires Quiet(a) && Quiet(b)
    ensures Terms(a + [x] + b) == TermOf(x) && Kills(a + [x] + b) == KillOf(x) && Shells(a + [x] + b) == ShellOf(x)
  {
    QuietLog(a);
    QuietLog(b);
    LogConcat(a, [x]);
    LogConcat(a + [x], b);
  }

  /** The state and the log after a run; the run stops at an event that cannot be delivered. */
  function Run(events: seq<Event>): Turn {
    if events == [] then Turn(INITIAL, [])
    else
      var before := Run(events[..|events| - 1]);
      var e := events[|events| - 1];
      if !Enabled(before.state, e) then before
      else
        var after := Step(before.state, e);
        Turn(after.state, before.effects + after.effects)
  }

  // ---------------------------------------------------------------- escalation

  /** What the log says of signals, for a state it leads to. */
  ghost predicate EscalationOk(s: State, terms: seq<int>, kills: seq<int>) {
    && |terms| == (if s.cleanupStarted then 1 else 0)
    && |kills| <= |terms|
    && (kills != [] ==> s.killAt.None? && kills[0] >= terms[0] + GRACE)
    && (s.killAt.Some? ==> s.cleanupStarted && kills == [] && s.killAt.value == terms[0] + GRACE)
  }

  lemma CleanupEffects(s: State, deadline: bool, term: Term)
    ensures var effects := Cleanup(s, deadline, term).effects;
            && Terms(effects) == (if s.cleanupStarted || s.phase.Exited? then [] else [term.returnedAt])
            && Kills(effects) == [] && Shells(effects) == []
  {
    if !(s.cleanupStarted || s.phase.Exited?) {
      LoudLog(if deadline then Send(s, Deadline) else [], GroupTerm(term.returnedAt), Send(s, CleanupTerm(term.observation)));
    }
  }

  /** The step attempts the group TERM. */
  predicate StartsCleanup(s: State, e: Event) {
    !s.cleanupStarted && !s.phase.Exited?
    && match e
       case ChildExited(_, _, _) => true
       case DeadlineFired(_) => true
       case TermSignalled(_) => s.phase.Granted? || s.phase.ShellRunning? || s.phase.Cleaning?
       case Disconnected(_) => s.phase.Granted? || s.phase.ShellRunning?
       case _ => false
  }

  predicate StartsShell(s: State, e: Event) {
    e.GrantReceived? && s.phase.Ready? && s.reply.Some? && s.reply.value.deadlineAt > e.wallClock && e.outcome.Forks?
  }

  predicate SendsKill(s: State, e: Event) {
    e.KillFired? && s.killAt.Some? && s.killAt.value <= e.now
  }

  lemma ExitEffects(s: State, code: Option<int>, signal: Option<string>, term: Term)
    ensures var effects := ExitStep(s, code, signal, term).effects;
            && Terms(effects) == (if s.cleanupStarted || s.phase.Exited? then [] else [term.returnedAt])
            && Kills(effects) == [] && Shells(effects) == []
  {
    var seen := s.(shellExited := true, child := Gone);
    CleanupEffects(seen, false, term);
    QuietLog(Send(s, ShellExit(code, signal)));
    LogConcat(Send(s, ShellExit(code, signal)), Cleanup(seen, false, term).effects);
  }

  lemma KillEffects(s: State, now: int)
    requires s.killAt.Some?
    ensures var effects := KillStep(s, now).effects;
            && Kills(effects) == (if s.killAt.value <= now then [now] else [])
            && Terms(effects) == [] && Shells(effects) == []
  {
    var intent := Send(s, CleanupKillIntent);
    assert Quiet(intent);
    assert intent + [GroupKill(now)] + [] == intent + [GroupKill(now)];
    hide Send, Stop, Terms, Kills, Shells;
    LoudLog(intent, GroupKill(now), []);
    QuietLog([]);
  }

  lemma GrantEffects(s: State, wallClock: int, outcome: SpawnOutcome)
    ensures var effects := GrantStep(s, wallClock, outcome).effects;
            && Shells(effects) == (if StartsShell(s, GrantReceived(wallClock, outcome)) then [s.reply.value] else [])
            && Terms(effects) == [] && Kills(effects) == []
  {
    if StartsShell(s, GrantReceived(wallClock, outcome)) {
      LoudLog([], ShellStarted(s.reply.value), []);
      assert [] + [ShellStarted(s.reply.value)] + [] == [ShellStarted(s.reply.value)];
    } else {
      QuietLog(GrantStep(s, wallClock, outcome).effects);
    }
  }

  /** Every signal and every shell of a step. */
  lemma StepEffects(s: State, e: Event)
    requires Enabled(s, e)
    ensures Terms(Step(s, e).effects) == if StartsCleanup(s, e) then [e.term.returnedAt] else []
    ensures Kills(Step(s, e).effects) == if SendsKill(s, e) then [e.now] else []
    ensures Shells(Step(s, e).effects) == if StartsShell(s, e) then [s.reply.value] else []
  {
    hide Terms, Kills, Shells, Send, Cleanup, ExitStep, KillStep, GrantStep;
    match e
    case ChildExited(code, signal, term) => ExitEffects(s, code, signal, term);
    case TermSignalled(term) => CleanupEffects(s, false, term); QuietLog([]);
    case Disconnected(term) => CleanupEffects(s.(connected := false), false, term); QuietLog([]);
    case DeadlineFired(term) => CleanupEffects(s.(deadlineArmed := false), true, term);
    case KillFired(now) => KillEffects(s, now);
    case GrantReceived(wallClock, outcome) => GrantEffects(s, wallClock, outcome);
    case HelloReplied(_) => QuietLog([]);
    case Probed(_, _, _) => QuietStep(s, e); QuietLog(Step(s, e).effects);
    case ChildSpawned => QuietStep(s, e); QuietLog(Step(s, e).effects);
    case ChildFailed => QuietStep(s, e); QuietLog(Step(s, e).effects);
    case ReadinessFired => QuietLog([]);
  }

  lemma QuietStep(s: State, e: Event)
    requires Enabled(s, e) && (e.Probed? || e.ChildSpawned? || e.ChildFailed?)
    ensures Quiet(Step(s, e).effects)
  {
  }

  /** What a step does to the latch and to the kill timer. */
  ghost predicate TimersFollow(s: State, e: Event, t: State) {
    if StartsCleanup(s, e) then t.cleanupStarted && t.killAt == Some(e.term.returnedAt + GRACE)
    else
      && t.cleanupStarted == s.cleanupStarted
      && (t.killAt == s.killAt || t.killAt.None?)
      && (SendsKill(s, e) ==> t.killAt.None?)
  }

  lemma ProbeTimers(s: State, index: nat, pid: int, group: Option<int>)
    requires index < |s.probes|
    ensures var t := ProbeStep(s, index, pid, group).state;
            t.cleanupStarted == s.cleanupStarted && (t.killAt == s.killAt || t.killAt.None?)
  {
  }

  lemma GrantTimers(s: State, wallClock: int, outcome: SpawnOutcome)
    ensures var t := GrantStep(s, wallClock, outcome).state;
            t.cleanupStarted == s.cleanupStarted && (t.killAt == s.killAt || t.killAt.None?)
  {
  }

  lemma CleanupTimers(s: State, deadline: bool, term: Term)
    ensures var t := Cleanup(s, deadline, term).state;
            if s.cleanupStarted || s.phase.Exited? then t == s
            else t.cleanupStarted && t.killAt == Some(term.returnedAt + GRACE)
  {
  }

  lemma StepTimers(s: State, e: Event)
    requires Enabled(s, e)
    ensures TimersFollow(s, e, Step(s, e).state)
  {
    hide Send, ProbeStep, GrantStep, Cleanup;
    match e
    case HelloReplied(_) =>
    case Probed(index, pid, group) => ProbeTimers(s, index, pid, group);
    case GrantReceived(wallClock, outcome) => GrantTimers(s, wallClock, outcome);
    case ChildSpawned =>
    case ChildFailed =>
    case ChildExited(_, _, term) => CleanupTimers(s.(shellExited := true, child := Gone), false, term);
    case TermSignalled(term) => CleanupTimers(s, false, term);
    case Disconnected(term) => CleanupTimers(s.(connected := false), false, term);
    case DeadlineFired(term) => CleanupTimers(s.(deadlineArmed := false), true, term);
    case KillFired(_) =>
    case ReadinessFired =>
  }

  lemma StepKeepsEscalation(s: State, e: Event, terms: seq<int>, kills: seq<int>)
    requires EscalationOk(s, terms, kills) && Enabled(s, e)
    ensures var t := Step(s, e); EscalationOk(t.state, terms + Terms(t.effects), kills + Kills(t.effects))
  {
    hide Terms, Kills, Shells, Step;
    StepEffects(s, e);
    StepTimers(s, e);
  }

  /**
   Whatever the order of deadline, shell exit, disconnection, TERM from outside and the guardian's
   own group TERM: at most one TERM, at most one KILL, never without the TERM and never less than
   the grace after it returned.
   */
  lemma {:induction false} EscalatesOnce(events: seq<Event>)
    ensures var r := Run(events);
            && |Terms(r.effects)| <= 1 && |Kills(r.effects)| <= |Terms(r.effects)|
            && (Kills(r.effects) != [] ==> Kills(r.effects)[0] >= Terms(r.effects)[0] + 5_000)
            && EscalationOk(r.state, Terms(r.effects), Kills(r.effects))
  {
    if events != [] {
      var before := Run(events[..|events| - 1]);
      var e := events[|events| - 1];
      EscalatesOnce(events[..|events| - 1]);
      if Enabled(before.state, e) {
        StepKeepsEscalation(before.state, e, Terms(before.effects), Kills(before.effects));
        LogConcat(before.effects, Step(before.state, e).effects);
      }
    }
  }

  /** A deadline message means that the deadline started cleanup, or that the grant came too late. */
  lemma DeadlineIsHonest(s: State, e: Event)
    requires Enabled(s, e)
    ensures Sent(Deadline) in Step(s, e).effects <==>
            && s.connected
            && ((e.DeadlineFired? && !s.cleanupStarted && !s.phase.Exited?)
                || (e.GrantReceived? && s.phase.Ready? && s.reply.Some? && e.wallClock >= s.reply.value.deadlineAt))
  {
  }

  // ---------------------------------------------------------------- one shell, never unattended

  /** Holds in every state reached with at most one hello reply. */
  ghost predicate Sound(s: State) {
    && (s.phase.Starting? || s.phase.Ready? ==>
          s.child.NoChild? && !s.cleanupStarted && !s.deadlineArmed && s.killAt.None? && !s.shellExited)
    && (s.phase.Ready? ==> s.probes == [] && s.reply.Some?)
    && |s.probes| <= 1
    && (s.probes != [] ==> s.reply.Some? && s.child.NoChild? && (s.phase.Starting? || s.phase.Exited?))
    && (s.reply.Some? ==> !s.readinessArmed)
    && (s.phase.Granted? ==> s.reply.Some? && !s.child.NoChild? && !s.cleanupStarted)
    && (s.phase.Cleaning? || s.phase.ShellRunning? ==> s.reply.Some? && !s.child.NoChild?)
    && (s.phase.Cleaning? ==> s.killAt.Some?)
    && (s.cleanupStarted ==> s.phase.Cleaning? || s.phase.ShellRunning? || s.phase.Exited?)
    && (s.killAt.Some? ==> s.cleanupStarted && (s.phase.Cleaning? || s.phase.ShellRunning?))
    && (s.child.Forked? || s.child.Spawned? ==> s.reply.Some? && (s.cleanupStarted || Attended(s)))
    && (s.child.ForkFailed? ==> s.reply.Some? && !s.shellExited)
    && (s.shellExited ==> s.child.Gone? && s.reply.Some?)
  }

  /** The deadline timer is armed and will start cleanup when it fires. */
  predicate Attended(s: State) {
    s.deadlineArmed && !s.cleanupStarted && (s.phase.Granted? || s.phase.ShellRunning?)
  }

  predicate FirstHello(s: State, e: Event) {
    e.HelloReplied? ==> s.reply.None?
  }

  lemma ProbeKeepsSound(s: State, index: nat, pid: int, group: Option<int>)
    requires Sound(s) && index < |s.probes|
    ensures Sound(ProbeStep(s, index, pid, group).state)
  {
    hide Send;
  }

  lemma CleanupKeepsSound(s: State, deadline: bool, term: Term)
    requires Sound(s) && (s.cleanupStarted || s.phase.Granted? || s.phase.ShellRunning? || s.phase.Exited?)
    ensures Sound(Cleanup(s, deadline, term).state)
  {
    hide Send;
  }

  lemma StepKeepsSound(s: State, e: Event)
    requires Sound(s) && Enabled(s, e) && FirstHello(s, e)
    ensures Sound(Step(s, e).state)
  {
    hide Send;
    match e
    case Probed(index, pid, group) =>
      ProbeKeepsSound(s, index, pid, group);
      hide ProbeStep;
    case TermSignalled(term) =>
      if s.phase.Granted? || s.phase.ShellRunning? || s.phase.Cleaning? {
        CleanupKeepsSound(s, false, term);
      }
      hide Cleanup;
    case GrantReceived(_, _) =>
    case HelloReplied(_) =>
    case ChildExited(_, _, _) =>
    case Disconnected(_) =>
    case DeadlineFired(_) =>
    case _ =>
  }

  /** After a spawn attempt, successful or not, or after exiting, no event leads back to the grant. */
  predicate Spent(s: State) {
    !s.phase.Starting? && !s.phase.Ready?
  }

  lemma SpentStays(s: State, e: Event)
    requires Sound(s) && Enabled(s, e) && FirstHello(s, e)
    ensures Spent(s) ==> Spent(Step(s, e).state) && Shells(Step(s, e).effects) == []
    ensures Shells(Step(s, e).effects) != [] ==> Spent(Step(s, e).state)
  {
    StepEffects(s, e);
  }

  /** The run delivers at most one hello reply. */
  predicate OneHello(events: seq<Event>) {
    forall i, k :: 0 <= i < k < |events| ==> !(events[i].HelloReplied? && events[k].HelloReplied?)
  }

  lemma {:induction false} ReplyNeedsHello(events: seq<Event>)
    requires forall i :: 0 <= i < |events| ==> !events[i].HelloReplied?
    ensures Run(events).state.reply.None?
  {
    if events != [] {
      var before := Run(events[..|events| - 1]).state;
      ReplyNeedsHello(events[..|events| - 1]);
      if Enabled(before, events[|events| - 1]) {
        OnlyHelloSetsReply(before, events[|events| - 1]);
      }
    }
  }

  lemma OnlyHelloSetsReply(s: State, e: Event)
    requires Enabled(s, e)
    ensures !e.HelloReplied? ==> Step(s, e).state.reply == s.reply
  {
    hide Send;
    match e
    case HelloReplied(_) =>
    case Probed(_, _, _) =>
    case GrantReceived(_, _) =>
    case ChildExited(_, _, _) =>
    case TermSignalled(_) =>
    case Disconnected(_) =>
    case DeadlineFired(_) =>
    case KillFired(_) =>
    case ChildFailed =>
    case ReadinessFired =>
    case ChildSpawned =>
  }

  /** One guardian starts at most one shell, with its orders, and never leaves it without a timer. */
  lemma {:induction false} OneAttendedShell(events: seq<Event>)
    requires OneHello(events)
    ensures var r := Run(events);
            && Sound(r.state)
            && |Shells(r.effects)| <= 1
            && (Shells(r.effects) != [] ==> Spent(r.state))
            && (r.state.child.Forked? || r.state.child.Spawned? ==> r.state.cleanupStarted || Attended(r.state))
  {
    if events != [] {
      var init, e := events[..|events| - 1], events[|events| - 1];
      var before := Run(init);
      OneAttendedShell(init);
      if Enabled(before.state, e) {
        if e.HelloReplied? {
          ReplyNeedsHello(init);
        }
        StepKeepsSound(before.state, e);
        SpentStays(before.state, e);
        StepEffects(before.state, e);
        LogConcat(before.effects, Step(before.state, e).effects);
      }
    }
  }

  // ---------------------------------------------------------------- when the KILL is dropped

  /** The step gives up the pending KILL without sending it. */
  predicate DropsKill(s: State, e: Event)
    requires Enabled(s, e)
  {
    s.killAt.Some? && Step(s, e).state.killAt.None? && Kills(Step(s, e).effects) == []
  }

  predicate LosesChannel(s: State, e: Event) {
    e.Disconnected? && s.phase.Cleaning?
  }

  /** The child object reports that its fork failed, after something else had started cleanup. */
  predicate ReportsFailedFork(s: State, e: Event) {
    e.ChildFailed? && s.child.ForkFailed? && s.killAt.Some?
  }

  predicate GivesUp(s: State, e: Event) {
    LosesChannel(s, e) || ReportsFailedFork(s, e)
  }

  /** A pending KILL is dropped by exactly two kinds of step: channel loss while cleaning, and a failed fork. */
  lemma KillDroppedIff(s: State, e: Event)
    requires Sound(s) && Enabled(s, e) && FirstHello(s, e)
    ensures DropsKill(s, e) <==> GivesUp(s, e)
  {
    StepEffects(s, e);
  }

  predicate GivesUpAt(events: seq<Event>, i: nat)
    requires i < |events|
  {
    GivesUp(Run(events[..i]).state, events[i])
  }

  /** Some step of the run gives up the pending KILL. */
  predicate KillGivenUp(events: seq<Event>) {
    exists i :: 0 <= i < |events| && GivesUpAt(events, i)
  }

  lemma GivingUpExtends(events: seq<Event>, e: Event)
    ensures KillGivenUp(events + [e]) <==> KillGivenUp(events) || GivesUp(Run(events).state, e)
  {
    var longer := events + [e];
    forall i | 0 <= i < |events| ensures GivesUpAt(longer, i) == GivesUpAt(events, i) {
      assert longer[..i] == events[..i] && longer[i] == events[i];
    }
    assert longer[..|events|] == events && longer[|events|] == e;
    assert GivesUpAt(longer, |events|) == GivesUp(Run(events).state, e);
    hide GivesUpAt, GivesUp, Run;
    if i :| 0 <= i < |events| && GivesUpAt(events, i) {
      assert GivesUpAt(longer, i);
    }
  }

  /**
   The design promises a KILL after every cleanup. The code keeps that promise, in that the KILL is
   sent or still pending, exactly in the runs in which no step gives it up: no channel loss while
   cleaning and no failed fork reported after cleanup started.
   */
  lemma {:induction false} KillUnlessGivenUp(events: seq<Event>)
    requires OneHello(events)
    ensures var r := Run(events);
            && (KillGivenUp(events) ==> r.state.cleanupStarted)
            && (r.state.cleanupStarted ==> (r.state.killAt.Some? || Kills(r.effects) != [] <==> !KillGivenUp(events)))
  {
    if events != [] {
      var init, e := events[..|events| - 1], events[|events| - 1];
      var before := Run(init);
      KillUnlessGivenUp(init);
      OneAttendedShell(init);
      EscalatesOnce(init);
      assert events == init + [e];
      GivingUpExtends(init, e);
      FirstHelloOfRun(init, e, events);
      hide KillGivenUp, OneHello, Kills, Terms, Shells;
      StepGivesUp(before.state, e, Terms(before.effects), Kills(before.effects));
      hide Step, Sound, GivesUp, Enabled, EscalationOk;
      if Enabled(before.state, e) {
        LogConcat(before.effects, Step(before.state, e).effects);
      }
    }
  }

  /** What one step does to the promise: it is kept, sent, started or given up. */
  lemma StepGivesUp(s: State, e: Event, terms: seq<int>, kills: seq<int>)
    requires Sound(s) && FirstHello(s, e) && EscalationOk(s, terms, kills)
    ensures GivesUp(s, e) ==> s.killAt.Some? && s.cleanupStarted && kills == []
    ensures !Enabled(s, e) ==> !GivesUp(s, e)
    ensures Enabled(s, e) ==>
              var t := Step(s, e);
              && (s.cleanupStarted ==> t.state.cleanupStarted)
              && (!s.cleanupStarted && t.state.cleanupStarted ==> t.state.killAt.Some?)
              && (s.cleanupStarted ==> (t.state.killAt.Some? || kills + Kills(t.effects) != []
                                        <==> (s.killAt.Some? || kills != []) && !GivesUp(s, e)))
  {
    if Enabled(s, e) {
      StepTimers(s, e);
      StepEffects(s, e);
      KillDroppedIff(s, e);
      hide Step, Kills, Terms, Shells;
    }
  }

  /** A guardian whose fork failed has no shell, then or later. */
  lemma {:induction false} FailedForkHasNoShell(events: seq<Event>, i: nat)
    requires OneHello(events) && i < |events| && ReportsFailedFork(Run(events[..i]).state, events[i])
    ensures Shells(Run(events).effects) == [] && Spent(Run(events).state)
  {
    var init, e := events[..|events| - 1], events[|events| - 1];
    var before := Run(init);
    OneAttendedShell(init);
    ForkedOrNot(init);
    assert init + [e] == events;
    FirstHelloOfRun(init, e, events);
    if i < |init| {
      assert init[..i] == events[..i];
      FailedForkHasNoShell(init, i);
    } else {
      assert events[..i] == init;
    }
    if Enabled(before.state, e) {
      SpentStays(before.state, e);
      LogConcat(before.effects, Step(before.state, e).effects);
    }
  }

  /** A failed fork excludes a shell. */
  lemma {:induction false} ForkedOrNot(events: seq<Event>)
    requires OneHello(events)
    ensures Run(events).state.child.ForkFailed? ==> Shells(Run(events).effects) == []
  {
    if events != [] {
      var init, e := events[..|events| - 1], events[|events| - 1];
      var before := Run(init);
      ForkedOrNot(init);
      OneAttendedShell(init);
      assert init + [e] == events;
      FirstHelloOfRun(init, e, events);
      if Enabled(before.state, e) {
        StepEffects(before.state, e);
        ForkFailsOnce(before.state, e);
        LogConcat(before.effects, Step(before.state, e).effects);
        hide Step, Sound, Enabled;
      }
    }
  }

  lemma ForkFailsOnce(s: State, e: Event)
    requires Sound(s) && Enabled(s, e)
    ensures Step(s, e).state.child.ForkFailed? ==> s.child.ForkFailed? || (!Spent(s) && e.GrantReceived? && e.outcome.ForkFails?)
    ensures Step(s, e).state.child.ForkFailed? ==> !StartsShell(s, e)
  {
    hide Send;
    match e
    case HelloReplied(_) =>
    case Probed(_, _, _) =>
    case GrantReceived(_, _) =>
    case ChildExited(_, _, _) =>
    case TermSignalled(_) =>
    case Disconnected(_) =>
    case _ =>
  }

  /** Some step of the run loses the channel while the guardian is cleaning. */
  predicate ChannelLostWhileCleaning(events: seq<Event>) {
    exists i :: 0 <= i < |events| && LosesChannelAt(events, i)
  }

  predicate LosesChannelAt(events: seq<Event>, i: nat)
    requires i < |events|
  {
    LosesChannel(Run(events[..i]).state, events[i])
  }

  /** Once a shell was started, losing the channel while cleaning is the only exception. */
  lemma ShellIsKilledUnlessChannelLost(events: seq<Event>)
    requires OneHello(events) && Shells(Run(events).effects) != [] && Run(events).state.cleanupStarted
    ensures Run(events).state.killAt.Some? || Kills(Run(events).effects) != [] <==> !ChannelLostWhileCleaning(events)
  {
    KillUnlessGivenUp(events);
    forall i | 0 <= i < |events| ensures GivesUpAt(events, i) == LosesChannelAt(events, i) {
      if ReportsFailedFork(Run(events[..i]).state, events[i]) {
        FailedForkHasNoShell(events, i);
      }
    }
    hide Run, GivesUpAt, LosesChannelAt;
  }

  lemma FirstHelloOfRun(init: seq<Event>, e: Event, events: seq<Event>)
    requires events == init + [e] && OneHello(events)
    ensures FirstHello(Run(init).state, e)
  {
    if e.HelloReplied? {
      assert events[|init|] == e;
      forall i | 0 <= i < |init| ensures !init[i].HelloReplied? {
        assert events[i] == init[i];
      }
      ReplyNeedsHello(init);
    }
  }

  function ReadyRun(orders: Orders): seq<Event> {
    [HelloReplied(orders)] + [Probed(0, 7, Some(7))] + [Probed(0, 7, Some(3))]
  }

  function ReadyState(orders: Orders): State {
    State(Ready, false, false, Some(orders), [], false, false, None, NoChild, true)
  }

  lemma ReadyReached(orders: Orders)
    ensures Run(ReadyRun(orders)).state == ReadyState(orders)
  {
    var replied := INITIAL.(reply := Some(orders), readinessArmed := false, probes := [OwnGroup]);
    RunExtends([], HelloReplied(orders));
    assert [] + [HelloReplied(orders)] == [HelloReplied(orders)];
    assert Run([HelloReplied(orders)]).state == replied;
    hide Run;
    RunExtends([HelloReplied(orders)], Probed(0, 7, Some(7)));
    RunExtends([HelloReplied(orders)] + [Probed(0, 7, Some(7))], Probed(0, 7, Some(3)));
  }

  /** From the ready state: a deadline starts cleanup, then the channel is lost during the grace. */
  function LossRun(orders: Orders, before: int, deadlineTerm: Term, lossTerm: Term): seq<Event> {
    ReadyRun(orders) + [GrantReceived(before, Forks)] + [ChildSpawned] + [DeadlineFired(deadlineTerm)] + [Disconnected(lossTerm)]
  }

  /** Such runs exist for every command: the shell is left running, and no timer is left. */
  lemma ChannelLossDropsKill(orders: Orders, before: int, deadlineTerm: Term, lossTerm: Term)
    requires before < orders.deadlineAt
    ensures var s := Run(LossRun(orders, before, deadlineTerm, lossTerm)).state;
            s.child.Spawned? && s.cleanupStarted && s.phase.Exited? && s.killAt.None? && !s.deadlineArmed
  {
    ReadyReached(orders);
    hide Run, ReadyRun;
    var ready := ReadyRun(orders);
    RunExtends(ready, GrantReceived(before, Forks));
    RunExtends(ready + [GrantReceived(before, Forks)], ChildSpawned);
    RunExtends(ready + [GrantReceived(before, Forks)] + [ChildSpawned], DeadlineFired(deadlineTerm));
    RunExtends(ready + [GrantReceived(before, Forks)] + [ChildSpawned] + [DeadlineFired(deadlineTerm)], Disconnected(lossTerm));
  }

  /** A failed fork that another trigger overtakes: cleanup starts and the KILL is given up, with no shell to kill. */
  lemma FailedForkDropsKill(orders: Orders, before: int, term: Term)
    requires before < orders.deadlineAt
    ensures var s := Run(ReadyRun(orders) + [GrantReceived(before, ForkFails)] + [TermSignalled(term)] + [ChildFailed]).state;
            s.child.Gone? && s.cleanupStarted && s.phase.Exited? && s.killAt.None?
  {
    ReadyReached(orders);
    hide Run, ReadyRun;
    var ready := ReadyRun(orders);
    RunExtends(ready, GrantReceived(before, ForkFails));
    RunExtends(ready + [GrantReceived(before, ForkFails)], TermSignalled(term));
    RunExtends(ready + [GrantReceived(before, ForkFails)] + [TermSignalled(term)], ChildFailed);
  }

  lemma RunExtends(events: seq<Event>, e: Event)
    requires Enabled(Run(events).state, e)
    ensures Run(events + [e]).state == Step(Run(events).state, e).state
  {
    assert (events + [e])[..|events|] == events;
  }
}
