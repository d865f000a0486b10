/** The runner never gets stuck, cuts over late enough, and publishes what it froze. */
module RunnerProgress {
  import opened Wrappers
  import opened StoreEvidence
  import opened JobStore
  import opened GuardianProtocol
  import opened Runner

  // ---------------------------------------------------------------- what is always pending

  predicate IsFinal(t: Task) {
    t.final
  }

  /** A terminal publication is queued; its end closes the runner. */
  ghost predicate OwesClose(c: Chain) {
    exists i :: 0 <= i < |c.queue| && IsFinal(c.queue[i])
  }

  /** The promise or timer that will move an open runner on, given where its coordinator is. */
  ghost predicate Pending(supervising: bool, life: Life, timers: Timers, owes: bool, discarding: bool, sealing: bool) {
    match life.coordinator
    case Observing =>
      if life.stopping then discarding || owes
      else supervising && !life.settled && (timers.deadlineArmed || timers.budget.Armed?)
    case CuttingOver => timers.cutoverArmed && timers.cutoverDeadline.Some?
    case Freezing => sealing && life.stopping
    case Publishing => owes && life.stopping
    case Closed => false
  }

  predicate BeforeGuardian(s: State) {
    s.stage.Claiming? || s.stage.Loading?
  }

  ghost predicate Live(s: State) {
    && (s.life.coordinator.Closed? ==> s.life.closed)
    && (s.life.closed || s.discarding || s.sealing || OwesClose(s.chain) ==> s.life.stopping)
    && (s.timers.cutoverArmed ==> s.life.coordinator.CuttingOver? && !s.life.closed)
    && (s.sealing ==> s.life.coordinator.Freezing? || s.life.closed)
    && (s.timers.budget.Spent? ==> s.life.stopping || !s.life.coordinator.Observing?)
    && (BeforeGuardian(s) ==> s == START.(stage := s.stage))
    && (!s.life.closed && !BeforeGuardian(s) ==>
          Pending(s.stage.Supervising?, s.life, s.timers, OwesClose(s.chain), s.discarding, s.sealing))
    && (s.chain.queue == [] ==> s.chain.awaiting.Nothing?)
  }

  lemma EnqueueOwes(c: Chain, t: Task)
    ensures OwesClose(c.(queue := c.queue + [t])) <==> OwesClose(c) || t.final
  {
    assert (c.queue + [t])[|c.queue|] == t;
    if i :| 0 <= i < |c.queue| && IsFinal(c.queue[i]) {
      assert (c.queue + [t])[i] == c.queue[i];
    }
  }

  lemma FinishOwes(c: Chain)
    requires c.queue != []
    ensures !c.queue[0].final ==> (OwesClose(FinishTask(c)) <==> OwesClose(c))
  {
    var rest := FinishTask(c).queue;
    if i :| 0 < i < |c.queue| && IsFinal(c.queue[i]) {
      assert rest[i - 1] == c.queue[i];
    }
    if i :| 0 <= i < |rest| && IsFinal(rest[i]) {
      assert c.queue[i + 1] == rest[i];
    }
  }

  predicate ChainEvent(e: Event) {
    e.PublicationStarted? || e.PublishReturned? || e.ObserveReturned?
  }

  /** The end of a link keeps a live runner live, whatever it learned and whether that settled it. */
  lemma FinishKeepsLive(s: State, revision: Option<int>, settled: bool)
    requires Live(s) && s.chain.queue != [] && (settled ==> s.life.settled || s.chain.queue[0].final)
    requires s.life.settled ==> settled
    ensures Live(Finish(s.(chain := s.chain.(revision := revision), life := s.life.(settled := settled))).state)
  {
    FinishOwes(s.chain.(revision := revision));
    assert OwesClose(s.chain.(revision := revision)) == OwesClose(s.chain);
    hide OwesClose, IsFinal;
  }

  lemma ChainKeepsLive(s: State, e: Event)
    requires Live(s) && Enabled(s, e) && ChainEvent(e)
    ensures Live(Step(s, e).state)
  {
    FinishKeepsLive(s, s.chain.revision, s.life.settled);
    assert s.(chain := s.chain.(revision := s.chain.revision), life := s.life.(settled := s.life.settled)) == s;
    match e
    case PublishReturned(published) =>
      if published.Some? {
        FinishKeepsLive(s, published, s.life.settled || s.chain.queue[0].final);
      }
      hide Finish, OwesClose;
    case ObserveReturned(observed) =>
      if observed.Some? {
        FinishKeepsLive(s, observed, s.life.settled);
      }
      hide Finish, OwesClose;
    case PublicationStarted => hide Finish, OwesClose;
  }

  lemma EnqueueKeepsLive(s: State, e: Event)
    requires Live(s) && Enabled(s, e) && (e.DiscardReturned? || e.SealReturned?)
    ensures Live(Step(s, e).state)
  {
    var chain := Step(s, e).state.chain;
    var last := chain.queue[|s.chain.queue|];
    assert last.final && chain == s.chain.(queue := s.chain.queue + [last]);
    EnqueueOwes(s.chain, last);
    hide OwesClose, TerminalEvidence, SpawnFailure, CutoverFacts;
  }

  predicate TimerEvent(e: Event) {
    e.ReadinessFired? || e.DeadlineFired? || e.BudgetFired? || e.CutoverFired?
  }

  lemma TimerKeepsLive(s: State, e: Event)
    requires Live(s) && Enabled(s, e) && TimerEvent(e)
    ensures Live(Step(s, e).state)
  {
    hide OwesClose;
  }

  lemma MessageKeepsLive(s: State, m: GuardianMessage)
    requires Live(s) && Enabled(s, MessageArrived(m))
    ensures Live(MessageStep(s, m).state)
  {
    EnqueueOwes(s.chain, Task(LAUNCHED, false));
    hide OwesClose, FactsAfter;
  }

  lemma DecideKeepsLive(s: State, e: Event)
    requires Live(s) && Enabled(s, e) && e.DecideReturned?
    ensures Live(Step(s, e).state)
  {
    hide OwesClose;
  }

  /** Live holds after every step. */
  lemma StepKeepsLive(s: State, e: Event)
    requires Live(s) && Enabled(s, e)
    ensures Live(Step(s, e).state)
  {
    if TimerEvent(e) {
      TimerKeepsLive(s, e);
    } else if ChainEvent(e) {
      ChainKeepsLive(s, e);
    } else if e.DiscardReturned? || e.SealReturned? {
      EnqueueKeepsLive(s, e);
    } else if e.MessageArrived? {
      MessageKeepsLive(s, e.message);
    } else if e.DecideReturned? {
      DecideKeepsLive(s, e);
    } else {
      hide OwesClose;
    }
  }

  /** Steps that need something to happen outside: a message, a loss, the end of a stream. */
  predicate External(e: Event) {
    e.MessageArrived? || e.GrantSendFailed? || e.GuardianLost? || e.GuardianExited? || e.StreamEnded?
  }

  /** An open runner can always take a step of its own: a timer is armed or a call is outstanding. */
  lemma NeverStuck(s: State) returns (e: Event)
    requires Live(s) && !s.life.closed
    ensures Enabled(s, e) && !External(e)
  {
    var clock := if s.timers.cutoverDeadline.Some? then s.timers.cutoverDeadline.value else 0;
    var nothing := SealResult(false, false, true, true);
    e := if s.stage.Claiming? then ClaimReturned(true)
    else if s.stage.Loading? then LoadReturned(None, true, true)
    else if s.timers.cutoverArmed then CutoverFired(clock)
    else if s.timers.deadlineArmed then DeadlineFired
    else if s.timers.budget.Armed? then BudgetFired(0)
    else if s.discarding then DiscardReturned
    else if s.sealing then SealReturned(nothing, nothing)
    else if s.chain.awaiting.Nothing? then PublicationStarted
    else if s.chain.awaiting.PublishAnswer? then PublishReturned(None)
    else ObserveReturned(None);
  }

  // ---------------------------------------------------------------- every run closes

  /** The state after the first k events of an endless schedule; once closed it no longer matters. */
  function At(run: nat -> Event, k: nat): State {
    if k == 0 then START
    else
      var before := At(run, k - 1);
      if before.life.closed || !Enabled(before, run(k - 1)) then before else Step(before, run(k - 1)).state
  }

  /** The clock never goes back, and a timer that fires early has let some time pass. */
  predicate ClockAdvances(s: State, e: Event, clock: int, next: int) {
    && clock <= next
    && (e.CutoverFired? ==> clock < e.now == next)
    && (e.BudgetFired? ==> e.now == next)
    && (e.GrantSendFailed? || e.GuardianLost? || e.GuardianExited? || e.DecideReturned? ==> e.now == next)
  }

  /** What an open runner still has before it, most significant part first. */
  function Stages(s: State): nat {
    (match s.stage case Claiming => 2 case Loading => 1 case _ => 0)
    + (if s.life.closed then 0
       else match s.life.coordinator case Observing => 4 case CuttingOver => 3 case Freezing => 2 case Publishing => 1 case Closed => 0)
  }

  function TimersLeft(s: State): nat {
    if BeforeGuardian(s) then 4
    else (if s.timers.readinessArmed then 1 else 0) + (if s.timers.deadlineArmed then 1 else 0)
         + (match s.timers.budget case Unset => 2 case Armed => 1 case Spent => 0)
  }

  function GraceLeft(s: State, clock: int): nat {
    if s.timers.cutoverDeadline.Some? && s.timers.cutoverDeadline.value > clock then s.timers.cutoverDeadline.value - clock else 0
  }

  function CallsLeft(s: State): nat {
    (if s.discarding then 6 else 0) + s.gate.decides + ChainLeft(s.chain)
  }

  /** Lexicographic: stages, then timers, then the grace left, then outside events to come, then calls. */
  ghost predicate Less(s: State, clock: int, credit: nat, t: State, clock': int, credit': nat)
    requires Live(s) && Live(t)
  {
    || Stages(s) < Stages(t)
    || (Stages(s) == Stages(t) &&
        (|| TimersLeft(s) < TimersLeft(t)
         || (TimersLeft(s) == TimersLeft(t) &&
             (|| GraceLeft(s, clock) < GraceLeft(t, clock')
              || (GraceLeft(s, clock) == GraceLeft(t, clock') &&
                  (|| credit < credit'
                   || (credit == credit' && CallsLeft(s) < CallsLeft(t))))))))
  }

  /** An event of the environment uses up credit; the others need none. */
  predicate Pays(e: Event, credit: nat, credit': nat) {
    credit' <= credit && (External(e) ==> credit' < credit)
  }

  lemma TimerDescends(s: State, e: Event, clock: int, next: int, credit: nat, credit': nat)
    requires Live(s) && Enabled(s, e) && !s.life.closed && TimerEvent(e)
    requires ClockAdvances(s, e, clock, next) && Pays(e, credit, credit') && Live(Step(s, e).state)
    ensures Less(Step(s, e).state, next, credit', s, clock, credit)
  {
    hide OwesClose, CallsLeft;
  }

  lemma ChainDescends(s: State, e: Event, clock: int, next: int, credit: nat, credit': nat)
    requires Live(s) && Enabled(s, e) && !s.life.closed && ChainEvent(e)
    requires ClockAdvances(s, e, clock, next) && Pays(e, credit, credit') && Live(Step(s, e).state)
    ensures Less(Step(s, e).state, next, credit', s, clock, credit)
  {
    TaskMoves(s, e);
    hide Step, OwesClose, Pending, ChainLeft;
  }

  lemma FinishMoves(s: State)
    requires s.chain.queue != []
    ensures var t := Finish(s).state;
            && t == s.(chain := t.chain, life := t.life, timers := t.timers)
            && t.chain == FinishTask(s.chain) && t.timers.cutoverDeadline == s.timers.cutoverDeadline
            && (t.timers.cutoverArmed ==> s.timers.cutoverArmed)
            && (if s.chain.queue[0].final && !s.life.closed then t.life.coordinator.Closed? && t.life.closed && t.life.stopping
                else t.life == s.life && t.timers == s.timers)
  {
    hide FinishTask;
  }

  /** A link of the chain moves on and nothing else but the settled flag changes, or the runner closes. */
  lemma TaskMoves(s: State, e: Event)
    requires Enabled(s, e) && ChainEvent(e)
    ensures ChainLeft(Step(s, e).state.chain) < ChainLeft(s.chain)
    ensures ChainMoved(s, Step(s, e).state)
  {
    TaskDescends(s.chain);
    FinishMoves(s);
    match e
    case PublishReturned(published) =>
      PublishedMoves(s, published);
      hide PublishedStep;
    case ObserveReturned(observed) =>
      FinishMoves(s.(chain := s.chain.(revision := observed)));
      hide Finish, FinishTask;
    case PublicationStarted => hide Finish, FinishTask;
  }

  predicate ChainMoved(s: State, t: State) {
    && t == s.(chain := t.chain, life := t.life, timers := t.timers)
    && t.timers.cutoverDeadline == s.timers.cutoverDeadline && (t.timers.cutoverArmed ==> s.timers.cutoverArmed)
    && ((t.life.coordinator.Closed? && t.life.closed && t.life.stopping)
        || (t.life == s.life.(settled := t.life.settled) && t.timers == s.timers))
  }

  lemma PublishedMoves(s: State, published: Option<int>)
    requires s.chain.queue != [] && s.chain.awaiting.PublishAnswer?
    ensures ChainLeft(PublishedStep(s, published).state.chain) < ChainLeft(s.chain)
    ensures ChainMoved(s, PublishedStep(s, published).state)
  {
    TaskDescends(s.chain);
    FinishMoves(s);
    FinishMoves(s.(chain := s.chain.(revision := published), life := s.life.(settled := s.life.settled || s.chain.queue[0].final)));
    hide Finish;
  }

  function ChainLeft(c: Chain): nat {
    4 * |c.queue| + (match c.awaiting case Nothing => 2 case PublishAnswer => 1 case ObserveAnswer => 0)
  }

  lemma TaskDescends(c: Chain)
    requires c.queue != []
    ensures ChainLeft(FinishTask(c)) < ChainLeft(c)
  {
  }

  lemma EnqueueDescends(s: State, e: Event, clock: int, next: int, credit: nat, credit': nat)
    requires Live(s) && Enabled(s, e) && !s.life.closed && (e.DiscardReturned? || e.SealReturned?)
    requires ClockAdvances(s, e, clock, next) && Pays(e, credit, credit') && Live(Step(s, e).state)
    ensures Less(Step(s, e).state, next, credit', s, clock, credit)
  {
    hide OwesClose, TerminalEvidence, SpawnFailure, CutoverFacts, Pending;
  }

  lemma DecideDescends(s: State, e: Event, clock: int, next: int, credit: nat, credit': nat)
    requires Live(s) && Enabled(s, e) && !s.life.closed && (e.ClaimReturned? || e.LoadReturned? || e.DecideReturned?)
    requires ClockAdvances(s, e, clock, next) && Pays(e, credit, credit') && Live(Step(s, e).state)
    ensures Less(Step(s, e).state, next, credit', s, clock, credit)
  {
    hide OwesClose;
  }

  lemma ExternalDescends(s: State, e: Event, clock: int, next: int, credit: nat, credit': nat)
    requires Live(s) && Enabled(s, e) && !s.life.closed && External(e)
    requires ClockAdvances(s, e, clock, next) && Pays(e, credit, credit') && Live(Step(s, e).state)
    ensures Less(Step(s, e).state, next, credit', s, clock, credit)
  {
    hide OwesClose, CallsLeft, FactsAfter, Pending;
  }

  /** Every step of an open runner goes down. */
  lemma StepDescends(s: State, e: Event, clock: int, next: int, credit: nat, credit': nat)
    requires Live(s) && Enabled(s, e) && !s.life.closed
    requires ClockAdvances(s, e, clock, next) && Pays(e, credit, credit')
    ensures Live(Step(s, e).state)
    ensures Less(Step(s, e).state, next, credit', s, clock, credit)
  {
    StepKeepsLive(s, e);
    hide Live, Step, Enabled, Less;
    if TimerEvent(e) {
      TimerDescends(s, e, clock, next, credit, credit');
    } else if External(e) {
      ExternalDescends(s, e, clock, next, credit, credit');
    } else if ChainEvent(e) {
      ChainDescends(s, e, clock, next, credit, credit');
    } else if e.DiscardReturned? || e.SealReturned? {
      EnqueueDescends(s, e, clock, next, credit, credit');
    } else {
      DecideDescends(s, e, clock, next, credit, credit');
    }
  }

  /**
   An endless schedule: only deliverable events happen while the runner is open, clock readings
   advance, and finitely many events come from outside, at most credit(k) from position k on.
   */
  ghost predicate Schedule(run: nat -> Event, clock: nat -> int, credit: nat -> nat) {
    forall k: nat :: Scheduled(run, clock, credit, k)
  }

  predicate Scheduled(run: nat -> Event, clock: nat -> int, credit: nat -> nat, k: nat) {
    At(run, k).life.closed
    || (Enabled(At(run, k), run(k)) && ClockAdvances(At(run, k), run(k), clock(k), clock(k + 1))
        && Pays(run(k), credit(k), credit(k + 1)))
  }

  /** Every schedule closes the runner, if store calls, sealing and discarding return. */
  lemma {:induction false} EventuallyCloses(run: nat -> Event, clock: nat -> int, credit: nat -> nat, k: nat) returns (n: nat)
    requires Schedule(run, clock, credit) && Live(At(run, k))
    ensures At(run, n).life.closed
    decreases Stages(At(run, k)), TimersLeft(At(run, k)), GraceLeft(At(run, k), clock(k)), credit(k), CallsLeft(At(run, k))
  {
    if At(run, k).life.closed {
      n := k;
    } else {
      assert Scheduled(run, clock, credit, k);
      var s := At(run, k);
      assert At(run, k + 1) == Step(s, run(k)).state;
      StepDescends(s, run(k), clock(k), clock(k + 1), credit(k), credit(k + 1));
      hide Live, Step, Enabled, Stages, TimersLeft, GraceLeft, CallsLeft;
      n := EventuallyCloses(run, clock, credit, k + 1);
    }
  }

  lemma EveryRunCloses(run: nat -> Event, clock: nat -> int, credit: nat -> nat)
    requires Schedule(run, clock, credit)
    ensures exists n: nat :: At(run, n).life.closed
  {
    var n := EventuallyCloses(run, clock, credit, 0);
  }

  // ---------------------------------------------------------------- cutover

  predicate BeginsCutover(s: State, t: State) {
    s.life.coordinator.Observing? && t.life.coordinator.CuttingOver?
  }

  predicate BeginsFreeze(s: State, t: State) {
    !s.life.coordinator.Freezing? && t.life.coordinator.Freezing?
  }

  predicate ReadsClock(e: Event) {
    e.DecideReturned? || e.GrantSendFailed? || e.GuardianLost? || e.GuardianExited? || e.BudgetFired? || e.CutoverFired?
  }

  /** A step that begins the cutover sets its deadline; a step after that keeps it. */
  lemma CutoverDeadlineIsSetOnce(s: State, e: Event)
    requires Enabled(s, e)
    ensures BeginsCutover(s, Step(s, e).state) ==>
              ReadsClock(e) && Step(s, e).state.timers.cutoverDeadline == Some(e.now + CUTOVER)
    ensures !s.life.coordinator.Observing? ==>
              !Step(s, e).state.life.coordinator.Observing? && Step(s, e).state.timers.cutoverDeadline == s.timers.cutoverDeadline
  {
    if ChainEvent(e) {
      TaskMoves(s, e);
      hide Step;
    } else if e.DecideReturned? {
      DecideSetsDeadlineOnce(s, e);
      hide Step;
    } else if e.MessageArrived? {
      MessageSetsNoDeadline(s, e.message);
      hide MessageStep, BeginCutover;
    } else {
      hide FactsAfter, TerminalEvidence, SpawnFailure, CutoverFacts, MessageStep;
    }
  }

  lemma MessageSetsNoDeadline(s: State, m: GuardianMessage)
    ensures var t := MessageStep(s, m).state;
            t.life.coordinator == s.life.coordinator && t.timers.cutoverDeadline == s.timers.cutoverDeadline
  {
    hide FactsAfter;
  }

  lemma DecideSetsDeadlineOnce(s: State, e: Event)
    requires Enabled(s, e) && e.DecideReturned?
    ensures BeginsCutover(s, Step(s, e).state) ==> Step(s, e).state.timers.cutoverDeadline == Some(e.now + CUTOVER)
    ensures !s.life.coordinator.Observing? ==>
              !Step(s, e).state.life.coordinator.Observing? && Step(s, e).state.timers.cutoverDeadline == s.timers.cutoverDeadline
  {
  }

  /** The freeze begins only when the cutover deadline has passed. */
  lemma FreezeWaits(s: State, e: Event)
    requires Enabled(s, e) && BeginsFreeze(s, Step(s, e).state)
    ensures e.CutoverFired? && s.life.coordinator.CuttingOver?
    ensures s.timers.cutoverDeadline.Some? && e.now >= s.timers.cutoverDeadline.value
  {
    hide FactsAfter, TerminalEvidence, SpawnFailure, CutoverFacts, FinishTask, Cleared;
    if e.DecideReturned? {
    } else if e.MessageArrived? {
    } else if ReadsClock(e) {
    }
  }

  /** Deadline and phase between the step that began the cutover and a later position. */
  lemma {:induction false} DeadlineStays(run: nat -> Event, i: nat, k: nat)
    requires i < k && BeginsCutover(At(run, i), At(run, i + 1))
    ensures ReadsClock(run(i)) && !At(run, k).life.coordinator.Observing?
    ensures At(run, k).timers.cutoverDeadline == Some(run(i).now + CUTOVER)
  {
    hide Step, Enabled;
    if k == i + 1 {
      CutoverDeadlineIsSetOnce(At(run, i), run(i));
    } else {
      DeadlineStays(run, i, k - 1);
      if Enabled(At(run, k - 1), run(k - 1)) {
        CutoverDeadlineIsSetOnce(At(run, k - 1), run(k - 1));
      }
    }
  }

  /** However early the timers fire, intake stops no sooner than one cutover interval after the cutover began. */
  lemma CutoverLasts(run: nat -> Event, i: nat, k: nat)
    requires i < k && BeginsCutover(At(run, i), At(run, i + 1)) && BeginsFreeze(At(run, k), At(run, k + 1))
    ensures ReadsClock(run(i)) && ReadsClock(run(k)) && run(k).now >= run(i).now + CUTOVER
  {
    hide Step, Enabled;
    DeadlineStays(run, i, k);
    FreezeWaits(At(run, k), run(k));
  }

  // ---------------------------------------------------------------- one frozen snapshot

  /** What a queued publication says is what the runner knows, and for a terminal one will ever know. */
  predicate TaskOk(t: Task, facts: Facts, frozen: Option<Frozen>, stopping: bool) {
    if t.final then
      && stopping
      && (t.input == SpawnFailure(facts.deadlineObserved)
          || (frozen.Some? && t.input == TerminalEvidence(facts, frozen.value)))
    else t.input == LAUNCHED && facts.launched
  }

  ghost predicate QueueOk(queue: seq<Task>, facts: Facts, frozen: Option<Frozen>, stopping: bool) {
    forall i :: 0 <= i < |queue| ==> TaskOk(queue[i], facts, frozen, stopping)
  }

  ghost predicate Snapshotted(s: State) {
    && QueueOk(s.chain.queue, s.facts, s.capture.frozen, s.life.stopping)
    && (s.capture.frozen.Some? ==> !s.sealing && s.life.stopping && !s.timers.cutoverArmed)
    && (s.sealing || s.discarding ==> s.life.stopping)
  }

  /** Facts are fixed once the runner is stopping, and a launch report is never withdrawn. */
  lemma FactsSettle(s: State, e: Event)
    requires Enabled(s, e)
    ensures s.life.stopping ==> Step(s, e).state.facts == s.facts && Step(s, e).state.life.stopping
    ensures s.facts.launched ==> Step(s, e).state.facts.launched
  {
    hide TerminalEvidence, SpawnFailure, CutoverFacts, FinishTask, Cleared;
    if ChainEvent(e) {
      TaskMoves(s, e);
      hide Step;
    } else if e.DecideReturned? {
    } else if e.MessageArrived? {
    } else if ReadsClock(e) {
    }
  }

  /** How a step moves the publication chain. */
  ghost predicate QueueMoves(s: State, t: State, e: Event) {
    || t.chain.queue == s.chain.queue
    || (s.chain.queue != [] && t.chain.queue == s.chain.queue[1..])
    || (e.MessageArrived? && !s.life.stopping && t.facts.launched && t.chain.queue == s.chain.queue + [Task(LAUNCHED, false)])
    || (e.DiscardReturned? && t.chain.queue == s.chain.queue + [Task(SpawnFailure(t.facts.deadlineObserved), true)])
    || (e.SealReturned? && t.capture.frozen.Some?
        && t.chain.queue == s.chain.queue + [Task(TerminalEvidence(t.facts, t.capture.frozen.value), true)])
  }

  lemma StepMovesQueue(s: State, e: Event)
    requires Enabled(s, e)
    ensures QueueMoves(s, Step(s, e).state, e)
  {
    hide TerminalEvidence, SpawnFailure, CutoverFacts, Cleared;
    if e.DecideReturned? {
    } else if e.MessageArrived? {
    } else if ReadsClock(e) {
    }
  }

  lemma StepFreezes(s: State, e: Event)
    requires Enabled(s, e)
    ensures Step(s, e).state.capture.frozen == s.capture.frozen || e.SealReturned?
    ensures Step(s, e).state.sealing ==> s.sealing || (s.timers.cutoverArmed && Step(s, e).state.life.stopping)
    ensures Step(s, e).state.discarding ==> s.discarding || Step(s, e).state.life.stopping
  {
    hide TerminalEvidence, SpawnFailure, CutoverFacts, FinishTask, FactsAfter;
    if ChainEvent(e) {
      TaskMoves(s, e);
      hide Step;
    } else if e.DecideReturned? {
    } else if e.MessageArrived? {
    } else if ReadsClock(e) {
    }
  }

  /** Only the head of the chain is ever published. */
  lemma OnlyHeadIsPublished(s: State, e: Event)
    requires Enabled(s, e)
    ensures forall expected, input :: CallPublish(expected, input) in Step(s, e).requests ==>
              s.chain.queue != [] && input == s.chain.queue[0].input
  {
    hide TerminalEvidence, SpawnFailure, CutoverFacts, FinishTask, FactsAfter;
    if e.DecideReturned? {
    } else if e.MessageArrived? {
    } else if ReadsClock(e) {
    }
  }

  /** Every publication request carries the facts the runner holds, with the streams as they were frozen. */
  lemma PublishesWhatItFroze(s: State, e: Event)
    requires Live(s) && Snapshotted(s) && Enabled(s, e)
    ensures Snapshotted(Step(s, e).state)
    ensures s.capture.frozen.Some? ==> Step(s, e).state.capture.frozen == s.capture.frozen
    ensures forall expected, input :: CallPublish(expected, input) in Step(s, e).requests ==>
              s.chain.queue != [] && input == s.chain.queue[0].input && TaskOk(s.chain.queue[0], s.facts, s.capture.frozen, s.life.stopping)
  {
    assert s.sealing ==> s.life.coordinator.Freezing? || s.life.closed;
    FactsSettle(s, e);
    StepMovesQueue(s, e);
    StepFreezes(s, e);
    OnlyHeadIsPublished(s, e);
    NoTimerAfterFreeze(s, e);
    hide Live, Step, Enabled, TerminalEvidence, SpawnFailure, External;
  }

  lemma NoTimerAfterFreeze(s: State, e: Event)
    requires Live(s) && Snapshotted(s) && Enabled(s, e)
    ensures Step(s, e).state.capture.frozen.Some? ==> !Step(s, e).state.timers.cutoverArmed && !Step(s, e).state.sealing
  {
    hide QueueOk, OwesClose, TerminalEvidence, SpawnFailure, CutoverFacts, FinishTask, FactsAfter;
    if ChainEvent(e) {
      TaskMoves(s, e);
      hide Step;
    } else if e.DecideReturned? {
    } else if e.MessageArrived? {
    } else if ReadsClock(e) {
    }
  }

  // ---------------------------------------------------------------- what the store makes of it

  /** A snapshot that holds nothing, or nothing but the launch this runner reported. */
  predicate OnlyLaunch(prior: Evidence, facts: Facts) {
    && SameFacts(prior.(launch := Unknown), INITIAL)
    && (prior.launch.Unknown? || (prior.launch.Launched? && facts.launched))
  }

  /** The terminal evidence contradicts the runner's own earlier publication only if it has both a code and a signal. */
  lemma TerminalIsAccepted(prior: Evidence, facts: Facts, frozen: Frozen)
    requires OnlyLaunch(prior, facts)
    ensures Merge(prior, TerminalEvidence(facts, frozen), false, true).Success?
       <==> !(facts.shellCode.Some? && facts.shellSignal.Some?)
  {
  }

  /** A spawn failure is accepted exactly on a snapshot without a launch. */
  lemma SpawnFailureIsAccepted(prior: Evidence, facts: Facts)
    requires OnlyLaunch(prior, facts)
    ensures Merge(prior, SpawnFailure(facts.deadlineObserved), false, true).Success? <==> prior.launch.Unknown?
  {
  }
}
