/**
 What the runner tells the store, over every run from its start and in terms of the run's events:
 the messages it heard, what the captures reported when they were sealed, and the revisions it learned.
 */
module RunnerEvidence {
  import opened Wrappers
  import opened StoreEvidence
  import opened JobStore
  import opened GuardianProtocol
  import opened Runner
  import opened RunnerDecisions
  import RunnerProgress
  import RunnerTerminals

  // ---------------------------------------------------------------- what a run heard

  function StateAfter(events: seq<Event>): State {
    var h := RunnerTerminals.Run(events);
    if h.Some? then h.value.state else START
  }

  /** The messages the runner heard before it was stopping, in order. */
  function Heard(events: seq<Event>): seq<GuardianMessage> {
    if events == [] then []
    else
      var init, e := events[..|events| - 1], events[|events| - 1];
      if e.MessageArrived? && !StateAfter(init).life.stopping then Heard(init) + [e.message] else Heard(init)
  }

  /** The code and the signal of the last exit reported after a spawn receipt. */
  function LastExit(heard: seq<GuardianMessage>): (Option<int>, Option<string>) {
    if heard == [] then (None, None)
    else
      var init, m := heard[..|heard| - 1], heard[|heard| - 1];
      if m.ShellExit? && ShellSpawned in init then (m.code, m.signal) else LastExit(init)
  }

  function LastTerm(heard: seq<GuardianMessage>): Option<TermObservation> {
    if heard == [] then None
    else
      var m := heard[|heard| - 1];
      if m.CleanupTerm? then Some(m.observation) else LastTerm(heard[..|heard| - 1])
  }

  predicate DeadlineHeard(heard: seq<GuardianMessage>) {
    Deadline in heard || ShellError(ExpiredBeforeSpawn) in heard
  }

  /** Some authorization was fresh and wanted, so the captures were attached. */
  function Attached(events: seq<Event>): bool {
    events != [] && (var init, e := events[..|events| - 1], events[|events| - 1];
                     Attached(init) || Authorizes(StateAfter(init), e))
  }

  /** Each time the captures were attached, both could be created. */
  function SetUp(events: seq<Event>): bool {
    events == [] || (var init, e := events[..|events| - 1], events[|events| - 1];
                     SetUp(init) && (Authorizes(StateAfter(init), e) ==> e.setup))
  }

  /** Ends are observed until the freeze. */
  predicate Counts(s: State, e: Event) {
    e.StreamEnded? && !s.life.closed && !s.life.coordinator.Freezing? && !s.life.coordinator.Publishing?
  }

  /** The stream ended after the captures were last attached and before the freeze. */
  function Ended(events: seq<Event>, isStdout: bool): bool {
    events != [] && (var init, e := events[..|events| - 1], events[|events| - 1];
                     || (Counts(StateAfter(init), e) && e.isStdout == isStdout)
                     || (Ended(init, isStdout) && !Authorizes(StateAfter(init), e)))
  }

  /** The store's last answer about a revision: of a publication that landed, or of a launch found there. */
  function LastRevision(events: seq<Event>): Option<int> {
    if events == [] then None
    else
      var e := events[|events| - 1];
      if e.PublishReturned? && e.published.Some? then e.published
      else if e.ObserveReturned? && e.observed.Some? then e.observed
      else LastRevision(events[..|events| - 1])
  }

  // ---------------------------------------------------------------- facts are what was heard

  ghost predicate FactsAre(f: Facts, heard: seq<GuardianMessage>) {
    && (f.launched <==> ShellSpawned in heard)
    && (f.shellCode, f.shellSignal) == LastExit(heard)
    && f.term == LastTerm(heard)
    && (f.killIntent <==> CleanupKillIntent in heard)
    && (f.deadlineObserved <==> DeadlineHeard(heard))
  }

  lemma FactsGain(f: Facts, heard: seq<GuardianMessage>, m: GuardianMessage)
    requires FactsAre(f, heard)
    ensures FactsAre(FactsAfter(f, m), heard + [m])
  {
    assert (heard + [m])[..|heard|] == heard;
  }

  lemma OnlyMessagesInform(s: State, e: Event)
    requires Enabled(s, e)
    ensures Step(s, e).state.facts ==
            (if e.MessageArrived? && !s.life.stopping then FactsAfter(s.facts, e.message) else s.facts)
  {
    hide TerminalEvidence, SpawnFailure, CutoverFacts, Cleared;
    match e
    case MessageArrived(m) =>
    case DecideReturned(_, _, _, _, _) =>
    case _ =>
  }

  ghost predicate CaptureIs(c: Capture, events: seq<Event>) {
    && (c.attached <==> Attached(events))
    && (c.setupFailed <==> !SetUp(events))
    && (c.stdoutEnded <==> Ended(events, true))
    && (c.stderrEnded <==> Ended(events, false))
  }

  /** Only an authorization and the end of a stream change what is known of the captures. */
  lemma OnlyTheyTouchCaptures(s: State, e: Event)
    requires Enabled(s, e) && !e.DecideReturned? && !e.StreamEnded? && !e.SealReturned?
    ensures Step(s, e).state.capture == s.capture
  {
    hide TerminalEvidence, SpawnFailure, CutoverFacts, Cleared, FactsAfter;
    match e
    case MessageArrived(m) =>
    case PublishReturned(_) =>
    case PublicationStarted =>
    case GuardianLost(_) =>
    case GuardianExited(_) =>
    case _ =>
  }

  lemma CaptureFollows(s: State, e: Event)
    requires Enabled(s, e)
    ensures var c, t := s.capture, Step(s, e).state.capture;
            && (t.attached <==> c.attached || Authorizes(s, e))
            && (t.setupFailed <==> c.setupFailed || (Authorizes(s, e) && !e.setup))
            && (t.stdoutEnded <==> (Counts(s, e) && e.isStdout) || (c.stdoutEnded && !Authorizes(s, e)))
            && (t.stderrEnded <==> (Counts(s, e) && !e.isStdout) || (c.stderrEnded && !Authorizes(s, e)))
  {
    if !e.DecideReturned? && !e.StreamEnded? && !e.SealReturned? {
      OnlyTheyTouchCaptures(s, e);
      hide Step;
    }
  }

  lemma RevisionFollows(s: State, e: Event)
    requires Enabled(s, e)
    ensures Step(s, e).state.chain.revision ==
            (if e.PublishReturned? && e.published.Some? then e.published
             else if e.ObserveReturned? && e.observed.Some? then e.observed else s.chain.revision)
  {
    hide TerminalEvidence, SpawnFailure, CutoverFacts, Cleared, FactsAfter;
    match e
    case MessageArrived(m) =>
    case DecideReturned(_, _, _, _, _) =>
    case PublishReturned(_) =>
    case _ =>
  }

  /** What a reached state knows is what the run's events said. */
  ghost predicate Remembers(s: State, events: seq<Event>) {
    FactsAre(s.facts, Heard(events)) && CaptureIs(s.capture, events) && s.chain.revision == LastRevision(events)
  }

  lemma {:induction false} RunRemembers(events: seq<Event>)
    requires RunnerTerminals.Run(events).Some?
    ensures Remembers(RunnerTerminals.Run(events).value.state, events)
  {
    if events != [] {
      var init, e := events[..|events| - 1], events[|events| - 1];
      var s := RunnerTerminals.Run(init).value.state;
      RunRemembers(init);
      OnlyMessagesInform(s, e);
      CaptureFollows(s, e);
      RevisionFollows(s, e);
      assert StateAfter(init) == s;
      hide Step, StateAfter, Authorizes, FactsAfter;
      if e.MessageArrived? && !s.life.stopping {
        FactsGain(s.facts, Heard(init), e.message);
      }
    }
  }

  // ---------------------------------------------------------------- what it publishes

  /** The capture facts of one stream: what sealing it said, or that there is no capture of it. */
  ghost predicate StreamSays(events: seq<Event>, isStdout: bool, sealed: SealResult, input: Option<StreamInput>) {
    input == Some(
      if Attached(events) && SetUp(events) then
        StreamInput(Some(Some(sealed.available)), Some(sealed.truncated), Some(sealed.incomplete), Some(sealed.openAtCutover))
      else StreamInput(Some(Some(false)), Some(false), Some(true), Some(!Ended(events, isStdout))))
  }

  /** The terminal evidence of a run whose captures were just sealed, field by field. */
  ghost predicate TerminalSays(events: seq<Event>, stdout: SealResult, stderr: SealResult, input: Observation) {
    var heard := Heard(events);
    && input.launch == Some(if ShellSpawned in heard then Launched else Unknown)
    && input.shellCode == Some(LastExit(heard).0) && input.shellSignal == Some(LastExit(heard).1)
    && input.cleanup == Some(if ShellSpawned in heard || DeadlineHeard(heard) || LastTerm(heard).Some? || CleanupKillIntent in heard
                             then Unconfirmed else NotRequested)
    && input.term == Some(LastTerm(heard)) && input.killIntent == Some(CleanupKillIntent in heard)
    && input.cancellationIntent.None? && input.deadlineTrigger == Some(DeadlineHeard(heard))
    && StreamSays(events, true, stdout, input.stdout) && StreamSays(events, false, stderr, input.stderr)
    && input.finalized == Some(true)
  }

  /** A spawn failure: no shell, nothing to clean up, no output, and whether the deadline was the reason. */
  ghost predicate FailureSays(events: seq<Event>, input: Observation) {
    var nothing := Some(StreamInput(Some(Some(false)), Some(false), Some(false), Some(false)));
    input == Observation(Some(SpawnFailed), None, None, Some(NotRequired), None, None, None,
                         Some(DeadlineHeard(Heard(events))), nothing, nothing, Some(true))
  }

  ghost predicate LaunchSays(input: Observation) {
    input == Observation(Some(Launched), None, None, Some(NotRequested), None, None, None, None, None, None, Some(false))
  }

  /** At this event of the run the publication became due, with this evidence. */
  ghost predicate ReportedAt(events: seq<Event>, j: nat, t: Task)
    requires j < |events|
  {
    var before := events[..j];
    match events[j]
    case MessageArrived(m) => m.ShellSpawned? && !StateAfter(before).life.stopping && !t.final && LaunchSays(t.input)
    case DiscardReturned => t.final && FailureSays(before, t.input)
    case SealReturned(stdout, stderr) => t.final && TerminalSays(before, stdout, stderr, t.input)
    case _ => false
  }

  ghost predicate Reported(events: seq<Event>, t: Task) {
    exists j :: 0 <= j < |events| && ReportedAt(events, j, t)
  }

  /** At this event the publication was sent, against the last revision the runner had learned. */
  ghost predicate SentAt(events: seq<Event>, k: nat, r: Request)
    requires k < |events| && r.CallPublish?
  {
    && events[k].PublicationStarted? && r.expected == LastRevision(events[..k])
    && (Reported(events[..k], Task(r.input, true)) || Reported(events[..k], Task(r.input, false)))
  }

  ghost predicate Accounted(events: seq<Event>, r: Request) {
    r.CallPublish? ==> exists k :: 0 <= k < |events| && SentAt(events, k, r)
  }

  lemma ReportExtends(events: seq<Event>, e: Event, t: Task)
    requires Reported(events, t)
    ensures Reported(events + [e], t)
  {
    var longer := events + [e];
    var j :| 0 <= j < |events| && ReportedAt(events, j, t);
    assert longer[..j] == events[..j] && longer[j] == events[j];
    hide TerminalSays, FailureSays, LaunchSays, StateAfter;
    assert ReportedAt(longer, j, t);
  }

  lemma AccountExtends(events: seq<Event>, e: Event, r: Request)
    requires Accounted(events, r)
    ensures Accounted(events + [e], r)
  {
    if r.CallPublish? {
      var longer := events + [e];
      var k :| 0 <= k < |events| && SentAt(events, k, r);
      assert longer[..k] == events[..k] && longer[k] == events[k];
      hide Reported, LastRevision;
      assert SentAt(longer, k, r);
    }
  }

  /** The event puts a publication into the chain. */
  predicate Queues(s: State, e: Event) {
    Hears(s, e, ShellSpawned) || e.DiscardReturned? || e.SealReturned?
  }

  ghost predicate ChainMoves(s: State, e: Event, t: Chain) {
    var q := s.chain.queue;
    && (Queues(s, e) ==> |t.queue| == |q| + 1 && t.queue[..|q|] == q)
    && (!Queues(s, e) ==> t.queue == if EndsLink(s, e) && q != [] then q[1..] else q)
    && t.awaiting == (if EndsLink(s, e) then Nothing
                      else if e.PublicationStarted? then PublishAnswer
                      else if e.PublishReturned? then ObserveAnswer
                      else s.chain.awaiting)
  }

  lemma LinkMoves(s: State, e: Event)
    requires Enabled(s, e) && (e.PublicationStarted? || e.PublishReturned? || e.ObserveReturned?)
    ensures ChainMoves(s, e, Step(s, e).state.chain)
  {
    hide Cleared;
  }

  /** The chain grows at its end by one link and shrinks at its head. */
  lemma ChainFollows(s: State, e: Event)
    requires Enabled(s, e)
    ensures ChainMoves(s, e, Step(s, e).state.chain)
  {
    hide TerminalEvidence, SpawnFailure, CutoverFacts, Cleared, FactsAfter;
    match e
    case MessageArrived(m) =>
    case DecideReturned(_, _, _, _, _) =>
    case PublicationStarted => LinkMoves(s, e); hide Step, ChainMoves;
    case PublishReturned(_) => LinkMoves(s, e); hide Step, ChainMoves;
    case ObserveReturned(_) => LinkMoves(s, e); hide Step, ChainMoves;
    case _ =>
  }

  /** What is put into the chain is what the run's events say. */
  lemma QueuedIsReported(events: seq<Event>, s: State, e: Event)
    requires Enabled(s, e) && Queues(s, e) && Remembers(s, events) && StateAfter(events) == s
    ensures var q := Step(s, e).state.chain.queue; q != [] && Reported(events + [e], q[|q| - 1])
  {
    hide Step, Heard, LastExit, LastTerm, LastRevision, Attached, SetUp, Ended, StateAfter, Remembers, TerminalSays, FailureSays, LaunchSays;
    var longer, q := events + [e], Step(s, e).state.chain.queue;
    assert longer[..|events|] == events && longer[|events|] == e;
    match e {
      case SealReturned(stdout, stderr) => SealSays(events, s, stdout, stderr);
      case DiscardReturned => DiscardSays(events, s);
      case MessageArrived(_) => SpawnSays(s);
    }
    ReportedBy(longer, |events|, q[|q| - 1]);
  }

  lemma ReportedBy(events: seq<Event>, j: nat, t: Task)
    requires j < |events| && ReportedAt(events, j, t)
    ensures Reported(events, t)
  {
    hide ReportedAt;
  }

  lemma SpawnSays(s: State)
    requires s.stage.Supervising? && !s.life.stopping
    ensures var q := Step(s, MessageArrived(ShellSpawned)).state.chain.queue;
            q != [] && !q[|q| - 1].final && LaunchSays(q[|q| - 1].input)
  {
  }

  lemma SealSays(events: seq<Event>, s: State, stdout: SealResult, stderr: SealResult)
    requires s.sealing && Remembers(s, events)
    ensures var q := Step(s, SealReturned(stdout, stderr)).state.chain.queue;
            q != [] && q[|q| - 1].final && TerminalSays(events, stdout, stderr, q[|q| - 1].input)
  {
    hide Heard, Attached, SetUp, Ended, LastExit, LastTerm, DeadlineHeard, LastRevision;
  }

  lemma DiscardSays(events: seq<Event>, s: State)
    requires s.discarding && Remembers(s, events)
    ensures var q := Step(s, DiscardReturned).state.chain.queue;
            q != [] && q[|q| - 1].final && FailureSays(events, q[|q| - 1].input)
  {
    hide Heard, Attached, SetUp, Ended, LastExit, LastTerm, DeadlineHeard, LastRevision;
  }

  /** Every publication in the chain and every one sent says what the run's events said. */
  ghost predicate AllReported(events: seq<Event>, queue: seq<Task>, requests: seq<Request>) {
    && (forall t :: t in queue ==> Reported(events, t))
    && (forall r :: r in requests ==> Accounted(events, r))
  }

  lemma StepReports(events: seq<Event>, s: State, e: Event, requests: seq<Request>)
    requires Enabled(s, e) && Remembers(s, events) && StateAfter(events) == s && AllReported(events, s.chain.queue, requests)
    ensures AllReported(events + [e], Step(s, e).state.chain.queue, requests + Step(s, e).requests)
  {
    var longer, t := events + [e], Step(s, e);
    ChainFollows(s, e);
    if Queues(s, e) { QueuedIsReported(events, s, e); }
    hide Step, Queues, EndsLink, StateAfter;
    forall x | x in t.state.chain.queue ensures Reported(longer, x) {
      if x in s.chain.queue { ReportExtends(events, e, x); }
    }
    forall r | r in requests + t.requests ensures Accounted(longer, r) {
      if r in requests {
        AccountExtends(events, e, r);
      } else {
        RequestIsAccounted(events, s, e, r);
      }
    }
  }

  lemma RequestIsAccounted(events: seq<Event>, s: State, e: Event, r: Request)
    requires Enabled(s, e) && Remembers(s, events) && r in Step(s, e).requests
    requires forall t :: t in s.chain.queue ==> Reported(events, t)
    ensures Accounted(events + [e], r)
  {
    AsksExactly(s, e, r);
    if r.CallPublish? {
      var longer := events + [e];
      assert longer[..|events|] == events && longer[|events|] == e;
      var head := s.chain.queue[0];
      assert head == Task(r.input, head.final);
      hide Step, Reported, LastRevision, FactsAre, CaptureIs;
      assert SentAt(longer, |events|, r);
    }
  }

  /**
   Over every run from the start: each publication that reaches the store is due at an earlier event
   of the run, carries what the run had heard by then and what the seal of that event reported of
   each stream, and expects the last revision the runner had learned when it was sent.
   */
  lemma {:induction false} PublicationsAreReported(events: seq<Event>)
    requires RunnerTerminals.Run(events).Some?
    ensures var h := RunnerTerminals.Run(events).value; AllReported(events, h.state.chain.queue, h.requests)
  {
    hide RunnerTerminals.Run, AllReported, Step, Remembers, StateAfter, Enabled;
    if events == [] {
      NothingReported();
    } else {
      LastStep(events);
      var init, e := events[..|events| - 1], events[|events| - 1];
      var before := RunnerTerminals.Run(init).value;
      assert events == init + [e];
      PublicationsAreReported(init);
      RunRemembers(init);
      StepReports(init, before.state, e, before.requests);
    }
  }

  lemma NothingReported()
    ensures var h := RunnerTerminals.Run([]); h.Some? && AllReported([], h.value.state.chain.queue, h.value.requests)
  {
  }

  /** The last step of a run. */
  lemma LastStep(events: seq<Event>)
    requires events != [] && RunnerTerminals.Run(events).Some?
    ensures var init, e := events[..|events| - 1], events[|events| - 1];
            && RunnerTerminals.Run(init).Some?
            && var before, after := RunnerTerminals.Run(init).value, RunnerTerminals.Run(events).value;
               && Enabled(before.state, e) && StateAfter(init) == before.state
               && after.state == Step(before.state, e).state
               && after.requests == before.requests + Step(before.state, e).requests
  {
    hide Step;
  }

  /** The terminal publication of a run that did not fail to spawn carries the seal of each stream as its own. */
  lemma TerminalCarriesTheSeals(events: seq<Event>, r: Request)
    requires RunnerTerminals.Run(events).Some? && r in RunnerTerminals.Run(events).value.requests
    requires r.CallPublish? && r.input.finalized == Some(true) && r.input.launch != Some(SpawnFailed)
    ensures Sealed(events, r.input)
  {
    PublicationsAreReported(events);
    assert Accounted(events, r);
    hide RunnerTerminals.Run, AllReported, Reported, LastRevision, Sealed;
    var k :| 0 <= k < |events| && SentAt(events, k, r);
    ReportedIsSealed(events, k, Task(r.input, Reported(events[..k], Task(r.input, true))));
  }

  lemma ReportedIsSealed(events: seq<Event>, k: nat, t: Task)
    requires k <= |events| && Reported(events[..k], t) && t.input.finalized == Some(true) && t.input.launch != Some(SpawnFailed)
    ensures Sealed(events, t.input)
  {
    var j :| 0 <= j < k && ReportedAt(events[..k], j, t);
    assert events[..k][..j] == events[..j] && events[..k][j] == events[j];
    hide TerminalSays, StateAfter, Heard;
    assert SealedAt(events, j, t.input);
  }

  /** At some event both captures were sealed, and the evidence says what the run had heard and what the seals said. */
  ghost predicate Sealed(events: seq<Event>, input: Observation) {
    exists j :: 0 <= j < |events| && SealedAt(events, j, input)
  }

  ghost predicate SealedAt(events: seq<Event>, j: nat, input: Observation)
    requires j < |events|
  {
    events[j].SealReturned? && TerminalSays(events[..j], events[j].stdout, events[j].stderr, input)
  }
}
