/**
 Terminal publications of one runner, over every run from its start: two may be queued, and exactly
 when is stated; at most one is ever sent to the store.
 */
module RunnerTerminals {
  import opened Wrappers
  import opened Sequences
  import opened StoreEvidence
  import opened JobStore
  import opened GuardianProtocol
  import opened Runner
  import opened RunnerProgress

  /** Where a run led, everything it asked for, and the terminal publications it queued. */
  datatype History = History(state: State, requests: seq<Request>, queued: seq<Task>)

  /** The terminal publication a step appends to the chain. */
  function NewTerminal(s: State, t: State): seq<Task> {
    if |t.chain.queue| > |s.chain.queue| && t.chain.queue[|t.chain.queue| - 1].final then [t.chain.queue[|t.chain.queue| - 1]] else []
  }

  /** The history of a run from the start, if every event could be delivered. */
  function Run(events: seq<Event>): Option<History> {
    if events == [] then Some(History(START, [], []))
    else
      var before :- Run(events[..|events| - 1]);
      Extend(before, events[|events| - 1])
  }

  function Extend(h: History, e: Event): Option<History> {
    if !Enabled(h.state, e) then None
    else
      var t := Step(h.state, e);
      Some(History(t.state, h.requests + t.requests, h.queued + NewTerminal(h.state, t.state)))
  }

  lemma RunExtends(events: seq<Event>, e: Event)
    ensures Run(events + [e]) == if Run(events).None? then None else Extend(Run(events).value, e)
  {
    assert (events + [e])[..|events|] == events;
  }

  /** The terminal evidence a request carries to the store. */
  function TerminalOf(r: Request): seq<Observation> {
    if r.CallPublish? && r.input.finalized == Some(true) then [r.input] else []
  }

  function TerminalsSent(requests: seq<Request>): seq<Observation> {
    FlatMap(TerminalOf, requests)
  }

  // ---------------------------------------------------------------- at most one is sent

  /** The head of the chain is terminal and with the store. */
  predicate TerminalUnderWay(s: State) {
    s.chain.queue != [] && s.chain.queue[0].final && s.chain.awaiting.PublishAnswer?
  }

  predicate Publishes(requests: seq<Request>) {
    exists i :: 0 <= i < |requests| && requests[i].CallPublish?
  }

  lemma ClosedSendsNothing(s: State, e: Event)
    requires Enabled(s, e) && s.life.closed
    ensures Step(s, e).state.life.closed && !Publishes(Step(s, e).requests)
  {
    hide TerminalEvidence, SpawnFailure, CutoverFacts, FactsAfter, Cleared;
    if e.DecideReturned? {
    } else if e.MessageArrived? {
    } else if ReadsClock(e) {
    }
  }

  /** A terminal publication under way stays the head until its end closes the runner. */
  lemma HeadStays(s: State, e: Event)
    requires Enabled(s, e) && TerminalUnderWay(s)
    ensures Step(s, e).state.life.closed || TerminalUnderWay(Step(s, e).state)
    ensures !Publishes(Step(s, e).requests)
  {
    hide TerminalEvidence, SpawnFailure, CutoverFacts, FactsAfter, Cleared;
    match e
    case PublishReturned(published) => HeadEnds(s, published);
    case DecideReturned(_, _, _, _, _) =>
    case MessageArrived(_) =>
    case _ =>
  }

  lemma HeadEnds(s: State, published: Option<int>)
    requires TerminalUnderWay(s)
    ensures PublishedStep(s, published).state.life.closed && !Publishes(PublishedStep(s, published).requests)
  {
  }

  /** What a step sends: the head of the chain, which is then under way, or nothing to publish. */
  lemma SendsHead(s: State, e: Event)
    requires Enabled(s, e)
    ensures TerminalsSent(Step(s, e).requests) == [] ||
            (s.chain.queue != [] && TerminalsSent(Step(s, e).requests) == [s.chain.queue[0].input]
             && Step(s, e).state.chain == s.chain.(awaiting := PublishAnswer) && s.chain.queue[0].input.finalized == Some(true))
  {
    var requests := Step(s, e).requests;
    AsksOnce(s, e);
    hide Step;
    if requests != [] {
      assert requests == [requests[0]] && requests[..0] == [];
      assert FlatMap(TerminalOf, requests) == FlatMap(TerminalOf, requests[..0]) + TerminalOf(requests[0]);
    }
  }

  lemma AsksOnce(s: State, e: Event)
    requires Enabled(s, e)
    ensures var t := Step(s, e);
            && |t.requests| <= 1
            && (t.requests != [] && t.requests[0].CallPublish? ==>
                  s.chain.queue != [] && t.requests[0].input == s.chain.queue[0].input
                  && t.state.chain == s.chain.(awaiting := PublishAnswer))
  {
    hide TerminalEvidence, SpawnFailure, CutoverFacts, FactsAfter, Cleared;
    if e.DecideReturned? {
    } else if e.MessageArrived? {
    } else if ReadsClock(e) {
    }
  }

  ghost predicate SentOk(s: State, sent: nat) {
    && Live(s) && Snapshotted(s)
    && (sent == 0 || (sent == 1 && (s.life.closed || TerminalUnderWay(s))))
  }

  lemma StepKeepsSent(s: State, e: Event, sent: nat)
    requires SentOk(s, sent) && Enabled(s, e)
    ensures SentOk(Step(s, e).state, sent + |TerminalsSent(Step(s, e).requests)|)
  {
    StepKeepsLive(s, e);
    PublishesWhatItFroze(s, e);
    SendsHead(s, e);
    if s.life.closed {
      ClosedSendsNothing(s, e);
      NothingTerminal(Step(s, e).requests);
    } else if TerminalUnderWay(s) {
      HeadStays(s, e);
      NothingTerminal(Step(s, e).requests);
    }
    if s.chain.queue != [] {
      assert TaskOk(s.chain.queue[0], s.facts, s.capture.frozen, s.life.stopping);
    }
    hide Step, Live, Snapshotted, TerminalsSent, Enabled;
  }

  lemma NothingTerminal(requests: seq<Request>)
    requires !Publishes(requests)
    ensures TerminalsSent(requests) == []
  {
    FlatMapEmpty(TerminalOf, requests);
  }

  lemma {:induction false} RunKeepsSent(events: seq<Event>)
    requires Run(events).Some?
    ensures SentOk(Run(events).value.state, |TerminalsSent(Run(events).value.requests)|)
  {
    if events != [] {
      var before, e := Run(events[..|events| - 1]).value, events[|events| - 1];
      RunKeepsSent(events[..|events| - 1]);
      StepKeepsSent(before.state, e, |TerminalsSent(before.requests)|);
      FlatMapConcat(TerminalOf, before.requests, Step(before.state, e).requests);
      hide Step, SentOk, Enabled;
    }
  }

  /** In every run at most one terminal publication reaches the store client. */
  lemma AtMostOneTerminalSent(events: seq<Event>)
    requires Run(events).Some?
    ensures |TerminalsSent(Run(events).value.requests)| <= 1
  {
    RunKeepsSent(events);
    hide Run, TerminalsSent;
  }

  // ---------------------------------------------------------------- when two are queued

  /** The cutover timer fires, due, in a runner that a spawn failure has already stopped. */
  predicate FreezesStopped(s: State, e: Event) {
    && e.CutoverFired? && s.timers.cutoverArmed && s.life.coordinator.CuttingOver? && s.life.stopping
    && s.timers.cutoverDeadline.Some? && s.timers.cutoverDeadline.value <= e.now
  }

  predicate FreezesStoppedAt(events: seq<Event>, i: nat)
    requires i < |events|
  {
    Run(events[..i]).Some? && FreezesStopped(Run(events[..i]).value.state, events[i])
  }

  predicate Overlaps(events: seq<Event>) {
    exists i :: 0 <= i < |events| && FreezesStoppedAt(events, i)
  }

  lemma OverlapsExtends(events: seq<Event>, e: Event)
    ensures Overlaps(events + [e]) <==> Overlaps(events) || (Run(events).Some? && FreezesStopped(Run(events).value.state, e))
  {
    var longer := events + [e];
    forall i | 0 <= i < |events| ensures FreezesStoppedAt(longer, i) == FreezesStoppedAt(events, i) {
      assert longer[..i] == events[..i] && longer[i] == events[i];
    }
    assert longer[..|events|] == events && longer[|events|] == e;
    assert FreezesStoppedAt(longer, |events|) == (Run(events).Some? && FreezesStopped(Run(events).value.state, e));
    hide FreezesStoppedAt, Run;
    if i :| 0 <= i < |events| && FreezesStoppedAt(events, i) {
      assert FreezesStoppedAt(longer, i);
    }
  }

  /** Terminal publications queued so far or certain to be, once discarding and sealing return. */
  function Committed(s: State, queued: nat): nat {
    queued + (if s.discarding then 1 else 0) + (if s.sealing then 1 else 0)
  }

  predicate BeforeFreeze(s: State) {
    s.life.coordinator.Observing? || s.life.coordinator.CuttingOver?
  }

  /** Before the freeze a stopping runner is one that declared a spawn failure, and that is one publication. */
  predicate CommittedOk(s: State, queued: nat, overlaps: bool) {
    if BeforeFreeze(s) then !s.life.closed && !overlaps && Committed(s, queued) == (if s.life.stopping then 1 else 0)
    else s.life.stopping && Committed(s, queued) <= 2 && (Committed(s, queued) == 2 <==> overlaps)
  }

  /** How a step changes the count: a latched spawn failure or a begun freeze adds one, a return moves one into the queue. */
  ghost predicate CountMoves(s: State, e: Event, t: State) {
    var added := |NewTerminal(s, t)|;
    if FreezesStopped(s, e) then !BeforeFreeze(t) && t.life.stopping && Committed(t, added) == Committed(s, 0) + 1
    else if BeforeFreeze(s) && !s.life.stopping && BeforeFreeze(t) then
      t.life.closed == s.life.closed && Committed(t, added) == Committed(s, 0) + (if t.life.stopping then 1 else 0)
    else if BeforeFreeze(s) && !s.life.stopping then t.life.stopping && Committed(t, added) <= Committed(s, 0) + 1
    else t.life.stopping && Committed(t, added) == Committed(s, 0) && (BeforeFreeze(t) ==> BeforeFreeze(s) && t.life.closed == s.life.closed)
  }

  /** Only the returns of discarding and sealing append a terminal publication. */
  lemma TerminalsAppended(s: State, e: Event)
    requires Enabled(s, e)
    ensures |NewTerminal(s, Step(s, e).state)| == if e.DiscardReturned? || e.SealReturned? then 1 else 0
  {
    StepMovesQueue(s, e);
    if e.DiscardReturned? || e.SealReturned? {
      TerminalsAreAppended(s, e);
    }
    hide Step, Enabled;
  }

  lemma TerminalsAreAppended(s: State, e: Event)
    requires Enabled(s, e) && (e.DiscardReturned? || e.SealReturned?)
    ensures |Step(s, e).state.chain.queue| == |s.chain.queue| + 1 && Step(s, e).state.chain.queue[|s.chain.queue|].final
  {
    hide TerminalEvidence, SpawnFailure, CutoverFacts;
  }

  lemma MessageCounts(s: State, e: Event)
    requires Live(s) && Enabled(s, e) && (BeforeFreeze(s) ==> !s.life.closed) && e.MessageArrived?
    ensures CountMoves(s, e, Step(s, e).state)
  {
    TerminalsAppended(s, e);
    hide NewTerminal, OwesClose, RunnerProgress.Pending, TerminalEvidence, SpawnFailure, CutoverFacts, FactsAfter, Cleared, FinishTask;
  }

  lemma DecideCounts(s: State, e: Event)
    requires Live(s) && Enabled(s, e) && (BeforeFreeze(s) ==> !s.life.closed) && e.DecideReturned?
    ensures CountMoves(s, e, Step(s, e).state)
  {
    TerminalsAppended(s, e);
    hide NewTerminal, OwesClose, RunnerProgress.Pending, TerminalEvidence, SpawnFailure, CutoverFacts, FactsAfter, Cleared, FinishTask;
  }

  lemma LossCounts(s: State, e: Event)
    requires Live(s) && Enabled(s, e) && (BeforeFreeze(s) ==> !s.life.closed) && (e.GuardianLost? || e.GuardianExited? || e.GrantSendFailed?)
    ensures CountMoves(s, e, Step(s, e).state)
  {
    TerminalsAppended(s, e);
    hide NewTerminal, OwesClose, RunnerProgress.Pending, TerminalEvidence, SpawnFailure, CutoverFacts, FactsAfter, Cleared, FinishTask;
  }

  lemma TimerCounts(s: State, e: Event)
    requires Live(s) && Enabled(s, e) && (BeforeFreeze(s) ==> !s.life.closed) && TimerEvent(e)
    ensures CountMoves(s, e, Step(s, e).state)
  {
    TerminalsAppended(s, e);
    hide NewTerminal, OwesClose, RunnerProgress.Pending, TerminalEvidence, SpawnFailure, CutoverFacts, FactsAfter, Cleared, FinishTask;
  }

  lemma ChainCounts(s: State, e: Event)
    requires Live(s) && Enabled(s, e) && (BeforeFreeze(s) ==> !s.life.closed) && ChainEvent(e)
    ensures CountMoves(s, e, Step(s, e).state)
  {
    TerminalsAppended(s, e);
    hide NewTerminal, OwesClose, RunnerProgress.Pending, TerminalEvidence, SpawnFailure, CutoverFacts, FactsAfter, Cleared, FinishTask;
  }

  lemma StepCounts(s: State, e: Event)
    requires Live(s) && Enabled(s, e) && (BeforeFreeze(s) ==> !s.life.closed)
    ensures CountMoves(s, e, Step(s, e).state)
  {
    hide CountMoves, Step, Live, Enabled;
    if e.MessageArrived? {
      MessageCounts(s, e);
    } else if e.DecideReturned? {
      DecideCounts(s, e);
    } else if e.GuardianLost? || e.GuardianExited? || e.GrantSendFailed? {
      LossCounts(s, e);
    } else if TimerEvent(e) {
      TimerCounts(s, e);
    } else if ChainEvent(e) {
      ChainCounts(s, e);
    } else {
      OtherCounts(s, e);
    }
  }

  lemma OtherCounts(s: State, e: Event)
    requires Live(s) && Enabled(s, e) && (BeforeFreeze(s) ==> !s.life.closed) && (e.ClaimReturned? || e.LoadReturned? || e.StreamEnded? || e.DiscardReturned? || e.SealReturned?)
    ensures CountMoves(s, e, Step(s, e).state)
  {
    TerminalsAppended(s, e);
    hide NewTerminal, OwesClose, RunnerProgress.Pending, TerminalEvidence, SpawnFailure, CutoverFacts, FactsAfter, Cleared, FinishTask;
  }

  lemma CountsKept(s: State, e: Event, t: State, queued: nat, overlaps: bool)
    requires CommittedOk(s, queued, overlaps) && CountMoves(s, e, t) && Live(s)
    ensures CommittedOk(t, queued + |NewTerminal(s, t)|, overlaps || FreezesStopped(s, e))
  {
    hide Live, NewTerminal;
  }

  lemma ExtendCounts(h: History, e: Event, overlaps: bool)
    requires Live(h.state) && CommittedOk(h.state, |h.queued|, overlaps) && Enabled(h.state, e)
    ensures var next := Extend(h, e).value;
            Live(next.state) && CommittedOk(next.state, |next.queued|, overlaps || FreezesStopped(h.state, e))
  {
    assert BeforeFreeze(h.state) ==> !h.state.life.closed;
    hide Step, Live, Enabled, NewTerminal, CommittedOk, CountMoves, FreezesStopped;
    StepKeepsLive(h.state, e);
    StepCounts(h.state, e);
    CountsKept(h.state, e, Step(h.state, e).state, |h.queued|, overlaps);
  }

  lemma StartCounts()
    ensures Live(START) && CommittedOk(START, 0, Overlaps([]))
  {
  }

  lemma {:induction false} RunCounts(events: seq<Event>)
    requires Run(events).Some?
    ensures Live(Run(events).value.state)
    ensures CommittedOk(Run(events).value.state, |Run(events).value.queued|, Overlaps(events))
  {
    hide Extend, Live, Enabled, Overlaps, CommittedOk, FreezesStopped, Step;
    if events == [] {
      StartCounts();
    } else {
      var init, e := events[..|events| - 1], events[|events| - 1];
      RunSplits(events);
      hide Run;
      RunCounts(init);
      OverlapsExtends(init, e);
      assert events == init + [e];
      ExtendCounts(Run(init).value, e, Overlaps(init));
    }
  }

  lemma RunSplits(events: seq<Event>)
    requires events != [] && Run(events).Some?
    ensures var init, e := events[..|events| - 1], events[|events| - 1];
            Run(init).Some? && Enabled(Run(init).value.state, e) && Run(events) == Extend(Run(init).value, e)
  {
  }

  /**
   Two terminal publications are queued, or certain to be, exactly in the runs in which the due cutover
   timer finds the runner stopped by a spawn failure; otherwise at most one is.
   */
  lemma TwoTerminalsQueuedIff(events: seq<Event>)
    requires Run(events).Some?
    ensures var h := Run(events).value;
            && Committed(h.state, |h.queued|) <= 2
            && (Committed(h.state, |h.queued|) == 2 <==> Overlaps(events))
            && (!h.state.discarding && !h.state.sealing ==> (|h.queued| == 2 <==> Overlaps(events)))
  {
    RunCounts(events);
    hide Run, Live, Overlaps;
  }

  // ---------------------------------------------------------------- such a run

  const NO_CAPTURE := SealResult(false, false, true, true)

  /** Granted, then the budget runs out and the cutover begins at time 0 without a word about the shell. */
  function CutoverRun(o: Orders): seq<Event> {
    [ClaimReturned(true)] + [LoadReturned(Some(o), true, true)] + [MessageArrived(Topology(true))]
    + [DecideReturned(Success(AuthorizedNow), true, true, true, 0)] + [DeadlineFired] + [BudgetFired(0)]
  }

  function CuttingState(o: Orders): State {
    START.(stage := Supervising, orders := Some(o), gate := Gate(true, true, true, 0), capture := Capture(true, false, false, false, None),
           life := Life(false, false, false, CuttingOver), timers := Timers(true, false, Spent, true, Some(CUTOVER)))
  }

  /** The guardian's late report of a failed spawn arrives during the cutover, which then comes due. */
  function OverlappingRun(o: Orders): seq<Event> {
    CutoverRun(o) + [MessageArrived(ShellError(SpawnRefused))] + [CutoverFired(CUTOVER)] + [DiscardReturned]
    + [SealReturned(NO_CAPTURE, NO_CAPTURE)]
  }

  lemma CutoverReached(o: Orders)
    ensures Run(CutoverRun(o)).Some? && Run(CutoverRun(o)).value.state == CuttingState(o)
    ensures TerminalsSent(Run(CutoverRun(o)).value.requests) == [] && Run(CutoverRun(o)).value.queued == []
  {
    var a := [ClaimReturned(true)];
    var b := a + [LoadReturned(Some(o), true, true)];
    var c := b + [MessageArrived(Topology(true))];
    var d := c + [DecideReturned(Success(AuthorizedNow), true, true, true, 0)];
    var e := d + [DeadlineFired];
    assert Run([]).value == History(START, [], []);
    RunExtends([], ClaimReturned(true));
    assert [] + a == a;
    RunExtends(a, LoadReturned(Some(o), true, true));
    RunExtends(b, MessageArrived(Topology(true)));
    RunExtends(c, DecideReturned(Success(AuthorizedNow), true, true, true, 0));
    RunExtends(d, DeadlineFired);
    RunExtends(e, BudgetFired(0));
    hide Run;
    assert Run(CutoverRun(o)).value.requests == [CallLoad] + [CallDecide] + [SendGrant];
    assert !Publishes(Run(CutoverRun(o)).value.requests);
    NothingTerminal(Run(CutoverRun(o)).value.requests);
  }

  /** The four steps from the cutover on, state by state. */
  lemma OverlappingSteps(o: Orders)
    ensures var s := CuttingState(o);
            var failed := Runner.PublishSpawnFailure(s);
            var frozen := failed.(timers := s.timers.(cutoverArmed := false), sealing := true,
                                  life := Life(true, false, false, Freezing));
            var first := Task(SpawnFailure(false), true);
            var discarded := frozen.(discarding := false, chain := Chain(None, [first], Nothing));
            && Step(s, MessageArrived(ShellError(SpawnRefused))) == Turn(failed, [])
            && Enabled(failed, CutoverFired(CUTOVER)) && Step(failed, CutoverFired(CUTOVER)) == Turn(frozen, [])
            && Enabled(frozen, DiscardReturned) && Step(frozen, DiscardReturned) == Turn(discarded, [])
            && Enabled(discarded, SealReturned(NO_CAPTURE, NO_CAPTURE))
            && var last := Step(discarded, SealReturned(NO_CAPTURE, NO_CAPTURE));
            && last.requests == [] && last.state.life == Life(true, false, false, Publishing) && last.state.stage.Supervising?
            && last.state.chain.awaiting.Nothing? && |last.state.chain.queue| == 2 && last.state.chain.queue[0] == first
            && last.state.chain.queue[1].final && last.state.chain.queue[1].input.launch == Some(Unknown)
  {
  }

  /** For all orders the overlapping run queues two terminal publications: the spawn failure, then the frozen facts. */
  lemma TwoTerminalsAreQueued(o: Orders)
    ensures Run(OverlappingRun(o)).Some?
    ensures var h := Run(OverlappingRun(o)).value;
            && |h.queued| == 2 && h.state.chain.queue == h.queued
            && h.state.stage.Supervising? && h.queued[0].final && h.queued[1].final && h.queued[0].input.finalized == Some(true)
            && h.queued[0].input.launch == Some(SpawnFailed) && h.queued[1].input.launch == Some(Unknown)
            && h.state.chain.awaiting.Nothing? && !h.state.life.closed && TerminalsSent(h.requests) == []
  {
    CutoverReached(o);
    OverlappingSteps(o);
    hide Run, CutoverRun, Step, TerminalsSent;
    var cutting := CutoverRun(o);
    var failed := cutting + [MessageArrived(ShellError(SpawnRefused))];
    var frozen := failed + [CutoverFired(CUTOVER)];
    RunExtends(cutting, MessageArrived(ShellError(SpawnRefused)));
    assert Run(failed).value.queued == [] && Run(failed).value.requests == Run(cutting).value.requests;
    RunExtends(failed, CutoverFired(CUTOVER));
    assert Run(frozen).value.queued == [] && Run(frozen).value.requests == Run(cutting).value.requests;
    RunExtends(frozen, DiscardReturned);
    RunExtends(frozen + [DiscardReturned], SealReturned(NO_CAPTURE, NO_CAPTURE));
  }

  /** One request more, and whether it is terminal evidence. */
  lemma SentExtends(requests: seq<Request>, r: Request)
    ensures TerminalsSent(requests + [r]) == TerminalsSent(requests) + TerminalOf(r)
  {
    FlatMapConcat(TerminalOf, requests, [r]);
    assert [r][..0] == [];
    assert FlatMap(TerminalOf, [r]) == FlatMap(TerminalOf, [r][..0]) + TerminalOf(r);
  }

  /** From a queue of two terminal publications: the first is sent, its end closes the runner, the second is skipped. */
  lemma SecondIsSkipped(h: History, revision: int)
    requires |h.queued| == 2 && h.state.chain.queue == h.queued && h.queued[0].final && h.queued[1].final
    requires h.state.chain.awaiting.Nothing? && !h.state.life.closed && h.state.stage.Supervising?
    requires h.queued[0].input.finalized == Some(true) && TerminalsSent(h.requests) == []
    ensures Extend(h, PublicationStarted).Some?
    ensures var a := Extend(h, PublicationStarted).value;
            Extend(a, PublishReturned(Some(revision))).Some?
    ensures var a := Extend(h, PublicationStarted).value;
            var b := Extend(a, PublishReturned(Some(revision))).value;
            Extend(b, PublicationStarted).Some?
    ensures var a := Extend(h, PublicationStarted).value;
            var b := Extend(a, PublishReturned(Some(revision))).value;
            var c := Extend(b, PublicationStarted).value;
            c.state.life.closed && c.state.chain.queue == [] && TerminalsSent(c.requests) == [h.queued[0].input]
  {
    var call := CallPublish(h.state.chain.revision, h.queued[0].input);
    var a := Extend(h, PublicationStarted).value;
    assert a.requests == h.requests + [call] && a.state == h.state.(chain := h.state.chain.(awaiting := PublishAnswer));
    var b := Extend(a, PublishReturned(Some(revision))).value;
    assert b.requests == a.requests + [DisconnectGuardian] && b.state.life.closed && b.state.chain.queue == h.queued[1..];
    var c := Extend(b, PublicationStarted).value;
    assert c.requests == b.requests;
    SentExtends(h.requests, call);
    SentExtends(a.requests, DisconnectGuardian);
    hide Step, TerminalsSent;
  }

  /** Carried on, the overlapping run sends the spawn failure only. */
  lemma OnlyTheFirstIsSent(o: Orders, revision: int)
    ensures var events := OverlappingRun(o) + [PublicationStarted] + [PublishReturned(Some(revision))] + [PublicationStarted];
            && Run(events).Some?
            && Run(events).value.state.life.closed && Run(events).value.state.chain.queue == []
            && |TerminalsSent(Run(events).value.requests)| == 1
            && TerminalsSent(Run(events).value.requests)[0].launch == Some(SpawnFailed)
  {
    TwoTerminalsAreQueued(o);
    hide Run, OverlappingRun, Extend, TerminalsSent;
    var queued := OverlappingRun(o);
    SecondIsSkipped(Run(queued).value, revision);
    RunExtends(queued, PublicationStarted);
    RunExtends(queued + [PublicationStarted], PublishReturned(Some(revision)));
    RunExtends(queued + [PublicationStarted] + [PublishReturned(Some(revision))], PublicationStarted);
  }
}
