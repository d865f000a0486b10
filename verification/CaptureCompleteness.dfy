/**
 The capture keeps everything it can: over every run from construction, when bytes may be missing and
 what the receipt then says, in terms of the run's events.
 */
module CaptureCompleteness {
  import opened Wrappers
  import opened Utf8
  import opened CaptureTypes
  import opened ClosureReceipt
  import opened OutputCapture

  // ---------------------------------------------------------------- what happened

  predicate ClosesIntake(e: Event) {
    e.Seal? || e.Invalidate?
  }

  /** No seal and no invalidation so far. */
  predicate Taking(events: seq<Event>) {
    forall e :: e in events ==> !ClosesIntake(e)
  }

  /** The chunks that arrived while intake was open. */
  function Taken(events: seq<Event>): seq<Byte> {
    if events == [] then []
    else
      var init, e := events[..|events| - 1], events[|events| - 1];
      if e.Accept? && Taking(init) then Taken(init) + e.chunk else Taken(init)
  }

  /** The source of the first seal. */
  function SealedBy(events: seq<Event>): Option<Source> {
    if events == [] then None
    else
      var earlier := SealedBy(events[..|events| - 1]);
      var e := events[|events| - 1];
      if earlier.None? && e.Seal? then Some(e.source) else earlier
  }

  /** The kernel wrote something, and no more than it was asked to. */
  predicate Wrote(result: Option<int>, request: nat) {
    result.Some? && 1 <= result.value <= request
  }

  /** What loses bytes: a read error, a write that failed, and a marker that could not be made. */
  predicate Loses(before: State, input: seq<Byte>, taking: bool, e: Event) {
    match e
    case SourceError => true
    case WriteReturns(result) => before.pump.Writing? && !Wrote(result, before.pump.request)
    case MarkerSynced(ok) => !ok
    case Accept(chunk, marker) => marker.Refused? && taking && |input| <= 5_242_880 < |input| + |chunk|
    case _ => false
  }

  predicate LosesAt(start: State, events: seq<Event>, i: nat)
    requires i < |events|
  {
    var before := Run(start, events[..i]);
    before.Some? && Loses(before.value, Taken(events[..i]), Taking(events[..i]), events[i])
  }

  /** Some event of the run lost bytes. */
  predicate Lost(start: State, events: seq<Event>) {
    exists i :: 0 <= i < |events| && LosesAt(start, events, i)
  }

  lemma LostExtends(start: State, events: seq<Event>, e: Event)
    requires Run(start, events).Some?
    ensures Lost(start, events + [e]) <==>
            Lost(start, events) || Loses(Run(start, events).value, Taken(events), Taking(events), e)
  {
    var longer := events + [e];
    forall i | 0 <= i < |events| ensures LosesAt(start, longer, i) == LosesAt(start, events, i) {
      assert longer[..i] == events[..i] && longer[i] == events[i];
    }
    assert longer[..|events|] == events && longer[|events|] == e;
    assert LosesAt(start, longer, |events|) == Loses(Run(start, events).value, Taken(events), Taking(events), e);
    hide LosesAt, Loses, Run, Taken, Taking;
    if i :| 0 <= i < |events| && LosesAt(start, events, i) {
      assert LosesAt(start, longer, i);
    }
  }

  // ---------------------------------------------------------------- one step

  /** The input, the intake, the seal and the loss after a step, by what changes them. */
  lemma StepTakes(s: State, e: Event)
    requires CaptureOk(s) && Enabled(s, e)
    ensures var t := Step(s, e);
            && t.input == (if e.Accept? && s.intakeOpen then s.input + e.chunk else s.input)
            && (t.intakeOpen <==> s.intakeOpen && !ClosesIntake(e))
            && (t.invalidated <==> s.invalidated || e.Invalidate?)
            && (t.captureLoss <==> s.captureLoss || Loses(s, s.input, s.intakeOpen, e))
  {
    assert BytesOk(s);
    hide CaptureOk, DiskAfter, Candidate, Inspects;
    match e
    case Accept(chunk, marker) => AcceptTakes(s, chunk, marker); hide AcceptStep, Loses;
    case WriteReturns(_) =>
    case WriteAdvances(_) =>
    case SealProceeds(_, _) =>
    case PublishReturns(_, _) =>
    case _ =>
  }

  lemma AcceptTakes(s: State, chunk: seq<Byte>, marker: MarkerStart)
    requires CaptureOk(s)
    ensures var t := AcceptStep(s, chunk, marker);
            && t.input == (if s.intakeOpen then s.input + chunk else s.input)
            && t.intakeOpen == s.intakeOpen && t.invalidated == s.invalidated
            && (t.captureLoss <==> s.captureLoss || Loses(s, s.input, s.intakeOpen, Accept(chunk, marker)))
  {
    if !s.captureLoss { assert Lossless(s); }
    hide StageOk, CandidateOk;
  }

  // ---------------------------------------------------------------- whole runs

  predicate StageSays(stage: OutputCapture.Stage, sealed: Option<Source>) {
    match stage
    case Open => sealed.None?
    case Draining(source) => sealed == Some(source)
    case Publishing(source) => sealed == Some(source)
    case Sealed(source, _) => sealed == Some(source)
  }

  /** A reached state is what the run's events say: nothing is dropped and nothing is lost without a cause. */
  ghost predicate Tells(start: State, events: seq<Event>, s: State) {
    && s.input == Taken(events)
    && (s.intakeOpen <==> Taking(events))
    && (s.captureLoss <==> start.captureLoss || Lost(start, events))
    && (s.invalidated <==> Invalidate in events)
    && StageSays(s.stage, SealedBy(events))
    && s.stream == start.stream && s.identity == start.identity
  }

  /** Taking in and writing leave the stage and the receipt alone. */
  predicate SameSealing(s: State, t: State) {
    t.stage == s.stage && t.candidate == s.candidate && t.stream == s.stream && t.identity == s.identity && t.closedVisible == s.closedVisible
  }

  lemma AcceptSeals(s: State, chunk: seq<Byte>, marker: MarkerStart)
    requires |s.admitted| <= CAPTURE_LIMIT
    ensures SameSealing(s, AcceptStep(s, chunk, marker))
    ensures marker.Created? && !s.marker.Broken? ==>
              !AcceptStep(s, chunk, marker).marker.Broken? && AcceptStep(s, chunk, marker).durabilityLoss == s.durabilityLoss
  {
    hide Min;
  }

  lemma WriteSeals(s: State, e: Event)
    requires CaptureOk(s) && Enabled(s, e) && (e.WriteAdvances? || e.WriteReturns?)
    ensures SameSealing(s, Step(s, e))
    ensures Step(s, e).marker == s.marker && Step(s, e).durabilityLoss == s.durabilityLoss
  {
    assert BytesOk(s);
    hide CaptureOk, DiskAfter;
  }

  lemma EndSeals(s: State, e: Event)
    requires CaptureOk(s) && Enabled(s, e) && (e.SealProceeds? || e.PublishReturns?)
    ensures var t := Step(s, e);
            && (t.stage.Publishing? || t.stage.Sealed?) && t.stage.source == s.stage.source
            && t.stream == s.stream && t.identity == s.identity
            && (e.PublishReturns? ==> t.candidate == s.candidate)
  {
    assert BytesOk(s);
    hide CaptureOk, BytesOk, Candidate, Inspects;
  }

  lemma StageFollows(s: State, e: Event, sealed: Option<Source>)
    requires CaptureOk(s) && Enabled(s, e) && StageSays(s.stage, sealed)
    ensures StageSays(Step(s, e).stage, if sealed.None? && e.Seal? then Some(e.source) else sealed)
    ensures Step(s, e).stream == s.stream && Step(s, e).identity == s.identity
    ensures !e.SealProceeds? ==> Step(s, e).candidate == s.candidate
  {
    assert BytesOk(s);
    hide CaptureOk, BytesOk, Candidate, Inspects;
    match e
    case Accept(chunk, marker) => AcceptSeals(s, chunk, marker); hide AcceptStep;
    case WriteAdvances(_) => WriteSeals(s, e); hide Step;
    case WriteReturns(_) => WriteSeals(s, e); hide Step;
    case SealProceeds(_, _) => EndSeals(s, e); hide Step;
    case PublishReturns(_, _) => EndSeals(s, e); hide Step;
    case _ =>
  }

  lemma HistoryExtends(events: seq<Event>, e: Event)
    ensures Taken(events + [e]) == if e.Accept? && Taking(events) then Taken(events) + e.chunk else Taken(events)
    ensures Taking(events + [e]) <==> Taking(events) && !ClosesIntake(e)
    ensures SealedBy(events + [e]) == if SealedBy(events).None? && e.Seal? then Some(e.source) else SealedBy(events)
    ensures Invalidate in events + [e] <==> Invalidate in events || e.Invalidate?
  {
    assert (events + [e])[..|events|] == events;
  }

  /** The receipt file appears by its rename and disappears only by a removal after a failed publication. */
  lemma ReceiptFileFollows(s: State, e: Event)
    requires CaptureOk(s) && Enabled(s, e)
    ensures var t := Step(s, e);
            var failed := e.PublishReturns? && t.stage.Sealed? && t.stage.receipt.None?;
            t.closedVisible <==> e.ReceiptRenamed? || (s.closedVisible && !(failed && e.removed))
  {
    assert BytesOk(s);
    hide CaptureOk, DiskAfter, Candidate, Inspects;
    match e
    case Accept(chunk, marker) => AcceptSeals(s, chunk, marker); hide AcceptStep;
    case WriteAdvances(_) => WriteSeals(s, e); hide Step;
    case WriteReturns(_) => WriteSeals(s, e); hide Step;
    case _ =>
  }

  lemma StepTells(start: State, events: seq<Event>, s: State, e: Event)
    requires Run(start, events) == Some(s) && Tells(start, events, s) && CaptureOk(s) && Enabled(s, e)
    ensures Tells(start, events + [e], Step(s, e))
  {
    hide Step, CaptureOk, Enabled, Run, Lost, Loses, StageSays, Taken, Taking, SealedBy;
    HistoryExtends(events, e);
    StepTakes(s, e);
    StageFollows(s, e, SealedBy(events));
    LostExtends(start, events, e);
  }

  lemma {:induction false} RunTells(stream: CaptureStream, identity: Option<Identity>, events: seq<Event>)
    requires Run(Constructed(stream, identity), events).Some?
    ensures Tells(Constructed(stream, identity), events, Run(Constructed(stream, identity), events).value)
  {
    var start := Constructed(stream, identity);
    if events != [] {
      var init, e := events[..|events| - 1], events[|events| - 1];
      var before := Run(start, init).value;
      assert CaptureOk(before) && Enabled(before, e) && Run(start, events) == Some(Step(before, e));
      assert events == init + [e];
      hide Run, CaptureOk, Enabled, Step, Tells;
      RunTells(stream, identity, init);
      StepTells(start, init, before, e);
    }
  }

  /**
   Bytes may be missing if and only if the raw file could not be created or some event of the run was a
   read error, a failed write or a failed marker. A short write is none of these.
   */
  lemma LossNeedsACause(stream: CaptureStream, identity: Option<Identity>, events: seq<Event>, s: State)
    requires Run(Constructed(stream, identity), events) == Some(s)
    ensures s.captureLoss <==> identity.None? || Lost(Constructed(stream, identity), events)
    ensures s.input == Taken(events)
  {
    RunTells(stream, identity, events);
  }

  // ---------------------------------------------------------------- what the receipt says

  /** At this event the files were final; the receipt was built from what had happened. */
  ghost predicate BuiltAt(start: State, events: seq<Event>, k: nat, c: Receipt)
    requires k < |events|
  {
    var before := events[..k];
    var cut, lost := SealedBy(before) == Some(SealedByCutover), start.captureLoss || Lost(start, before);
    && events[k] == SealProceeds(true, true) && Invalidate !in before
    && c.stream == start.stream && Some(c.raw) == start.identity
    && (c.openAtCutover <==> cut)
    && (c.incomplete <==> cut || lost)
    && c.reason == (if lost then CaptureError else if cut then Cutover else Eof)
    && (!lost ==> c.retained == Min(|Taken(before)|, 5_242_880))
    && (!lost ==> (c.truncated <==> |Taken(before)| > 5_242_880))
  }

  ghost predicate Built(start: State, events: seq<Event>, c: Receipt) {
    exists k :: 0 <= k < |events| && BuiltAt(start, events, k, c)
  }

  lemma BuiltExtends(start: State, events: seq<Event>, e: Event, c: Receipt)
    requires Built(start, events, c)
    ensures Built(start, events + [e], c)
  {
    var longer := events + [e];
    var k :| 0 <= k < |events| && BuiltAt(start, events, k, c);
    assert longer[..k] == events[..k] && longer[k] == events[k];
    hide Lost, Taken, SealedBy;
    assert BuiltAt(start, longer, k, c);
  }

  /** The step that builds the receipt. */
  lemma StepBuilds(start: State, events: seq<Event>, s: State, e: Event)
    requires Tells(start, events, s) && CaptureOk(s) && Enabled(s, e)
    requires s.candidate.None? && Step(s, e).candidate.Some?
    ensures Built(start, events + [e], Step(s, e).candidate.value)
  {
    var longer := events + [e];
    assert longer[..|events|] == events && longer[|events|] == e;
    StageFollows(s, e, SealedBy(events));
    SealingBuilds(s, e.durable, e.verified);
    hide Step, CaptureOk, Lost, Taken, SealedBy, Enabled;
    assert BuiltAt(start, longer, |events|, Step(s, e).candidate.value) by {
      hide Built;
    }
  }

  lemma SealingBuilds(s: State, durable: bool, verified: bool)
    requires CaptureOk(s) && Enabled(s, SealProceeds(durable, verified))
    requires SealProceedsStep(s, durable, verified).candidate.Some?
    ensures durable && verified && !s.invalidated
    ensures var c := SealProceedsStep(s, durable, verified).candidate.value;
            && c.stream == s.stream && Some(c.raw) == s.identity
            && (c.openAtCutover <==> s.stage.source == SealedByCutover)
            && (c.incomplete <==> s.captureLoss || s.stage.source == SealedByCutover)
            && c.reason == (if s.captureLoss then CaptureError else if s.stage.source == SealedByCutover then Cutover else Eof)
            && (!s.captureLoss ==> c.retained == Min(|s.input|, 5_242_880) && (c.truncated <==> |s.input| > 5_242_880))
  {
  }

  /** Every receipt says what had happened in the run when it was built. */
  lemma {:induction false} ReceiptTells(stream: CaptureStream, identity: Option<Identity>, events: seq<Event>)
    requires Run(Constructed(stream, identity), events).Some?
    ensures var s := Run(Constructed(stream, identity), events).value;
            s.candidate.Some? ==> Built(Constructed(stream, identity), events, s.candidate.value)
  {
    var start := Constructed(stream, identity);
    if events != [] {
      var init, e := events[..|events| - 1], events[|events| - 1];
      var before := Run(start, init).value;
      ReceiptTells(stream, identity, init);
      RunTells(stream, identity, init);
      assert events == init + [e];
      assert CaptureOk(before) && Enabled(before, e) && Run(start, events).value == Step(before, e);
      hide Run, CaptureOk, Enabled, Step, Tells, Built;
      if Step(before, e).candidate.Some? {
        if before.candidate.None? {
          StepBuilds(start, init, before, e);
        } else {
          StepIsLater(before, e);
          BuiltExtends(start, init, e, before.candidate.value);
        }
      }
    }
  }

  /**
   A published receipt is honest about the bytes, and incomplete only for a cause that the run had
   before it was built; a complete one is about all of the input.
   */
  lemma PublishedReceiptIsHonest(stream: CaptureStream, identity: Option<Identity>, events: seq<Event>, s: State)
    requires Run(Constructed(stream, identity), events) == Some(s) && s.stage.Sealed? && s.stage.receipt.Some?
    ensures var r := s.stage.receipt.value;
            && r.retained == |s.raw| && s.raw <= s.input
            && (!r.incomplete ==> r.retained == Min(|s.input|, CAPTURE_LIMIT) && (r.truncated <==> |s.input| > CAPTURE_LIMIT))
            && (!r.incomplete <==> r.reason.Eof?)
            && Built(Constructed(stream, identity), events, r)
  {
    ConstructedIsOk(stream, identity);
    RunKeepsCapture(Constructed(stream, identity), events);
    ReceiptTells(stream, identity, events);
    hide Run, Min, Built;
  }

  // ---------------------------------------------------------------- a run in which nothing fails

  /** The outside does its part: everything is durable, verified and published. */
  predicate Cooperates(e: Event) {
    match e
    case SealProceeds(durable, verified) => durable && verified
    case PublishReturns(verified, _) => verified
    case MarkerSynced(ok) => ok
    case Accept(_, marker) => marker.Created?
    case Invalidate => false
    case _ => true
  }

  /** Nothing stands in the way of the receipt. */
  predicate Promising(s: State) {
    && s.identity.Some? && SafeIdentity(s.identity) && !s.durabilityLoss && !s.invalidated && !s.marker.Broken?
    && (s.stage.Publishing? ==> s.candidate.Some?)
    && (s.stage.Sealed? ==> s.stage.receipt.Some?)
  }

  lemma StepStaysPromising(s: State, e: Event)
    requires CaptureOk(s) && Enabled(s, e) && Promising(s) && Cooperates(e)
    requires !s.captureLoss
    ensures Promising(Step(s, e))
  {
    match e
    case Accept(chunk, marker) => AcceptSeals(s, chunk, marker); hide AcceptStep, CaptureOk;
    case WriteAdvances(_) => WriteSeals(s, e); hide Step, CaptureOk;
    case WriteReturns(_) => WriteSeals(s, e); hide Step, CaptureOk;
    case SealProceeds(_, _) => assert Lossless(s); hide StageOk, Candidate;
    case PublishReturns(_, _) => CandidateParses(s); hide Inspects, CaptureOk;
    case _ => hide CaptureOk;
  }

  /** Nothing failed: no cause of loss, and everything durable, verified and published. */
  ghost predicate Smooth(start: State, events: seq<Event>) {
    !Lost(start, events) && forall e :: e in events ==> Cooperates(e)
  }

  lemma {:induction false} SmoothStaysPromising(stream: CaptureStream, id: Identity, events: seq<Event>)
    requires Run(Constructed(stream, Some(id)), events).Some? && Smooth(Constructed(stream, Some(id)), events)
    requires SafeIdentity(Some(id))
    ensures Promising(Run(Constructed(stream, Some(id)), events).value)
  {
    var start := Constructed(stream, Some(id));
    if events != [] {
      var init, e := events[..|events| - 1], events[|events| - 1];
      var before := Run(start, init).value;
      assert CaptureOk(before) && Enabled(before, e) && Run(start, events) == Some(Step(before, e));
      assert events == init + [e];
      LostExtends(start, init, e);
      RunTells(stream, Some(id), init);
      hide Run, CaptureOk, Enabled, Step, Promising, Lost, Cooperates, Loses;
      SmoothStaysPromising(stream, id, init);
      StepStaysPromising(before, e);
    }
  }

  /**
   A capture that nothing failed for keeps all it should: sealed at the end of the stream, it has the
   first bytes of the input up to five megabytes on disk and a receipt that says so.
   */
  lemma SmoothCaptureIsComplete(stream: CaptureStream, id: Identity, events: seq<Event>, s: State)
    requires Run(Constructed(stream, Some(id)), events) == Some(s) && SafeIdentity(Some(id))
    requires Smooth(Constructed(stream, Some(id)), events)
    requires s.stage.Sealed? && SealedBy(events) == Some(SealedByEof)
    ensures var n := |Taken(events)|;
            s.stage.receipt == Some(Receipt(stream, Min(n, 5_242_880), n > 5_242_880, false, false, Eof, id))
    ensures s.raw == Taken(events)[..Min(|Taken(events)|, 5_242_880)]
  {
    var start := Constructed(stream, Some(id));
    SmoothStaysPromising(stream, id, events);
    RunTells(stream, Some(id), events);
    ConstructedIsOk(stream, Some(id));
    RunKeepsCapture(start, events);
    ReceiptTells(stream, Some(id), events);
    hide Run, Lost;
    assert Tells(start, events, s) && StageSays(s.stage, SealedBy(events)) && CaptureOk(s);
    hide Built;
    SettledReceipt(start, events, s);
    hide CaptureOk;
  }

  lemma LostEarlier(start: State, events: seq<Event>, k: nat)
    requires k <= |events| && Lost(start, events[..k])
    ensures Lost(start, events)
  {
    var i :| 0 <= i < k && LosesAt(start, events[..k], i);
    assert events[..k][..i] == events[..i] && events[..k][i] == events[i];
    hide Run, Loses;
    assert LosesAt(start, events, i);
  }

  /** Without loss a receipt sealed at the end of the stream can only say that it is complete. */
  lemma SettledReceipt(start: State, events: seq<Event>, s: State)
    requires CaptureOk(s) && Promising(s) && s.stage.Sealed? && s.stage.source.SealedByEof?
    requires !s.captureLoss && !Lost(start, events) && !start.captureLoss && s.input == Taken(events)
    requires s.candidate.Some? ==> Built(start, events, s.candidate.value)
    requires start.stream == s.stream && start.identity == s.identity
    ensures var n := |Taken(events)|;
            s.stage.receipt == Some(Receipt(s.stream, Min(n, 5_242_880), n > 5_242_880, false, false, Eof, s.identity.value))
    ensures s.raw == Taken(events)[..Min(|Taken(events)|, 5_242_880)]
  {
    assert s.candidate == s.stage.receipt && CandidateOk(s, s.candidate.value) && s.raw <= s.input;
    var c := s.candidate.value;
    assert !c.openAtCutover && c.stream == s.stream && Some(c.raw) == s.identity && c.retained == |s.raw|;
    var k :| 0 <= k < |events| && BuiltAt(start, events, k, c);
    if Lost(start, events[..k]) { LostEarlier(start, events, k); }
    hide Lost, Taken, SealedBy, CaptureOk, Built;
    assert !c.incomplete && c.reason == Eof;
  }
}
