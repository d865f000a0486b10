/**
 The bounded prefix capture of src/output-capture.ts as a state machine: chunks are accepted while
 one write is in flight, the marker is created beside it, and sealing waits for both. Short writes
 and failures may come at every stage. raw is the content of the file on disk.
 */
module OutputCapture {
  import opened Wrappers
  import opened Utf8
  import opened CaptureTypes
  import opened ClosureReceipt

  datatype Pump = Idle | Writing(request: nat)

  /** The truncation marker; a failed one may or may not have become visible. */
  datatype Marker = NoMarker | Syncing | Durable | Broken(visible: bool)

  datatype Source = SealedByEof | SealedByCutover

  /** input is everything accepted while intake was open; candidate is the receipt that sealing built. */
  datatype Stage = Open | Draining(source: Source) | Publishing(source: Source) | Sealed(source: Source, receipt: Option<Receipt>)

  datatype State = State(
    stream: CaptureStream, identity: Option<Identity>,
    input: seq<Byte>, admitted: seq<Byte>, written: nat, raw: seq<Byte>,
    fdOpen: bool, intakeOpen: bool, captureLoss: bool, durabilityLoss: bool, overflowObserved: bool, invalidated: bool,
    pump: Pump, marker: Marker, stage: Stage, candidate: Option<Receipt>, closedVisible: bool)

  /** What creating the marker file does. */
  datatype MarkerStart = Created | Refused(visible: bool)

  datatype Event =
    | Accept(chunk: seq<Byte>, marker: MarkerStart)
    | SourceError
    | WriteAdvances(count: nat)
    | WriteReturns(result: Option<int>)
    | MarkerSynced(ok: bool)
    | Seal(source: Source)
    | SealProceeds(durable: bool, verified: bool)
    | ReceiptRenamed
    | PublishReturns(verified: bool, removed: bool)
    | Invalidate

  function Constructed(stream: CaptureStream, identity: Option<Identity>): State {
    var lost := identity.None?;
    State(stream, identity, [], [], 0, [], !lost, true, lost, lost, false, false, Idle, NoMarker, Open, None, false)
  }

  /** A write in flight may reach the disk in part before it returns, and never shrinks what is there. */
  predicate Enabled(s: State, e: Event) {
    match e
    case WriteAdvances(count) => s.pump.Writing? && count <= s.pump.request && |s.raw| <= s.written + count
    case WriteReturns(result) =>
      s.pump.Writing? && (result.Some? && 0 < result.value <= s.pump.request ==> |s.raw| <= s.written + result.value)
    case MarkerSynced(_) => s.marker.Syncing?
    case SealProceeds(_, _) => s.stage.Draining? && s.pump.Idle? && !s.marker.Syncing?
    case ReceiptRenamed => s.stage.Publishing? && !s.closedVisible
    case PublishReturns(verified, _) => s.stage.Publishing? && (verified ==> s.closedVisible)
    case _ => true
  }

  // ---------------------------------------------------------------- steps

  function Min(a: int, b: int): int {
    if a < b then a else b
  }

  function StartPump(s: State): State {
    if !s.pump.Idle? || !s.fdOpen then s else RunPump(s)
  }

  /** The pump loop up to its next write, or its end. */
  function RunPump(s: State): State {
    if s.fdOpen && !s.captureLoss && s.written < |s.admitted| then s.(pump := Writing(|s.admitted| - s.written))
    else s.(pump := Idle)
  }

  function ObserveOverflow(s: State, marker: MarkerStart): State {
    if s.overflowObserved then s
    else
      match marker
      case Created => s.(overflowObserved := true, marker := Syncing)
      case Refused(visible) => s.(overflowObserved := true, marker := Broken(visible), captureLoss := true, durabilityLoss := true)
  }

  /** The part of a chunk within the cap is admitted and written; a rest is overflow. */
  function AdmitStep(s: State, chunk: seq<Byte>, marker: MarkerStart): State
    requires |s.admitted| <= CAPTURE_LIMIT
  {
    var accepted := Min(CAPTURE_LIMIT - |s.admitted|, |chunk|);
    var admitted := if accepted > 0 && s.fdOpen then StartPump(s.(admitted := s.admitted + chunk[..accepted])) else s;
    if accepted < |chunk| then ObserveOverflow(admitted, marker) else admitted
  }

  function AcceptStep(s: State, chunk: seq<Byte>, marker: MarkerStart): State
    requires |s.admitted| <= CAPTURE_LIMIT
  {
    if !s.intakeOpen || chunk == [] then s
    else
      var drained := s.(input := s.input + chunk);
      if s.captureLoss then drained else AdmitStep(drained, chunk, marker)
  }

  /** What is on disk after a write of the pending request got this far. */
  function DiskAfter(s: State, count: nat): seq<Byte>
    requires s.written + count <= |s.admitted| && s.written <= |s.raw|
  {
    s.raw[..s.written] + s.admitted[s.written..s.written + count]
  }

  function WriteReturnsStep(s: State, result: Option<int>): State
    requires s.pump.Writing? && s.written + s.pump.request <= |s.admitted| && s.written <= |s.raw|
  {
    if result.Some? && 0 < result.value <= s.pump.request then
      RunPump(s.(raw := DiskAfter(s, result.value), written := s.written + result.value))
    else RunPump(s.(captureLoss := true))
  }

  function MarkerSyncedStep(s: State, ok: bool): State {
    if ok then s.(marker := Durable) else s.(marker := Broken(true), captureLoss := true, durabilityLoss := true)
  }

  function SealStep(s: State, source: Source): State {
    s.(intakeOpen := false, stage := if s.stage.Open? then Draining(source) else s.stage)
  }

  /** The receipt that sealing builds from the final flags. */
  function Candidate(s: State, source: Source): Receipt
    requires s.identity.Some?
  {
    var openAtCutover := source.SealedByCutover?;
    Receipt(s.stream, s.written, s.overflowObserved && s.marker.Durable?, s.captureLoss || openAtCutover, openAtCutover,
            if s.captureLoss then CaptureError else if source.SealedByEof? then Eof else Cutover, s.identity.value)
  }

  /** The raw file is synced and closed; a broken marker or a failed sync or close is durability loss. */
  function RawClosed(s: State, durable: bool): State {
    s.(fdOpen := false, durabilityLoss := s.durabilityLoss || s.marker.Broken? || (s.fdOpen && !durable))
  }

  function Conclude(s: State, verified: bool): State
    requires s.stage.Draining?
  {
    if !s.invalidated && s.identity.Some? && !s.durabilityLoss && verified && |s.raw| == s.written then
      s.(stage := Publishing(s.stage.source), candidate := Some(Candidate(s, s.stage.source)))
    else s.(stage := Sealed(s.stage.source, None), durabilityLoss := true)
  }

  function SealProceedsStep(s: State, durable: bool, verified: bool): State
    requires s.stage.Draining?
  {
    Conclude(RawClosed(s, durable), verified)
  }

  function PublishReturnsStep(s: State, verified: bool, removed: bool): State
    requires s.stage.Publishing?
  {
    if verified && Inspects(s) then s.(stage := Sealed(s.stage.source, s.candidate))
    else s.(stage := Sealed(s.stage.source, None), durabilityLoss := true, closedVisible := s.closedVisible && !removed)
  }

  predicate MarkerVisible(s: State) {
    s.marker.Syncing? || s.marker.Durable? || (s.marker.Broken? && s.marker.visible)
  }

  /** The writer's own inspection of what it published: the receipt parses and matches the other files. */
  predicate Inspects(s: State) {
    && s.closedVisible && s.candidate.Some? && s.identity.Some?
    && var parsed := Parse(Print(s.candidate.value), s.stream);
    && parsed.Some? && |s.raw| == parsed.value.retained && parsed.value.raw == s.identity.value
    && (parsed.value.truncated <==> MarkerVisible(s))
  }

  function Step(s: State, e: Event): State
    requires Enabled(s, e) && CaptureOk(s)
  {
    match e
    case Accept(chunk, marker) => AcceptStep(s, chunk, marker)
    case SourceError => s.(captureLoss := true)
    case WriteAdvances(count) => s.(raw := DiskAfter(s, count))
    case WriteReturns(result) => WriteReturnsStep(s, result)
    case MarkerSynced(ok) => MarkerSyncedStep(s, ok)
    case Seal(source) => SealStep(s, source)
    case SealProceeds(durable, verified) => SealProceedsStep(s, durable, verified)
    case ReceiptRenamed => s.(closedVisible := true)
    case PublishReturns(verified, removed) => PublishReturnsStep(s, verified, removed)
    case Invalidate => s.(intakeOpen := false, invalidated := true)
  }

  // ---------------------------------------------------------------- the invariant

  /** The file is a prefix of what was admitted, which is a prefix of the input within the cap. */
  predicate BytesOk(s: State) {
    && s.written <= |s.raw| <= |s.admitted| <= CAPTURE_LIMIT
    && s.raw <= s.admitted <= s.input
    && (s.pump.Writing? ==> s.fdOpen && s.written < s.written + s.pump.request <= |s.admitted| && |s.raw| <= s.written + s.pump.request)
  }

  predicate FlagsOk(s: State) {
    && (s.marker.NoMarker? <==> !s.overflowObserved)
    && (s.overflowObserved ==> |s.admitted| == CAPTURE_LIMIT < |s.input|)
    && (s.marker.Broken? ==> s.captureLoss && s.durabilityLoss)
    && (s.identity.None? ==> s.captureLoss && s.durabilityLoss && !s.fdOpen)
    && (s.intakeOpen ==> s.stage.Open? && !s.invalidated)
    && ((s.stage.Open? || s.stage.Draining?) && s.identity.Some? ==> s.fdOpen)
  }

  /** Without capture loss nothing is missing: all input up to the cap is admitted, and written once the pump rests. */
  predicate Lossless(s: State) {
    && |s.admitted| == Min(|s.input|, CAPTURE_LIMIT)
    && (s.overflowObserved <==> |s.input| > CAPTURE_LIMIT)
    && (s.pump.Idle? ==> s.written == |s.raw| == |s.admitted|)
  }

  /** What a built receipt says is true of the files. */
  predicate CandidateOk(s: State, c: Receipt) {
    && s.identity == Some(c.raw) && c.stream == s.stream
    && c.retained == s.written == |s.raw|
    && Coherent(c) && c.retained <= CAPTURE_LIMIT
    && (s.marker.NoMarker? || s.marker.Durable?)
    && (c.truncated <==> s.marker.Durable?)
    && (!c.incomplete ==> c.retained == Min(|s.input|, CAPTURE_LIMIT) && (c.truncated <==> |s.input| > CAPTURE_LIMIT))
  }

  predicate StageOk(s: State) {
    && (s.stage.Publishing? || s.stage.Sealed? ==> s.pump.Idle? && !s.marker.Syncing?)
    && (s.stage.Publishing? ==> s.candidate.Some? && s.candidate.value.openAtCutover == s.stage.source.SealedByCutover?)
    && (s.stage.Open? || s.stage.Draining? ==> s.candidate.None?)
    && (s.candidate.Some? ==> CandidateOk(s, s.candidate.value))
    && (s.closedVisible ==> s.candidate.Some?)
    && (s.stage.Sealed? && s.stage.receipt.Some? ==>
          s.closedVisible && s.candidate == s.stage.receipt
          && s.stage.receipt.value.openAtCutover == s.stage.source.SealedByCutover?)
  }

  predicate CaptureOk(s: State) {
    BytesOk(s) && FlagsOk(s) && (!s.captureLoss ==> Lossless(s)) && StageOk(s)
  }

  lemma ConstructedIsOk(stream: CaptureStream, identity: Option<Identity>)
    ensures CaptureOk(Constructed(stream, identity))
  {
  }

  lemma AcceptKeeps(s: State, chunk: seq<Byte>, marker: MarkerStart)
    requires CaptureOk(s)
    ensures CaptureOk(AcceptStep(s, chunk, marker))
  {
    if s.intakeOpen && chunk != [] {
      var drained := s.(input := s.input + chunk);
      assert s.stage.Open? && s.candidate.None?;
      if s.captureLoss {
        hide StageOk, Lossless, CandidateOk;
        assert StageOk(drained) by {
          assert StageOk(s);
        }
      } else {
        AdmittingKeeps(s, chunk, marker);
      }
    }
  }

  lemma AdmittingKeeps(s: State, chunk: seq<Byte>, marker: MarkerStart)
    requires CaptureOk(s) && s.intakeOpen && chunk != [] && !s.captureLoss
    ensures CaptureOk(AcceptStep(s, chunk, marker))
  {
    var t := AcceptStep(s, chunk, marker);
    var accepted := Min(CAPTURE_LIMIT - |s.admitted|, |chunk|);
    assert BytesOk(t) by {
      if accepted > 0 {
        assert s.admitted == s.input;
        assert s.admitted + chunk[..accepted] <= s.input + chunk;
      }
    }
    assert StageOk(t) by {
      hide BytesOk, FlagsOk, Lossless, CandidateOk, Min;
    }
    assert FlagsOk(t);
    assert !t.captureLoss ==> Lossless(t);
    hide *;
  }

  /** A write puts the admitted bytes where they belong. */
  lemma DiskIsAdmitted(s: State, count: nat)
    requires BytesOk(s) && s.written + count <= |s.admitted|
    ensures DiskAfter(s, count) == s.admitted[..s.written + count]
  {
    assert s.raw[..s.written] == s.admitted[..s.written];
  }

  lemma WriteAdvancesKeeps(s: State, count: nat)
    requires CaptureOk(s) && Enabled(s, WriteAdvances(count))
    ensures CaptureOk(s.(raw := DiskAfter(s, count)))
  {
    assert s.stage.Open? || s.stage.Draining?;
    DiskIsAdmitted(s, count);
    hide DiskAfter, Min, CandidateOk;
  }

  lemma WriteReturnsKeeps(s: State, result: Option<int>)
    requires CaptureOk(s) && Enabled(s, WriteReturns(result))
    ensures CaptureOk(WriteReturnsStep(s, result))
  {
    assert s.stage.Open? || s.stage.Draining?;
    if result.Some? && 0 < result.value <= s.pump.request {
      DiskIsAdmitted(s, result.value);
    }
    hide DiskAfter, Min, CandidateOk;
  }

  lemma SealKeeps(s: State, durable: bool, verified: bool)
    requires CaptureOk(s) && Enabled(s, SealProceeds(durable, verified))
    ensures CaptureOk(SealProceedsStep(s, durable, verified))
  {
    var t := SealProceedsStep(s, durable, verified);
    assert BytesOk(t) && FlagsOk(t) && (!t.captureLoss ==> Lossless(t));
    assert StageOk(t);
    hide *;
  }

  lemma PublishKeeps(s: State, verified: bool, removed: bool)
    requires CaptureOk(s) && Enabled(s, PublishReturns(verified, removed))
    ensures CaptureOk(PublishReturnsStep(s, verified, removed))
  {
    hide Inspects, Candidate;
  }

  /** No interleaving of accepts, short writes, failures and sealing breaks the invariant. */
  lemma StepKeepsCapture(s: State, e: Event)
    requires CaptureOk(s) && Enabled(s, e)
    ensures CaptureOk(Step(s, e))
  {
    match e
    case Accept(chunk, marker) => AcceptKeeps(s, chunk, marker); hide *;
    case WriteAdvances(count) => WriteAdvancesKeeps(s, count); hide *;
    case WriteReturns(result) => WriteReturnsKeeps(s, result); hide *;
    case SealProceeds(durable, verified) => SealKeeps(s, durable, verified); hide *;
    case PublishReturns(verified, removed) => PublishKeeps(s, verified, removed); hide *;
    case _ => FlagKeeps(s, e); hide *;
  }

  lemma FlagKeeps(s: State, e: Event)
    requires CaptureOk(s) && Enabled(s, e)
    requires e.MarkerSynced? || e.SourceError? || e.Seal? || e.ReceiptRenamed? || e.Invalidate?
    ensures CaptureOk(Step(s, e))
  {
    hide Min, Coherent;
    assert StageOk(Step(s, e)) by {
      hide BytesOk, FlagsOk, Lossless;
      if s.candidate.Some? {
        hide CandidateOk;
        assert CandidateOk(Step(s, e), s.candidate.value) by {
          assert CandidateOk(s, s.candidate.value);
          assert StageOk(s);
        }
      }
    }
    hide CandidateOk, StageOk;
    assert s.stage.Draining? || s.stage.Open? || !s.marker.Syncing? by {
      assert StageOk(s);
    }
  }

  // ---------------------------------------------------------------- whole runs

  /** The state after a run of events that can happen. */
  function Run(s: State, events: seq<Event>): Option<State> {
    if events == [] then Some(s)
    else
      var before :- Run(s, events[..|events| - 1]);
      var e := events[|events| - 1];
      if Enabled(before, e) && CaptureOk(before) then Some(Step(before, e)) else None
  }

  /** The invariant holds throughout every run, and what has been recorded is never taken back. */
  lemma {:induction false} RunKeepsCapture(s: State, events: seq<Event>)
    requires CaptureOk(s) && Run(s, events).Some?
    ensures CaptureOk(Run(s, events).value) && Later(s, Run(s, events).value)
  {
    if events != [] {
      var before := Run(s, events[..|events| - 1]).value;
      var e := events[|events| - 1];
      RunKeepsCapture(s, events[..|events| - 1]);
      StepKeepsCapture(before, e);
      StepIsLater(before, e);
      LaterTransitive(s, before, Step(before, e));
      hide CaptureOk, Step, Enabled, Later;
    } else {
      hide CaptureOk;
    }
  }

  /** What later states keep: the identity, the bytes on disk, the marker and the built receipt. */
  predicate Later(s: State, t: State) {
    && t.stream == s.stream && t.identity == s.identity
    && s.raw <= t.raw
    && (MarkerVisible(s) ==> MarkerVisible(t))
    && (s.candidate.Some? ==> t.candidate == s.candidate && t.raw == s.raw && t.marker == s.marker)
    && (s.stage.Sealed? && s.stage.receipt.Some? ==> t.stage == s.stage && t.closedVisible)
  }

  lemma LaterTransitive(a: State, b: State, c: State)
    requires Later(a, b) && Later(b, c) && CaptureOk(b)
    ensures Later(a, c)
  {
  }

  lemma StepIsLater(s: State, e: Event)
    requires CaptureOk(s) && Enabled(s, e)
    ensures Later(s, Step(s, e))
  {
    hide Parse, Print, Min, CandidateOk, Lossless;
    match e
    case WriteAdvances(count) => DiskIsAdmitted(s, count); hide DiskAfter;
    case WriteReturns(result) => WriteIsLater(s, result);
    case Accept(chunk, marker) => AcceptIsLater(s, chunk, marker);
    case SealProceeds(durable, verified) => assert s.candidate.None?; hide BytesOk, FlagsOk, StageOk, Candidate;
    case PublishReturns(_, _) => hide BytesOk, FlagsOk, Inspects;
    case MarkerSynced(_) => hide BytesOk, FlagsOk;
    case _ => hide BytesOk, FlagsOk, StageOk;
  }

  lemma WriteIsLater(s: State, result: Option<int>)
    requires CaptureOk(s) && Enabled(s, WriteReturns(result))
    ensures Later(s, WriteReturnsStep(s, result))
  {
    if result.Some? && 0 < result.value <= s.pump.request {
      DiskIsAdmitted(s, result.value);
    }
    hide DiskAfter, Min, CandidateOk, Lossless;
  }

  lemma AcceptIsLater(s: State, chunk: seq<Byte>, marker: MarkerStart)
    requires CaptureOk(s)
    ensures Later(s, AcceptStep(s, chunk, marker))
  {
    hide Min, CandidateOk, Lossless;
  }

  /** In every reachable state the file is a prefix of the input, within the cap. */
  lemma RawIsPrefix(stream: CaptureStream, identity: Option<Identity>, events: seq<Event>, s: State)
    requires Run(Constructed(stream, identity), events) == Some(s)
    ensures s.raw <= s.input && |s.raw| <= CAPTURE_LIMIT
  {
    ConstructedIsOk(stream, identity);
    RunKeepsCapture(Constructed(stream, identity), events);
    hide Run;
  }

  predicate SafeIdentity(id: Option<Identity>) {
    id.Some? ==> id.value.dev <= MAX_SAFE_INTEGER && id.value.ino <= MAX_SAFE_INTEGER
  }

  /** Every receipt that sealing builds passes the strict parser, so self-inspection never rejects it. */
  lemma CandidateParses(s: State)
    requires CaptureOk(s) && s.candidate.Some? && SafeIdentity(s.identity)
    ensures Parse(Print(s.candidate.value), s.stream) == s.candidate
    ensures s.closedVisible ==> Inspects(s)
  {
    ParseInvertsPrint(Print(s.candidate.value), s.stream, s.candidate.value);
    hide Parse, Print;
  }
}
