/**
 Writer and reader together: a reader whose loads fall anywhere between the steps of a running
 capture never finds it corrupt, and the reads of one capture form the growing chain of snapshots
 that following the offsets relies on.
 */
module CaptureCoherence {
  import opened Wrappers
  import opened Utf8
  import opened CaptureTypes
  import opened ClosureReceipt
  import opened OutputCapture
  import opened SnapshotReader
  import opened Paginator
  import opened Polling

  /** What the separate loads find when the capture is in this state; each load is atomic. */
  function RawOf(s: State): RawFile
    requires s.identity.Some?
  {
    RawFile(s.identity.value, s.raw)
  }

  function MarkerOf(s: State): Load {
    if MarkerVisible(s) then Loaded("") else Missing
  }

  function ReceiptOf(s: State): Load {
    if s.closedVisible && s.candidate.Some? then Loaded(Print(s.candidate.value)) else Missing
  }

  /** The facts before the terminal revision: nothing observed yet. */
  const NOT_FINAL := Facts(false, None, false, false, false)

  /** The facts of the terminal revision, taken from what sealing returned. */
  function SealedFacts(source: Source, receipt: Option<Receipt>): Facts {
    match receipt
    case None => Facts(true, Some(false), false, true, source.SealedByCutover?)
    case Some(r) => Facts(true, Some(true), r.truncated, r.incomplete, source.SealedByCutover?)
  }

  /** The facts a reader may hold when it starts at state s. */
  predicate FactsAt(facts: Facts, s: State) {
    || facts == NOT_FINAL
    || (s.stage.Sealed? && facts == SealedFacts(s.stage.source, s.stage.receipt))
  }

  predicate WriterOk(s: State) {
    CaptureOk(s) && s.identity.Some? && SafeIdentity(s.identity)
  }

  /** The four loads of one read, in order, with any writer steps between them. */
  predicate ReadAcross(s1: State, s2: State, s3: State, s4: State) {
    && WriterOk(s1) && WriterOk(s2) && WriterOk(s3) && WriterOk(s4)
    && Later(s1, s2) && Later(s2, s3) && Later(s3, s4)
  }

  /** A visible receipt agrees with everything the other loads can have seen before it. */
  lemma ReceiptAgrees(s1: State, s2: State, s3: State, s4: State)
    requires ReadAcross(s1, s2, s3, s4) && s3.closedVisible
    ensures var c := s3.candidate;
            && c.Some? && Parse(Print(c.value), s1.stream) == c
            && BelongsTo(c.value, RawOf(s1))
            && (MarkerVisible(s2) ==> c.value.truncated)
            && (c.value.truncated <==> MarkerVisible(s4))
            && Coherent(c.value)
  {
    CandidateParses(s3);
    hide Parse, Print;
  }

  /** On everything a writer can produce, no interleaving of the loads looks corrupt. */
  lemma NeverCorrupt(facts: Facts, s1: State, s2: State, s3: State, s4: State)
    requires ReadAcross(s1, s2, s3, s4) && FactsAt(facts, s1) && facts.available != Some(false)
    ensures !Incoherent(facts, s1.stream, RawOf(s1), MarkerOf(s2), ReceiptOf(s3), MarkerOf(s4))
    ensures !Unread(s1.stream, RawOf(s1), MarkerOf(s2), ReceiptOf(s3), MarkerOf(s4))
  {
    assert |s1.raw| <= CAPTURE_LIMIT;
    assert facts.finalized ==> s1.stage.Sealed? && s1.stage.receipt.Some?;
    if s1.stage.Sealed? {
      SealedStays(s1, s2, s3);
    }
    if s3.closedVisible {
      ReceiptAgrees(s1, s2, s3, s4);
      assert ReceiptOf(s3) == Loaded(Print(s3.candidate.value));
    } else {
      assert ReceiptOf(s3).Missing? && !facts.finalized;
    }
    assert CoherentLoads(facts, s1.stream, RawOf(s1), MarkerOf(s2), ReceiptOf(s3), MarkerOf(s4));
    hide Parse, Print, CaptureOk, Later, WriterOk, ReceiptOf, MarkerVisible;
    LoadsAreCoherent(facts, s1.stream, RawOf(s1), MarkerOf(s2), ReceiptOf(s3), MarkerOf(s4));
  }

  /** The facts about the loads that coherence follows from. */
  predicate CoherentLoads(facts: Facts, stream: CaptureStream, raw: RawFile, marker: Load, receipt: Load, markerAgain: Load) {
    && |raw.bytes| <= CAPTURE_LIMIT
    && (marker.Missing? || marker.Loaded?) && (markerAgain.Missing? || markerAgain.Loaded?)
    && (receipt.Missing? || receipt.Loaded?)
    && (facts == NOT_FINAL || receipt.Loaded?)
    && (receipt.Loaded? ==>
          var c := Parse(receipt.text, stream);
          && c.Some? && Coherent(c.value) && BelongsTo(c.value, raw)
          && (marker.Loaded? ==> c.value.truncated)
          && (c.value.truncated <==> markerAgain.Loaded?)
          && (facts != NOT_FINAL ==> c.value.retained == |raw.bytes| && MatchesFinalFacts(c.value, facts)))
  }

  lemma LoadsAreCoherent(facts: Facts, stream: CaptureStream, raw: RawFile, marker: Load, receipt: Load, markerAgain: Load)
    requires CoherentLoads(facts, stream, raw, marker, receipt, markerAgain)
    ensures !Incoherent(facts, stream, raw, marker, receipt, markerAgain)
    ensures !Unread(stream, raw, marker, receipt, markerAgain)
  {
    hide Parse;
  }

  /** Once a receipt was returned, files and receipt stay. */
  lemma SealedStays(s1: State, s2: State, s3: State)
    requires WriterOk(s1) && WriterOk(s2) && WriterOk(s3) && Later(s1, s2) && Later(s2, s3) && s1.stage.Sealed?
    ensures s1.stage.receipt.Some? ==>
              s3.closedVisible && s3.candidate == s1.stage.receipt && |s1.raw| == s1.stage.receipt.value.retained
              && s1.stage.receipt.value.openAtCutover == s1.stage.source.SealedByCutover?
  {
    hide Parse, Print, Coherent;
  }

  // ---------------------------------------------------------------- the chain of snapshots

  /** A read that says the output cannot grow has seen all of it. */
  lemma ClosedReadIsComplete(facts: Facts, s1: State, s2: State, s3: State, s4: State, end: State)
    requires ReadAcross(s1, s2, s3, s4) && FactsAt(facts, s1) && facts.available != Some(false)
    requires WriterOk(end) && Later(s4, end)
    requires !GrowthAllowed(facts, s1.stream, RawOf(s1), ReceiptOf(s3))
    ensures end.raw == s1.raw
  {
    LaterTransitive(s1, s2, s3);
    LaterTransitive(s3, s4, end);
    LaterTransitive(s1, s3, end);
    if s3.closedVisible {
      ReceiptAgrees(s1, s2, s3, s4);
    }
    if s1.stage.Sealed? {
      SealedStays(s1, s2, s3);
    }
    hide Parse, Print, Coherent, MarkerVisible;
  }

  /** One read of a running capture: the states at its loads and the facts it started from. */
  datatype Read = Read(facts: Facts, s1: State, s2: State, s3: State, s4: State)

  ghost predicate ReadsOf(sequence: seq<Read>, end: State) {
    && WriterOk(end)
    && (forall i :: 0 <= i < |sequence| ==> ReadOk(sequence[i], end))
    && (forall i, k :: 0 <= i < k < |sequence| ==> Later(sequence[i].s1, sequence[k].s1))
  }

  predicate ReadOk(r: Read, end: State) {
    && ReadAcross(r.s1, r.s2, r.s3, r.s4) && FactsAt(r.facts, r.s1) && r.facts.available != Some(false)
    && Later(r.s4, end) && Later(r.s1, end)
  }

  function PollOf(r: Read): Poll
    requires r.s1.identity.Some?
  {
    var shown := ShownFacts(r.facts, r.s1.stream, 0, RawOf(r.s1), MarkerOf(r.s2), ReceiptOf(r.s3));
    Poll(|r.s1.raw|, shown.canGrow, shown)
  }

  /** The successive reads of one capture are a chain of growing snapshots of its final bytes. */
  lemma ReadsFormChain(sequence: seq<Read>, end: State)
    requires ReadsOf(sequence, end)
    ensures Chain(end.raw, seq(|sequence|, i requires 0 <= i < |sequence| => PollOf(sequence[i])))
  {
    var polls := seq(|sequence|, i requires 0 <= i < |sequence| => PollOf(sequence[i]));
    forall i | 0 <= i < |polls| ensures polls[i].length <= |end.raw| && (polls[i].canGrow || polls[i].length == |end.raw|) {
      PollIsHonest(sequence[i], end);
    }
    forall i, k | 0 <= i < k < |polls| ensures polls[i].length <= polls[k].length {
      assert Later(sequence[i].s1, sequence[k].s1);
      RawGrows(sequence[i].s1, sequence[k].s1);
    }
    hide PollOf, ReadOk, Later, WriterOk;
  }

  lemma RawGrows(s: State, t: State)
    requires Later(s, t)
    ensures |s.raw| <= |t.raw|
  {
  }

  lemma PollIsHonest(r: Read, end: State)
    requires ReadOk(r, end) && WriterOk(end)
    ensures PollOf(r).length <= |end.raw| && (PollOf(r).canGrow || PollOf(r).length == |end.raw|)
  {
    RawGrows(r.s1, end);
    if !PollOf(r).canGrow {
      ClosedReadIsComplete(r.facts, r.s1, r.s2, r.s3, r.s4, end);
    }
    hide Later, WriterOk, CaptureOk, Closing;
  }

  /**
   End to end: following the offsets over any reads of one capture shows the sanitized decode of a
   prefix of the command's output, and all that was retained once the offset reaches its end.
   */
  lemma ReaderShowsTheOutput(sequence: seq<Read>, end: State)
    requires ReadsOf(sequence, end)
    ensures end.raw <= end.input
    ensures var polls := seq(|sequence|, i requires 0 <= i < |sequence| => PollOf(sequence[i]));
            var shown := Follow(end.raw, polls);
            && shown.offset <= |end.raw|
            && SanitizedDecode(end.raw) == shown.text + SanitizedDecode(end.raw[shown.offset..])
            && (shown.offset == |end.raw| ==> shown.text == SanitizedDecode(end.raw))
  {
    ReadsFormChain(sequence, end);
    var polls := seq(|sequence|, i requires 0 <= i < |sequence| => PollOf(sequence[i]));
    PollingEquivalence(end.raw, polls);
    assert end.raw <= end.input;
    hide *;
  }
}
