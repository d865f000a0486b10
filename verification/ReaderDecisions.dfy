/**
 What a read decides, in terms of receipts that were written and files that were there: when the loads
 are accepted, and what an accepted read reports of a running capture.
 */
module ReaderDecisions {
  import opened Wrappers
  import opened Utf8
  import opened CaptureTypes
  import opened ClosureReceipt
  import opened OutputCapture
  import opened Paginator
  import opened SnapshotReader
  import opened CaptureCoherence

  // ---------------------------------------------------------------- when loads are accepted

  /** The receipt file holds the text of this receipt, which says nothing a writer could not say. */
  ghost predicate Holds(receipt: Load, stream: CaptureStream, c: Receipt) {
    && receipt == Loaded(Print(c)) && c.stream == stream
    && c.retained <= 5_242_880 && c.raw.dev <= MAX_SAFE_INTEGER && c.raw.ino <= MAX_SAFE_INTEGER
    && Coherent(c)
  }

  /** Nothing in SQLite rules out that the file still grows. */
  predicate MayGrow(facts: Facts) {
    && !facts.finalized && !facts.truncated && !facts.incomplete && !facts.openAtCutover
    && (facts.available.None? || facts.available.value)
  }

  /** The marker as it was seen: a missing one is looked for again when the receipt speaks of it. */
  predicate MarkerSeen(marker: Load, markerAgain: Load, expected: bool) {
    marker.Loaded? || (marker.Missing? && expected && markerAgain.Loaded?)
  }

  /** The receipt closes exactly the bytes that were seen. */
  ghost predicate ConsistentWhenClosed(facts: Facts, raw: RawFile, marker: Load, markerAgain: Load, c: Receipt) {
    && c.raw == raw.identity && c.retained == |raw.bytes|
    && (c.truncated <==> MarkerSeen(marker, markerAgain, c.truncated))
    && !(c.truncated && marker.Missing? && markerAgain.Invalid?)
    && (facts.finalized ==>
          && facts.available == Some(true) && c.truncated == facts.truncated
          && c.incomplete == facts.incomplete && c.openAtCutover == facts.openAtCutover)
  }

  /** No receipt yet, or one that was written after the bytes were looked at. */
  ghost predicate ConsistentWhenOpen(facts: Facts, raw: RawFile, marker: Load, later: Option<Receipt>) {
    && !facts.finalized
    && (later.Some? ==> MayGrow(facts) && later.value.raw == raw.identity && later.value.retained > |raw.bytes|)
    && (marker.Loaded? && |raw.bytes| < 5_242_880 ==> MayGrow(facts))
  }

  ghost predicate ConsistentLoads(facts: Facts, stream: CaptureStream, raw: RawFile, marker: Load, receipt: Load, markerAgain: Load) {
    && |raw.bytes| <= 5_242_880 && !marker.Invalid?
    && (if receipt.Loaded? then
          exists c :: Holds(receipt, stream, c) &&
            (ConsistentWhenClosed(facts, raw, marker, markerAgain, c) || ConsistentWhenOpen(facts, raw, marker, Some(c)))
        else
          !receipt.Invalid? && ConsistentWhenOpen(facts, raw, marker, None))
  }

  lemma HeldReceiptParses(receipt: Load, stream: CaptureStream, c: Receipt)
    ensures Holds(receipt, stream, c) <==> receipt.Loaded? && Parse(receipt.text, stream) == Some(c)
  {
    if receipt.Loaded? {
      ParseInvertsPrint(receipt.text, stream, c);
    }
    hide Parse, Print;
  }

  /** A read takes its loads for states of one capture exactly when they are consistent. */
  lemma AcceptedIffConsistent(facts: Facts, stream: CaptureStream, raw: RawFile, marker: Load, receipt: Load, markerAgain: Load)
    requires !Unread(stream, raw, marker, receipt, markerAgain)
    ensures !Incoherent(facts, stream, raw, marker, receipt, markerAgain)
            <==> ConsistentLoads(facts, stream, raw, marker, receipt, markerAgain)
  {
    hide Parse, Print, Coherent, Holds;
    if receipt.Loaded? {
      var parsed := Parse(receipt.text, stream);
      forall c ensures Holds(receipt, stream, c) <==> parsed == Some(c) {
        HeldReceiptParses(receipt, stream, c);
      }
      if parsed.Some? {
        ParsedIsCoherent(receipt, stream, parsed.value);
      }
    }
  }

  /** A text that parses is that of a coherent receipt: only a capture error leaves less than the cap and a marker. */
  lemma ParsedIsCoherent(receipt: Load, stream: CaptureStream, c: Receipt)
    requires receipt.Loaded? && Parse(receipt.text, stream) == Some(c)
    ensures c.truncated && c.retained < 5_242_880 ==> c.reason.CaptureError?
    ensures c.retained <= 5_242_880
  {
    HeldReceiptParses(receipt, stream, c);
    hide Parse, Print;
  }

  // ---------------------------------------------------------------- what a read of a running capture reports

  /** The receipt was in place, and the bytes seen were all there is. */
  predicate SawClosed(s1: State, s3: State) {
    s3.closedVisible && s3.candidate.Some? && s3.candidate.value.retained == |s1.raw|
  }

  /**
   A read says that more may come exactly when SQLite and the files leave that open, and a read that
   saw the capture closed says so and reports what really happened to the output.
   */
  lemma ReadReports(facts: Facts, s1: State, s2: State, s3: State, s4: State, offset: nat)
    requires ReadAcross(s1, s2, s3, s4) && CaptureCoherence.FactsAt(facts, s1) && facts.available != Some(false)
    ensures var shown := ShownFacts(facts, s1.stream, offset, RawOf(s1), MarkerOf(s2), ReceiptOf(s3));
            && shown.stream == s1.stream && shown.offset == offset && shown.retained == |s1.raw| && shown.available
            && (shown.canGrow <==> !facts.finalized && |s1.raw| < 5_242_880 && !SawClosed(s1, s3))
            && (SawClosed(s1, s3) ==>
                  var c := s3.candidate.value;
                  && shown.truncated == c.truncated && shown.incomplete == c.incomplete && shown.openAtCutover == c.openAtCutover
                  && s1.raw == s3.raw
                  && (!shown.incomplete ==> shown.retained == Min(|s3.input|, 5_242_880)
                                            && (shown.truncated <==> |s3.input| > 5_242_880)))
            && (!SawClosed(s1, s3) ==>
                  !facts.finalized && !shown.incomplete && !shown.openAtCutover
                  && (shown.truncated <==> MarkerVisible(s2) && |s1.raw| == 5_242_880))
  {
    if s1.stage.Sealed? {
      SealedStays(s1, s2, s3);
    }
    if s3.closedVisible {
      ReceiptAgrees(s1, s2, s3, s4);
      SeenBefore(s1, s2, s3);
    }
    hide Parse, Print, CaptureOk, Later, MarkerVisible;
  }

  /** Bytes seen earlier are a prefix, and a built receipt is true of the files. */
  lemma SeenBefore(s1: State, s2: State, s3: State)
    requires WriterOk(s1) && WriterOk(s2) && WriterOk(s3) && Later(s1, s2) && Later(s2, s3) && s3.candidate.Some?
    ensures s1.raw <= s3.raw && s3.candidate.value.retained == |s3.raw| && s3.stream == s1.stream
    ensures CandidateOk(s3, s3.candidate.value)
  {
  }
}
