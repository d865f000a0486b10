/**
 readOutputSnapshot of src/output.ts: one read decides from four separate loads (raw file, marker,
 receipt and, if needed, the marker again) and the SQLite facts what may be shown.
 */
module SnapshotReader {
  import opened Wrappers
  import opened Utf8
  import opened CaptureTypes
  import opened ClosureReceipt
  import opened Paginator

  datatype Facts = Facts(finalized: bool, available: Option<bool>, truncated: bool, incomplete: bool, openAtCutover: bool)

  /** What loading a private file gives; the text of a loaded marker is empty. */
  datatype Load = Missing | Invalid | ReadFailed | Loaded(text: string)

  /** The raw file as it was opened: its identity and its bytes at that moment. */
  datatype RawFile = RawFile(identity: Identity, bytes: seq<Byte>)

  predicate PermitsGrowth(facts: Facts) {
    !facts.finalized && facts.available != Some(false) && !facts.truncated && !facts.incomplete && !facts.openAtCutover
  }

  predicate MatchesFinalFacts(r: Receipt, facts: Facts) {
    facts.available == Some(true) && r.truncated == facts.truncated && r.incomplete == facts.incomplete
    && r.openAtCutover == facts.openAtCutover
  }

  // ---------------------------------------------------------------- what a read should decide

  /** The loaded receipt belongs to this raw file and accounts for at least the bytes seen. */
  predicate BelongsTo(r: Receipt, raw: RawFile) {
    r.raw == raw.identity && r.retained >= |raw.bytes|
  }

  /** The receipt that closes exactly the bytes seen, if the loaded one does. */
  function Closing(receipt: Load, stream: CaptureStream, raw: RawFile): Option<Receipt> {
    if !receipt.Loaded? then None
    else
      var r :- Parse(receipt.text, stream);
      if r.raw == raw.identity && r.retained == |raw.bytes| then Some(r) else None
  }

  /** The loads cannot be states of one capture. */
  predicate Incoherent(facts: Facts, stream: CaptureStream, raw: RawFile, marker: Load, receipt: Load, markerAgain: Load) {
    var parsed := if receipt.Loaded? then Parse(receipt.text, stream) else None;
    var closing := Closing(receipt, stream, raw);
    var reload := closing.Some? && closing.value.truncated && marker.Missing?;
    var marked := (if reload then markerAgain else marker).Loaded?;
    var partial := |raw.bytes| < CAPTURE_LIMIT;
    || |raw.bytes| > CAPTURE_LIMIT
    || marker.Invalid? || receipt.Invalid? || (reload && markerAgain.Invalid?)
    || (receipt.Loaded? && (parsed.None? || !BelongsTo(parsed.value, raw)))
    || (receipt.Loaded? && closing.None? && !PermitsGrowth(facts))
    || (facts.finalized && (closing.None? || !MatchesFinalFacts(closing.value, facts)))
    || (closing.Some? && closing.value.truncated != marked)
    || (marked && partial && (if closing.Some? then !closing.value.reason.CaptureError? else !PermitsGrowth(facts)))
    || (facts.truncated && facts.finalized && !marked)
  }

  predicate Unread(stream: CaptureStream, raw: RawFile, marker: Load, receipt: Load, markerAgain: Load) {
    var closing := Closing(receipt, stream, raw);
    || marker.ReadFailed? || receipt.ReadFailed?
    || (closing.Some? && closing.value.truncated && marker.Missing? && markerAgain.ReadFailed?)
  }

  /** Reading fails before the loads are judged; an invalid marker is judged first. */
  predicate Unreadable(stream: CaptureStream, raw: RawFile, marker: Load, receipt: Load, markerAgain: Load) {
    Unread(stream, raw, marker, receipt, markerAgain) && !marker.Invalid?
  }

  function GrowthAllowed(facts: Facts, stream: CaptureStream, raw: RawFile, receipt: Load): bool {
    PermitsGrowth(facts) && Closing(receipt, stream, raw).None? && |raw.bytes| < CAPTURE_LIMIT
  }

  /** A closing receipt outranks SQLite; without one only a full marked file counts as truncated. */
  function ShownFacts(facts: Facts, stream: CaptureStream, offset: nat, raw: RawFile, marker: Load, receipt: Load): PageFacts {
    var closing := Closing(receipt, stream, raw);
    var grows := GrowthAllowed(facts, stream, raw, receipt);
    match closing
    case Some(r) => PageFacts(stream, offset, |raw.bytes|, grows, true, r.truncated, r.incomplete, r.openAtCutover)
    case None => PageFacts(stream, offset, |raw.bytes|, grows, true, marker.Loaded? && |raw.bytes| == CAPTURE_LIMIT,
                           facts.incomplete, facts.openAtCutover)
  }

  // ---------------------------------------------------------------- the program

  /** What the load steps of the program leave for the rest. */
  datatype Checked = Checked(receipt: Option<Receipt>, marked: bool)

  /** The load and coherence steps, in the order of the program. */
  method CheckLoads(facts: Facts, stream: CaptureStream, raw: RawFile, marker: Load, receiptLoaded: Load, markerAgain: Load)
    returns (r: Result<Checked, OutputError>)
    requires |raw.bytes| <= CAPTURE_LIMIT
    ensures r == Failure(OutputReadFailed) <==> Unreadable(stream, raw, marker, receiptLoaded, markerAgain)
    ensures r == Failure(CaptureCorrupt) <==>
            !Unreadable(stream, raw, marker, receiptLoaded, markerAgain)
            && Incoherent(facts, stream, raw, marker, receiptLoaded, markerAgain)
    ensures r.Failure? ==> r.error.OutputReadFailed? || r.error.CaptureCorrupt?
    ensures r.Success? ==>
              r.value.receipt == Closing(receiptLoaded, stream, raw)
              && (r.value.receipt.None? ==> r.value.marked == (marker.Loaded? && |raw.bytes| == CAPTURE_LIMIT))
  {
    hide Parse;
    var permitsGrowth := PermitsGrowth(facts);
    var retainedBytes := |raw.bytes|;
    var markerLoaded := marker;
    if markerLoaded.ReadFailed? { return Failure(OutputReadFailed); }
    if markerLoaded.Invalid? { return Failure(CaptureCorrupt); }
    var markerObserved := markerLoaded.Loaded?;
    if receiptLoaded.ReadFailed? { return Failure(OutputReadFailed); }
    if receiptLoaded.Invalid? { return Failure(CaptureCorrupt); }
    var receipt: Option<Receipt> := None;
    if receiptLoaded.Loaded? {
      var parsed := Parse(receiptLoaded.text, stream);
      if parsed.None? || parsed.value.raw != raw.identity { return Failure(CaptureCorrupt); }
      if parsed.value.retained < retainedBytes { return Failure(CaptureCorrupt); }
      if parsed.value.retained > retainedBytes {
        if !permitsGrowth { return Failure(CaptureCorrupt); }
      } else {
        receipt := parsed;
      }
    }
    if receipt.Some? && receipt.value.truncated && markerLoaded.Missing? {
      markerLoaded := markerAgain;
      if markerLoaded.ReadFailed? { return Failure(OutputReadFailed); }
      if markerLoaded.Invalid? { return Failure(CaptureCorrupt); }
      markerObserved := markerLoaded.Loaded?;
    }
    if markerObserved && retainedBytes < CAPTURE_LIMIT {
      var coherentPartialOverflow := receipt.Some? && receipt.value.truncated && receipt.value.reason.CaptureError?;
      if !coherentPartialOverflow {
        if receipt.Some? || !permitsGrowth { return Failure(CaptureCorrupt); }
        markerObserved := false;
      }
    }
    if facts.finalized {
      if receipt.None? || !MatchesFinalFacts(receipt.value, facts) { return Failure(CaptureCorrupt); }
    }
    if receipt.Some? && receipt.value.truncated != markerObserved { return Failure(CaptureCorrupt); }
    if facts.truncated && facts.finalized && !markerObserved { return Failure(CaptureCorrupt); }
    r := Success(Checked(receipt, markerObserved));
  }

  /** The calls of readSync from the n-th on bring the bytes that are still needed. */
  predicate Fills(counts: nat -> int, n: nat, needed: nat)
    decreases needed
  {
    needed == 0 || (counts(n) > 0 && (counts(n) >= needed || Fills(counts, n + 1, needed - counts(n))))
  }

  lemma {:induction false} ProgressFills(counts: nat -> int, n: nat, needed: nat)
    requires forall k: nat :: counts(k) > 0
    ensures Fills(counts, n, needed)
    decreases needed
  {
    if 0 < needed && counts(n) < needed {
      ProgressFills(counts, n + 1, needed - counts(n));
    }
  }

  /** The read loop: counts(n) is what the n-th call of readSync returns. */
  method ReadWindow(raw: seq<Byte>, offset: nat, request: nat, counts: nat -> int) returns (r: Option<seq<Byte>>)
    requires offset + request <= |raw|
    ensures r == if Fills(counts, 0, request) then Some(raw[offset..offset + request]) else None
  {
    var bytes := new Byte[request](_ => 0);
    var read, calls := 0, 0;
    while read < request
      invariant read <= request
      invariant bytes[..read] == raw[offset..offset + read]
      invariant Fills(counts, 0, request) <==> Fills(counts, calls, request - read)
      decreases request - read
    {
      var count := if counts(calls) <= request - read then counts(calls) else request - read;
      if count <= 0 { return None; }
      var i := 0;
      while i < count
        invariant i <= count
        invariant bytes[..read + i] == raw[offset..offset + read + i]
      {
        assert raw[offset..offset + read + i + 1] == raw[offset..offset + read + i] + [raw[offset + read + i]];
        bytes[read + i] := raw[offset + read + i];
        i := i + 1;
      }
      read := read + count;
      calls := calls + 1;
    }
    assert bytes[..] == bytes[..read];
    r := Some(bytes[..]);
  }

  const NOTHING_CAPTURED := PageFacts(Stdout, 0, 0, false, false, false, false, false)

  /** The page of a stream that was never captured. */
  function UnavailablePage(facts: Facts, stream: CaptureStream): Page {
    Page(NOTHING_CAPTURED.(stream := stream, truncated := facts.truncated, incomplete := facts.incomplete,
                           openAtCutover := facts.openAtCutover), 0, false, "")
  }

  /** The read reaches the marker and the receipt. */
  predicate Reaches(facts: Facts, offset: int, workspace: bool, raw: Option<RawFile>) {
    && 0 <= offset <= CAPTURE_LIMIT && facts.available != Some(false) && workspace && raw.Some?
    && |raw.value.bytes| <= CAPTURE_LIMIT && offset <= |raw.value.bytes|
  }

  /** How much of the remaining bytes one read asks for. */
  function WindowSize(remaining: nat): nat {
    if remaining <= ENVELOPE_LIMIT + LOOKAHEAD then remaining else ENVELOPE_LIMIT + LOOKAHEAD
  }

  /**
   One read. workspace says whether the private directory opens, raw is the opened file if it could
   be opened safely, bound whether it is still the same file at the end.
   */
  method ReadOutputSnapshot(
    facts: Facts, stream: CaptureStream, offset: int, workspace: bool, raw: Option<RawFile>,
    marker: Load, receipt: Load, markerAgain: Load, counts: nat -> int, bound: bool)
    returns (r: Result<Page, OutputError>)
    ensures r == Failure(InvalidOffset) <==> offset < 0 || offset > CAPTURE_LIMIT
    ensures 0 <= offset <= CAPTURE_LIMIT && facts.available == Some(false) ==>
              r == if offset > 0 then Failure(OffsetOutOfRange)
                   else Success(Page(PageFacts(stream, 0, 0, false, false, facts.truncated, facts.incomplete, facts.openAtCutover), 0, false, ""))
    ensures facts.available != Some(false) && raw.Some? && workspace && 0 <= offset <= CAPTURE_LIMIT && !Reaches(facts, offset, workspace, raw) ==>
              r == if |raw.value.bytes| > CAPTURE_LIMIT then Failure(CaptureCorrupt) else Failure(OffsetOutOfRange)
    ensures 0 <= offset <= CAPTURE_LIMIT && facts.available != Some(false) && (!workspace || raw.None?) ==>
              r == Failure(CaptureUnavailable)
    ensures Reaches(facts, offset, workspace, raw) && Unreadable(stream, raw.value, marker, receipt, markerAgain) ==>
              r == Failure(OutputReadFailed)
    ensures Reaches(facts, offset, workspace, raw) && !Unreadable(stream, raw.value, marker, receipt, markerAgain)
            && Incoherent(facts, stream, raw.value, marker, receipt, markerAgain) ==>
              r == Failure(CaptureCorrupt)
    ensures Reaches(facts, offset, workspace, raw) && !Unreadable(stream, raw.value, marker, receipt, markerAgain)
            && !Incoherent(facts, stream, raw.value, marker, receipt, markerAgain) ==>
              var page := BestPage(ShownFacts(facts, stream, offset, raw.value, marker, receipt), raw.value.bytes[offset..]);
              r == if offset == |raw.value.bytes| then Success(page)
                   else if !Fills(counts, 0, WindowSize(|raw.value.bytes| - offset)) then Failure(OutputReadFailed)
                   else if !bound then Failure(CaptureUnavailable)
                   else Success(page)
    ensures r.Success? && facts.available != Some(false) ==>
              && Reaches(facts, offset, workspace, raw)
              && r.value == BestPage(ShownFacts(facts, stream, offset, raw.value, marker, receipt), raw.value.bytes[offset..])
  {
    hide Incoherent, Unreadable, Closing, BestPage, PermitsGrowth, Fills;
    if offset < 0 || offset > CAPTURE_LIMIT { return Failure(InvalidOffset); }
    if facts.available == Some(false) {
      if offset > 0 { return Failure(OffsetOutOfRange); }
      return Success(UnavailablePage(facts, stream));
    }
    if !workspace || raw.None? { return Failure(CaptureUnavailable); }
    var bytes := raw.value.bytes;
    var retainedBytes := |bytes|;
    if retainedBytes > CAPTURE_LIMIT { return Failure(CaptureCorrupt); }
    if offset > retainedBytes { return Failure(OffsetOutOfRange); }
    var checked := CheckLoads(facts, stream, raw.value, marker, receipt, markerAgain);
    if checked.Failure? { return Failure(checked.error); }
    var closing := checked.value.receipt;
    var canGrow := PermitsGrowth(facts) && closing.None? && retainedBytes < CAPTURE_LIMIT;
    var pageFacts := PageFacts(
      stream, offset, retainedBytes, canGrow, true,
      if closing.Some? then closing.value.truncated else checked.value.marked,
      if closing.Some? then closing.value.incomplete else facts.incomplete,
      if closing.Some? then closing.value.openAtCutover else facts.openAtCutover);
    assert pageFacts == ShownFacts(facts, stream, offset, raw.value, marker, receipt);
    hide ShownFacts;
    if offset == retainedBytes {
      EmptyPage(pageFacts);
      assert bytes[offset..] == [];
      return Success(Page(pageFacts, offset, false, ""));
    }
    var requestBytes := WindowSize(retainedBytes - offset);
    var window := ReadWindow(bytes, offset, requestBytes, counts);
    if window.None? { return Failure(OutputReadFailed); }
    if !bound { return Failure(CaptureUnavailable); }
    assert bytes[offset..][..requestBytes] == bytes[offset..offset + requestBytes];
    r := Paginate(window.value, canGrow, pageFacts, bytes[offset..]);
  }

  lemma EmptyPage(facts: PageFacts)
    requires facts.offset == facts.retained
    ensures BestPage(facts, []) == Page(facts, facts.offset, false, "")
  {
  }
}
