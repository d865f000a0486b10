/**
 The class StreamCapture of src/output-capture.ts with its fields and its storage buffer, written in
 place. Every method takes exactly one step of the capture state machine.
 */
module StreamCaptureObject {
  import opened Wrappers
  import opened Utf8
  import opened CaptureTypes
  import opened ClosureReceipt
  import opened OutputCapture

  class StreamCapture {
    const stream: CaptureStream
    const storage: array<Byte>
    const rawIdentity: Option<Identity>
    var fdOpen: bool
    var admittedBytes: nat
    var writtenBytes: nat
    var drainedBytes: nat
    var overflowObserved: bool
    var captureLoss: bool
    var durabilityLoss: bool
    var intakeOpen: bool
    var invalidated: bool
    var pump: Pump
    var marker: Marker
    var stage: Stage
    /** The receipt that sealing built. */
    var candidate: Option<Receipt>
    /** Outside the program: all input so far and the files on disk. */
    ghost var input: seq<Byte>
    ghost var raw: seq<Byte>
    ghost var closedVisible: bool

    ghost function Abstract(): State
      reads this, storage
      requires admittedBytes <= storage.Length
    {
      State(stream, rawIdentity, input, storage[..admittedBytes], writtenBytes, raw, fdOpen, intakeOpen, captureLoss,
            durabilityLoss, overflowObserved, invalidated, pump, marker, stage, candidate, closedVisible)
    }

    ghost predicate Valid()
      reads this, storage
    {
      && storage.Length == CAPTURE_LIMIT
      && admittedBytes <= CAPTURE_LIMIT
      && drainedBytes == |input|
      && CaptureOk(Abstract())
    }

    /** identity is None when the raw file could not be created. */
    constructor (stream: CaptureStream, identity: Option<Identity>)
      ensures Valid() && fresh(storage)
      ensures Abstract() == Constructed(stream, identity)
    {
      this.stream := stream;
      storage := new Byte[CAPTURE_LIMIT](_ => 0);
      rawIdentity := identity;
      fdOpen := identity.Some?;
      captureLoss := identity.None?;
      durabilityLoss := identity.None?;
      admittedBytes, writtenBytes, drainedBytes := 0, 0, 0;
      overflowObserved, intakeOpen, invalidated := false, true, false;
      pump, marker, stage := Idle, NoMarker, Open;
      input, raw, candidate, closedVisible := [], [], None, false;
      new;
      ConstructedIsOk(stream, identity);
    }

    /** The pump loop, up to its next write or its end. */
    method Pump()
      requires storage.Length == CAPTURE_LIMIT && admittedBytes <= CAPTURE_LIMIT && writtenBytes <= CAPTURE_LIMIT
      modifies this`pump
      ensures Abstract() == RunPump(old(Abstract()))
    {
      if fdOpen && !captureLoss && writtenBytes < admittedBytes {
        pump := Writing(admittedBytes - writtenBytes);
      } else {
        pump := Idle;
      }
    }

    method StartPump()
      requires storage.Length == CAPTURE_LIMIT && admittedBytes <= CAPTURE_LIMIT && writtenBytes <= CAPTURE_LIMIT
      modifies this`pump
      ensures Abstract() == OutputCapture.StartPump(old(Abstract()))
    {
      if !pump.Idle? || !fdOpen { return; }
      Pump();
    }

    method ObserveOverflow(created: MarkerStart)
      requires admittedBytes <= storage.Length
      modifies this`overflowObserved, this`marker, this`captureLoss, this`durabilityLoss
      ensures Abstract() == OutputCapture.ObserveOverflow(old(Abstract()), created)
    {
      if overflowObserved { return; }
      overflowObserved := true;
      match created {
        case Created => marker := Syncing;
        case Refused(visible) =>
          marker := Broken(visible);
          captureLoss := true;
          durabilityLoss := true;
      }
    }

    /** Copies what fits behind the admitted bytes; a write of earlier bytes may be in flight. */
    method Copy(chunk: array<Byte>, accepted: nat)
      requires storage.Length == CAPTURE_LIMIT && chunk != storage
      requires accepted <= chunk.Length && admittedBytes + accepted <= CAPTURE_LIMIT
      modifies storage
      ensures storage[..admittedBytes + accepted] == old(storage[..admittedBytes]) + chunk[..accepted]
    {
      var i := 0;
      while i < accepted
        invariant i <= accepted
        invariant storage[..admittedBytes + i] == old(storage[..admittedBytes]) + chunk[..i]
      {
        storage[admittedBytes + i] := chunk[i];
        i := i + 1;
      }
    }

    method Accept(chunk: array<Byte>, created: MarkerStart)
      requires Valid() && chunk != storage
      modifies this`drainedBytes, this`input, this`admittedBytes, this`pump, this`overflowObserved, this`marker,
               this`captureLoss, this`durabilityLoss, storage
      ensures Valid()
      ensures Abstract() == AcceptStep(old(Abstract()), chunk[..], created)
    {
      AcceptKeeps(Abstract(), chunk[..], created);
      hide CaptureOk, AdmitStep;
      if intakeOpen && chunk.Length > 0 {
        drainedBytes := drainedBytes + chunk.Length;
        input := input + chunk[..];
        if !captureLoss {
          Admit(chunk, created);
        }
      }
    }

    /** The part of a chunk within the cap goes into the buffer; a rest is overflow. */
    method Admit(chunk: array<Byte>, created: MarkerStart)
      requires storage.Length == CAPTURE_LIMIT && chunk != storage
      requires writtenBytes <= CAPTURE_LIMIT && admittedBytes <= CAPTURE_LIMIT
      modifies this`admittedBytes, this`pump, this`overflowObserved, this`marker, this`captureLoss, this`durabilityLoss, storage
      ensures admittedBytes <= CAPTURE_LIMIT
      ensures Abstract() == AdmitStep(old(Abstract()), chunk[..], created)
    {
      hide OutputCapture.ObserveOverflow, OutputCapture.StartPump;
      var accepted := AdmitWhatFits(chunk);
      if accepted < chunk.Length {
        ObserveOverflow(created);
      }
    }

    method AdmitWhatFits(chunk: array<Byte>) returns (accepted: nat)
      requires storage.Length == CAPTURE_LIMIT && chunk != storage
      requires writtenBytes <= CAPTURE_LIMIT && admittedBytes <= CAPTURE_LIMIT
      modifies this`admittedBytes, this`pump, storage
      ensures accepted == Min(CAPTURE_LIMIT - old(admittedBytes), chunk.Length)
      ensures admittedBytes <= CAPTURE_LIMIT
      ensures Abstract() == (if accepted > 0 && fdOpen
                             then OutputCapture.StartPump(old(Abstract()).(admitted := old(Abstract()).admitted + chunk[..accepted]))
                             else old(Abstract()))
    {
      var remaining := CAPTURE_LIMIT - admittedBytes;
      accepted := if remaining < chunk.Length then remaining else chunk.Length;
      if accepted > 0 && fdOpen {
        Copy(chunk, accepted);
        admittedBytes := admittedBytes + accepted;
        StartPump();
      }
    }

    method SourceErrored()
      requires Valid()
      modifies this`captureLoss
      ensures Valid() && Abstract() == Step(old(Abstract()), SourceError)
    {
      StepKeepsCapture(Abstract(), SourceError);
      captureLoss := true;
    }

    /** The kernel reports the result of the pending write: None is an error. */
    method WriteReturned(result: Option<int>)
      requires Valid() && Enabled(Abstract(), WriteReturns(result))
      modifies this`raw, this`writtenBytes, this`captureLoss, this`pump
      ensures Valid() && Abstract() == Step(old(Abstract()), WriteReturns(result))
    {
      ghost var before := Abstract();
      StepKeepsCapture(before, WriteReturns(result));
      hide CaptureOk;
      if result.Some? && 0 < result.value <= pump.request {
        raw := DiskAfter(before, result.value);
        writtenBytes := writtenBytes + result.value;
      } else {
        captureLoss := true;
      }
      Pump();
    }

    method MarkerSyncReturned(ok: bool)
      requires Valid() && marker.Syncing?
      modifies this`marker, this`captureLoss, this`durabilityLoss
      ensures Valid() && Abstract() == Step(old(Abstract()), MarkerSynced(ok))
    {
      StepKeepsCapture(Abstract(), MarkerSynced(ok));
      if ok {
        marker := Durable;
      } else {
        marker := Broken(true);
        captureLoss := true;
        durabilityLoss := true;
      }
    }

    /** Intake closes at once; only the first call starts sealing. */
    method SealBy(source: Source)
      requires Valid()
      modifies this`intakeOpen, this`stage
      ensures Valid() && Abstract() == Step(old(Abstract()), Seal(source))
    {
      StepKeepsCapture(Abstract(), Seal(source));
      intakeOpen := false;
      if stage.Open? {
        stage := Draining(source);
      }
    }

    /** The receipt from the flags as they are now. */
    method MakeReceipt(source: Source) returns (r: Receipt)
      requires admittedBytes <= storage.Length && rawIdentity.Some?
      ensures r == Candidate(Abstract(), source)
    {
      var openAtCutover := source.SealedByCutover?;
      var incomplete := captureLoss || openAtCutover;
      var truncated := overflowObserved && marker.Durable?;
      var reason := if captureLoss then CaptureError else if source.SealedByEof? then Eof else Cutover;
      r := Receipt(stream, writtenBytes, truncated, incomplete, openAtCutover, reason, rawIdentity.value);
    }

    method CloseRaw(durable: bool)
      requires admittedBytes <= storage.Length
      modifies this`durabilityLoss, this`fdOpen
      ensures Abstract() == RawClosed(old(Abstract()), durable)
    {
      if marker.Broken? { durabilityLoss := true; }
      if fdOpen {
        fdOpen := false;
        if !durable { durabilityLoss := true; }
      }
    }

    /** Builds the receipt if nothing speaks against it; publication follows. */
    method ConcludeSeal(verified: bool, rawSize: nat)
      requires admittedBytes <= storage.Length && stage.Draining? && rawSize == |raw|
      modifies this`durabilityLoss, this`candidate, this`stage
      ensures Abstract() == Conclude(old(Abstract()), verified)
    {
      hide Candidate;
      if !invalidated && rawIdentity.Some? && !durabilityLoss && verified && rawSize == writtenBytes {
        var receipt := MakeReceipt(stage.source);
        candidate := Some(receipt);
        stage := Publishing(stage.source);
      } else {
        durabilityLoss := true;
        stage := Sealed(stage.source, None);
      }
    }

    /** Pump and marker are done: the raw file is synced and closed, and the receipt is built. */
    method BuildReceipt(durable: bool, verified: bool, rawSize: nat)
      requires Valid() && Enabled(Abstract(), SealProceeds(durable, verified)) && rawSize == |raw|
      modifies this`fdOpen, this`durabilityLoss, this`candidate, this`stage
      ensures Valid() && Abstract() == Step(old(Abstract()), SealProceeds(durable, verified))
    {
      StepKeepsCapture(Abstract(), SealProceeds(durable, verified));
      hide CaptureOk, Conclude, RawClosed;
      CloseRaw(durable);
      ConcludeSeal(verified, rawSize);
    }

    /** The receipt was renamed into place. */
    ghost method Renamed()
      requires Valid() && Enabled(Abstract(), ReceiptRenamed)
      modifies this`closedVisible
      ensures Valid() && Abstract() == Step(old(Abstract()), ReceiptRenamed)
    {
      StepKeepsCapture(Abstract(), ReceiptRenamed);
      closedVisible := true;
    }

    /** Publication ended: inspected is what reading the published files back says. */
    method PublishReturned(verified: bool, inspected: bool, removed: bool)
      requires Valid() && Enabled(Abstract(), PublishReturns(verified, removed)) && inspected == Inspects(Abstract())
      modifies this`stage, this`durabilityLoss, this`closedVisible
      ensures Valid() && Abstract() == Step(old(Abstract()), PublishReturns(verified, removed))
    {
      hide Inspects, CandidateOk, BytesOk, FlagsOk, Lossless, Parse, Print;
      ghost var before := Abstract();
      ghost var after := PublishReturnsStep(before, verified, removed);
      PublishKeeps(before, verified, removed);
      assert after == Step(before, PublishReturns(verified, removed));
      var source := stage.source;
      hide Step, Enabled;
      if verified && inspected {
        stage := Sealed(source, candidate);
      } else {
        stage := Sealed(source, None);
        durabilityLoss := true;
        closedVisible := closedVisible && !removed;
      }
    }

    method InvalidateStaging()
      requires Valid()
      modifies this`intakeOpen, this`invalidated
      ensures Valid() && Abstract() == Step(old(Abstract()), Invalidate)
    {
      StepKeepsCapture(Abstract(), Invalidate);
      intakeOpen := false;
      invalidated := true;
    }
  }
}
