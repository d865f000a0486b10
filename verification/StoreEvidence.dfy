/**
 The evidence lattice of src/store-evidence.ts. A revision of a job carries a full snapshot of
 facts; an observation is merged onto the latest snapshot or rejected as a contradiction.
 */
module StoreEvidence {
  import opened Wrappers
  import opened JobTypes

  datatype LaunchPhase = Unknown | SuppressedCancelled | SuppressedDeadline | SpawnFailed | Launched

  datatype CleanupState = NotRequired | NotRequested | Pending | Unconfirmed

  datatype TermObservation = Returned | Errored

  /** available: None is "not observed", Some(false) is "explicitly unavailable". */
  datatype StreamFacts =
    StreamFacts(available: Option<bool>, truncated: bool, incomplete: bool, openAtCutover: bool)

  datatype Evidence = Evidence(
    launch: LaunchPhase,
    shellCode: Option<int>,
    shellSignal: Option<string>,
    cleanup: CleanupState,
    term: Option<TermObservation>,
    killIntent: bool,
    cancellationIntent: bool,
    deadlineTrigger: bool,
    stdout: StreamFacts,
    stderr: StreamFacts,
    uncertain: bool,
    finalized: bool)

  /** An observation: None is an omitted property, Some(v) a present one. */
  datatype StreamInput = StreamInput(
    available: Option<Option<bool>>,
    truncated: Option<bool>,
    incomplete: Option<bool>,
    openAtCutover: Option<bool>)

  datatype Observation = Observation(
    launch: Option<LaunchPhase>,
    shellCode: Option<Option<int>>,
    shellSignal: Option<Option<string>>,
    cleanup: Option<CleanupState>,
    term: Option<Option<TermObservation>>,
    killIntent: Option<bool>,
    cancellationIntent: Option<bool>,
    deadlineTrigger: Option<bool>,
    stdout: Option<StreamInput>,
    stderr: Option<StreamInput>,
    finalized: Option<bool>)

  const NO_STREAM_FACTS := StreamFacts(None, false, false, false)

  const INITIAL := Evidence(Unknown, None, None, NotRequested, None, false, false, false,
                            NO_STREAM_FACTS, NO_STREAM_FACTS, true, false)

  const NO_OBSERVATION :=
    Observation(None, None, None, None, None, None, None, None, None, None, None)

  predicate NonExecution(launch: LaunchPhase) {
    launch.SuppressedCancelled? || launch.SuppressedDeadline? || launch.SpawnFailed?
  }

  // ---------------------------------------------------------------- information order

  predicate OptionBelow<T(==)>(a: Option<T>, b: Option<T>) {
    a.None? || a == b
  }

  predicate LaunchBelow(a: LaunchPhase, b: LaunchPhase) {
    a.Unknown? || a == b
  }

  /** not_requested < pending < unconfirmed, and not_requested < not_required. */
  predicate CleanupBelow(a: CleanupState, b: CleanupState) {
    a.NotRequested? || a == b || (a.Pending? && b.Unconfirmed?)
  }

  predicate StreamBelow(a: StreamFacts, b: StreamFacts) {
    && OptionBelow(a.available, b.available)
    && (a.truncated ==> b.truncated)
    && (a.incomplete ==> b.incomplete)
    && (a.openAtCutover ==> b.openAtCutover)
  }

  /** Every fact of a is at or below that fact of b; the two revision flags are not facts. */
  predicate Below(a: Evidence, b: Evidence) {
    && LaunchBelow(a.launch, b.launch)
    && OptionBelow(a.shellCode, b.shellCode)
    && OptionBelow(a.shellSignal, b.shellSignal)
    && CleanupBelow(a.cleanup, b.cleanup)
    && OptionBelow(a.term, b.term)
    && (a.killIntent ==> b.killIntent)
    && (a.cancellationIntent ==> b.cancellationIntent)
    && (a.deadlineTrigger ==> b.deadlineTrigger)
    && StreamBelow(a.stdout, b.stdout)
    && StreamBelow(a.stderr, b.stderr)
  }

  predicate SameFacts(a: Evidence, b: Evidence) {
    a.(uncertain := b.uncertain, finalized := b.finalized) == b
  }

  /** No impossible combination of facts. */
  predicate Consistent(e: Evidence) {
    && !(e.shellCode.Some? && e.shellSignal.Some?)
    && (NonExecution(e.launch) ==> e.shellCode.None? && e.shellSignal.None?)
    && (e.cleanup.NotRequired? ==> NonExecution(e.launch) && e.term.None? && !e.killIntent)
  }

  // ---------------------------------------------------------------- merge

  function Present<T>(field: Option<T>, prior: T): T {
    match field case Some(v) => v case None => prior
  }

  function RaiseFlag(field: Option<bool>, prior: bool): bool {
    prior || field == Some(true)
  }

  /** A present availability, incompleteness or open flag is at or above the established one. */
  predicate StreamAdvances(prior: StreamFacts, input: Option<StreamInput>) {
    match input
    case None => true
    case Some(s) =>
      && OptionBelow(prior.available, Present(s.available, prior.available))
      && (prior.incomplete ==> Present(s.incomplete, true))
      && (prior.openAtCutover ==> Present(s.openAtCutover, true))
  }

  function StreamOverlay(prior: StreamFacts, input: Option<StreamInput>): StreamFacts {
    match input
    case None => prior
    case Some(s) => StreamFacts(Present(s.available, prior.available),
                                RaiseFlag(s.truncated, prior.truncated),
                                Present(s.incomplete, prior.incomplete),
                                Present(s.openAtCutover, prior.openAtCutover))
  }

  function Overlay(prior: Evidence, input: Observation, uncertain: bool, finalized: bool): Evidence {
    Evidence(Present(input.launch, prior.launch),
             Present(input.shellCode, prior.shellCode),
             Present(input.shellSignal, prior.shellSignal),
             Present(input.cleanup, prior.cleanup),
             Present(input.term, prior.term),
             RaiseFlag(input.killIntent, prior.killIntent),
             RaiseFlag(input.cancellationIntent, prior.cancellationIntent),
             RaiseFlag(input.deadlineTrigger, prior.deadlineTrigger),
             StreamOverlay(prior.stdout, input.stdout),
             StreamOverlay(prior.stderr, input.stderr),
             uncertain, finalized)
  }

  /** The launch phase and shell outcome a merge accepts. */
  predicate AcceptsOutcome(prior: Evidence, input: Observation) {
    var launch := Present(input.launch, prior.launch);
    var code := Present(input.shellCode, prior.shellCode);
    var sig := Present(input.shellSignal, prior.shellSignal);
    && LaunchBelow(prior.launch, launch)
    && OptionBelow(prior.shellCode, code)
    && OptionBelow(prior.shellSignal, sig)
    && !(code.Some? && sig.Some?)
    && (NonExecution(launch) ==> code.None? && sig.None?)
  }

  /** The cleanup facts a merge accepts, given the merged launch phase. */
  predicate AcceptsCleanup(prior: Evidence, input: Observation, launch: LaunchPhase) {
    var cleanup := Present(input.cleanup, prior.cleanup);
    var term := Present(input.term, prior.term);
    && CleanupBelow(prior.cleanup, cleanup)
    && OptionBelow(prior.term, term)
    && (cleanup.NotRequired? ==>
          && term.None? && !RaiseFlag(input.killIntent, prior.killIntent)
          && (NonExecution(launch) || (prior.cleanup.NotRequired? && launch.Unknown?)))
  }

  /** What mergeEvidence accepts, for every prior snapshot, consistent or not. */
  predicate Accepts(prior: Evidence, input: Observation) {
    && AcceptsOutcome(prior, input)
    && AcceptsCleanup(prior, input, Present(input.launch, prior.launch))
    && StreamAdvances(prior.stdout, input.stdout)
    && StreamAdvances(prior.stderr, input.stderr)
  }

  function Merge(prior: Evidence, input: Observation, uncertain: bool, finalized: bool)
    : Result<Evidence, StoreError>
  {
    if Accepts(prior, input) then Success(Overlay(prior, input, uncertain, finalized))
    else Failure(ValidationFailed)
  }

  /** The copy of one stream's facts that mergeStream updates in place. */
  class StreamTarget {
    var available: Option<bool>
    var truncated: bool
    var incomplete: bool
    var openAtCutover: bool

    function Facts(): StreamFacts
      reads this
    {
      StreamFacts(available, truncated, incomplete, openAtCutover)
    }

    constructor (facts: StreamFacts)
      ensures Facts() == facts
    {
      available, truncated := facts.available, facts.truncated;
      incomplete, openAtCutover := facts.incomplete, facts.openAtCutover;
    }

    method MergeStream(input: Option<StreamInput>) returns (ok: bool)
      modifies this
      ensures ok == StreamAdvances(old(Facts()), input)
      ensures ok ==> Facts() == StreamOverlay(old(Facts()), input)
    {
      if input.None? { return true; }
      var s := input.value;
      if s.available.Some? {
        if available.Some? && available != s.available.value { return false; }
        available := s.available.value;
      }
      if s.truncated == Some(true) { truncated := true; }
      if s.incomplete.Some? {
        if !s.incomplete.value && incomplete { return false; }
        incomplete := s.incomplete.value;
      }
      if s.openAtCutover.Some? {
        if !s.openAtCutover.value && openAtCutover { return false; }
        openAtCutover := s.openAtCutover.value;
      }
      return true;
    }
  }

  /** Merges one stream's facts on a fresh copy. */
  method MergedCopy(facts: StreamFacts, input: Option<StreamInput>) returns (ok: bool, merged: StreamFacts)
    ensures ok == StreamAdvances(facts, input)
    ensures ok ==> merged == StreamOverlay(facts, input)
  {
    var target := new StreamTarget(facts);
    ok := target.MergeStream(input);
    merged := target.Facts();
  }

  /** Position in the order not_required, not_requested, pending, unconfirmed. */
  function CleanupRank(c: CleanupState): nat {
    match c
    case NotRequired => 0
    case NotRequested => 1
    case Pending => 2
    case Unconfirmed => 3
  }

  method MergeOutcome(prior: Evidence, input: Observation)
    returns (ok: bool, launch: LaunchPhase, shellCode: Option<int>, shellSignal: Option<string>)
    ensures ok == AcceptsOutcome(prior, input)
    ensures ok ==> launch == Present(input.launch, prior.launch)
    ensures ok ==> shellCode == Present(input.shellCode, prior.shellCode)
    ensures ok ==> shellSignal == Present(input.shellSignal, prior.shellSignal)
  {
    ok, launch, shellCode, shellSignal := false, prior.launch, prior.shellCode, prior.shellSignal;
    if input.launch.Some? {
      if !launch.Unknown? && launch != input.launch.value { return; }
      launch := input.launch.value;
    }
    if input.shellCode.Some? {
      if shellCode.Some? && shellCode != input.shellCode.value { return; }
      shellCode := input.shellCode.value;
    }
    if input.shellSignal.Some? {
      if shellSignal.Some? && shellSignal != input.shellSignal.value { return; }
      shellSignal := input.shellSignal.value;
    }
    if shellCode.Some? && shellSignal.Some? { return; }
    if NonExecution(launch) && (shellCode.Some? || shellSignal.Some?) { return; }
    ok := true;
  }

  method MergeCleanup(prior: Evidence, input: Observation, launch: LaunchPhase)
    returns (ok: bool, cleanup: CleanupState, term: Option<TermObservation>, killIntent: bool)
    ensures ok == AcceptsCleanup(prior, input, launch)
    ensures ok ==> cleanup == Present(input.cleanup, prior.cleanup)
    ensures ok ==> term == Present(input.term, prior.term)
    ensures ok ==> killIntent == RaiseFlag(input.killIntent, prior.killIntent)
  {
    ok, cleanup, term, killIntent := false, prior.cleanup, prior.term, prior.killIntent;
    if input.cleanup.Some? && input.cleanup.value != cleanup {
      if cleanup.NotRequired? { return; }
      if input.cleanup.value.NotRequired? {
        if !NonExecution(launch) || !cleanup.NotRequested? { return; }
      } else if CleanupRank(input.cleanup.value) < CleanupRank(cleanup) {
        return;
      }
      cleanup := input.cleanup.value;
    } else if cleanup.NotRequired? && !launch.Unknown? && !NonExecution(launch) {
      return;
    }
    if input.term.Some? {
      if term.Some? && term != input.term.value { return; }
      term := input.term.value;
    }
    if input.killIntent == Some(true) { killIntent := true; }
    if cleanup.NotRequired? && (term.Some? || killIntent) { return; }
    ok := true;
  }

  /** The step-by-step merge meets the declarative one on every input. */
  method MergeEvidence(prior: Evidence, input: Observation, uncertain: bool, finalized: bool)
    returns (r: Result<Evidence, StoreError>)
    ensures r == Merge(prior, input, uncertain, finalized)
  {
    r := Failure(ValidationFailed);
    var outcomeOk, launch, shellCode, shellSignal := MergeOutcome(prior, input);
    if !outcomeOk { return; }
    var cleanupOk, cleanup, term, killIntent := MergeCleanup(prior, input, launch);
    if !cleanupOk { return; }
    var cancellationIntent, deadlineTrigger := prior.cancellationIntent, prior.deadlineTrigger;
    if input.cancellationIntent == Some(true) { cancellationIntent := true; }
    if input.deadlineTrigger == Some(true) { deadlineTrigger := true; }
    var stdoutOk, stdout := MergedCopy(prior.stdout, input.stdout);
    if !stdoutOk { return; }
    var stderrOk, stderr := MergedCopy(prior.stderr, input.stderr);
    if !stderrOk { return; }
    r := Success(Evidence(launch, shellCode, shellSignal, cleanup, term, killIntent, cancellationIntent,
                          deadlineTrigger, stdout, stderr, uncertain, finalized));
  }

  // ---------------------------------------------------------------- algebra

  /** The facts an observation of a stream states by itself: a present true or a present receipt. */
  function StreamSays(input: Option<StreamInput>): StreamFacts {
    if input.None? then StreamFacts(None, false, false, false)
    else
      var s := input.value;
      StreamFacts(if s.available.Some? then s.available.value else None,
                  s.truncated == Some(true), s.incomplete == Some(true), s.openAtCutover == Some(true))
  }

  /** The facts an observation states by itself; what is absent says nothing. */
  function Says(input: Observation): Evidence {
    Evidence(if input.launch.Some? then input.launch.value else Unknown,
             if input.shellCode.Some? then input.shellCode.value else None,
             if input.shellSignal.Some? then input.shellSignal.value else None,
             if input.cleanup.Some? then input.cleanup.value else NotRequested,
             if input.term.Some? then input.term.value else None,
             input.killIntent == Some(true), input.cancellationIntent == Some(true), input.deadlineTrigger == Some(true),
             StreamSays(input.stdout), StreamSays(input.stderr), true, false)
  }

  lemma StreamOverlayIsJoin(prior: StreamFacts, input: Option<StreamInput>, bound: StreamFacts)
    requires StreamAdvances(prior, input)
    ensures StreamBelow(prior, StreamOverlay(prior, input))
    ensures StreamBelow(StreamSays(input), StreamOverlay(prior, input))
    ensures StreamBelow(prior, bound) && StreamBelow(StreamSays(input), bound) ==>
              StreamBelow(StreamOverlay(prior, input), bound)
  {
  }

  lemma PresentIsJoin<T>(field: Option<Option<T>>, prior: Option<T>, bound: Option<T>)
    requires OptionBelow(prior, Present(field, prior))
    ensures OptionBelow(Present(field, None), Present(field, prior))
    ensures OptionBelow(prior, bound) && OptionBelow(Present(field, None), bound) ==>
              OptionBelow(Present(field, prior), bound)
  {
  }

  /** On success the result is the least upper bound of the prior facts and the stated facts. */
  lemma MergeIsLeastUpperBound(prior: Evidence, input: Observation, uncertain: bool, finalized: bool, bound: Evidence)
    requires Merge(prior, input, uncertain, finalized).Success?
    ensures var r := Merge(prior, input, uncertain, finalized).value;
            && Below(prior, r) && Below(Says(input), r)
            && (Below(prior, bound) && Below(Says(input), bound) ==> Below(r, bound))
            && r.uncertain == uncertain && r.finalized == finalized
  {
    var r := Overlay(prior, input, uncertain, finalized);
    PresentIsJoin(input.shellCode, prior.shellCode, bound.shellCode);
    PresentIsJoin(input.shellSignal, prior.shellSignal, bound.shellSignal);
    PresentIsJoin(input.term, prior.term, bound.term);
    StreamOverlayIsJoin(prior.stdout, input.stdout, bound.stdout);
    StreamOverlayIsJoin(prior.stderr, input.stderr, bound.stderr);
  }

  /** e is the least snapshot above a and b. */
  ghost predicate LeastAbove(a: Evidence, b: Evidence, e: Evidence) {
    && Below(a, e) && Below(b, e)
    && forall bound :: Below(a, bound) && Below(b, bound) ==> Below(e, bound)
  }

  predicate StreamRetracts(prior: StreamFacts, input: Option<StreamInput>) {
    input.Some? &&
    (|| (prior.available.Some? && input.value.available == Some(None))
     || (prior.incomplete && input.value.incomplete == Some(false))
     || (prior.openAtCutover && input.value.openAtCutover == Some(false)))
  }

  /** A present property takes an established fact back; an omitted one and a false truncation or intent never do. */
  predicate Retracts(prior: Evidence, input: Observation) {
    || (!prior.launch.Unknown? && input.launch == Some(Unknown))
    || (prior.shellCode.Some? && input.shellCode == Some(None))
    || (prior.shellSignal.Some? && input.shellSignal == Some(None))
    || (prior.term.Some? && input.term == Some(None))
    || (!prior.cleanup.NotRequested? && input.cleanup == Some(NotRequested))
    || (prior.cleanup.Unconfirmed? && input.cleanup == Some(Pending))
    || StreamRetracts(prior.stdout, input.stdout)
    || StreamRetracts(prior.stderr, input.stderr)
  }

  lemma MergedIsLeastAbove(prior: Evidence, input: Observation, uncertain: bool, finalized: bool)
    requires Merge(prior, input, uncertain, finalized).Success?
    ensures LeastAbove(prior, Says(input), Merge(prior, input, uncertain, finalized).value)
  {
    var r := Merge(prior, input, uncertain, finalized).value;
    MergeIsLeastUpperBound(prior, input, uncertain, finalized, r);
    forall bound | Below(prior, bound) && Below(Says(input), bound) ensures Below(r, bound) {
      MergeIsLeastUpperBound(prior, input, uncertain, finalized, bound);
    }
    hide Below, Says, Merge;
  }

  lemma StreamAdvancesIff(prior: StreamFacts, input: Option<StreamInput>)
    ensures StreamAdvances(prior, input)
       <==> !StreamRetracts(prior, input) && (exists e :: StreamBelow(prior, e) && StreamBelow(StreamSays(input), e))
  {
    if StreamAdvances(prior, input) {
      StreamOverlayIsJoin(prior, input, prior);
    }
  }

  /** A snapshot above what is established and what is stated: nothing then contradicts. */
  lemma BoundedAdvances(prior: Evidence, input: Observation, e: Evidence)
    requires !Retracts(prior, input) && Below(prior, e) && Below(Says(input), e)
    ensures Advances(prior, input)
  {
    StreamAdvancesIff(prior.stdout, input.stdout);
    StreamAdvancesIff(prior.stderr, input.stderr);
    hide StreamAdvances, StreamBelow, StreamSays, StreamRetracts;
  }

  /** On a consistent snapshot a merge succeeds if and only if nothing is retracted and the least combination exists and is consistent. */
  lemma MergeSucceedsIff(prior: Evidence, input: Observation, uncertain: bool, finalized: bool)
    requires Consistent(prior)
    ensures Merge(prior, input, uncertain, finalized).Success?
       <==> !Retracts(prior, input) && exists e :: LeastAbove(prior, Says(input), e) && Consistent(e)
  {
    AcceptedIffConsistent(prior, input, uncertain, finalized);
    if Merge(prior, input, uncertain, finalized).Success? {
      MergedIsLeastAbove(prior, input, uncertain, finalized);
      AdvancingRetractsNothing(prior, input);
    } else if !Retracts(prior, input) {
      if e :| LeastAbove(prior, Says(input), e) && Consistent(e) {
        BoundedAdvances(prior, input, e);
        OverlayIsLeast(prior, input, uncertain, finalized, e);
        assert false;
      }
    }
    hide *;
  }

  lemma AdvancingRetractsNothing(prior: Evidence, input: Observation)
    requires Advances(prior, input)
    ensures !Retracts(prior, input)
  {
    StreamAdvancesIff(prior.stdout, input.stdout);
    StreamAdvancesIff(prior.stderr, input.stderr);
    hide StreamAdvances, StreamBelow, StreamSays, StreamRetracts;
  }

  lemma OverlayIsLeast(prior: Evidence, input: Observation, uncertain: bool, finalized: bool, e: Evidence)
    requires Advances(prior, input) && LeastAbove(prior, Says(input), e) && Consistent(e)
    ensures Consistent(Overlay(prior, input, uncertain, finalized))
  {
    var r := Overlay(prior, input, uncertain, finalized);
    StreamOverlayIsJoin(prior.stdout, input.stdout, e.stdout);
    StreamOverlayIsJoin(prior.stderr, input.stderr, e.stderr);
    assert Below(prior, r) && Below(Says(input), r);
    assert Below(e, r);
    hide LeastAbove, StreamOverlay, StreamBelow, StreamSays;
  }

  /** The first snapshot holds nothing: it is below every other. */
  lemma InitialIsBottom(e: Evidence)
    ensures Below(INITIAL, e)
  {
  }

  lemma BelowTransitive(a: Evidence, b: Evidence, c: Evidence)
    requires Below(a, b) && Below(b, c)
    ensures Below(a, c)
  {
  }

  lemma BelowAntisymmetric(a: Evidence, b: Evidence)
    requires Below(a, b) && Below(b, a)
    ensures SameFacts(a, b)
  {
  }

  /** Every present fact is at or above the established one; nothing is retracted. */
  predicate Advances(prior: Evidence, input: Observation) {
    && LaunchBelow(prior.launch, Present(input.launch, prior.launch))
    && OptionBelow(prior.shellCode, Present(input.shellCode, prior.shellCode))
    && OptionBelow(prior.shellSignal, Present(input.shellSignal, prior.shellSignal))
    && CleanupBelow(prior.cleanup, Present(input.cleanup, prior.cleanup))
    && OptionBelow(prior.term, Present(input.term, prior.term))
    && StreamAdvances(prior.stdout, input.stdout)
    && StreamAdvances(prior.stderr, input.stderr)
  }

  /**
   On a consistent prior, an observation is accepted exactly when it retracts nothing and the
   combined facts are consistent; the result is then consistent again.
   */
  lemma AcceptedIffConsistent(prior: Evidence, input: Observation, uncertain: bool, finalized: bool)
    requires Consistent(prior)
    ensures Merge(prior, input, uncertain, finalized).Success?
       <==> Advances(prior, input) && Consistent(Overlay(prior, input, uncertain, finalized))
    ensures Merge(prior, input, uncertain, finalized).Success? ==>
              Consistent(Merge(prior, input, uncertain, finalized).value)
  {
  }

  lemma MergeIdempotent(prior: Evidence, input: Observation, uncertain: bool, finalized: bool)
    requires Merge(prior, input, uncertain, finalized).Success?
    ensures var r := Merge(prior, input, uncertain, finalized).value;
            Merge(r, input, uncertain, finalized) == Success(r)
  {
  }

  /** Two observations accepted in both orders leave the same facts. */
  lemma MergeCommutes(prior: Evidence, a: Observation, b: Observation, uncertain: bool, finalized: bool)
    requires Merge(prior, a, uncertain, finalized).Success?
    requires Merge(Merge(prior, a, uncertain, finalized).value, b, uncertain, finalized).Success?
    requires Merge(prior, b, uncertain, finalized).Success?
    requires Merge(Merge(prior, b, uncertain, finalized).value, a, uncertain, finalized).Success?
    ensures Merge(Merge(prior, a, uncertain, finalized).value, b, uncertain, finalized)
         == Merge(Merge(prior, b, uncertain, finalized).value, a, uncertain, finalized)
  {
    var pa := Merge(prior, a, uncertain, finalized).value;
    var pb := Merge(prior, b, uncertain, finalized).value;
    var ab := Merge(pa, b, uncertain, finalized).value;
    var ba := Merge(pb, a, uncertain, finalized).value;
    MergeIsLeastUpperBound(prior, a, uncertain, finalized, ba);
    MergeIsLeastUpperBound(prior, b, uncertain, finalized, ab);
    MergeIsLeastUpperBound(pa, b, uncertain, finalized, ba);
    MergeIsLeastUpperBound(pb, a, uncertain, finalized, ab);
    BelowTransitive(prior, pa, ab);
    BelowTransitive(prior, pb, ba);
    BelowTransitive(Says(a), pa, ab);
    BelowTransitive(Says(b), pb, ba);
    BelowAntisymmetric(ab, ba);
  }

  /** An observation that says nothing is never rejected on a consistent snapshot, and adds nothing. */
  lemma EmptyMergeNeverThrows(prior: Evidence, uncertain: bool, finalized: bool)
    requires Consistent(prior)
    ensures Merge(prior, NO_OBSERVATION, uncertain, finalized)
         == Success(prior.(uncertain := uncertain, finalized := finalized))
  {
  }
}
