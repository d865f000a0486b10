/**
 The store operations of src/job-store.ts as they run: one SQL statement after another on the six
 tables, updated in place. Each operation is proved to leave and to return what the transaction of
 the model does; when it throws, the surrounding transaction rolls back whatever it wrote.
 */
module JobDatabase {
  import opened Wrappers
  import opened JobTypes
  import opened StoreEvidence
  import opened JobStore

  /** A table of at most one row a job, and one of many. */
  function Row<T>(table: map<JobId, T>, job: JobId): Option<T> {
    if job in table then Some(table[job]) else None
  }

  function Rows<T>(table: map<JobId, seq<T>>, job: JobId): seq<T> {
    if job in table then table[job] else []
  }

  /** The store with another view of one job. */
  function With(s: Store, job: JobId, v: View): Store {
    s.(views := s.views[job := v])
  }

  class Database {
    var jobs: map<JobId, Job>
    var controls: map<JobId, Control>
    var claims: map<JobId, Claim>
    var results: map<JobId, seq<ResultRow>>
    var notices: map<JobId, seq<NoticeRow>>
    var witnesses: map<JobId, seq<WitnessRow>>
    /** The unique indexes on request keys and on claim identifiers. */
    var byRequest: map<RequestKey, JobId>
    var claimIds: set<ClaimId>

    function ViewOf(job: JobId): View
      reads this
      requires job in jobs
    {
      View(jobs[job], Row(controls, job), Row(claims, job), Rows(results, job), Rows(notices, job), Rows(witnesses, job))
    }

    function Contents(): Store
      reads this
    {
      Store(map j | j in jobs :: ViewOf(j), byRequest, claimIds)
    }

    /** Foreign keys: every row belongs to a job, and so does every indexed request. */
    predicate Valid()
      reads this
    {
      && controls.Keys <= jobs.Keys && claims.Keys <= jobs.Keys && results.Keys <= jobs.Keys
      && notices.Keys <= jobs.Keys && witnesses.Keys <= jobs.Keys
    }

    constructor ()
      ensures Valid() && Contents() == EMPTY
    {
      jobs, controls, claims, results, notices, witnesses := map[], map[], map[], map[], map[], map[];
      byRequest, claimIds := map[], {};
    }

    // -------------------------------------------------------------- statements

    method InsertJob(job: JobId, row: Job) returns (ok: bool)
      requires Valid()
      modifies this`jobs, this`byRequest
      ensures ok == (job !in old(jobs)) && Valid()
      ensures !ok ==> Contents() == old(Contents())
      ensures ok ==> job in jobs && ViewOf(job) == View(row, None, None, [], [], [])
      ensures ok ==> Contents() == With(old(Contents()), job, ViewOf(job)).(byRequest := old(byRequest)[row.request := job])
    {
      if job in jobs { return false; }
      jobs := jobs[job := row];
      byRequest := byRequest[row.request := job];
      ok := true;
    }

    method UpdateState(job: JobId, state: JobState)
      requires Valid() && job in jobs
      modifies this`jobs
      ensures Valid() && job in jobs && ViewOf(job) == SetState(old(ViewOf(job)), state)
      ensures Contents() == With(old(Contents()), job, ViewOf(job))
    {
      jobs := jobs[job := jobs[job].(state := state)];
    }

    method PutControl(job: JobId, row: Control)
      requires Valid() && job in jobs
      modifies this`controls
      ensures Valid() && ViewOf(job) == old(ViewOf(job)).(control := Some(row))
      ensures Contents() == With(old(Contents()), job, ViewOf(job))
    {
      controls := controls[job := row];
    }

    method InsertClaim(job: JobId, row: Claim) returns (ok: bool)
      requires Valid() && job in jobs && job !in claims
      modifies this`claims, this`claimIds
      ensures Valid() && ok == (row.id !in old(claimIds))
      ensures !ok ==> Contents() == old(Contents())
      ensures ok ==> ViewOf(job) == old(ViewOf(job)).(claim := Some(row))
      ensures ok ==> Contents() == With(old(Contents()), job, ViewOf(job)).(claimIds := old(claimIds) + {row.id})
    {
      if row.id in claimIds { return false; }
      claims := claims[job := row];
      claimIds := claimIds + {row.id};
      ok := true;
    }

    /** UPDATE ... WHERE claim and counter match: how many rows changed. */
    method UpdateHeartbeat(job: JobId, claim: ClaimId, expected: int) returns (changes: nat)
      requires Valid() && job in jobs
      modifies this`claims
      ensures Valid()
      ensures changes == if ClaimMatches(old(ViewOf(job)), claim) && old(ViewOf(job)).claim.value.counter == expected then 1 else 0
      ensures changes == 0 ==> Contents() == old(Contents())
      ensures changes == 1 ==>
                && ViewOf(job) == old(ViewOf(job)).(claim := Some(old(ViewOf(job)).claim.value.(counter := expected + 1)))
                && Contents() == With(old(Contents()), job, ViewOf(job))
    {
      if job !in claims || claims[job].id != claim || claims[job].counter != expected { return 0; }
      claims := claims[job := claims[job].(counter := expected + 1)];
      changes := 1;
    }

    /** Result and notice of one revision; false if either would violate its primary key. */
    method InsertRevision(job: JobId, row: ResultRow) returns (ok: bool)
      requires Valid() && job in jobs
      modifies this`results, this`notices
      ensures Valid() && ok == !HasRevision(old(ViewOf(job)), row.revision)
      ensures ok ==> ViewOf(job) == AppendRevision(old(ViewOf(job)), row)
      ensures ok ==> Contents() == With(old(Contents()), job, ViewOf(job))
    {
      var resultRows, noticeRows := Rows(results, job), Rows(notices, job);
      var i := 0;
      while i < |resultRows|
        invariant i <= |resultRows|
        invariant forall k :: 0 <= k < i ==> resultRows[k].revision != row.revision
      {
        if resultRows[i].revision == row.revision { return false; }
        i := i + 1;
      }
      i := 0;
      while i < |noticeRows|
        invariant i <= |noticeRows|
        invariant forall k :: 0 <= k < i ==> noticeRows[k].revision != row.revision
      {
        if noticeRows[i].revision == row.revision { return false; }
        i := i + 1;
      }
      results := results[job := resultRows + [row]];
      notices := notices[job := noticeRows + [NoticeRow(row.revision, jobs[job].request.owner, true, None)]];
      ok := true;
    }

    method InsertWitness(job: JobId, row: WitnessRow)
      requires Valid() && job in jobs
      modifies this`witnesses
      ensures Valid() && ViewOf(job) == old(ViewOf(job)).(witnesses := old(ViewOf(job)).witnesses + [row])
      ensures Contents() == With(old(Contents()), job, ViewOf(job))
    {
      witnesses := witnesses[job := Rows(witnesses, job) + [row]];
    }

    // -------------------------------------------------------------- operations

    method Reserve(request: RequestKey, invocation: Invocation, candidate: JobId, capability: Token, now: int)
      returns (r: Result<Reply, StoreError>)
      requires Valid()
      modifies this
      ensures r == Apply(old(Contents()), Op.Reserve(request, invocation, candidate, capability), now).result
      ensures r.Success? ==> Valid() && Contents() == Apply(old(Contents()), Op.Reserve(request, invocation, candidate, capability), now).store
    {
      if request in byRequest && byRequest[request] in jobs {
        var existing := byRequest[request];
        if jobs[existing].invocation != invocation { return Failure(RequestKeyConflict); }
        return Success(ReserveReply(false, existing, None));
      }
      var job := Job(request, invocation, now, now + invocation.deadlineMs, capability, Reserved);
      var ok := InsertJob(candidate, job);
      if !ok { return Failure(StoreUnavailable); }
      PutControl(candidate, Control(None, None, None));
      r := Success(ReserveReply(true, candidate, Some(capability)));
    }

    method RequestCancellation(owner: Owner, job: JobId, now: int) returns (r: Result<Reply, StoreError>)
      requires Valid()
      modifies this
      ensures r == Apply(old(Contents()), Cancel(owner, job), now).result
      ensures r.Success? ==> Valid() && Contents() == Apply(old(Contents()), Cancel(owner, job), now).store
    {
      hide Latest;
      if job !in jobs || jobs[job].request.owner != owner { return Failure(NotFound); }
      if !ControlReadable(ViewOf(job)) { return Failure(StoreCorrupt); }
      var control := controls[job];
      var latest := Latest(Rows(results, job));
      assert Contents() == With(Contents(), job, ViewOf(job));
      if jobs[job].state.Settled? || Finalized(latest) { return Success(CancelReply(AlreadyTerminal, control)); }
      if control.cancelledAt.Some? { return Success(CancelReply(AlreadyRecorded, control)); }
      var recorded := control.(cancelledAt := Some(now));
      PutControl(job, recorded);
      r := Success(CancelReply(Recorded, recorded));
    }

    method ClaimRunner(owner: Owner, job: JobId, claim: ClaimId, token: Token, now: int) returns (r: Result<Reply, StoreError>)
      requires Valid()
      modifies this
      ensures r == Apply(old(Contents()), Op.ClaimRunner(owner, job, claim, token), now).result
      ensures r.Success? ==> Valid() && Contents() == Apply(old(Contents()), Op.ClaimRunner(owner, job, claim, token), now).store
    {
      if !ValidClaimId(claim) { return Failure(ValidationFailed); }
      if job !in jobs || jobs[job].request.owner != owner { return Failure(NotFound); }
      if jobs[job].token != token { return Failure(ClaimTaken); }
      if job in claims || !jobs[job].state.Reserved? { return Failure(ClaimTaken); }
      var ok := InsertClaim(job, Claim(claim, now, 0));
      if !ok { return Failure(StoreUnavailable); }
      UpdateState(job, Claimed);
      r := Success(ClaimReply(claim));
    }

    method Heartbeat(owner: Owner, job: JobId, claim: ClaimId, expected: int, token: Token, now: int) returns (r: Result<Reply, StoreError>)
      requires Valid()
      modifies this
      ensures r == Apply(old(Contents()), Op.Heartbeat(owner, job, claim, expected, token), now).result
      ensures r.Success? ==> Valid() && Contents() == Apply(old(Contents()), Op.Heartbeat(owner, job, claim, expected, token), now).store
    {
      if !ValidClaimId(claim) { return Failure(ValidationFailed); }
      if job !in jobs || jobs[job].request.owner != owner { return Failure(NotFound); }
      if jobs[job].token != token { return Failure(ClaimTaken); }
      var changes := UpdateHeartbeat(job, claim, expected);
      if changes != 1 { return Failure(RevisionStale); }
      r := Success(HeartbeatReply(expected + 1));
    }

    method PublishResult(
      owner: Owner, job: JobId, claim: ClaimId, expectedRevision: Option<int>, input: Observation, token: Token, now: int)
      returns (r: Result<Reply, StoreError>)
      requires Valid()
      modifies this
      ensures r == Apply(old(Contents()), Publish(owner, job, claim, expectedRevision, input, token), now).result
      ensures r.Success? ==>
                Valid() && Contents() == Apply(old(Contents()), Publish(owner, job, claim, expectedRevision, input, token), now).store
    {
      hide Latest, Merge, HasRevision, AppendRevision, Finalized, LatestRevision, LatestEvidence, SetState, ValidClaimId;
      if !ValidClaimId(claim) { return Failure(ValidationFailed); }
      if job !in jobs || jobs[job].request.owner != owner { return Failure(NotFound); }
      if jobs[job].token != token { return Failure(ClaimTaken); }
      if job !in claims || claims[job].id != claim { return Failure(ClaimTaken); }
      var latest := Latest(Rows(results, job));
      if Finalized(latest) { return Failure(RevisionStale); }
      var latestRevision := LatestRevision(latest);
      if (if expectedRevision.None? then latestRevision != 0 else expectedRevision.value != latestRevision) {
        return Failure(RevisionStale);
      }
      var finalized := input.finalized == Some(true);
      var merged := MergeEvidence(LatestEvidence(latest), input, !finalized, finalized);
      if merged.Failure? { return Failure(ValidationFailed); }
      var ok := InsertRevision(job, ResultRow(latestRevision + 1, merged.value, now, ByRunner));
      if !ok { return Failure(StoreUnavailable); }
      if finalized { UpdateState(job, Settled); }
      r := Success(PublishReply(latestRevision + 1, merged.value));
    }

    method PublishUncertainResult(
      owner: Owner, job: JobId, observedClaim: Option<ClaimId>, observedCounter: int, observedRevision: int, now: int)
      returns (r: Result<Reply, StoreError>)
      requires Valid()
      modifies this
      ensures r == Apply(old(Contents()), PublishUncertain(owner, job, observedClaim, observedCounter, observedRevision), now).result
      ensures r.Success? ==>
                Valid() && Contents() == Apply(old(Contents()), PublishUncertain(owner, job, observedClaim, observedCounter, observedRevision), now).store
    {
      hide Latest, Merge, HasRevision, HasWitness, AppendRevision, Finalized, LatestRevision, LatestEvidence, ClaimKey;
      if job !in jobs || jobs[job].request.owner != owner { return Failure(NotFound); }
      if jobs[job].state.Settled? { return Failure(RevisionStale); }
      var latest := Latest(Rows(results, job));
      if Finalized(latest) { return Failure(RevisionStale); }
      var latestRevision := LatestRevision(latest);
      if observedRevision != latestRevision { return Failure(RevisionStale); }
      var currentClaim := if job in claims then Some(claims[job].id) else None;
      var currentCounter := if job in claims then claims[job].counter else 0;
      if currentClaim != observedClaim || currentCounter != observedCounter { return Failure(RevisionStale); }
      var witnessClaim := ClaimKey(observedClaim);
      if HasWitness(ViewOf(job), witnessClaim, observedCounter) { return Failure(RevisionStale); }
      var merged := MergeEvidence(LatestEvidence(latest), NO_OBSERVATION, true, false);
      if merged.Failure? { return Failure(ValidationFailed); }
      var ok := InsertRevision(job, ResultRow(latestRevision + 1, merged.value, now, ByReconciler));
      if !ok { return Failure(StoreUnavailable); }
      InsertWitness(job, WitnessRow(witnessClaim, observedCounter, observedRevision, now));
      r := Success(PublishReply(latestRevision + 1, merged.value));
    }

    method DecideLaunch(owner: Owner, job: JobId, claim: ClaimId, token: Token, now: int) returns (r: Result<Reply, StoreError>)
      requires Valid()
      modifies this
      ensures r == Apply(old(Contents()), Decide(owner, job, claim, token), now).result
      ensures r.Success? ==> Valid() && Contents() == Apply(old(Contents()), Decide(owner, job, claim, token), now).store
    {
      hide Latest, Merge, HasRevision, AppendRevision, LatestRevision, LatestEvidence, SetState, ValidClaimId,
           IsInitialEvidenceOnly, SuppressionEvidence, ClaimMatches;
      if !ValidClaimId(claim) { return Failure(ValidationFailed); }
      if job !in jobs || jobs[job].request.owner != owner { return Failure(NotFound); }
      if jobs[job].token != token { return Failure(ClaimTaken); }
      if !ClaimMatches(ViewOf(job), claim) { return Failure(ClaimTaken); }
      if !ControlReadable(ViewOf(job)) { return Failure(StoreCorrupt); }
      r := DecideOnJob(job, claim, token, now);
      hide DecideJob;
    }

    /** The decision itself, once owner, token, claim and control row are accepted. */
    method DecideOnJob(job: JobId, claim: ClaimId, token: Token, now: int) returns (r: Result<Reply, StoreError>)
      requires Valid() && job in jobs && jobs[job].token == token
      requires ClaimMatches(ViewOf(job), claim) && ControlReadable(ViewOf(job))
      modifies this
      ensures byRequest == old(byRequest) && claimIds == old(claimIds)
      ensures r == DecideJob(old(ViewOf(job)), claim, token, now).result
      ensures r.Success? ==> Valid() && Contents() == With(old(Contents()), job, DecideJob(old(ViewOf(job)), claim, token, now).view)
    {
      hide Latest, Merge, HasRevision, AppendRevision, LatestRevision, LatestEvidence, SetState,
           IsInitialEvidenceOnly, SuppressionEvidence, ClaimMatches;
      var control := controls[job];
      assert Contents() == With(Contents(), job, ViewOf(job));
      if control.decision.Some? { return Success(DecideReply(AlreadyDecided, control)); }
      var latest := Latest(Rows(results, job));
      if jobs[job].state.Settled? || !IsInitialEvidenceOnly(latest) { return Success(DecideReply(Precluded, control)); }
      var suppressed := if control.cancelledAt.Some? then Some(CancelledFirst)
                        else if now >= jobs[job].deadlineAt then Some(DeadlinePassed)
                        else None;
      if suppressed.None? {
        var authorized := control.(decision := Some(Authorized), decidedAt := Some(now));
        PutControl(job, authorized);
        return Success(DecideReply(AuthorizedNow, authorized));
      }
      r := Suppress(job, control, suppressed.value, now);
    }

    /** The atomic suppression: decision, final revision, notice and settled state. */
    method Suppress(job: JobId, control: Control, suppressed: Decision, now: int) returns (r: Result<Reply, StoreError>)
      requires Valid() && job in jobs
      modifies this
      ensures byRequest == old(byRequest) && claimIds == old(claimIds)
      ensures var v := old(ViewOf(job));
              var latest := Latest(v.rows);
              var merged := Merge(LatestEvidence(latest), SuppressionEvidence(suppressed), false, true);
              var revision := LatestRevision(latest) + 1;
              var decided := control.(decision := Some(suppressed), decidedAt := Some(now));
              && r == (if merged.Failure? then Failure(ValidationFailed)
                       else if HasRevision(v, revision) then Failure(StoreUnavailable)
                       else Success(DecideReply(SuppressedNow, decided)))
              && (r.Success? ==>
                    Valid() && Contents() == With(old(Contents()), job,
                      SetState(AppendRevision(v.(control := Some(decided)), ResultRow(revision, merged.value, now, ByDecision)), Settled)))
    {
      hide Latest, Merge, HasRevision, AppendRevision, LatestRevision, LatestEvidence, SetState, SuppressionEvidence;
      var latest := Latest(Rows(results, job));
      var merged := MergeEvidence(LatestEvidence(latest), SuppressionEvidence(suppressed), false, true);
      if merged.Failure? { return Failure(ValidationFailed); }
      var decided := control.(decision := Some(suppressed), decidedAt := Some(now));
      ghost var before := ViewOf(job);
      PutControl(job, decided);
      ControlHasNoRevision(before, ViewOf(job), LatestRevision(latest) + 1);
      var ok := InsertRevision(job, ResultRow(LatestRevision(latest) + 1, merged.value, now, ByDecision));
      if !ok { return Failure(StoreUnavailable); }
      UpdateState(job, Settled);
      r := Success(DecideReply(SuppressedNow, decided));
    }

    /** UPDATE job_notices ... WHERE job, revision and owner match: how many rows changed. */
    method UpdateNotices(job: JobId, owner: Owner, revision: int, now: int) returns (changes: nat)
      requires Valid() && job in jobs
      modifies this`notices
      ensures Valid()
      ensures changes > 0 <==> AnyNotice(old(ViewOf(job)).notices, owner, revision)
      ensures changes == 0 ==> Contents() == old(Contents())
      ensures ViewOf(job).notices == AcknowledgedAll(old(ViewOf(job)).notices, owner, revision, now)
      ensures ViewOf(job) == old(ViewOf(job)).(notices := ViewOf(job).notices)
      ensures Contents() == With(old(Contents()), job, ViewOf(job))
    {
      var rows := Rows(notices, job);
      var updated: seq<NoticeRow> := [];
      changes := 0;
      var i := 0;
      while i < |rows|
        invariant i <= |rows| && |updated| == i && notices == old(notices)
        invariant updated == AcknowledgedAll(rows[..i], owner, revision, now)
        invariant changes > 0 <==> AnyNotice(rows[..i], owner, revision)
        invariant changes == 0 ==> updated == rows[..i]
      {
        OneMoreNotice(rows, i, owner, revision);
        if NoticeMatches(rows[i], owner, revision) { changes := changes + 1; }
        updated := updated + [Acknowledged(rows[i], owner, revision, now)];
        i := i + 1;
      }
      assert rows[..|rows|] == rows;
      if changes > 0 { notices := notices[job := updated]; }
    }

    method AcknowledgeNotice(owner: Owner, job: JobId, revision: int, now: int) returns (r: Result<Reply, StoreError>)
      requires Valid()
      modifies this
      ensures r == Apply(old(Contents()), Acknowledge(owner, job, revision), now).result
      ensures r.Success? ==> Valid() && Contents() == Apply(old(Contents()), Acknowledge(owner, job, revision), now).store
    {
      hide AnyNotice, AcknowledgedAll;
      if job !in jobs { return Failure(NotFound); }
      var changes := UpdateNotices(job, owner, revision, now);
      if changes == 0 { return Failure(NotFound); }
      r := Success(AcknowledgeReply);
    }
  }

  lemma OneMoreNotice(rows: seq<NoticeRow>, i: nat, owner: Owner, revision: int)
    requires i < |rows|
    ensures AnyNotice(rows[..i + 1], owner, revision) <==> AnyNotice(rows[..i], owner, revision) || NoticeMatches(rows[i], owner, revision)
  {
    var longer, shorter := rows[..i + 1], rows[..i];
    assert longer[i] == rows[i];
    if k :| 0 <= k < |shorter| && NoticeMatches(shorter[k], owner, revision) {
      assert longer[k] == shorter[k];
    }
    if k :| 0 <= k < |longer| && NoticeMatches(longer[k], owner, revision) {
      assert k < i ==> shorter[k] == longer[k];
    }
  }

  lemma ControlHasNoRevision(v: View, w: View, revision: int)
    requires w.rows == v.rows && w.notices == v.notices
    ensures HasRevision(v, revision) == HasRevision(w, revision)
  {
  }
}
