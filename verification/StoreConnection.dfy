/**
 inTransaction of src/job-store.ts on one connection, with a storage fault possible at BEGIN, in the
 body, at COMMIT (which may have reached the file or not) and after the commit. A rollback is taken
 to restore what was durable.
 */
module StoreConnection {
  import opened Wrappers
  import opened JobTypes
  import opened StoreEvidence
  import opened JobStore

  datatype CommitOutcome = UnknownOutcome | CommittedOutcome

  /** What an operation throws: a plain store error, or one of the two errors that carry an outcome. */
  datatype Thrown =
    | Plain(error: StoreError)
    | Ambiguous(candidate: JobId, outcome: CommitOutcome)
    | WriteError(outcome: CommitOutcome)

  datatype CommitFault = NoFault | LostBefore | LostAfter

  datatype Faults = Faults(begin: bool, body: bool, commit: CommitFault, after: bool)

  datatype Db = Db(durable: Store, writesDisabled: bool)

  /** landed says whether the transaction became part of the file. */
  datatype Transacted = Transacted(db: Db, result: Result<Reply, Thrown>, landed: bool)

  /** Only a reservation names its job in an error with an outcome. */
  function OutcomeError(op: Op, reply: Reply, outcome: CommitOutcome): Thrown {
    if op.Reserve? && reply.ReserveReply? then Ambiguous(reply.job, outcome) else WriteError(outcome)
  }

  function Transact(db: Db, op: Op, now: int, faults: Faults): Transacted {
    var applied := Apply(db.durable, op, now);
    if db.writesDisabled || faults.begin then Transacted(db, Failure(Plain(StoreUnavailable)), false)
    else if applied.result.Failure? then Transacted(db, Failure(Plain(applied.result.error)), false)
    else if faults.body then Transacted(db, Failure(Plain(StoreUnavailable)), false)
    else
      var reply := applied.result.value;
      match faults.commit
      case LostBefore => Transacted(Db(db.durable, true), Failure(OutcomeError(op, reply, UnknownOutcome)), false)
      case LostAfter => Transacted(Db(applied.store, true), Failure(OutcomeError(op, reply, UnknownOutcome)), true)
      case NoFault =>
        if faults.after then Transacted(Db(applied.store, true), Failure(OutcomeError(op, reply, CommittedOutcome)), true)
        else Transacted(Db(applied.store, false), Success(reply), true)
  }

  /** What a result lets the caller conclude about a landed transaction. */
  predicate ResultHonest(result: Result<Reply, Thrown>, landed: bool) {
    match result
    case Success(_) => landed
    case Failure(Plain(_)) => !landed
    case Failure(Ambiguous(_, outcome)) => outcome.CommittedOutcome? ==> landed
    case Failure(WriteError(outcome)) => outcome.CommittedOutcome? ==> landed
  }

  /** The file changes exactly by a landed transaction, and results are honest about it. */
  lemma TransactionsAreHonest(db: Db, op: Op, now: int, faults: Faults)
    ensures var t := Transact(db, op, now, faults);
            && ResultHonest(t.result, t.landed)
            && t.db.durable == (if t.landed then Apply(db.durable, op, now).store else db.durable)
            && (t.landed ==> Apply(db.durable, op, now).result.Success?)
            && (t.result.Success? ==> t.result.value == Apply(db.durable, op, now).result.value)
            && (t.db.writesDisabled <==> db.writesDisabled || (t.result.Failure? && !t.result.error.Plain?))
            && (db.writesDisabled ==> t.result.Failure? && !t.landed)
  {
    hide Apply;
  }

  /** An operation that throws leaves the store as it was: nothing depends on the rollback's details. */
  lemma FailedOperationChangesNothing(s: Store, op: Op, now: int)
    ensures Apply(s, op, now).result.Failure? ==> Apply(s, op, now).store == s
  {
    hide Latest, Merge, HasRevision, HasWitness, IsInitialEvidenceOnly, SuppressionEvidence, FirstDecision, NoticeMatches;
    if !op.Reserve? && op.job in s.views {
      assert s.views == s.views[op.job := s.views[op.job]];
    }
  }

  class Connection {
    var writesDisabled: bool
    /** The database file, and the uncommitted image while a transaction is open. */
    var durable: Store
    var image: Option<Store>

    function State(): Db
      reads this
    {
      Db(durable, writesDisabled)
    }

    constructor (durable: Store)
      ensures State() == Db(durable, false) && image.None?
    {
      writesDisabled, this.durable, image := false, durable, None;
    }

    method Rollback()
      modifies this`image
      ensures image.None?
    {
      image := None;
    }

    /** COMMIT: the file may have been written even when an error comes back. */
    method Commit(fault: CommitFault) returns (ok: bool)
      requires image.Some?
      modifies this`image, this`durable
      ensures image.None? && ok == fault.NoFault?
      ensures durable == if fault.LostBefore? then old(durable) else old(image).value
    {
      if !fault.LostBefore? { durable := image.value; }
      image := None;
      ok := fault.NoFault?;
    }

    method InTransaction(op: Op, now: int, faults: Faults) returns (r: Result<Reply, Thrown>)
      requires image.None?
      modifies this
      ensures image.None?
      ensures State() == Transact(old(State()), op, now, faults).db
      ensures r == Transact(old(State()), op, now, faults).result
    {
      hide Apply, OutcomeError;
      if writesDisabled { return Failure(Plain(StoreUnavailable)); }
      if faults.begin { return Failure(Plain(StoreUnavailable)); }
      image := Some(durable);
      var applied := Apply(image.value, op, now);
      image := Some(applied.store);
      if applied.result.Failure? || faults.body {
        Rollback();
        return Failure(Plain(if applied.result.Failure? then applied.result.error else StoreUnavailable));
      }
      var reply := applied.result.value;
      var committed := Commit(faults.commit);
      if !committed {
        Rollback();
        writesDisabled := true;
        return Failure(OutcomeError(op, reply, UnknownOutcome));
      }
      if faults.after {
        writesDisabled := true;
        return Failure(OutcomeError(op, reply, CommittedOutcome));
      }
      r := Success(reply);
    }
  }
}
