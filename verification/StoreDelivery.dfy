/**
 Every request gets its answer: what a transaction answers under each fault, and that no request of
 any run is forgotten, whether its response arrives or the worker is lost.
 */
module StoreDelivery {
  import opened Wrappers
  import opened JobTypes
  import opened JobStore
  import opened StoreConnection
  import opened StoreClient

  // ---------------------------------------------------------------- one transaction

  predicate Faultless(faults: Faults) {
    !faults.begin && !faults.body && faults.commit.NoFault? && !faults.after
  }

  /** The transaction got as far as its COMMIT. */
  predicate ReachesCommit(db: Db, op: Op, now: int, faults: Faults) {
    !db.writesDisabled && !faults.begin && !faults.body && Apply(db.durable, op, now).result.Success?
  }

  lemma ReserveNamesItsJob(s: Store, op: Op, now: int)
    ensures op.Reserve? && Apply(s, op, now).result.Success? ==> Apply(s, op, now).result.value.ReserveReply?
  {
  }

  /** Without a fault the caller gets the operation's own answer; each fault has its own error. */
  lemma TransactionAnswers(db: Db, op: Op, now: int, faults: Faults)
    ensures var t, own := Transact(db, op, now, faults), Apply(db.durable, op, now).result;
            var outcome := if faults.commit.NoFault? then CommittedOutcome else UnknownOutcome;
            && (!db.writesDisabled && Faultless(faults) && own.Success? ==> t.result == Success(own.value))
            && (!db.writesDisabled && !faults.begin && own.Failure? ==> t.result == Failure(Plain(own.error)))
            && (db.writesDisabled || faults.begin || (own.Success? && faults.body) ==> t.result == Failure(Plain(StoreUnavailable)))
            && (ReachesCommit(db, op, now, faults) && !Faultless(faults) ==>
                  t.result == Failure(if op.Reserve? then Ambiguous(own.value.job, outcome) else WriteError(outcome)))
            && (t.landed <==> ReachesCommit(db, op, now, faults) && !faults.commit.LostBefore?)
  {
    ReserveNamesItsJob(db.durable, op, now);
    hide Apply;
  }

  // ---------------------------------------------------------------- no request is forgotten

  predicate SettledAs(settled: seq<Settlement>, id: nat, result: Result<Reply, Thrown>) {
    Settlement(id, result) in settled
  }

  predicate IsSettled(settled: seq<Settlement>, id: nat) {
    exists i :: 0 <= i < |settled| && settled[i].id == id
  }

  /** What the loss of the worker means to the caller of an operation: what may have been written stays unknown. */
  function LossOf(op: Op): Thrown {
    match op
    case Reserve(_, _, candidate, _) => Ambiguous(candidate, UnknownOutcome)
    case Cancel(_, _) => WriteError(UnknownOutcome)
    case Decide(_, _, _, _) => WriteError(UnknownOutcome)
    case _ => Plain(StoreUnavailable)
  }

  /** Losing the worker settles every waiting request, each with the error of its operation, and leaves none waiting. */
  lemma LossSettlesAll(y: Relay, start: Store, id: nat)
    requires RelayOk(y, start)
    ensures var z := Next(y, LoseWorker).client;
            && z.failed && z.pending == map[]
            && (id in y.client.pending ==> SettledAs(z.settled, id, Failure(LossOf(y.requests[id]))))
            && (forall s :: s in y.client.settled ==> s in z.settled)
  {
    var losses := Losses(y.client.pending, y.client.nextId);
    LossesAreTheWaiting(y.client.pending, y.client.nextId, losses);
    hide Losses;
    if id in y.client.pending {
      var i :| 0 <= i < |losses| && losses[i].id == id;
      assert IsLoss(losses[i], y.client.pending, y.client.nextId);
      assert losses[i] == Settlement(id, Failure(LossOf(y.requests[id])));
      assert losses[i] in y.client.settled + losses;
    }
  }

  /** A response settles its waiting request with what the worker's operation returned or threw. */
  lemma DeliverySettles(y: Relay, start: Store, index: nat)
    requires RelayOk(y, start) && index < |y.responses|
    ensures var id, z := y.responses[index].id, Next(y, Deliver(index)).client;
            && id in y.served
            && z.settled == (if id in y.client.pending then y.client.settled + [Settlement(id, y.served[id])] else y.client.settled)
            && z.pending.Keys == y.client.pending.Keys - {id}
  {
    var r := y.responses[index];
    assert r == ResponseTo(r.id, y.served[r.id]);
    if r.id in y.client.pending {
      RelayIsFaithful(r.id, y.requests[r.id], y.served[r.id]);
    }
    hide EntryOf, ResponseTo, Settle;
  }

  /** An open client numbers a request, and it waits unless the port refused it, which settles it. */
  lemma AskRegisters(y: Relay, op: Op, portAccepts: bool)
    requires !y.client.failed
    ensures var id, z := y.client.nextId, Next(y, Ask(op, portAccepts));
            && z.client.nextId == id + 1 && z.requests == y.requests[id := op]
            && (if portAccepts then z.client.settled == y.client.settled && z.client.pending == y.client.pending[id := EntryOf(op)]
                                    && z.queue == y.queue + [id]
                else z.client.settled == y.client.settled + [Settlement(id, Failure(Plain(ValidationFailed)))]
                     && z.client.pending == y.client.pending && z.queue == y.queue)
  {
  }

  /** Every request waits or was settled; a failed client has none waiting. */
  ghost predicate NoneForgotten(y: Relay) {
    && (forall id :: id in y.requests ==> id in y.client.pending || IsSettled(y.client.settled, id))
    && (y.client.failed ==> y.client.pending == map[])
  }

  lemma SettledExtends(settled: seq<Settlement>, more: seq<Settlement>, id: nat)
    requires IsSettled(settled, id)
    ensures IsSettled(settled + more, id)
  {
    var i :| 0 <= i < |settled| && settled[i].id == id;
    assert (settled + more)[i].id == id;
  }

  lemma SettledNow(settled: seq<Settlement>, s: Settlement)
    ensures IsSettled(settled + [s], s.id)
  {
    assert (settled + [s])[|settled|] == s;
  }

  lemma StepForgetsNone(y: Relay, start: Store, step: Step)
    requires RelayOk(y, start) && NoneForgotten(y) && Possible(y, step)
    ensures NoneForgotten(Next(y, step))
  {
    var z := Next(y, step);
    forall id | id in z.requests ensures id in z.client.pending || IsSettled(z.client.settled, id) {
      match step
      case Ask(op, portAccepts) => AskForgetsNone(y, op, portAccepts, id);
      case Serve(_, _) => assert z.client == y.client && z.requests == y.requests;
      case Deliver(index) => DeliveryForgetsNone(y, start, index, id);
      case Drop(_) =>
      case LoseWorker => LossForgetsNone(y, start, id);
    }
    hide RelayOk, IsSettled, Losses, Settle, EntryOf, Transact, ResponseTo;
  }

  lemma AskForgetsNone(y: Relay, op: Op, portAccepts: bool, id: nat)
    requires NoneForgotten(y) && id in Next(y, Ask(op, portAccepts)).requests
    ensures var z := Next(y, Ask(op, portAccepts)).client; id in z.pending || IsSettled(z.settled, id)
  {
    hide IsSettled, EntryOf;
    if !y.client.failed {
      var refusal := Settlement(y.client.nextId, Failure(Plain(ValidationFailed)));
      SettledNow(y.client.settled, refusal);
      if id in y.requests && IsSettled(y.client.settled, id) {
        SettledExtends(y.client.settled, [refusal], id);
      }
    }
  }

  lemma DeliveryForgetsNone(y: Relay, start: Store, index: nat, id: nat)
    requires RelayOk(y, start) && NoneForgotten(y) && index < |y.responses| && id in y.requests
    ensures var z := Next(y, Deliver(index)).client; id in z.pending || IsSettled(z.settled, id)
  {
    DeliverySettles(y, start, index);
    var answered := Settlement(y.responses[index].id, y.served[y.responses[index].id]);
    SettledNow(y.client.settled, answered);
    if IsSettled(y.client.settled, id) {
      SettledExtends(y.client.settled, [answered], id);
    }
    hide RelayOk, IsSettled, Next;
  }

  lemma LossForgetsNone(y: Relay, start: Store, id: nat)
    requires RelayOk(y, start) && NoneForgotten(y) && id in y.requests
    ensures IsSettled(Next(y, LoseWorker).client.settled, id)
  {
    LossSettlesAll(y, start, id);
    var z := Next(y, LoseWorker).client;
    if id in y.client.pending {
      var i :| 0 <= i < |z.settled| && z.settled[i] == Settlement(id, Failure(LossOf(y.requests[id])));
      assert z.settled[i].id == id;
    } else {
      SettledExtends(y.client.settled, Losses(y.client.pending, y.client.nextId), id);
    }
    hide RelayOk, Losses;
  }

  /** In every run each request of a caller waits or has been settled, and once the worker is lost all have been. */
  lemma {:induction false} NoRequestIsForgotten(start: Store, steps: seq<Step>)
    requires Run(start, steps).Some?
    ensures NoneForgotten(Run(start, steps).value)
    ensures var y := Run(start, steps).value;
            y.client.failed ==> forall id :: id in y.requests ==> IsSettled(y.client.settled, id)
  {
    if steps != [] {
      var init := steps[..|steps| - 1];
      NoRequestIsForgotten(start, init);
      RunKeepsRelay(start, init);
      StepForgetsNone(Run(start, init).value, start, steps[|steps| - 1]);
      hide RelayOk, Next, Possible, IsSettled;
    }
  }
}
