/**
 The outcome relay of src/store-client.ts and src/store-worker.ts: requests get numbers and wait in
 a map; the worker answers each request it receives at most once; losing the worker rejects whatever
 is waiting. Replies are taken to clone across the worker boundary.
 */
module StoreClient {
  import opened Wrappers
  import opened JobTypes
  import opened JobStore
  import opened StoreConnection
  import opened StoreStartup

  /** A waiting request: what its loss may be reported as. */
  datatype Entry = Entry(candidate: Option<JobId>, unknownOnWorkerLoss: bool)

  /** The message of the worker about one request. */
  datatype Response =
    | Answer(id: nat, reply: Reply)
    | Refusal(id: nat, acceptanceUnconfirmed: bool, code: StoreError, candidate: Option<JobId>, outcome: Option<CommitOutcome>)

  /** What the worker may post. */
  datatype WorkerMessage = ReadyMessage | InitErrorMessage(error: StoreError) | ResponseMessage(response: Response)

  /** How a caller's promise ends. */
  datatype Settlement = Settlement(id: nat, result: Result<Reply, Thrown>)

  datatype Client = Client(nextId: nat, failed: bool, pending: map<nat, Entry>, settled: seq<Settlement>)

  function EntryOf(op: Op): Entry {
    Entry(if op.Reserve? then Some(op.candidate) else None, op.Cancel? || op.Decide?)
  }

  /** The worker's error mapping. */
  function ResponseTo(id: nat, result: Result<Reply, Thrown>): Response {
    match result
    case Success(reply) => Answer(id, reply)
    case Failure(Plain(error)) => Refusal(id, false, error, None, None)
    case Failure(Ambiguous(candidate, outcome)) => Refusal(id, true, StoreUnavailable, Some(candidate), Some(outcome))
    case Failure(WriteError(outcome)) => Refusal(id, false, StoreUnavailable, None, Some(outcome))
  }

  /** The client's reading of a worker message. */
  function Settle(entry: Entry, r: Response): Result<Reply, Thrown> {
    match r
    case Answer(_, reply) => Success(reply)
    case Refusal(_, unconfirmed, code, candidate, outcome) =>
      var named := if candidate.Some? then candidate else entry.candidate;
      if unconfirmed && named.Some? then
        Failure(Ambiguous(named.value, if outcome.Some? then outcome.value else UnknownOutcome))
      else if outcome.Some? then Failure(WriteError(outcome.value))
      else Failure(Plain(code))
  }

  /** The relay hands through what the worker's operation returned or threw. */
  lemma RelayIsFaithful(id: nat, op: Op, result: Result<Reply, Thrown>)
    ensures Settle(EntryOf(op), ResponseTo(id, result)) == result
  {
  }

  function LossError(entry: Entry): Thrown {
    if entry.candidate.Some? then Ambiguous(entry.candidate.value, UnknownOutcome)
    else if entry.unknownOnWorkerLoss then WriteError(UnknownOutcome)
    else Plain(StoreUnavailable)
  }

  // ---------------------------------------------------------------- client steps

  /** The number of the request, or None if it is rejected at once; sent says whether it reached the worker's port. */
  function Request(c: Client, op: Op, sent: bool): Client {
    if c.failed then c
    else if sent then c.(nextId := c.nextId + 1, pending := c.pending[c.nextId := EntryOf(op)])
    else c.(nextId := c.nextId + 1, settled := c.settled + [Settlement(c.nextId, Failure(Plain(ValidationFailed)))])
  }

  /** A message counts as a response only once the client has opened or failed to. */
  function ReceiveMessage(c: Client, startup: Startup, m: WorkerMessage): Client {
    if startup.Starting? || !m.ResponseMessage? then c else Receive(c, m.response)
  }

  function MessageEvent(m: WorkerMessage): StartupEvent {
    match m
    case ReadyMessage => SaysReady
    case InitErrorMessage(error) => SaysInitError(error)
    case ResponseMessage(_) => SaysAnythingElse
  }

  function Receive(c: Client, r: Response): Client {
    if r.id !in c.pending then c
    else c.(pending := c.pending - {r.id}, settled := c.settled + [Settlement(r.id, Settle(c.pending[r.id], r))])
  }

  /** The rejections of the waiting requests with smaller numbers, in order. */
  function Losses(waiting: map<nat, Entry>, below: nat): seq<Settlement> {
    if below == 0 then []
    else
      var k := below - 1;
      Losses(waiting, k) + if k in waiting then [Settlement(k, Failure(LossError(waiting[k])))] else []
  }

  predicate IsLoss(s: Settlement, waiting: map<nat, Entry>, below: nat) {
    s.id in waiting && s.id < below && s.result == Failure(LossError(waiting[s.id]))
  }

  lemma {:induction false} LossesAreTheWaiting(waiting: map<nat, Entry>, below: nat, losses: seq<Settlement>)
    requires losses == Losses(waiting, below)
    ensures forall i :: 0 <= i < |losses| ==> IsLoss(losses[i], waiting, below)
    ensures forall i, k :: 0 <= i < k < |losses| ==> losses[i].id != losses[k].id
    ensures forall k :: k in waiting && k < below ==> exists i :: 0 <= i < |losses| && losses[i].id == k
  {
    if below > 0 {
      var init := Losses(waiting, below - 1);
      LossesAreTheWaiting(waiting, below - 1, init);
      forall i | 0 <= i < |losses| ensures IsLoss(losses[i], waiting, below) {
        if i < |init| {
          assert IsLoss(init[i], waiting, below - 1);
        }
      }
      forall k | k in waiting && k < below ensures exists i :: 0 <= i < |losses| && losses[i].id == k {
        if k == below - 1 {
          assert losses[|init|].id == k;
        } else {
          var i :| 0 <= i < |init| && init[i].id == k;
          assert losses[i].id == k;
        }
      }
    }
  }

  /** Everything that waits is rejected, in the order of the map; nothing can be requested afterwards. */
  function FailAll(c: Client): Client {
    c.(failed := true, pending := map[], settled := c.settled + Losses(c.pending, c.nextId))
  }

  // ---------------------------------------------------------------- the object

  class StoreClientObject {
    var nextId: nat
    var workerFailed: bool
    var pending: map<nat, Entry>
    /** The flags of the start, its error and whether the termination that follows it was confirmed. */
    var startupSettled: bool
    var startupFailureStarted: bool
    var startupError: StoreError
    var termination: Option<bool>
    /** The promises that were settled so far, in order. */
    ghost var settled: seq<Settlement>

    ghost function State(): Client
      reads this
    {
      Client(nextId, workerFailed, pending, settled)
    }

    ghost function StartupState(): Startup
      reads this
    {
      if !startupSettled then Starting
      else if !startupFailureStarted then Ready
      else if termination.None? then Terminating(startupError)
      else Rejected(startupError, termination.value)
    }

    /** Numbers are handed out in order, and failing comes after settling and before the end of termination. */
    ghost predicate Valid()
      reads this
    {
      && (forall k :: k in pending ==> k < nextId)
      && (startupFailureStarted ==> startupSettled)
      && (termination.Some? ==> startupFailureStarted)
    }

    constructor ()
      ensures Valid() && State() == Client(1, false, map[], []) && StartupState() == Starting
    {
      nextId, workerFailed, pending, settled := 1, false, map[], [];
      startupSettled, startupFailureStarted, startupError, termination := false, false, StoreUnavailable, None;
    }

    method SendRequest(op: Op, portAccepts: bool) returns (id: Option<nat>)
      requires Valid()
      modifies this`nextId, this`pending, this`settled
      ensures Valid() && State() == Request(old(State()), op, portAccepts)
      ensures id == if !workerFailed && portAccepts then Some(old(nextId)) else None
    {
      if workerFailed { return None; }
      var number := nextId;
      nextId := nextId + 1;
      pending := pending[number := EntryOf(op)];
      if !portAccepts {
        pending := pending - {number};
        settled := settled + [Settlement(number, Failure(Plain(ValidationFailed)))];
        return None;
      }
      id := Some(number);
    }

    method FailStart(error: StoreError)
      requires Valid()
      modifies this`startupSettled, this`startupFailureStarted, this`startupError
      ensures Valid() && StartupState() == FailStartup(old(StartupState()), error)
    {
      if startupSettled || startupFailureStarted { return; }
      startupSettled := true;
      startupFailureStarted := true;
      startupError := error;
    }

    method OnWorkerMessage(message: WorkerMessage)
      requires Valid()
      modifies this`pending, this`settled, this`startupSettled, this`startupFailureStarted, this`startupError
      ensures Valid() && State() == ReceiveMessage(old(State()), old(StartupState()), message)
      ensures StartupState() == StartupStep(old(StartupState()), MessageEvent(message))
    {
      if !startupSettled {
        match message {
          case ReadyMessage => startupSettled := true;
          case InitErrorMessage(error) => FailStart(error);
          case ResponseMessage(_) =>
        }
        return;
      }
      if !message.ResponseMessage? || message.response.id !in pending { return; }
      var response := message.response;
      var entry := pending[response.id];
      pending := pending - {response.id};
      settled := settled + [Settlement(response.id, Settle(entry, response))];
    }

    /** The worker reported an error or exited: the start fails, or everything that waits is rejected. */
    method OnWorkerGone()
      requires Valid()
      modifies this
      ensures Valid() && StartupState() == StartupStep(old(StartupState()), WorkerGone)
      ensures State() == if old(StartupState()).Starting? then old(State()) else FailAll(old(State()))
    {
      if !startupSettled {
        FailStart(StoreUnavailable);
      } else {
        RejectAll();
      }
    }

    method OnStartupTimeout()
      requires Valid()
      modifies this`startupSettled, this`startupFailureStarted, this`startupError
      ensures Valid() && StartupState() == StartupStep(old(StartupState()), TimedOut)
    {
      FailStart(StoreUnavailable);
    }

    /** The race between termination of the worker and its timeout is over. */
    method OnTerminationEnded(confirmed: bool)
      requires Valid()
      modifies this`termination
      ensures Valid() && StartupState() == StartupStep(old(StartupState()), TerminationEnded(confirmed))
    {
      if startupFailureStarted && termination.None? {
        termination := Some(confirmed);
      }
    }

    method RejectAll()
      requires Valid()
      modifies this`workerFailed, this`pending, this`settled
      ensures Valid() && State() == FailAll(old(State()))
    {
      workerFailed := true;
      var id := 0;
      while id < nextId
        invariant id <= nextId && workerFailed && pending == old(pending)
        invariant settled == old(settled) + Losses(pending, id)
      {
        if id in pending {
          settled := settled + [Settlement(id, Failure(LossError(pending[id])))];
        }
        id := id + 1;
      }
      pending := map[];
    }
  }

  // ---------------------------------------------------------------- client, worker and database together

  /** A transaction that became part of the file, for the request with this number. */
  datatype Landing = Landing(id: nat, op: Op, now: int)

  /** requests are the operations by number; queue is what the worker's port still holds. */
  datatype Relay = Relay(
    client: Client, requests: map<nat, Op>, queue: seq<nat>, responses: seq<Response>,
    db: Db, served: map<nat, Result<Reply, Thrown>>, history: seq<Landing>)

  function Opened(store: Store): Relay {
    Relay(Client(1, false, map[], []), map[], [], [], Db(store, false), map[], [])
  }

  datatype Step =
    | Ask(op: Op, portAccepts: bool)
    | Serve(now: int, faults: Faults)
    | Deliver(index: nat)
    | Drop(index: nat)
    | LoseWorker

  predicate Possible(y: Relay, step: Step) {
    match step
    case Serve(_, _) => y.queue != [] && y.queue[0] in y.requests
    case Deliver(index) => index < |y.responses|
    case Drop(index) => index < |y.responses|
    case _ => true
  }

  function Without<T>(s: seq<T>, index: nat): seq<T>
    requires index < |s|
  {
    s[..index] + s[index + 1..]
  }

  function ServeStep(y: Relay, now: int, faults: Faults): Relay
    requires y.queue != [] && y.queue[0] in y.requests
  {
    var id := y.queue[0];
    var op := y.requests[id];
    var t := Transact(y.db, op, now, faults);
    y.(queue := y.queue[1..], db := t.db, served := y.served[id := t.result],
       responses := y.responses + [ResponseTo(id, t.result)],
       history := if t.landed then y.history + [Landing(id, op, now)] else y.history)
  }

  /** A request in the port may still be served after the client gave up on the worker. */
  function Next(y: Relay, step: Step): Relay
    requires Possible(y, step)
  {
    match step
    case Ask(op, portAccepts) =>
      if y.client.failed then y
      else
        var id := y.client.nextId;
        y.(client := Request(y.client, op, portAccepts), requests := y.requests[id := op],
           queue := if portAccepts then y.queue + [id] else y.queue)
    case Serve(now, faults) => ServeStep(y, now, faults)
    case Deliver(index) => y.(client := Receive(y.client, y.responses[index]), responses := Without(y.responses, index))
    case Drop(index) => y.(responses := Without(y.responses, index))
    case LoseWorker => y.(client := FailAll(y.client))
  }

  function Replay(start: Store, history: seq<Landing>): Store {
    if history == [] then start
    else
      var last := history[|history| - 1];
      Apply(Replay(start, history[..|history| - 1]), last.op, last.now).store
  }

  /** The request's transaction is part of the file. */
  predicate Landed(history: seq<Landing>, id: nat) {
    exists i :: 0 <= i < |history| && history[i].id == id
  }

  /** The calls whose outcome the client reports even when the worker is lost. */
  predicate Tracked(op: Op) {
    op.Reserve? || op.Cancel? || op.Decide?
  }

  // ---------------------------------------------------------------- invariant

  ghost predicate Numbered(y: Relay) {
    && (forall k :: k in y.requests ==> k < y.client.nextId)
    && (forall k :: k in y.client.pending ==> k in y.requests && y.client.pending[k] == EntryOf(y.requests[k]))
    && (forall i :: 0 <= i < |y.queue| ==> y.queue[i] in y.requests && y.queue[i] !in y.served)
    && (forall i, k :: 0 <= i < k < |y.queue| ==> y.queue[i] != y.queue[k])
    && (forall k :: k in y.served ==> k in y.requests)
  }

  ghost predicate Answered(y: Relay) {
    forall i :: 0 <= i < |y.responses| ==>
      y.responses[i].id in y.served && y.responses[i] == ResponseTo(y.responses[i].id, y.served[y.responses[i].id])
  }

  ghost predicate SettledOnce(y: Relay) {
    && (forall i :: 0 <= i < |y.client.settled| ==> y.client.settled[i].id in y.requests && y.client.settled[i].id !in y.client.pending)
    && (forall i, k :: 0 <= i < k < |y.client.settled| ==> y.client.settled[i].id != y.client.settled[k].id)
  }

  ghost predicate ServedHonestly(y: Relay) {
    && (forall k :: k in y.served ==> ResultHonest(y.served[k], Landed(y.history, k)))
    && (forall i :: 0 <= i < |y.history| ==> y.history[i].id in y.served)
    && (forall i, k :: 0 <= i < k < |y.history| ==> y.history[i].id != y.history[k].id)
  }

  /** A settlement is what the worker said, or the loss of the worker, or a request that was never handed over. */
  predicate SettlementOk(s: Settlement, requests: map<nat, Op>, queue: seq<nat>, served: map<nat, Result<Reply, Thrown>>) {
    && s.id in requests
    && (|| (s.id in served && s.result == served[s.id])
        || s.result == Failure(LossError(EntryOf(requests[s.id])))
        || (s.result == Failure(Plain(ValidationFailed)) && s.id !in served && s.id !in queue))
  }

  ghost predicate SettledHonestly(y: Relay) {
    forall i :: 0 <= i < |y.client.settled| ==> SettlementOk(y.client.settled[i], y.requests, y.queue, y.served)
  }

  /** A successful reply is the one its transaction gave at its place in the history. */
  predicate ReplyReal(before: Store, l: Landing, served: map<nat, Result<Reply, Thrown>>) {
    l.id in served && served[l.id].Success? ==> Apply(before, l.op, l.now).result == Success(served[l.id].value)
  }

  ghost predicate RepliesReal(y: Relay, start: Store) {
    forall i :: 0 <= i < |y.history| ==> ReplyReal(Replay(start, y.history[..i]), y.history[i], y.served)
  }

  ghost predicate RelayOk(y: Relay, start: Store) {
    && Numbered(y) && Answered(y) && SettledOnce(y) && ServedHonestly(y) && SettledHonestly(y) && RepliesReal(y, start)
    && y.db.durable == Replay(start, y.history)
    && 0 < y.client.nextId
  }

  lemma OpenedIsOk(start: Store)
    ensures RelayOk(Opened(start), start)
  {
  }

  // ---------------------------------------------------------------- every step

  lemma LandedAppends(history: seq<Landing>, l: Landing, id: nat)
    ensures Landed(history + [l], id) <==> Landed(history, id) || l.id == id
  {
    assert (history + [l])[|history|] == l;
    if i :| 0 <= i < |history| && history[i].id == id {
      assert (history + [l])[i].id == id;
    }
  }

  lemma AskKeeps(y: Relay, start: Store, op: Op, portAccepts: bool)
    requires RelayOk(y, start)
    ensures RelayOk(Next(y, Ask(op, portAccepts)), start)
  {
    hide ServedHonestly, RepliesReal, Answered, LossError;
    assert ServedHonestly(Next(y, Ask(op, portAccepts))) && RepliesReal(Next(y, Ask(op, portAccepts)), start) by {
      assert ServedHonestly(y) && RepliesReal(y, start);
      ServingUnchanged(y, Next(y, Ask(op, portAccepts)), start);
    }
    assert Answered(Next(y, Ask(op, portAccepts))) by {
      assert Answered(y);
      ServingUnchanged(y, Next(y, Ask(op, portAccepts)), start);
    }
    hide Replay;
  }

  lemma ServingUnchanged(y: Relay, z: Relay, start: Store)
    requires z.served == y.served && z.history == y.history
    ensures ServedHonestly(z) == ServedHonestly(y) && RepliesReal(z, start) == RepliesReal(y, start)
    ensures z.responses == y.responses ==> Answered(z) == Answered(y)
  {
  }

  lemma ServeKeepsHonesty(y: Relay, start: Store, now: int, faults: Faults)
    requires RelayOk(y, start) && Possible(y, Serve(now, faults))
    ensures ServedHonestly(ServeStep(y, now, faults))
  {
    var z := ServeStep(y, now, faults);
    var id := y.queue[0];
    var t := Transact(y.db, y.requests[id], now, faults);
    TransactionsAreHonest(y.db, y.requests[id], now, faults);
    assert id !in y.served && !Landed(y.history, id);
    forall k | k in z.served ensures ResultHonest(z.served[k], Landed(z.history, k)) {
      LandedAppends(y.history, Landing(id, y.requests[id], now), k);
    }
    hide Transact, Apply, ResultHonest, Landed;
  }

  lemma ServeKeepsHistory(y: Relay, start: Store, now: int, faults: Faults)
    requires RelayOk(y, start) && Possible(y, Serve(now, faults))
    ensures var z := ServeStep(y, now, faults); z.db.durable == Replay(start, z.history) && RepliesReal(z, start)
  {
    var z := ServeStep(y, now, faults);
    var id := y.queue[0];
    TransactionsAreHonest(y.db, y.requests[id], now, faults);
    assert id !in y.served;
    assert forall i :: 0 <= i < |y.history| ==> y.history[i].id != id;
    assert z.history != y.history ==> ReplyReal(y.db.durable, Landing(id, y.requests[id], now), z.served);
    hide Transact, Apply, Numbered, Answered, SettledOnce, SettledHonestly, ServedHonestly;
    if z.history != y.history {
      assert z.history[..|y.history|] == y.history;
      hide Replay;
    }
    forall i | 0 <= i < |z.history| ensures ReplyReal(Replay(start, z.history[..i]), z.history[i], z.served) {
      if i < |y.history| {
        assert z.history[..i] == y.history[..i] && z.history[i] == y.history[i];
        assert ReplyReal(Replay(start, y.history[..i]), y.history[i], y.served);
      }
    }
  }

  lemma ServeKeepsQueue(y: Relay, start: Store, now: int, faults: Faults)
    requires RelayOk(y, start) && Possible(y, Serve(now, faults))
    ensures var z := ServeStep(y, now, faults); Numbered(z) && Answered(z) && SettledOnce(z)
  {
    var id := y.queue[0];
    var result := Transact(y.db, y.requests[id], now, faults).result;
    assert ResponseTo(id, result).id == id;
    assert id !in y.served;
    hide Transact, ServedHonestly, SettledHonestly, RepliesReal, Replay, EntryOf, ResponseTo;
  }

  lemma ServeKeepsSettlements(y: Relay, start: Store, now: int, faults: Faults)
    requires RelayOk(y, start) && Possible(y, Serve(now, faults))
    ensures SettledHonestly(ServeStep(y, now, faults))
  {
    var z := ServeStep(y, now, faults);
    forall i | 0 <= i < |z.client.settled| ensures SettlementOk(z.client.settled[i], z.requests, z.queue, z.served) {
      assert SettlementOk(y.client.settled[i], y.requests, y.queue, y.served);
      assert y.queue[0] !in y.served;
    }
    hide Transact, LossError, EntryOf;
  }

  lemma ServeKeeps(y: Relay, start: Store, now: int, faults: Faults)
    requires RelayOk(y, start) && Possible(y, Serve(now, faults))
    ensures RelayOk(ServeStep(y, now, faults), start)
  {
    ServeKeepsHonesty(y, start, now, faults);
    ServeKeepsHistory(y, start, now, faults);
    ServeKeepsQueue(y, start, now, faults);
    ServeKeepsSettlements(y, start, now, faults);
    hide Transact, ServedHonestly, RepliesReal, Replay, Numbered, Answered, SettledOnce, SettledHonestly;
  }

  lemma DeliverKeepsQueue(y: Relay, start: Store, index: nat)
    requires RelayOk(y, start) && index < |y.responses|
    ensures var z := Next(y, Deliver(index)); Numbered(z) && Answered(z) && SettledOnce(z)
  {
    hide ServedHonestly, SettledHonestly, RepliesReal, Replay, EntryOf, ResponseTo, Settle;
  }

  lemma DeliverKeepsSettlements(y: Relay, start: Store, index: nat)
    requires RelayOk(y, start) && index < |y.responses|
    ensures SettledHonestly(Next(y, Deliver(index)))
  {
    var z := Next(y, Deliver(index));
    var r := y.responses[index];
    assert r == ResponseTo(r.id, y.served[r.id]);
    RelayIsFaithful(r.id, y.requests[r.id], y.served[r.id]);
    forall i | 0 <= i < |z.client.settled| ensures SettlementOk(z.client.settled[i], z.requests, z.queue, z.served) {
      if i < |y.client.settled| {
        assert SettlementOk(y.client.settled[i], y.requests, y.queue, y.served);
      }
    }
    hide ServedHonestly, RepliesReal, Replay, LossError, EntryOf, ResponseTo, Settle;
  }

  lemma DeliverKeeps(y: Relay, start: Store, index: nat)
    requires RelayOk(y, start) && index < |y.responses|
    ensures RelayOk(Next(y, Deliver(index)), start)
  {
    ServingUnchanged(y, Next(y, Deliver(index)), start);
    DeliverKeepsQueue(y, start, index);
    DeliverKeepsSettlements(y, start, index);
    hide ServedHonestly, RepliesReal, Replay, Settle, Numbered, Answered, SettledOnce, SettledHonestly;
  }

  lemma LossKeeps(y: Relay, start: Store)
    requires RelayOk(y, start)
    ensures RelayOk(Next(y, LoseWorker), start)
  {
    var z := Next(y, LoseWorker);
    LossesAreTheWaiting(y.client.pending, y.client.nextId, Losses(y.client.pending, y.client.nextId));
    ServingUnchanged(y, z, start);
    forall i | 0 <= i < |z.client.settled| ensures SettlementOk(z.client.settled[i], z.requests, z.queue, z.served) {
      if i < |y.client.settled| {
        assert SettlementOk(y.client.settled[i], y.requests, y.queue, y.served);
      } else {
        assert IsLoss(z.client.settled[i], y.client.pending, y.client.nextId);
      }
    }
    hide SettlementOk, Losses, ServedHonestly, RepliesReal, Replay, LossError, EntryOf, ResponseTo, Settle;
  }

  lemma StepKeepsRelay(y: Relay, start: Store, step: Step)
    requires RelayOk(y, start) && Possible(y, step)
    ensures RelayOk(Next(y, step), start)
  {
    match step
    case Ask(op, portAccepts) => AskKeeps(y, start, op, portAccepts); hide *;
    case Serve(now, faults) => ServeKeeps(y, start, now, faults); hide *;
    case Deliver(index) => DeliverKeeps(y, start, index); hide *;
    case Drop(index) => ServingUnchanged(y, Next(y, step), start); hide ServedHonestly, RepliesReal, Replay;
    case LoseWorker => LossKeeps(y, start); hide *;
  }

  // ---------------------------------------------------------------- whole runs

  function Run(start: Store, steps: seq<Step>): Option<Relay> {
    if steps == [] then Some(Opened(start))
    else
      var before :- Run(start, steps[..|steps| - 1]);
      if Possible(before, steps[|steps| - 1]) then Some(Next(before, steps[|steps| - 1])) else None
  }

  lemma {:induction false} RunKeepsRelay(start: Store, steps: seq<Step>)
    requires Run(start, steps).Some?
    ensures RelayOk(Run(start, steps).value, start)
  {
    if steps == [] {
      OpenedIsOk(start);
    } else {
      RunKeepsRelay(start, steps[..|steps| - 1]);
      StepKeepsRelay(Run(start, steps[..|steps| - 1]).value, start, steps[|steps| - 1]);
    }
    hide RelayOk, Next, Possible;
  }

  /** No request settles twice. */
  lemma SettlesAtMostOnce(start: Store, steps: seq<Step>, i: nat, k: nat)
    requires Run(start, steps).Some? && i < |Run(start, steps).value.client.settled| && k < |Run(start, steps).value.client.settled|
    requires Run(start, steps).value.client.settled[i].id == Run(start, steps).value.client.settled[k].id
    ensures i == k
  {
    RunKeepsRelay(start, steps);
    hide Run;
  }

  /**
   What the caller of a reservation, cancellation or decision may conclude: success and a committed
   outcome mean that the transaction is in the file, a plain error that it is not and that no
   request for it is left, and an unknown outcome may mean either.
   */
  lemma OutcomesAreSound(start: Store, steps: seq<Step>, i: nat)
    requires Run(start, steps).Some? && i < |Run(start, steps).value.client.settled|
    ensures var y := Run(start, steps).value;
            var s := y.client.settled[i];
            && s.id in y.requests
            && (Tracked(y.requests[s.id]) ==> ResultHonest(s.result, Landed(y.history, s.id)))
            && (Tracked(y.requests[s.id]) && s.result.Failure? && s.result.error.Plain? ==> s.id !in y.queue)
            && (s.result.Success? ==> s.id in y.served && y.served[s.id] == s.result)
  {
    RunKeepsRelay(start, steps);
    hide Run;
    var y := Run(start, steps).value;
    assert SettlementOk(y.client.settled[i], y.requests, y.queue, y.served);
    hide Answered, RepliesReal, Replay;
  }

  /** A transaction lands at most once, and a successful reply is the one it gave when it landed. */
  lemma LandsOnceWithItsReply(start: Store, steps: seq<Step>, i: nat)
    requires Run(start, steps).Some? && i < |Run(start, steps).value.history|
    ensures var y := Run(start, steps).value;
            var l := y.history[i];
            && y.db.durable == Replay(start, y.history)
            && (forall k :: 0 <= k < |y.history| && y.history[k].id == l.id ==> k == i)
            && l.id in y.served
            && (y.served[l.id].Success? ==>
                  Apply(Replay(start, y.history[..i]), l.op, l.now).result == Success(y.served[l.id].value))
  {
    RunKeepsRelay(start, steps);
    hide Run, Apply, Replay;
  }

  /** After an unknown or committed failure nothing is ever written on this connection. */
  lemma {:induction false} DisabledStaysDisabled(y: Relay, step: Step)
    requires Possible(y, step) && y.db.writesDisabled
    ensures var z := Next(y, step); z.db == y.db && z.history == y.history
    ensures forall id :: id in Next(y, step).served && id !in y.served ==> Next(y, step).served[id].Failure?
  {
    if step.Serve? {
      TransactionsAreHonest(y.db, y.requests[y.queue[0]], step.now, step.faults);
    }
    hide Apply;
  }
}
