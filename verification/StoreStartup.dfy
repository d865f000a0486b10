/**
 How opening a store client ends, in src/store-client.ts: the first decisive event alone decides, and
 a failed start is reported once the attempt to terminate the worker has ended.
 */
module StoreStartup {
  import opened Wrappers
  import opened JobTypes

  /** confirmed says whether the worker is known to be terminated. */
  datatype Startup =
    | Starting
    | Ready
    | Terminating(error: StoreError)
    | Rejected(error: StoreError, confirmed: bool)

  /** Messages, worker errors, worker exits, the startup timeout and the end of termination. */
  datatype StartupEvent =
    | SaysReady
    | SaysInitError(error: StoreError)
    | SaysAnythingElse
    | WorkerGone
    | TimedOut
    | TerminationEnded(confirmed: bool)

  function FailStartup(s: Startup, error: StoreError): Startup {
    if s.Starting? then Terminating(error) else s
  }

  function StartupStep(s: Startup, e: StartupEvent): Startup {
    match e
    case SaysReady => if s.Starting? then Ready else s
    case SaysInitError(error) => FailStartup(s, error)
    case SaysAnythingElse => s
    case WorkerGone => FailStartup(s, StoreUnavailable)
    case TimedOut => FailStartup(s, StoreUnavailable)
    case TerminationEnded(confirmed) => if s.Terminating? then Rejected(s.error, confirmed) else s
  }

  function StartupRun(events: seq<StartupEvent>): Startup {
    if events == [] then Starting else StartupStep(StartupRun(events[..|events| - 1]), events[|events| - 1])
  }

  /** What this event would decide: success, or an error. */
  function Decides(e: StartupEvent): Option<Result<(), StoreError>> {
    match e
    case SaysReady => Some(Success(()))
    case SaysInitError(error) => Some(Failure(error))
    case WorkerGone => Some(Failure(StoreUnavailable))
    case TimedOut => Some(Failure(StoreUnavailable))
    case _ => None
  }

  /** What the first decisive event decides. */
  function FirstDecision(events: seq<StartupEvent>): Option<Result<(), StoreError>> {
    if events == [] then None
    else
      var before := FirstDecision(events[..|events| - 1]);
      if before.Some? then before else Decides(events[|events| - 1])
  }

  /** In every order of events the client opens, or fails with an error, exactly as the first decisive event says. */
  lemma {:induction false} FirstDecisionDecides(events: seq<StartupEvent>)
    ensures match FirstDecision(events)
            case None => StartupRun(events).Starting?
            case Some(Success(_)) => StartupRun(events).Ready?
            case Some(Failure(error)) =>
              (StartupRun(events).Terminating? || StartupRun(events).Rejected?) && StartupRun(events).error == error
  {
    if events != [] {
      FirstDecisionDecides(events[..|events| - 1]);
    }
  }

  /** A settled start stays as it was settled. */
  lemma SettledStays(s: Startup, e: StartupEvent)
    ensures s.Ready? || s.Rejected? ==> StartupStep(s, e) == s
  {
  }
}
