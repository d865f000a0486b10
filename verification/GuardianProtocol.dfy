/** The messages of src/guardian-protocol.ts, split by direction. */
module GuardianProtocol {
  import opened Wrappers
  import opened StoreEvidence

  /** What a hello reply carries of the reserved job. */
  datatype Orders = Orders(command: string, cwd: string, deadlineAt: int)

  datatype SpawnFault = SpawnRefused | ExpiredBeforeSpawn

  datatype GuardianMessage =
    | Hello
    | Topology(ok: bool)
    | ProtocolViolation
    | ShellSpawned
    | ShellError(reason: SpawnFault)
    | ShellExit(code: Option<int>, signal: Option<string>)
    | CleanupTerm(observation: TermObservation)
    | CleanupKillIntent
    | Deadline

  datatype RunnerMessage = HelloReply(orders: Orders) | Grant
}
