/**
 How src/job-store.ts stores a snapshot: eighteen positional parameters in the order of the result
 columns, flags as 0 and 1. The cells of a row are read back by position.
 */
module EvidenceRow {
  import opened Wrappers
  import opened StoreEvidence

  datatype Cell = Null | Integer(value: int) | Text(text: string)

  function LaunchName(l: LaunchPhase): string {
    match l
    case Unknown => "unknown"
    case SuppressedCancelled => "suppressed_cancelled"
    case SuppressedDeadline => "suppressed_deadline"
    case SpawnFailed => "spawn_failed"
    case Launched => "launched"
  }

  function CleanupName(c: CleanupState): string {
    match c
    case NotRequired => "not_required"
    case NotRequested => "not_requested"
    case Pending => "pending"
    case Unconfirmed => "unconfirmed"
  }

  function TermName(t: TermObservation): string {
    match t case Returned => "returned" case Errored => "error"
  }

  function Flag(b: bool): Cell {
    Integer(if b then 1 else 0)
  }

  function StreamCells(s: StreamFacts): seq<Cell> {
    [if s.available.None? then Null else Flag(s.available.value), Flag(s.truncated), Flag(s.incomplete), Flag(s.openAtCutover)]
  }

  /** The parameters of the INSERT, in column order. */
  function EvidenceToParams(e: Evidence): seq<Cell> {
    [Text(LaunchName(e.launch)),
     if e.shellCode.None? then Null else Integer(e.shellCode.value),
     if e.shellSignal.None? then Null else Text(e.shellSignal.value),
     Text(CleanupName(e.cleanup)),
     if e.term.None? then Null else Text(TermName(e.term.value)),
     Flag(e.killIntent), Flag(e.cancellationIntent), Flag(e.deadlineTrigger)]
    + StreamCells(e.stdout) + StreamCells(e.stderr) + [Flag(e.uncertain), Flag(e.finalized)]
  }

  // ---------------------------------------------------------------- reading a row back

  function LaunchOf(name: string): LaunchPhase {
    if name == "suppressed_cancelled" then SuppressedCancelled
    else if name == "suppressed_deadline" then SuppressedDeadline
    else if name == "spawn_failed" then SpawnFailed
    else if name == "launched" then Launched
    else Unknown
  }

  function CleanupOf(name: string): CleanupState {
    if name == "not_required" then NotRequired
    else if name == "pending" then Pending
    else if name == "unconfirmed" then Unconfirmed
    else NotRequested
  }

  function TermOf(name: string): TermObservation {
    if name == "returned" then Returned else Errored
  }

  predicate IsOne(c: Cell) {
    c == Integer(1)
  }

  function StreamOf(cells: seq<Cell>): StreamFacts
    requires |cells| == 4
  {
    StreamFacts(if cells[0].Null? then None else Some(IsOne(cells[0])), IsOne(cells[1]), IsOne(cells[2]), IsOne(cells[3]))
  }

  /** The columns have the types the schema declares. */
  predicate WellTyped(row: seq<Cell>) {
    && |row| == 18
    && row[0].Text? && (row[1].Null? || row[1].Integer?) && (row[2].Null? || row[2].Text?)
    && row[3].Text? && (row[4].Null? || row[4].Text?)
  }

  function RowToEvidence(row: seq<Cell>): Evidence
    requires WellTyped(row)
  {
    Evidence(
      LaunchOf(row[0].text),
      if row[1].Null? then None else Some(row[1].value),
      if row[2].Null? then None else Some(row[2].text),
      CleanupOf(row[3].text),
      if row[4].Null? then None else Some(TermOf(row[4].text)),
      IsOne(row[5]), IsOne(row[6]), IsOne(row[7]),
      StreamOf(row[8..12]), StreamOf(row[12..16]),
      IsOne(row[16]), IsOne(row[17]))
  }

  lemma NamesReadBack(l: LaunchPhase, c: CleanupState, t: TermObservation)
    ensures LaunchOf(LaunchName(l)) == l && CleanupOf(CleanupName(c)) == c && TermOf(TermName(t)) == t
  {
    assert "not_required" != "not_requested" by {
      assert |"not_required"| != |"not_requested"|;
    }
    assert "unconfirmed"[0] == 'u' && "pending"[0] == 'p' && "not_requested"[0] == 'n' && "not_required"[0] == 'n';
    assert "unknown"[0] == 'u' && "launched"[0] == 'l' && "spawn_failed"[1] == 'p' && "suppressed_deadline"[1] == 'u';
    assert "suppressed_cancelled"[11] == 'c' && "suppressed_deadline"[11] == 'd';
    assert "returned"[0] == 'r' && "error"[0] == 'e';
  }

  lemma StreamReadsBack(s: StreamFacts)
    ensures StreamOf(StreamCells(s)) == s
  {
  }

  /** Nothing is lost or exchanged between a snapshot and its stored row. */
  lemma RowRoundTrip(e: Evidence)
    ensures WellTyped(EvidenceToParams(e)) && RowToEvidence(EvidenceToParams(e)) == e
  {
    var row := EvidenceToParams(e);
    NamesReadBack(e.launch, e.cleanup, if e.term.Some? then e.term.value else Returned);
    StreamReadsBack(e.stdout);
    StreamReadsBack(e.stderr);
    assert |StreamCells(e.stdout)| == 4 && |StreamCells(e.stderr)| == 4;
    hide LaunchName, LaunchOf, CleanupName, CleanupOf, TermName, TermOf, StreamCells, StreamOf;
    assert row[8..12] == StreamCells(e.stdout);
    assert row[12..16] == StreamCells(e.stderr);
    assert row[16] == Flag(e.uncertain) && row[17] == Flag(e.finalized);
  }
}
