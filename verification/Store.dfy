/** The rows the service keeps, and each SQL statement of repo.go as one atomic function on them. */
module Store {
  import opened Common

  type ConvId = string
  type RunId = string

  datatype Kind = Main | Subagent

  /** A conversation row: its active-run slot and whether it is soft-deleted. */
  datatype Conv = Conv(active: Option<RunId>, deleted: bool)

  datatype RunRow = RunRow(conv: ConvId, kind: Kind, status: string, subagent: Option<string>)

  /** The child a subagent.started payload names. */
  datatype Child = Child(run: RunId, subagent: string)

  datatype Payload =
    | RunStarted
    | Completed(content: string)
    | Finished(status: string)
    | SubagentStarted(childRun: string, subagent: string, parentSubagent: string)
    | OtherEvent

  datatype Event = Event(run: RunId, number: int, payload: Payload)

  type Key = (RunId, int)

  datatype Db = Db(
    convs: map<ConvId, Conv>,
    runs: map<RunId, RunRow>,
    journal: map<Key, Event>,     // run_events, with its unique key (run_id, seq)
    answers: map<RunId, string>)  // assistant messages, with their unique key (run_id, role)

  const QUEUED := "queued"
  const RUNNING := "running"
  const FAILED := "failed"

  function KeyOf(ev: Event): Key {
    (ev.run, ev.number)
  }

  predicate Terminal(status: string) {
    status == "succeeded" || status == FAILED || status == "cancelled" || status == "timed_out"
  }

  /** The payload fields a subagent run is made from, and the checks on them. */
  function ChildOf(childRun: string, subagent: string, parentSubagent: string): Option<Child> {
    if childRun == "" || |childRun| > 40 || subagent == "" || |subagent| > 64 || |parentSubagent| > 64 then None
    else Some(Child(childRun, subagent))
  }

  /** The child an event announces; None for other events and for malformed announcements. */
  function ChildIn(payload: Payload): Option<Child> {
    match payload
    case SubagentStarted(childRun, subagent, parentSubagent) => ChildOf(childRun, subagent, parentSubagent)
    case _ => None
  }

  // Statements

  predicate Claimable(db: Db, conv: ConvId) {
    conv in db.convs && db.convs[conv].active.None? && !db.convs[conv].deleted
  }

  function Claim(db: Db, conv: ConvId, run: RunId): Db {
    if Claimable(db, conv) then db.(convs := db.convs[conv := db.convs[conv].(active := Some(run))]) else db
  }

  predicate Holds(db: Db, conv: ConvId, run: RunId) {
    conv in db.convs && db.convs[conv].active == Some(run)
  }

  function Clear(db: Db, conv: ConvId, run: RunId): Db {
    if Holds(db, conv, run) then db.(convs := db.convs[conv := db.convs[conv].(active := None)]) else db
  }

  function InsertEvent(db: Db, ev: Event): Db {
    if KeyOf(ev) in db.journal then db else db.(journal := db.journal[KeyOf(ev) := ev])
  }

  /** A main run, under an id not used before. */
  function CreateRun(db: Db, run: RunId, conv: ConvId): Db {
    if run in db.runs then db else db.(runs := db.runs[run := RunRow(conv, Main, QUEUED, None)])
  }

  /** Both unique keys of a subagent run: its public id, and its conversation with its subagent id. */
  predicate ChildExists(db: Db, conv: ConvId, child: Child) {
    || child.run in db.runs
    || exists r :: r in db.runs && db.runs[r].conv == conv && db.runs[r].subagent == Some(child.subagent)
  }

  function EnsureSubagentRun(db: Db, conv: ConvId, ev: Event): Db {
    if ChildIn(ev.payload).Some? && !ChildExists(db, conv, ChildIn(ev.payload).value) then
      var child := ChildIn(ev.payload).value;
      db.(runs := db.runs[child.run := RunRow(conv, Subagent, QUEUED, Some(child.subagent))])
    else db
  }

  /** The assistant message of a completed main run; a duplicate is ignored. */
  function InsertAnswer(db: Db, row: RunRow, ev: Event): Db {
    if ev.payload.Completed? && row.kind.Main? && ev.run !in db.answers then
      db.(answers := db.answers[ev.run := ev.payload.content])
    else db
  }

  /** The status an event gives a run. */
  function NextStatus(status: string, payload: Payload): string {
    match payload
    case RunStarted => if status == QUEUED then RUNNING else status
    case Finished(st) => if st == "" then FAILED else st
    case _ => status
  }

  function SaveRun(db: Db, row: RunRow, ev: Event): Db {
    db.(runs := db.runs[ev.run := row.(status := NextStatus(row.status, ev.payload))])
  }
}
