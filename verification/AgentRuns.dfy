/**
 Run lifecycle and run blockers as functions of the tables (`code_index/agent_activity.py`).
 */
module AgentRuns {
  import opened Options
  import opened AgentTables
  import opened Claims

  /** `start_run`; run ids are unique in the table. */
  function StartRun(db: Db, r: RunId, status: RunStatus, meta: Meta): Outcome<()> {
    if r in db.runs then Outcome(db, Err(DuplicateRun))
    else Outcome(db.(runs := db.runs[r := Run(status, false, meta)]), Ok(()))
  }

  /* ---- blockers ---- */

  predicate Blocks(db: Db, l: Link) {
    l in db.links && db.links[l].LinkActive?
  }

  predicate HasActiveBlocker(db: Db, r: RunId) {
    exists l :: l in db.links && l.run == r && db.links[l].LinkActive?
  }

  predicate CompletedRun(db: Db, r: RunId) {
    r in db.runs && db.runs[r].status.Completed?
  }

  function ResolveLinks(db: Db): Db {
    db.(links := map l | l in db.links :: if CompletedRun(db, l.blocker) then LinkResolved else db.links[l])
  }

  predicate Unblocks(db: Db, r: RunId) {
    r in db.runs && db.runs[r].status.Blocked? && !db.runs[r].archived && !HasActiveBlocker(db, r)
  }

  function QueueUnblocked(db: Db): Db {
    db.(runs := map r | r in db.runs :: if Unblocks(db, r) then db.runs[r].(status := Queued) else db.runs[r])
  }

  /** `_sync_blocked_runs`: its two UPDATE statements in order. */
  function SyncBlocked(db: Db): Db {
    QueueUnblocked(ResolveLinks(db))
  }

  function PutLink(db: Db, run: RunId, blocker: RunId): Db {
    db.(links := db.links[Link(run, blocker) := if CompletedRun(db, blocker) then LinkResolved else LinkActive])
  }

  /** The loop of `add_run_blockers`: links before an unknown blocker stay. */
  function PutLinks(db: Db, run: RunId, blockers: seq<RunId>): Outcome<()>
    decreases |blockers|
  {
    if blockers == [] then Outcome(db, Ok(()))
    else if blockers[0] !in db.runs then Outcome(db, Err(UnknownBlocker))
    else PutLinks(PutLink(db, run, blockers[0]), run, blockers[1..])
  }

  /** What follows that loop. */
  function AfterLinks(db: Db, run: RunId): Db {
    if HasActiveBlocker(db, run) then
      if run in db.runs && !Stopped(db.runs[run].status)
      then db.(runs := db.runs[run := db.runs[run].(status := Blocked)])
      else db
    else SyncBlocked(db)
  }

  /** `add_run_blockers`. */
  function AddRunBlockers(db: Db, run: RunId, blockers: seq<RunId>): Outcome<()> {
    if run !in db.runs then Outcome(db, Err(UnknownRun))
    else if Terminal(db.runs[run].status) then Outcome(db, Err(TerminalRun))
    else if blockers == [] then Outcome(db, Ok(()))
    else if run in blockers then Outcome(db, Err(SelfBlock))
    else
      var put := PutLinks(db, run, blockers);
      if put.result.Err? then put else Outcome(AfterLinks(put.db, run), Ok(()))
  }

  /* ---- status ---- */

  function SetStatus(db: Db, r: RunId, status: RunStatus): Db
    requires r in db.runs
  {
    db.(runs := db.runs[r := db.runs[r].(status := status)])
  }

  function SyncIfCompleted(db: Db, status: RunStatus): Db {
    if status.Completed? then SyncBlocked(db) else db
  }

  /** `end_run`: plain claims go first, then the status, then the blocked runs. */
  function EndRun(db: Db, now: int, r: RunId, status: RunStatus): Outcome<()> {
    if r !in db.runs then Outcome(db, Err(UnknownRun))
    else
      var db1 := ReleaseClaims(db, now, r, None, None, AsReleased).db;
      Outcome(SyncIfCompleted(SetStatus(db1, r, status), status), Ok(()))
  }

  /** `archive_run`. */
  function ArchiveRun(db: Db, now: int, r: RunId): Outcome<()> {
    if r !in db.runs then Outcome(db, Err(UnknownRun))
    else
      var db1 := ReleaseClaims(db, now, r, None, None, AsReleased).db;
      Outcome(db1.(runs := db1.runs[r := db1.runs[r].(archived := true)]), Ok(()))
  }

  datatype EventType = StatusEvent | ReadEvent | NavigateEvent | EditEvent | TestEvent | ToolEvent | NoteEvent | OtherEvent

  /** WORK_EVENT_TYPES. */
  predicate WorkEvent(e: EventType) {
    !e.StatusEvent? && !e.OtherEvent?
  }

  /** EVENT_CLAIM_MODES. */
  function EventClaimMode(e: EventType): Option<Mode> {
    match e
    case ReadEvent => Some(ReadMode)
    case NavigateEvent => Some(ReadMode)
    case EditEvent => Some(EditMode)
    case TestEvent => Some(TestMode)
    case _ => None
  }

  /** The status an event writes, given the run's current one and the payload's. */
  function NextStatus(current: RunStatus, e: EventType, payload: Option<RunStatus>): Option<RunStatus> {
    if e.StatusEvent? then payload
    else if WorkEvent(e) && !Stopped(current) then Some(Working)
    else None
  }

  /** The tail of `record_event`: a stopped status releases claims, a completed one unblocks. */
  function AfterEvent(db: Db, now: int, r: RunId, next: Option<RunStatus>): Db {
    if next.Some? && Stopped(next.value)
    then SyncIfCompleted(ReleaseClaims(db, now, r, None, None, AsReleased).db, next.value)
    else db
  }

  /** `record_event`; `e` is None when the event type is blank. A refused claim leaves the new status behind. */
  ghost function RecordEvent(db: Db, now: int, r: RunId, e: Option<EventType>, path: Option<Path>, payload: Option<RunStatus>)
    : Outcome<()>
  {
    if e.None? then Outcome(db, Err(EventTypeRequired))
    else if r !in db.runs then Outcome(db, Err(UnknownRun))
    else
      var next := NextStatus(db.runs[r].status, e.value, payload);
      var db1 := if next.Some? then SetStatus(db, r, next.value) else db;
      var mode := EventClaimMode(e.value);
      if path.Some? && mode.Some? then
        var got := ClaimFile(db1, now, r, path, mode, Some(DEFAULT_CLAIM_TTL), true);
        if got.result.Err? then Outcome(got.db, Err(got.result.error))
        else Outcome(AfterEvent(got.db, now, r, next), Ok(()))
      else Outcome(AfterEvent(db1, now, r, next), Ok(()))
  }
}
