/**
 The lifecycle pass over all runs (`code_index/run_orchestrator.py`). The row lists that its
 queries return, in whatever order, are inputs constrained by `Lists`.
 */
module Orchestrator {
  import opened Options
  import opened AgentTables
  import opened Claims
  import opened AgentRuns
  import opened Swarm

  const CLAIM_LIMIT := 500
  const RUN_LIMIT := 100

  /** The rows of a query with a LIMIT: distinct, and all of them when they fit. */
  ghost predicate Lists<T(!new)>(rows: seq<T>, all: set<T>, limit: nat) {
    && (forall i, j :: 0 <= i < j < |rows| ==> rows[i] != rows[j])
    && (forall x :: x in rows ==> x in all)
    && |rows| == if |all| <= limit then |all| else limit
  }

  function ActiveRuns(db: Db): set<RunId> {
    set r | r in db.runs && LiveRun(db, r)
  }

  function LiveClaims(db: Db, now: int): set<ClaimKey> {
    set k | k in db.claims && LiveClaim(db, now, k)
  }

  /** The claims that are due at the pass's own time `at`. */
  predicate Due(db: Db, at: int, k: ClaimKey) {
    k in db.claims && db.claims[k].expires.Some? && db.claims[k].expires.value <= at
  }

  /** The first loop of `apply`; `seen` are the tables at the time of its query. */
  function ExpireDue(db: Db, seen: Db, now: int, at: int, rows: seq<ClaimKey>): Db
    decreases |rows|
  {
    if rows == [] then db
    else
      var next := if Due(seen, at, rows[0]) then ReleaseClaims(db, now, rows[0].run, Some(rows[0].path), None, AsExpired).db else db;
      ExpireDue(next, seen, now, at, rows[1..])
  }

  /** `classify_run` answers "orphaned". */
  predicate Orphaned(db: Db, r: RunId, dead: set<RunId>) {
    && r in db.runs
    && !Stopped(db.runs[r].status)
    && !db.runs[r].status.Blocked?
    && !HasActiveBlocker(db, r)
    && r in dead
  }

  predicate HoldsNone(held: seq<ClaimKey>, r: RunId) {
    forall k :: k in held ==> k.run != r
  }

  ghost function ToReview(db: Db, now: int, r: RunId): Db {
    RecordEvent(EndRun(db, now, r, InReview).db, now, r, Some(StatusEvent), None, Some(InReview)).db
  }

  /** The second loop of `apply`. */
  ghost function MoveDead(db: Db, seen: Db, now: int, dead: set<RunId>, held: seq<ClaimKey>, rows: seq<RunId>): Db
    decreases |rows|
  {
    if rows == [] then db
    else
      var next := if Orphaned(seen, rows[0], dead) && HoldsNone(held, rows[0]) then ToReview(db, now, rows[0]) else db;
      MoveDead(next, seen, now, dead, held, rows[1..])
  }

  predicate ReadyParent(db: Db, seen: Db, r: RunId) {
    && r in seen.runs
    && IsSwarmParent(seen.runs[r])
    && (seen.runs[r].status.Queued? || seen.runs[r].status.Ready?)
    && !HasActiveBlocker(db, r)
    && ChildRuns(db, r) == {}
  }

  /** `_materialize_ready_swarm_parents`; a parent that fails is reported and skipped. */
  ghost function MaterializeReady(db: Db, seen: Db, now: int, rows: seq<RunId>, ids: RunId -> nat -> RunId): Db
    decreases |rows|
  {
    if rows == [] then db
    else
      var next := if ReadyParent(db, seen, rows[0]) then Materialize(db, now, rows[0], ids(rows[0])).db else db;
      MaterializeReady(next, seen, now, rows[1..], ids)
  }

  /** `_reconcile_active_swarm_parents`. */
  ghost function ReconcileAll(db: Db, seen: Db, now: int, rows: seq<RunId>): Db
    decreases |rows|
  {
    if rows == [] then db
    else
      var next := if rows[0] in seen.runs && IsSwarmParent(seen.runs[rows[0]]) then Reconcile(db, now, rows[0]).db else db;
      ReconcileAll(next, seen, now, rows[1..])
  }

  /** The five row lists one pass reads, in order. */
  datatype Listing = Listing(
    due: seq<ClaimKey>, held: seq<ClaimKey>, active: seq<RunId>, ready: seq<RunId>, parents: seq<RunId>)

  function AfterExpiry(db: Db, now: int, at: int, l: Listing): Db {
    var seen := ExpireStale(db, now, None);
    ExpireStale(ExpireDue(seen, seen, now, at, l.due), now, None)
  }

  ghost function AfterDeadRule(db: Db, now: int, at: int, dead: set<RunId>, l: Listing): Db {
    var a := AfterExpiry(db, now, at, l);
    MoveDead(a, a, now, dead, l.held, l.active)
  }

  ghost function AfterMaterialize(db: Db, now: int, at: int, dead: set<RunId>, l: Listing, ids: RunId -> nat -> RunId): Db {
    var b := AfterDeadRule(db, now, at, dead, l);
    MaterializeReady(b, b, now, l.ready, ids)
  }

  /** `apply`, up to the report it builds. */
  ghost function Pass(db: Db, now: int, at: int, dead: set<RunId>, l: Listing, ids: RunId -> nat -> RunId): Db {
    var c := AfterMaterialize(db, now, at, dead, l, ids);
    ReconcileAll(c, c, now, l.parents)
  }

  /** The lists are what the pass's own queries return. */
  ghost predicate ValidListing(db: Db, now: int, at: int, dead: set<RunId>, l: Listing, ids: RunId -> nat -> RunId) {
    && Lists(l.due, LiveClaims(ExpireStale(db, now, None), now), CLAIM_LIMIT)
    && Lists(l.held, LiveClaims(AfterExpiry(db, now, at, l), now), CLAIM_LIMIT)
    && Lists(l.active, ActiveRuns(AfterExpiry(db, now, at, l)), RUN_LIMIT)
    && Lists(l.ready, ActiveRuns(AfterDeadRule(db, now, at, dead, l)), RUN_LIMIT)
    && Lists(l.parents, ActiveRuns(AfterMaterialize(db, now, at, dead, l, ids)), RUN_LIMIT)
  }
}
