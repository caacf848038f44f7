/**
 Swarm parents and their children (`code_index/agent_swarm.py`) as functions of the tables.
 `ids` stands for the random child run ids.
 */
module Swarm {
  import opened Options
  import opened AgentTables
  import opened Claims
  import opened AgentRuns

  predicate IsSwarmParent(run: Run) {
    run.meta.parent.None? && run.meta.lead
  }

  /** `child_runs`: the unarchived runs that name `p` as their parent. */
  function ChildRuns(db: Db, p: RunId): set<RunId> {
    set r | r in db.runs && db.runs[r].meta.parent == Some(p) && !db.runs[r].archived
  }

  function ExpectedChildren(meta: Meta): nat {
    if meta.childCount > 0 then meta.childCount
    else if meta.roles != [] then |meta.roles|
    else meta.size
  }

  /** DEFAULT_ROLES, then custom roles, whose claim mode is "review". */
  function DefaultRole(index: nat): Role {
    Role(true, Some(
      if index == 0 || index == 2 then ReadMode
      else if index == 1 then EditMode
      else if index == 3 then TestMode
      else ReviewMode))
  }

  function NamedRoles(roles: seq<Role>): seq<Role> {
    if roles == [] then []
    else (if roles[0].named then [roles[0]] else []) + NamedRoles(roles[1..])
  }

  /** `_roles_for_resume`. */
  function ResumeRoles(meta: Meta): seq<Role> {
    if meta.roles != [] then NamedRoles(meta.roles)
    else seq(ExpectedChildren(meta), i requires i >= 0 => DefaultRole(i))
  }

  /** `claim_files`: one claim after the other, stopping at the first that fails. */
  ghost function ClaimAll(db: Db, now: int, r: RunId, paths: seq<Path>, mode: Option<Mode>, ttl: Option<int>): Outcome<()>
    decreases |paths|
  {
    if paths == [] then Outcome(db, Ok(()))
    else
      var got := ClaimFile(db, now, r, Some(paths[0]), mode, ttl, true);
      if got.result.Err? then Outcome(got.db, Err(got.result.error))
      else ClaimAll(got.db, now, r, paths[1..], mode, ttl)
  }

  function ChildMeta(p: RunId, parent: Meta, total: nat): Meta {
    Meta(Some(p), false, false, 0, [], total, parent.paths)
  }

  /** One child: the queued run, its task event, and its claims on the selected paths. */
  ghost function CreateChild(db: Db, now: int, r: RunId, meta: Meta, mode: Option<Mode>): Outcome<()> {
    var started := StartRun(db, r, Queued, meta);
    if started.result.Err? then started
    else
      var told := RecordEvent(started.db, now, r, Some(OtherEvent), None, Some(Queued));
      if told.result.Err? then told
      else ClaimAll(told.db, now, r, meta.paths, mode, Some(DEFAULT_CLAIM_TTL))
  }

  /** The children from role `i` on, stopping at the first failure. */
  ghost function CreateChildren(db: Db, now: int, meta: Meta, roles: seq<Role>, ids: nat -> RunId, i: nat): Outcome<()>
    requires i <= |roles|
    decreases |roles| - i
  {
    if i == |roles| then Outcome(db, Ok(()))
    else
      var one := CreateChild(db, now, ids(i), meta, roles[i].mode);
      if one.result.Err? then one
      else CreateChildren(one.db, now, meta, roles, ids, i + 1)
  }

  /** `_mark_children_materialized`: an UPDATE, which touches no row when the run is missing. */
  function MarkMaterialized(db: Db, p: RunId): Db {
    if p !in db.runs then db
    else db.(runs := db.runs[p := db.runs[p].(status := Working, meta := db.runs[p].meta.(materialized := true))])
  }

  /** The reason `materialize_swarm_children` returns without creating anything. */
  function MaterializeRefusal(db: Db, p: RunId): Option<Error>
    requires p in db.runs
  {
    var run := db.runs[p];
    if !IsSwarmParent(run) then Some(NotSwarmParent)
    else if !run.status.Queued? && !run.status.Ready? then Some(ParentNotReady)
    else if HasActiveBlocker(db, p) then Some(ActiveBlockers)
    else if run.meta.materialized then Some(AlreadyMaterialized)
    else if ChildRuns(db, p) != {} then Some(ChildrenExist)
    else if ResumeRoles(run.meta) == [] then Some(MissingRoles)
    else None
  }

  /**
   `materialize_swarm_children`: an error rolls the transaction back. The value tells whether
   anything changed.
   */
  ghost function Materialize(db: Db, now: int, p: RunId, ids: nat -> RunId): Outcome<bool> {
    if p !in db.runs then Outcome(db, Err(UnknownRun))
    else if MaterializeRefusal(db, p).Some? then Outcome(db, Ok(false))
    else
      var roles := ResumeRoles(db.runs[p].meta);
      var made := CreateChildren(db, now, ChildMeta(p, db.runs[p].meta, |roles|), roles, ids, 0);
      if made.result.Err? then Outcome(db, Err(made.result.error))
      else
        var told := RecordEvent(MarkMaterialized(made.db, p), now, p, Some(StatusEvent), None, Some(Working));
        if told.result.Err? then Outcome(db, Err(told.result.error))
        else Outcome(told.db, Ok(true))
  }

  predicate AllStopped(db: Db, rs: set<RunId>) {
    forall r :: r in rs && r in db.runs ==> Stopped(db.runs[r].status)
  }

  /** Whether `reconcile_swarm_parent` moves the parent; the completion policy is always the default one. */
  predicate Reconciles(db: Db, p: RunId)
    requires p in db.runs
  {
    var children := ChildRuns(db, p);
    && IsSwarmParent(db.runs[p])
    && !(ExpectedChildren(db.runs[p].meta) > 0 && |children| < ExpectedChildren(db.runs[p].meta))
    && children != {}
    && !Stopped(db.runs[p].status)
    && AllStopped(db, children)
  }

  /** `reconcile_swarm_parent`. */
  ghost function Reconcile(db: Db, now: int, p: RunId): Outcome<bool> {
    if p !in db.runs then Outcome(db, Err(UnknownRun))
    else if !Reconciles(db, p) then Outcome(db, Ok(false))
    else
      var ended := EndRun(db, now, p, InReview);
      Outcome(RecordEvent(ended.db, now, p, Some(StatusEvent), None, Some(InReview)).db, Ok(true))
  }
}
