/**
 How long a claim lasts over a whole run: what was given back stays dead, and no claim outlives its deadline unless its own
 run prolongs it.
 */
module ClaimLifetimes {
  import opened Options
  import opened AgentTables
  import opened Claims
  import opened ClaimLaws
  import opened ClaimEffects
  import opened AgentRuns
  import opened AgentRunLaws
  import opened RunEffects
  import opened Swarm
  import opened SwarmLaws
  import opened Orchestrator
  import opened OrchestratorLaws
  import opened ProtocolRuns
  import opened FenceGrants
  import opened SwarmRuns

  /* ---- returned leases ---- */

  /** A successful release ends the row at once. */
  lemma ReturnEnds(s: State, step: Step)
    requires step.ReturnStep? && ReleaseLease(s.db, s.now, step.key, step.token, step.how).result.Ok?
    ensures Accepts(s, step.key, step.token)
    ensures var n := Next(s, step);
            && step.key in n.db.claims
            && !Current(n.db.claims[step.key], n.now)
            && n.db.claims[step.key].token == None
  {
    ReleaseLeaseEffect(s.db, s.now, step.key, step.token, step.how);
  }

  /** Over every run: after a `release_lease` that succeeded, the row is not current, and no later call accepts the token. */
  lemma ReturnedTokenIsDead(t: Trace, i: nat, n: nat)
    requires IsTrace(t) && i < n < |t.states| && t.states[0].db == EMPTY && TokensDiffer(t)
    requires t.steps[i].ReturnStep?
    requires var r := t.steps[i];
             ReleaseLease(t.states[i].db, t.states[i].now, r.key, r.token, r.how).result.Ok?
    ensures var k := t.steps[i].key;
            && k in t.states[i + 1].db.claims && !Current(t.states[i + 1].db.claims[k], t.states[i + 1].now)
            && !Accepts(t.states[n], k, t.steps[i].token)
  {
    var k, token := t.steps[i].key, t.steps[i].token;
    assert StepAt(t, i);
    ReturnEnds(t.states[i], t.steps[i]);
    AcceptedTokenIsLatest(t, i, k, token);
    LostTokenNeverWorks(t, LatestLease(t, i, k).value, i + 1, n, k, token);
  }

  /* ---- deadlines ---- */

  /** If the row is active later, it was so before, with the same deadline. */
  ghost predicate NotProlonged(a: Db, b: Db, k: ClaimKey) {
    k in a.claims && k in b.claims
    && (b.claims[k].status == Active ==> a.claims[k].status == Active && b.claims[k].expires == a.claims[k].expires)
  }

  lemma NotProlongedTransitive(a: Db, b: Db, c: Db, k: ClaimKey)
    requires NotProlonged(a, b, k) && NotProlonged(b, c, k)
    ensures NotProlonged(a, c, k)
  {
  }

  /** The calls by which a claim can get a new deadline: its run claims or leases it again, beats it, or renews it. */
  predicate Prolongs(step: Step, k: ClaimKey) {
    match step
    case ClaimStep(r, path, mode, _) => r == k.run && path == Some(k.path) && mode == Some(k.mode)
    case LeaseStep(r, path, mode, _, _) => r == k.run && path == Some(k.path) && mode == Some(k.mode)
    case BeatStep(r, path, mode, _) => path == Some(k.path) && BeatReaches(k, r, k.path, mode)
    case EventStep(r, e, path, _) => r == k.run && path == Some(k.path) && e.Some? && EventMode(e.value) == Some(k.mode)
    case RenewStep(key, _, _, _) => key == k
    case _ => false
  }

  lemma ClaimFileProlongsOnly(db: Db, now: int, r: RunId, path: Option<Path>, mode: Option<Mode>, ttl: Option<int>, k: ClaimKey)
    requires k in db.claims && !(r == k.run && path == Some(k.path) && mode == Some(k.mode))
    ensures NotProlonged(db, ClaimFile(db, now, r, path, mode, ttl, true).db, k)
  {
    ClaimFileIff(db, now, r, path, mode, ttl);
    if ClaimFile(db, now, r, path, mode, ttl, true).result.Ok? {
      ClaimFileEffect(db, now, r, path.value, mode.value, ttl);
    } else {
      ClaimFileRefused(db, now, r, path, mode, ttl);
    }
  }

  lemma CreateLeaseProlongsOnly(db: Db, now: int, r: RunId, path: Option<Path>, mode: Option<Mode>, ttl: Option<int>,
                                token: Token, k: ClaimKey)
    requires k in db.claims && !(r == k.run && path == Some(k.path) && mode == Some(k.mode))
    ensures NotProlonged(db, CreateLease(db, now, r, path, mode, ttl, token).db, k)
  {
    ClaimFileIff(db, now, r, path, mode, ttl);
    CreateLeaseIff(db, now, r, path, mode, ttl, token);
    if CreateLease(db, now, r, path, mode, ttl, token).result.Ok? {
      CreateLeaseEffect(db, now, r, path.value, mode.value, ttl, token);
    }
  }

  lemma ReleaseProlongsNone(db: Db, now: int, r: RunId, path: Option<Path>, mode: Option<Mode>, how: ReleaseAs, k: ClaimKey)
    requires k in db.claims
    ensures NotProlonged(db, ReleaseClaims(db, now, r, path, mode, how).db, k)
  {
    ReleaseClaimsEffect(db, now, r, path, mode, how);
  }

  lemma EndRunProlongsNone(db: Db, now: int, r: RunId, status: RunStatus, k: ClaimKey)
    requires k in db.claims
    ensures NotProlonged(db, EndRun(db, now, r, status).db, k)
  {
    EndRunEffect(db, now, r, status);
  }

  lemma EventProlongsOnly(db: Db, now: int, r: RunId, e: Option<EventType>, path: Option<Path>, payload: Option<RunStatus>,
                          k: ClaimKey)
    requires k in db.claims
    requires !(r == k.run && path == Some(k.path) && e.Some? && EventMode(e.value) == Some(k.mode))
    ensures NotProlonged(db, RecordEvent(db, now, r, e, path, payload).db, k)
  {
    if e == None || r !in db.runs {
      EventRefused(db, now, r, e, path, payload);
    } else if e == Some(StatusEvent) {
      StatusEventEffect(db, now, r, path, payload);
    } else {
      WorkEventEffect(db, now, r, e.value, path, payload);
      var works := e.value != OtherEvent && db.runs[r].status !in {Completed, Failed, Cancelled, InReview};
      var mid := if works then db.(runs := db.runs[r := Run(Working, db.runs[r].archived, db.runs[r].meta)]) else db;
      ClaimFileProlongsOnly(mid, now, r, path, EventMode(e.value), Some(1800), k);
    }
  }

  lemma ToReviewProlongsNone(db: Db, now: int, r: RunId, k: ClaimKey)
    requires k in db.claims
    ensures NotProlonged(db, ToReview(db, now, r), k)
  {
    EndRunProlongsNone(db, now, r, InReview, k);
    EventProlongsOnly(EndRun(db, now, r, InReview).db, now, r, Some(StatusEvent), None, Some(InReview), k);
  }

  lemma ReconcileProlongsNone(db: Db, now: int, p: RunId, k: ClaimKey)
    requires k in db.claims
    ensures NotProlonged(db, Reconcile(db, now, p).db, k)
  {
    ToReviewProlongsNone(db, now, p, k);
  }

  /* children are new runs, so their claims are not those of `k` */

  lemma {:induction false} ClaimAllProlongsOnly(db: Db, now: int, r: RunId, paths: seq<Path>, mode: Option<Mode>,
                                                ttl: Option<int>, k: ClaimKey)
    requires k in db.claims && r != k.run
    ensures NotProlonged(db, ClaimAll(db, now, r, paths, mode, ttl).db, k)
    decreases |paths|
  {
    if paths != [] {
      var got := ClaimFile(db, now, r, Some(paths[0]), mode, ttl, true);
      ClaimFileProlongsOnly(db, now, r, Some(paths[0]), mode, ttl, k);
      if got.result.Ok? {
        ClaimAllProlongsOnly(got.db, now, r, paths[1..], mode, ttl, k);
      }
    }
  }

  lemma CreateChildProlongsNone(db: Db, now: int, r: RunId, meta: Meta, mode: Option<Mode>, k: ClaimKey)
    requires k in db.claims && k.run in db.runs
    ensures NotProlonged(db, CreateChild(db, now, r, meta, mode).db, k)
    ensures k.run in CreateChild(db, now, r, meta, mode).db.runs
  {
    if r !in db.runs {
      StartedChild(db, now, r, meta, mode);
      var started := db.(runs := db.runs[r := Run(Queued, false, meta)]);
      ClaimAllProlongsOnly(started, now, r, meta.paths, mode, Some(DEFAULT_CLAIM_TTL), k);
      ClaimAllSound(started, now, r, meta.paths, mode, Some(DEFAULT_CLAIM_TTL));
    }
  }

  lemma {:induction false} CreateChildrenProlongNone(db: Db, now: int, meta: Meta, roles: seq<Role>, ids: nat -> RunId,
                                                     i: nat, k: ClaimKey)
    requires i <= |roles| && k in db.claims && k.run in db.runs
    ensures NotProlonged(db, CreateChildren(db, now, meta, roles, ids, i).db, k)
    decreases |roles| - i
  {
    if i < |roles| {
      var one := CreateChild(db, now, ids(i), meta, roles[i].mode);
      CreateChildProlongsNone(db, now, ids(i), meta, roles[i].mode, k);
      if one.result.Ok? {
        CreateChildrenProlongNone(one.db, now, meta, roles, ids, i + 1, k);
      }
    }
  }

  lemma MaterializeProlongsNone(db: Db, now: int, p: RunId, ids: nat -> RunId, k: ClaimKey)
    requires k in db.claims && k.run in db.runs
    ensures NotProlonged(db, Materialize(db, now, p, ids).db, k)
    ensures k.run in Materialize(db, now, p, ids).db.runs
  {
    if p in db.runs && MaterializeRefusal(db, p).None? {
      var roles := ResumeRoles(db.runs[p].meta);
      var meta := ChildMeta(p, db.runs[p].meta, |roles|);
      MaterializeShape(db, now, p, ids);
      CreateChildrenProlongNone(db, now, meta, roles, ids, 0, k);
      CreateChildrenSound(db, now, meta, roles, ids, 0);
    }
  }

  lemma {:induction false} MaterializeReadyProlongsNone(
      db: Db, seen: Db, now: int, rows: seq<RunId>, ids: RunId -> nat -> RunId, k: ClaimKey)
    requires k in db.claims && k.run in db.runs
    ensures NotProlonged(db, MaterializeReady(db, seen, now, rows, ids), k)
    decreases |rows|
  {
    if rows != [] {
      var next := if ReadyParent(db, seen, rows[0]) then Materialize(db, now, rows[0], ids(rows[0])).db else db;
      MaterializeProlongsNone(db, now, rows[0], ids(rows[0]), k);
      MaterializeReadyProlongsNone(next, seen, now, rows[1..], ids, k);
    }
  }

  lemma {:induction false} ReconcileAllProlongsNone(db: Db, seen: Db, now: int, rows: seq<RunId>, k: ClaimKey)
    requires k in db.claims
    ensures NotProlonged(db, ReconcileAll(db, seen, now, rows), k)
    decreases |rows|
  {
    if rows != [] {
      var next := if rows[0] in seen.runs && IsSwarmParent(seen.runs[rows[0]]) then Reconcile(db, now, rows[0]).db else db;
      ReconcileProlongsNone(db, now, rows[0], k);
      ReconcileAllProlongsNone(next, seen, now, rows[1..], k);
    }
  }

  lemma {:induction false} ExpireDueProlongsNone(db: Db, seen: Db, now: int, at: int, rows: seq<ClaimKey>, k: ClaimKey)
    requires k in db.claims
    ensures NotProlonged(db, ExpireDue(db, seen, now, at, rows), k)
    decreases |rows|
  {
    if rows != [] {
      var next := if Due(seen, at, rows[0]) then ReleaseClaims(db, now, rows[0].run, Some(rows[0].path), None, AsExpired).db else db;
      ReleaseProlongsNone(db, now, rows[0].run, Some(rows[0].path), None, AsExpired, k);
      ExpireDueProlongsNone(next, seen, now, at, rows[1..], k);
    }
  }

  lemma {:induction false} MoveDeadProlongsNone(
      db: Db, seen: Db, now: int, dead: set<RunId>, held: seq<ClaimKey>, rows: seq<RunId>, k: ClaimKey)
    requires k in db.claims
    ensures NotProlonged(db, MoveDead(db, seen, now, dead, held, rows), k)
    decreases |rows|
  {
    if rows != [] {
      var next := if Orphaned(seen, rows[0], dead) && HoldsNone(held, rows[0]) then ToReview(db, now, rows[0]) else db;
      ToReviewProlongsNone(db, now, rows[0], k);
      MoveDeadProlongsNone(next, seen, now, dead, held, rows[1..], k);
    }
  }

  lemma PassProlongsNone(db: Db, now: int, at: int, dead: set<RunId>, l: Listing, ids: RunId -> nat -> RunId, k: ClaimKey)
    requires k in db.claims && k.run in db.runs
    ensures NotProlonged(db, Pass(db, now, at, dead, l, ids), k)
  {
    var seen := ExpireStale(db, now, None);
    var due := ExpireDue(seen, seen, now, at, l.due);
    var a, b := AfterExpiry(db, now, at, l), AfterDeadRule(db, now, at, dead, l);
    ExpireStaleSweeps(db, now);
    ExpireDueProlongsNone(seen, seen, now, at, l.due, k);
    ExpireStaleSweeps(due, now);
    NotProlongedTransitive(db, due, a, k);
    MoveDeadProlongsNone(a, a, now, dead, l.held, l.active, k);
    NotProlongedTransitive(db, a, b, k);
    BeforeMaterialize(db, now, at, dead, l);
    MaterializeReadyProlongsNone(b, b, now, l.ready, ids, k);
    var c := AfterMaterialize(db, now, at, dead, l, ids);
    NotProlongedTransitive(db, b, c, k);
    ReconcileAllProlongsNone(c, c, now, l.parents, k);
    NotProlongedTransitive(db, c, Pass(db, now, at, dead, l, ids), k);
  }

  lemma LeaseStepProlongsOnly(s: State, step: Step, k: ClaimKey)
    requires LeaseOrClock(step) && k in s.db.claims && !Prolongs(step, k)
    ensures NotProlonged(s.db, Call(s.db, s.now, step), k)
  {
    match step
    case BeatStep(r, path, mode, ttl) => HeartbeatEffect(s.db, s.now, r, path, mode, ttl);
    case LeaseStep(r, path, mode, ttl, token) => CreateLeaseProlongsOnly(s.db, s.now, r, path, mode, ttl, token, k);
    case RenewStep(key, token, fence, ttl) => RenewProlongsOnly(s.db, s.now, key, token, fence, ttl, k);
    case ReturnStep(key, token, how) => ReturnProlongsNone(s.db, s.now, key, token, how, k);
    case SweepStep(only) =>
    case TickStep(_) =>
  }

  lemma RenewProlongsOnly(db: Db, now: int, key: ClaimKey, token: Token, fence: Option<int>, ttl: Option<int>, k: ClaimKey)
    requires k in db.claims && key != k
    ensures NotProlonged(db, RenewLease(db, now, key, token, fence, ttl).db, k)
  {
  }

  lemma ReturnProlongsNone(db: Db, now: int, key: ClaimKey, token: Token, how: ReleaseAs, k: ClaimKey)
    requires k in db.claims
    ensures NotProlonged(db, ReleaseLease(db, now, key, token, how).db, k)
  {
  }

  lemma StepProlongsOnly(s: State, step: Step, k: ClaimKey)
    requires WellFormed(s.db) && k in s.db.claims && !Prolongs(step, k)
    ensures NotProlonged(s.db, Call(s.db, s.now, step), k)
  {
    if LeaseOrClock(step) {
      LeaseStepProlongsOnly(s, step, k);
    } else if step.MaterializeStep? {
      MaterializeProlongsNone(s.db, s.now, step.run, step.ids, k);
    } else if step.ReconcileStep? {
      ReconcileProlongsNone(s.db, s.now, step.run, k);
    } else if step.PassStep? {
      PassProlongsNone(s.db, s.now, step.at, step.dead, step.listing, step.childIds, k);
    } else {
      RunStepProlongsOnly(s, step, k);
    }
  }

  lemma RunStepProlongsOnly(s: State, step: Step, k: ClaimKey)
    requires k in s.db.claims && !Prolongs(step, k)
    requires !LeaseOrClock(step) && !step.MaterializeStep? && !step.ReconcileStep? && !step.PassStep?
    ensures NotProlonged(s.db, Call(s.db, s.now, step), k)
  {
    match step
    case StartStep(_, _, _) =>
    case ClaimStep(r, path, mode, ttl) => ClaimFileProlongsOnly(s.db, s.now, r, path, mode, ttl, k);
    case GiveUpStep(r, path, mode, how) => ReleaseProlongsNone(s.db, s.now, r, path, mode, how, k);
    case EndStep(r, status) => EndRunProlongsNone(s.db, s.now, r, status, k);
    case ArchiveStep(r) => ReleaseProlongsNone(s.db, s.now, r, None, None, AsReleased, k);
    case EventStep(r, e, path, payload) => EventProlongsOnly(s.db, s.now, r, e, path, payload, k);
    case BlockStep(r, blockers) => PutLinksSameClaims(s.db, r, blockers);
  }

  lemma {:induction false} NotProlongedOverRun(t: Trace, i: nat, n: nat, k: ClaimKey)
    requires IsTrace(t) && i <= n < |t.states| && WellFormed(t.states[0].db) && k in t.states[i].db.claims
    requires forall j: nat | i <= j < n :: !Prolongs(t.steps[j], k)
    ensures NotProlonged(t.states[i].db, t.states[n].db, k)
    decreases n - i
  {
    if i < n {
      NotProlongedOverRun(t, i, n - 1, k);
      TraceGrows(t, 0, n - 1);
      assert StepAt(t, n - 1);
      StepProlongsOnly(t.states[n - 1], t.steps[n - 1], k);
      NotProlongedTransitive(t.states[i].db, t.states[n - 1].db, t.states[n].db, k);
    }
  }

  /**
   Over every run: a claim is not current after its deadline, whatever the other runs and the orchestrator do, unless its
   own run has claimed, leased, renewed or beaten it meanwhile.
   */
  lemma NothingOutlivesItsDeadline(t: Trace, i: nat, n: nat, k: ClaimKey)
    requires IsTrace(t) && i <= n < |t.states| && WellFormed(t.states[0].db) && k in t.states[i].db.claims
    requires forall j: nat | i <= j < n :: !Prolongs(t.steps[j], k)
    requires t.states[i].db.claims[k].expires.Some? && t.states[n].now > t.states[i].db.claims[k].expires.value
    ensures k in t.states[n].db.claims && !Current(t.states[n].db.claims[k], t.states[n].now)
  {
    NotProlongedOverRun(t, i, n, k);
  }

  /** So a claim made with a positive time to live, over no held lease, is gone once that time has passed. */
  lemma ClaimLastsItsTime(t: Trace, i: nat, n: nat, r: RunId, path: Path, mode: Mode, ttl: int)
    requires IsTrace(t) && i < n < |t.states| && WellFormed(t.states[0].db)
    requires t.steps[i] == ClaimStep(r, Some(path), Some(mode), Some(ttl)) && ttl > 0
    requires var s := t.states[i];
             && ClaimFile(s.db, s.now, r, Some(path), Some(mode), Some(ttl), true).result.Ok?
             && !IsHeldLease(s.db, s.now, ClaimKey(r, path, mode))
    requires forall j: nat | i < j < n :: !Prolongs(t.steps[j], ClaimKey(r, path, mode))
    ensures var k := ClaimKey(r, path, mode);
            && k in t.states[i + 1].db.claims && Current(t.states[i + 1].db.claims[k], t.states[i].now + ttl)
            && (t.states[n].now > t.states[i].now + ttl ==>
                  k in t.states[n].db.claims && !Current(t.states[n].db.claims[k], t.states[n].now))
  {
    assert StepAt(t, i);
    ClaimFileEffect(t.states[i].db, t.states[i].now, r, path, mode, Some(ttl));
    if t.states[n].now > t.states[i].now + ttl {
      NothingOutlivesItsDeadline(t, i + 1, n, ClaimKey(r, path, mode));
    }
  }

  /* ---- the claims of children ---- */

  /** The run has no lease, so that claiming again sets a new deadline. */
  predicate NoLeases(db: Db, r: RunId) {
    forall k | k in db.claims && k.run == r :: db.claims[k].kind == PlainClaim
  }

  lemma ClaimKeepsNoLeases(db: Db, now: int, r: RunId, path: Path, mode: Mode, ttl: Option<int>)
    requires NoLeases(db, r) && ClaimFile(db, now, r, Some(path), Some(mode), ttl, true).result.Ok?
    ensures var b, k := ClaimFile(db, now, r, Some(path), Some(mode), ttl, true).db, ClaimKey(r, path, mode);
            && NoLeases(b, r) && k in b.claims
            && b.claims[k].expires == if ttl.Some? && ttl.value > 0 then Some(now + ttl.value) else None
  {
    ClaimFileEffect(db, now, r, path, mode, ttl);
  }

  /** The claims that `claim_files` makes have the deadline of its time to live, as far as they are active in the end. */
  lemma {:induction false} ClaimAllDeadline(db: Db, now: int, r: RunId, paths: seq<Path>, mode: Mode, ttl: Option<int>,
                                            path: Path)
    requires NoLeases(db, r) && ClaimAll(db, now, r, paths, Some(mode), ttl).result.Ok? && path in paths
    ensures var b, k := ClaimAll(db, now, r, paths, Some(mode), ttl).db, ClaimKey(r, path, mode);
            && k in b.claims
            && (b.claims[k].status == Active ==>
                  b.claims[k].expires == if ttl.Some? && ttl.value > 0 then Some(now + ttl.value) else None)
    decreases |paths|
  {
    var got := ClaimFile(db, now, r, Some(paths[0]), Some(mode), ttl, true);
    ClaimKeepsNoLeases(db, now, r, paths[0], mode, ttl);
    if path in paths[1..] {
      ClaimAllDeadline(got.db, now, r, paths[1..], mode, ttl, path);
    } else {
      ClaimAllOtherPaths(got.db, now, r, paths[1..], mode, ttl, path);
    }
  }

  lemma {:induction false} ClaimAllOtherPaths(db: Db, now: int, r: RunId, paths: seq<Path>, mode: Mode, ttl: Option<int>,
                                              path: Path)
    requires ClaimKey(r, path, mode) in db.claims && path !in paths
    ensures NotProlonged(db, ClaimAll(db, now, r, paths, Some(mode), ttl).db, ClaimKey(r, path, mode))
    decreases |paths|
  {
    if paths != [] {
      var got := ClaimFile(db, now, r, Some(paths[0]), Some(mode), ttl, true);
      ClaimFileProlongsOnly(db, now, r, Some(paths[0]), Some(mode), ttl, ClaimKey(r, path, mode));
      if got.result.Ok? {
        ClaimAllOtherPaths(got.db, now, r, paths[1..], mode, ttl, path);
      }
    }
  }

  lemma {:induction false} CreateChildrenDeadline(db: Db, now: int, meta: Meta, roles: seq<Role>, ids: nat -> RunId, i: nat,
                                                  c: nat, path: Path)
    requires WellFormed(db) && i <= c < |roles| && path in meta.paths && roles[c].mode.Some?
    requires CreateChildren(db, now, meta, roles, ids, i).result.Ok?
    ensures var b, k := CreateChildren(db, now, meta, roles, ids, i).db, ClaimKey(ids(c), path, roles[c].mode.value);
            k in b.claims && (b.claims[k].status == Active ==> b.claims[k].expires == Some(now + 1800))
    decreases |roles| - i
  {
    var one := CreateChild(db, now, ids(i), meta, roles[i].mode);
    CreateChildOnLive(db, now, ids(i), meta, roles[i].mode);
    CreateChildSound(db, now, ids(i), meta, roles[i].mode);
    if i < c {
      CreateChildrenDeadline(one.db, now, meta, roles, ids, i + 1, c, path);
    } else {
      CreateChildDeadline(db, now, ids(i), meta, roles[i].mode.value, path);
      CreateChildrenProlongNone(one.db, now, meta, roles, ids, i + 1, ClaimKey(ids(i), path, roles[i].mode.value));
    }
  }

  lemma CreateChildDeadline(db: Db, now: int, r: RunId, meta: Meta, mode: Mode, path: Path)
    requires WellFormed(db) && r !in db.runs && path in meta.paths
    requires CreateChild(db, now, r, meta, Some(mode)).result.Ok?
    ensures var b, k := CreateChild(db, now, r, meta, Some(mode)).db, ClaimKey(r, path, mode);
            k in b.claims && (b.claims[k].status == Active ==> b.claims[k].expires == Some(now + 1800))
  {
    StartedChild(db, now, r, meta, Some(mode));
    var started := db.(runs := db.runs[r := Run(Queued, false, meta)]);
    assert NoLeases(started, r);
    ClaimAllDeadline(started, now, r, meta.paths, mode, Some(1800), path);
  }

  /** The claims of materialized children last for half an hour. */
  lemma MaterializedDeadlines(db: Db, now: int, p: RunId, ids: nat -> RunId, c: nat, path: Path)
    requires WellFormed(db) && p in db.runs && Materialize(db, now, p, ids).result == Ok(true)
    requires c < |ResumeRoles(db.runs[p].meta)| && path in db.runs[p].meta.paths
    ensures var b, role := Materialize(db, now, p, ids).db, ResumeRoles(db.runs[p].meta)[c];
            && role.mode.Some?
            && var k := ClaimKey(ids(c), path, role.mode.value);
               LiveClaim(b, now, k) && b.claims[k].expires == Some(now + 1800)
  {
    var roles := ResumeRoles(db.runs[p].meta);
    MaterializedWhole(db, now, p, ids);
    MaterializedShape(db, now, p, ids);
    CreateChildrenDeadline(db, now, ChildMeta(p, db.runs[p].meta, |roles|), roles, ids, 0, c, path);
  }
}
