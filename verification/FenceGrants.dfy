/**
 Every write claim could write when it was granted: whatever call granted it, its fence verified for its run in the
 state that call left. So the fences in the tables are those of runs that were able to write.
 */
module FenceGrants {
  import opened Options
  import opened AgentTables
  import opened Claims
  import opened ClaimLaws
  import opened AgentRuns
  import opened AgentRunLaws
  import opened Swarm
  import opened SwarmLaws
  import opened Orchestrator
  import opened OrchestratorLaws
  import opened ProtocolRuns

  /** No other live run may write the path. */
  ghost predicate Alone(db: Db, now: int, k: ClaimKey) {
    forall o | o in db.claims :: !ForeignWriter(db, now, k.run, k.path, o)
  }

  lemma AloneVerifies(db: Db, now: int, k: ClaimKey)
    requires k in db.claims && k.run in db.runs && Writes(k.mode) && Current(db.claims[k], now) && Alone(db, now, k)
    ensures Verifies(State(db, now), k.run, k.path, db.claims[k].fence)
  {
    assert OwnWriteClaim(db, k.run, k.path, k);
  }

  /** A write row either had its fence before, or verifies with it now. */
  ghost predicate GrantVerifies(a: Db, n: State, k: ClaimKey) {
    k in n.db.claims && Writes(k.mode) ==>
      || (k in a.claims && a.claims[k].fence == n.db.claims[k].fence)
      || Verifies(n, k.run, k.path, n.db.claims[k].fence)
  }

  ghost predicate GrantsVerify(a: Db, n: State) {
    forall k: ClaimKey :: GrantVerifies(a, n, k)
  }

  /* ---- calls that grant nothing ---- */

  ghost predicate SameFences(a: Db, b: Db) {
    && b.claims.Keys == a.claims.Keys
    && forall k | k in a.claims :: b.claims[k].fence == a.claims[k].fence
  }

  lemma SameFencesTransitive(a: Db, b: Db, c: Db)
    requires SameFences(a, b) && SameFences(b, c)
    ensures SameFences(a, c)
  {
    forall k | k in a.claims
      ensures c.claims[k].fence == a.claims[k].fence
    {
      assert k in b.claims;
    }
  }

  lemma SameFencesVerify(a: Db, n: State)
    requires SameFences(a, n.db)
    ensures GrantsVerify(a, n)
  {
    forall k: ClaimKey
      ensures GrantVerifies(a, n, k)
    {
    }
  }

  lemma NarrowsSameFences(a: Db, b: Db, now: int)
    requires Narrows(a, b, now)
    ensures SameFences(a, b)
  {
    forall k | k in a.claims
      ensures b.claims[k].fence == a.claims[k].fence
    {
      assert RowStep(a.claims[k], b.claims[k], now);
    }
  }

  lemma ReleaseClaimsSameFences(db: Db, now: int, r: RunId, path: Option<Path>, mode: Option<Mode>, how: ReleaseAs)
    ensures SameFences(db, ReleaseClaims(db, now, r, path, mode, how).db)
  {
    ReleaseClaimsNarrows(db, now, r, path, mode, how);
    NarrowsSameFences(db, ReleaseClaims(db, now, r, path, mode, how).db, now);
  }

  lemma EndRunSameFences(db: Db, now: int, r: RunId, status: RunStatus)
    ensures SameFences(db, EndRun(db, now, r, status).db)
  {
    ReleaseClaimsSameFences(db, now, r, None, None, AsReleased);
  }

  lemma AfterEventSameFences(db: Db, now: int, r: RunId, next: Option<RunStatus>)
    ensures SameFences(db, AfterEvent(db, now, r, next))
  {
    ReleaseClaimsSameFences(db, now, r, None, None, AsReleased);
  }

  /** A status event claims nothing. */
  lemma StatusEventSameFences(db: Db, now: int, r: RunId, path: Option<Path>, payload: Option<RunStatus>)
    ensures SameFences(db, RecordEvent(db, now, r, Some(StatusEvent), path, payload).db)
  {
    if r in db.runs {
      var next := NextStatus(db.runs[r].status, StatusEvent, payload);
      RecordEventShape(db, now, r, StatusEvent, path, payload);
      AfterEventSameFences(WithStatus(db, r, next), now, r, next);
    }
  }

  lemma ToReviewSameFences(db: Db, now: int, r: RunId)
    ensures SameFences(db, ToReview(db, now, r))
  {
    var ended := EndRun(db, now, r, InReview).db;
    EndRunSameFences(db, now, r, InReview);
    StatusEventSameFences(ended, now, r, None, Some(InReview));
    SameFencesTransitive(db, ended, ToReview(db, now, r));
  }

  lemma {:induction false} PutLinksSameClaims(db: Db, run: RunId, blockers: seq<RunId>)
    ensures PutLinks(db, run, blockers).db.claims == db.claims
    decreases |blockers|
  {
    if blockers != [] && blockers[0] in db.runs {
      PutLinksSameClaims(PutLink(db, run, blockers[0]), run, blockers[1..]);
    }
  }

  /** The calls that can grant a claim. */
  predicate Grants(step: Step) {
    step.ClaimStep? || step.LeaseStep? || step.EventStep? || step.MaterializeStep? || step.PassStep?
  }

  lemma RunStepSameFences(s: State, step: Step)
    requires !Grants(step) && !LeaseOrClock(step)
    ensures SameFences(s.db, Call(s.db, s.now, step))
  {
    match step
    case StartStep(_, _, _) =>
    case GiveUpStep(r, path, mode, how) => ReleaseClaimsSameFences(s.db, s.now, r, path, mode, how);
    case EndStep(r, status) => EndRunSameFences(s.db, s.now, r, status);
    case ArchiveStep(r) => ReleaseClaimsSameFences(s.db, s.now, r, None, None, AsReleased);
    case BlockStep(r, blockers) => PutLinksSameClaims(s.db, r, blockers);
    case ReconcileStep(r) => ToReviewSameFences(s.db, s.now, r);
  }

  lemma LeaseStepSameFences(s: State, step: Step)
    requires !Grants(step) && LeaseOrClock(step)
    ensures SameFences(s.db, Call(s.db, s.now, step))
  {
    var b := Call(s.db, s.now, step);
    match step
    case BeatStep(_, _, _, _) =>
    case RenewStep(k, token, fence, ttl) =>
      RenewLeaseNarrows(s.db, s.now, k, token, fence, ttl);
      NarrowsSameFences(s.db, b, s.now);
    case ReturnStep(k, token, how) =>
      ReleaseLeaseNarrows(s.db, s.now, k, token, how);
      NarrowsSameFences(s.db, b, s.now);
    case SweepStep(only) =>
      ExpireStaleNarrows(s.db, s.now, only);
      NarrowsSameFences(s.db, b, s.now);
    case TickStep(_) =>
  }

  /* ---- one granted row ---- */

  /** A granted write claim stands alone: the conflict test has seen every other live writer of its path. */
  lemma UnconflictedIsAlone(db: Db, now: int, k: ClaimKey, row: Claim)
    requires Writes(k.mode) && !Conflicted(db, now, k)
    ensures Alone(PutRow(db, k, row), now, k)
  {
    var b := PutRow(db, k, row);
    forall o | o in b.claims
      ensures !ForeignWriter(b, now, k.run, k.path, o)
    {
      if ForeignWriter(b, now, k.run, k.path, o) {
        assert ConflictsWith(db, now, k, o);
      }
    }
  }

  lemma GrantAfterExpiryVerifies(db: Db, now: int, k: ClaimKey, ttl: Option<int>, token: Option<Token>)
    requires WellFormed(db) && k.run in db.runs && !Conflicted(ExpireStale(db, now, None), now, k)
    ensures var db1 := ExpireStale(db, now, None);
            GrantsVerify(db, State(PutRow(db1, k, GrantedAs(db1.claims, now, k, ttl, token)), now))
  {
    var db1 := ExpireStale(db, now, None);
    var row := GrantedAs(db1.claims, now, k, ttl, token);
    var b := PutRow(db1, k, row);
    ExpireStaleNarrows(db, now, None);
    NarrowsSameFences(db, db1, now);
    GrantIsCurrent(db, now, k, ttl, token);
    if Writes(k.mode) {
      UnconflictedIsAlone(db1, now, k, row);
      AloneVerifies(b, now, k);
    }
    forall j: ClaimKey
      ensures GrantVerifies(db, State(b, now), j)
    {
    }
  }

  lemma ClaimFileGrantVerifies(db: Db, now: int, r: RunId, path: Option<Path>, mode: Option<Mode>, ttl: Option<int>)
    requires WellFormed(db)
    ensures GrantsVerify(db, State(ClaimFile(db, now, r, path, mode, ttl, true).db, now))
  {
    var out := ClaimFile(db, now, r, path, mode, ttl, true);
    if out.result.Ok? {
      ClaimFileShape(db, now, r, path, mode, ttl);
      GrantAfterExpiryVerifies(db, now, out.result.value, ttl, None);
    } else {
      ExpireStaleNarrows(db, now, None);
      NarrowsSameFences(db, ExpireStale(db, now, None), now);
      SameFencesVerify(db, State(out.db, now));
    }
  }

  lemma CreateLeaseGrantVerifies(db: Db, now: int, r: RunId, path: Option<Path>, mode: Option<Mode>, ttl: Option<int>,
                                 token: Token)
    requires WellFormed(db)
    ensures GrantsVerify(db, State(CreateLease(db, now, r, path, mode, ttl, token).db, now))
  {
    var out := CreateLease(db, now, r, path, mode, ttl, token);
    if out.result.Ok? {
      var k := CreateLeaseShape(db, now, r, path, mode, ttl, token);
      GrantAfterExpiryVerifies(db, now, k, ttl, Some(token));
    } else {
      SameFencesVerify(db, State(out.db, now));
    }
  }

  /** Only a work event claims, and what follows its claim is nothing. */
  lemma EventGrantVerifies(db: Db, now: int, r: RunId, e: Option<EventType>, path: Option<Path>, payload: Option<RunStatus>)
    requires WellFormed(db)
    ensures GrantsVerify(db, State(RecordEvent(db, now, r, e, path, payload).db, now))
  {
    var b := RecordEvent(db, now, r, e, path, payload).db;
    if e.None? || r !in db.runs {
      SameFencesVerify(db, State(b, now));
    } else {
      var next := NextStatus(db.runs[r].status, e.value, payload);
      var mid := WithStatus(db, r, next);
      var mode := EventClaimMode(e.value);
      RecordEventShape(db, now, r, e.value, path, payload);
      if path.Some? && mode.Some? {
        var got := ClaimFile(mid, now, r, path, mode, Some(DEFAULT_CLAIM_TTL), true);
        ClaimFileGrantVerifies(mid, now, r, path, mode, Some(DEFAULT_CLAIM_TTL));
        assert b == got.db;
        SameRowsVerify(db, mid, State(b, now));
      } else {
        AfterEventSameFences(mid, now, r, next);
        SameFencesVerify(db, State(b, now));
      }
    }
  }

  lemma SameRowsVerify(a: Db, mid: Db, n: State)
    requires mid.claims == a.claims && GrantsVerify(mid, n)
    ensures GrantsVerify(a, n)
  {
    forall k: ClaimKey
      ensures GrantVerifies(a, n, k)
    {
      assert GrantVerifies(mid, n, k);
    }
  }

  /* ---- the claims of new children ---- */

  /**
   Since `base`, only new runs were granted write claims. The new runs are live and lead no swarm, and each of their
   write claims stands alone.
   */
  ghost predicate NewRunsWrite(base: Db, b: Db, now: int) {
    && base.runs.Keys <= b.runs.Keys
    && (forall r | r in b.runs && r !in base.runs :: LiveRun(b, r) && !IsSwarmParent(b.runs[r]))
    && (forall k | k in b.claims && Writes(k.mode) :: NewWriter(base, b, now, k))
  }

  ghost predicate NewWriter(base: Db, b: Db, now: int, k: ClaimKey)
    requires k in b.claims
  {
    if k.run in base.runs then k in base.claims && base.claims[k].fence == b.claims[k].fence
    else k.run in b.runs && Current(b.claims[k], now) && Alone(b, now, k)
  }

  lemma NothingNew(base: Db, now: int)
    requires WellFormed(base)
    ensures NewRunsWrite(base, base, now)
  {
  }

  lemma NewRunsVerify(base: Db, b: Db, now: int)
    requires NewRunsWrite(base, b, now)
    ensures GrantsVerify(base, State(b, now))
  {
    forall k: ClaimKey
      ensures GrantVerifies(base, State(b, now), k)
    {
      if k in b.claims && Writes(k.mode) {
        assert NewWriter(base, b, now, k);
        if k.run !in base.runs {
          AloneVerifies(b, now, k);
        }
      }
    }
  }

  /** Fewer live claims of others, and rows of new runs kept: the new write claims still stand alone. */
  lemma FewerForeign(base: Db, b: Db, c: Db, now: int)
    requires NewRunsWrite(base, b, now)
    requires c.claims.Keys == b.claims.Keys && c.runs.Keys == b.runs.Keys
    requires forall k | k in b.claims ::
               c.claims[k].fence == b.claims[k].fence && (k.run !in base.runs ==> c.claims[k] == b.claims[k])
    requires forall r | r in b.runs && r !in base.runs :: c.runs[r] == b.runs[r]
    requires forall k: ClaimKey :: LiveClaim(c, now, k) ==> LiveClaim(b, now, k)
    ensures NewRunsWrite(base, c, now)
  {
    forall k | k in c.claims && Writes(k.mode)
      ensures NewWriter(base, c, now, k)
    {
      assert NewWriter(base, b, now, k);
      if k.run !in base.runs {
        forall o | o in c.claims
          ensures !ForeignWriter(c, now, k.run, k.path, o)
        {
          assert !ForeignWriter(b, now, k.run, k.path, o);
        }
      }
    }
  }

  lemma ExpiryKeepsNew(base: Db, b: Db, now: int)
    requires NewRunsWrite(base, b, now) && WellFormed(b)
    ensures NewRunsWrite(base, ExpireStale(b, now, None), now)
  {
  }

  /** One claim of a new run. */
  lemma GrantKeepsNew(base: Db, b: Db, now: int, k: ClaimKey, row: Claim)
    requires NewRunsWrite(base, b, now) && k.run in b.runs && k.run !in base.runs
    requires Current(row, now) && !Conflicted(b, now, k)
    ensures NewRunsWrite(base, PutRow(b, k, row), now)
  {
    var c := PutRow(b, k, row);
    forall j | j in c.claims && Writes(j.mode)
      ensures NewWriter(base, c, now, j)
    {
      if j == k {
        UnconflictedIsAlone(b, now, k, row);
      } else {
        assert NewWriter(base, b, now, j);
        if j.run !in base.runs {
          StaysAlone(b, now, j, k, row);
        }
      }
    }
  }

  /** A claim granted beside a live write claim of another run does not write. */
  lemma StaysAlone(b: Db, now: int, j: ClaimKey, k: ClaimKey, row: Claim)
    requires j in b.claims && j != k && Writes(j.mode) && LiveClaim(b, now, j) && Alone(b, now, j)
    requires !Conflicted(b, now, k)
    ensures Alone(PutRow(b, k, row), now, j)
  {
    var c := PutRow(b, k, row);
    forall o | o in c.claims
      ensures !ForeignWriter(c, now, j.run, j.path, o)
    {
      if o == k {
        assert !ConflictsWith(b, now, k, j);
      } else {
        assert !ForeignWriter(b, now, j.run, j.path, o);
      }
    }
  }

  lemma ClaimFileKeepsNew(base: Db, b: Db, now: int, r: RunId, path: Option<Path>, mode: Option<Mode>, ttl: Option<int>)
    requires NewRunsWrite(base, b, now) && WellFormed(b) && r in b.runs && r !in base.runs
    ensures NewRunsWrite(base, ClaimFile(b, now, r, path, mode, ttl, true).db, now)
  {
    var out := ClaimFile(b, now, r, path, mode, ttl, true);
    var b1 := ExpireStale(b, now, None);
    ExpiryKeepsNew(base, b, now);
    ClaimFileShape(b, now, r, path, mode, ttl);
    if out.result.Ok? {
      var k := out.result.value;
      GrantIsCurrent(b, now, k, ttl, None);
      GrantKeepsNew(base, b1, now, k, GrantedAs(b1.claims, now, k, ttl, None));
    }
  }

  lemma GrantIsCurrent(b: Db, now: int, k: ClaimKey, ttl: Option<int>, token: Option<Token>)
    requires WellFormed(b)
    ensures Current(GrantedAs(ExpireStale(b, now, None).claims, now, k, ttl, token), now)
  {
    var b1 := ExpireStale(b, now, None);
    ExpireStaleNarrows(b, now, None);
    NarrowsKeeps(b, b1, now);
    GrantedRow(b1.claims, now, k, ttl, token);
  }

  lemma {:induction false} ClaimAllKeepsNew(base: Db, b: Db, now: int, r: RunId, paths: seq<Path>, mode: Option<Mode>,
                                            ttl: Option<int>)
    requires NewRunsWrite(base, b, now) && WellFormed(b) && r in b.runs && r !in base.runs
    ensures NewRunsWrite(base, ClaimAll(b, now, r, paths, mode, ttl).db, now)
    decreases |paths|
  {
    if paths != [] {
      var got := ClaimFile(b, now, r, Some(paths[0]), mode, ttl, true);
      ClaimFileKeepsNew(base, b, now, r, Some(paths[0]), mode, ttl);
      ClaimFileKeeps(b, now, r, Some(paths[0]), mode, ttl);
      if got.result.Ok? {
        ClaimAllKeepsNew(base, got.db, now, r, paths[1..], mode, ttl);
      }
    }
  }

  /** A run that was just started has no claims, so starting it disturbs none. */
  lemma StartKeepsNew(base: Db, b: Db, now: int, r: RunId, meta: Meta)
    requires NewRunsWrite(base, b, now) && WellFormed(b) && r !in b.runs && meta.parent.Some?
    ensures var c := b.(runs := b.runs[r := Run(Queued, false, meta)]);
            NewRunsWrite(base, c, now) && WellFormed(c)
  {
    var c := b.(runs := b.runs[r := Run(Queued, false, meta)]);
    StartingIsInvisible(b, now, r, meta);
    forall k | k in c.claims && Writes(k.mode)
      ensures NewWriter(base, c, now, k)
    {
      assert NewWriter(base, b, now, k);
      if k.run !in base.runs {
        forall o | o in c.claims
          ensures !ForeignWriter(c, now, k.run, k.path, o)
        {
          assert !ForeignWriter(b, now, k.run, k.path, o);
        }
      }
    }
  }

  lemma CreateChildKeepsNew(base: Db, b: Db, now: int, r: RunId, meta: Meta, mode: Option<Mode>)
    requires NewRunsWrite(base, b, now) && WellFormed(b) && meta.parent.Some?
    ensures NewRunsWrite(base, CreateChild(b, now, r, meta, mode).db, now)
  {
    if r !in b.runs {
      var started := b.(runs := b.runs[r := Run(Queued, false, meta)]);
      StartKeepsNew(base, b, now, r, meta);
      StartedChild(b, now, r, meta, mode);
      ClaimAllKeepsNew(base, started, now, r, meta.paths, mode, Some(DEFAULT_CLAIM_TTL));
    }
  }

  lemma {:induction false} CreateChildrenKeepNew(base: Db, b: Db, now: int, meta: Meta, roles: seq<Role>,
                                                 ids: nat -> RunId, i: nat)
    requires NewRunsWrite(base, b, now) && WellFormed(b) && meta.parent.Some? && i <= |roles|
    ensures NewRunsWrite(base, CreateChildren(b, now, meta, roles, ids, i).db, now)
    decreases |roles| - i
  {
    if i < |roles| {
      CreateChildKeepsNew(base, b, now, ids(i), meta, roles[i].mode);
      CreateChildSound(b, now, ids(i), meta, roles[i].mode);
      var one := CreateChild(b, now, ids(i), meta, roles[i].mode);
      if one.result.Ok? {
        CreateChildrenKeepNew(base, one.db, now, meta, roles, ids, i + 1);
      }
    }
  }

  /** The parent was live before it is marked, and it leads a swarm, so it is no new run. */
  lemma MarkKeepsNew(base: Db, b: Db, now: int, p: RunId)
    requires NewRunsWrite(base, b, now) && p in b.runs && IsSwarmParent(b.runs[p]) && LiveRun(b, p)
    ensures NewRunsWrite(base, MarkMaterialized(b, p), now)
  {
    var c := MarkMaterialized(b, p);
    forall k: ClaimKey | LiveClaim(c, now, k)
      ensures LiveClaim(b, now, k)
    {
    }
    FewerForeign(base, b, c, now);
  }

  lemma MaterializeKeepsNew(base: Db, b: Db, now: int, p: RunId, ids: nat -> RunId)
    requires NewRunsWrite(base, b, now) && WellFormed(b)
    ensures NewRunsWrite(base, Materialize(b, now, p, ids).db, now)
  {
    if p in b.runs && MaterializeRefusal(b, p).None? {
      var roles := ResumeRoles(b.runs[p].meta);
      var meta := ChildMeta(p, b.runs[p].meta, |roles|);
      var made := CreateChildren(b, now, meta, roles, ids, 0);
      MaterializeShape(b, now, p, ids);
      CreateChildrenKeepNew(base, b, now, meta, roles, ids, 0);
      CreateChildrenSound(b, now, meta, roles, ids, 0);
      if made.result.Ok? {
        MarkedStaysNew(base, b, made.db, now, p);
      }
    }
  }

  lemma MarkedStaysNew(base: Db, b: Db, made: Db, now: int, p: RunId)
    requires NewRunsWrite(base, made, now) && p in b.runs && MaterializeRefusal(b, p).None?
    requires p in made.runs && made.runs[p] == b.runs[p]
    ensures NewRunsWrite(base, MarkMaterialized(made, p), now)
  {
    if b.runs[p].archived {
      ArchivedMarkKeepsNew(base, made, now, p);
    } else {
      MarkKeepsNew(base, made, now, p);
    }
  }

  lemma ArchivedMarkKeepsNew(base: Db, b: Db, now: int, p: RunId)
    requires NewRunsWrite(base, b, now) && p in b.runs && IsSwarmParent(b.runs[p]) && b.runs[p].archived
    ensures NewRunsWrite(base, MarkMaterialized(b, p), now)
  {
    FewerForeign(base, b, MarkMaterialized(b, p), now);
  }

  lemma {:induction false} MaterializeReadyKeepsNew(
      base: Db, b: Db, seen: Db, now: int, rows: seq<RunId>, ids: RunId -> nat -> RunId)
    requires NewRunsWrite(base, b, now) && WellFormed(b)
    ensures NewRunsWrite(base, MaterializeReady(b, seen, now, rows, ids), now)
    decreases |rows|
  {
    if rows != [] {
      var next := if ReadyParent(b, seen, rows[0]) then Materialize(b, now, rows[0], ids(rows[0])).db else b;
      MaterializeKeepsNew(base, b, now, rows[0], ids(rows[0]));
      MaterializeSound(b, now, rows[0], ids(rows[0]));
      MaterializeReadyKeepsNew(base, next, seen, now, rows[1..], ids);
    }
  }

  /** A parent put to review loses its own claims; the new runs keep theirs. */
  lemma ReconcileKeepsNew(base: Db, b: Db, now: int, p: RunId)
    requires NewRunsWrite(base, b, now)
    ensures NewRunsWrite(base, Reconcile(b, now, p).db, now)
  {
    if p in b.runs && Reconciles(b, p) {
      ReconcileTouchesOnly(b, now, p);
      ReviewKeepsNew(base, b, Reconcile(b, now, p).db, now, p);
    }
  }

  lemma ReviewKeepsNew(base: Db, b: Db, c: Db, now: int, p: RunId)
    requires NewRunsWrite(base, b, now) && p in b.runs && p in base.runs
    requires c.runs == b.runs[p := b.runs[p].(status := InReview)] && c.claims.Keys == b.claims.Keys
    requires forall k | k in b.claims :: c.claims[k] == ReleasedRow(b.claims[k], k, now, p)
    ensures NewRunsWrite(base, c, now)
  {
    forall k | k in c.claims && Writes(k.mode)
      ensures NewWriter(base, c, now, k)
    {
      assert NewWriter(base, b, now, k);
      if k.run !in base.runs {
        forall o | o in c.claims
          ensures !ForeignWriter(c, now, k.run, k.path, o)
        {
          assert !ForeignWriter(b, now, k.run, k.path, o);
        }
      }
    }
  }

  lemma {:induction false} ReconcileAllKeepsNew(base: Db, b: Db, seen: Db, now: int, rows: seq<RunId>)
    requires NewRunsWrite(base, b, now)
    ensures NewRunsWrite(base, ReconcileAll(b, seen, now, rows), now)
    decreases |rows|
  {
    if rows != [] {
      var next := if rows[0] in seen.runs && IsSwarmParent(seen.runs[rows[0]]) then Reconcile(b, now, rows[0]).db else b;
      ReconcileKeepsNew(base, b, now, rows[0]);
      ReconcileAllKeepsNew(base, next, seen, now, rows[1..]);
    }
  }

  /* ---- passes ---- */

  lemma {:induction false} ExpireDueSameFences(db: Db, seen: Db, now: int, at: int, rows: seq<ClaimKey>)
    ensures SameFences(db, ExpireDue(db, seen, now, at, rows))
    decreases |rows|
  {
    if rows != [] {
      var next := if Due(seen, at, rows[0]) then ReleaseClaims(db, now, rows[0].run, Some(rows[0].path), None, AsExpired).db else db;
      ReleaseClaimsSameFences(db, now, rows[0].run, Some(rows[0].path), None, AsExpired);
      ExpireDueSameFences(next, seen, now, at, rows[1..]);
      SameFencesTransitive(db, next, ExpireDue(next, seen, now, at, rows[1..]));
    }
  }

  lemma {:induction false} MoveDeadSameFences(db: Db, seen: Db, now: int, dead: set<RunId>, held: seq<ClaimKey>, rows: seq<RunId>)
    ensures SameFences(db, MoveDead(db, seen, now, dead, held, rows))
    decreases |rows|
  {
    if rows != [] {
      var next := if Orphaned(seen, rows[0], dead) && HoldsNone(held, rows[0]) then ToReview(db, now, rows[0]) else db;
      ToReviewSameFences(db, now, rows[0]);
      MoveDeadSameFences(next, seen, now, dead, held, rows[1..]);
      SameFencesTransitive(db, next, MoveDead(next, seen, now, dead, held, rows[1..]));
    }
  }

  lemma ExpirySameFences(db: Db, now: int)
    ensures SameFences(db, ExpireStale(db, now, None))
  {
    ExpireStaleNarrows(db, now, None);
    NarrowsSameFences(db, ExpireStale(db, now, None), now);
  }

  /** Up to materialization a pass grants nothing. */
  lemma AfterDeadRuleSameFences(db: Db, now: int, at: int, dead: set<RunId>, l: Listing)
    ensures SameFences(db, AfterDeadRule(db, now, at, dead, l))
  {
    var seen := ExpireStale(db, now, None);
    var due := ExpireDue(seen, seen, now, at, l.due);
    var a := AfterExpiry(db, now, at, l);
    ExpirySameFences(db, now);
    ExpireDueSameFences(seen, seen, now, at, l.due);
    SameFencesTransitive(db, seen, due);
    ExpirySameFences(due, now);
    SameFencesTransitive(db, due, a);
    MoveDeadSameFences(a, a, now, dead, l.held, l.active);
    SameFencesTransitive(db, a, AfterDeadRule(db, now, at, dead, l));
  }

  lemma PassGrantsVerify(db: Db, now: int, at: int, dead: set<RunId>, l: Listing, ids: RunId -> nat -> RunId)
    requires WellFormed(db)
    ensures GrantsVerify(db, State(Pass(db, now, at, dead, l, ids), now))
  {
    var a, b := AfterExpiry(db, now, at, l), AfterDeadRule(db, now, at, dead, l);
    AfterExpirySound(db, now, at, l);
    MoveDeadSound(a, a, now, dead, l.held, l.active);
    NothingNew(b, now);
    MaterializeReadyKeepsNew(b, b, b, now, l.ready, ids);
    var c := AfterMaterialize(db, now, at, dead, l, ids);
    ReconcileAllKeepsNew(b, c, c, now, l.parents);
    NewRunsVerify(b, Pass(db, now, at, dead, l, ids), now);
    AfterDeadRuleSameFences(db, now, at, dead, l);
    SameFencesThenVerify(db, b, State(Pass(db, now, at, dead, l, ids), now));
  }

  lemma SameFencesThenVerify(a: Db, mid: Db, n: State)
    requires SameFences(a, mid) && GrantsVerify(mid, n)
    ensures GrantsVerify(a, n)
  {
    forall k: ClaimKey
      ensures GrantVerifies(a, n, k)
    {
      assert GrantVerifies(mid, n, k);
    }
  }

  lemma MaterializeGrantsVerify(db: Db, now: int, p: RunId, ids: nat -> RunId)
    requires WellFormed(db)
    ensures GrantsVerify(db, State(Materialize(db, now, p, ids).db, now))
  {
    NothingNew(db, now);
    MaterializeKeepsNew(db, db, now, p, ids);
    NewRunsVerify(db, Materialize(db, now, p, ids).db, now);
  }

  /* ---- every call, every run ---- */

  /**
   Whatever the call, a write row that it makes or gives a new fence verifies with that fence in the state it leaves:
   claims, leases, edit events, materialized children, and the children of a whole pass.
   */
  lemma GrantedWriterVerifies(s: State, step: Step)
    requires WellFormed(s.db)
    ensures GrantsVerify(s.db, Next(s, step))
  {
    match step
    case ClaimStep(r, path, mode, ttl) => ClaimFileGrantVerifies(s.db, s.now, r, path, mode, ttl);
    case LeaseStep(r, path, mode, ttl, token) => CreateLeaseGrantVerifies(s.db, s.now, r, path, mode, ttl, token);
    case EventStep(r, e, path, payload) => EventGrantVerifies(s.db, s.now, r, e, path, payload);
    case MaterializeStep(r, ids) => MaterializeGrantsVerify(s.db, s.now, r, ids);
    case PassStep(at, dead, listing, ids) => PassGrantsVerify(s.db, s.now, at, dead, listing, ids);
    case _ =>
      QuietStepSameFences(s, step);
      SameFencesVerify(s.db, Next(s, step));
  }

  lemma QuietStepSameFences(s: State, step: Step)
    requires !Grants(step)
    ensures SameFences(s.db, Call(s.db, s.now, step))
  {
    if LeaseOrClock(step) {
      LeaseStepSameFences(s, step);
    } else {
      RunStepSameFences(s, step);
    }
  }

  /** The claim's run wrote, or could have written, with this fence in state `m` of the run. */
  ghost predicate WroteAt(t: Trace, m: nat, k: ClaimKey, fence: nat) {
    m < |t.states| && Verifies(t.states[m], k.run, k.path, fence)
  }

  lemma FenceVerifiedOrOld(t: Trace, i: nat, k: ClaimKey)
    requires IsTrace(t) && i < |t.steps| && WellFormed(t.states[0].db)
    requires k in t.states[i + 1].db.claims && Writes(k.mode)
    ensures || WroteAt(t, i + 1, k, t.states[i + 1].db.claims[k].fence)
            || (k in t.states[i].db.claims && t.states[i].db.claims[k].fence == t.states[i + 1].db.claims[k].fence)
  {
    assert StepAt(t, i);
    TraceGrows(t, 0, i);
    GrantedWriterVerifies(t.states[i], t.steps[i]);
    assert GrantVerifies(t.states[i].db, t.states[i + 1], k);
  }

  /** The fence of every write row was verified for its run in some state so far. */
  lemma {:induction false} WriteFencesWereVerified(t: Trace, n: nat, k: ClaimKey) returns (m: nat)
    requires IsTrace(t) && n < |t.states| && t.states[0].db == EMPTY
    requires k in t.states[n].db.claims && Writes(k.mode)
    ensures m <= n && WroteAt(t, m, k, t.states[n].db.claims[k].fence)
  {
    assert n > 0;
    FenceVerifiedOrOld(t, n - 1, k);
    if WroteAt(t, n, k, t.states[n].db.claims[k].fence) {
      m := n;
    } else {
      m := WriteFencesWereVerified(t, n - 1, k);
    }
  }
}
