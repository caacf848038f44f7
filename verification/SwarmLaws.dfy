/**
 Swarm children appear all together or not at all, exactly when the selected files allow it.
 */
module SwarmLaws {
  import opened Options
  import opened AgentTables
  import opened Claims
  import opened ClaimLaws
  import opened AgentRuns
  import opened AgentRunLaws
  import opened Swarm

  /* ---- the laws go through ---- */

  lemma ClaimAllSound(db: Db, now: int, r: RunId, paths: seq<Path>, mode: Option<Mode>, ttl: Option<int>)
    ensures Sound(db, ClaimAll(db, now, r, paths, mode, ttl).db, now)
    ensures ClaimAll(db, now, r, paths, mode, ttl).db.runs == db.runs
    ensures ClaimAll(db, now, r, paths, mode, ttl).db.links == db.links
    decreases |paths|
  {
    if paths == [] {
      SoundReflexive(db, now);
    } else {
      var got := ClaimFile(db, now, r, Some(paths[0]), mode, ttl, true);
      ClaimFileSound(db, now, r, Some(paths[0]), mode, ttl);
      if got.result.Ok? {
        ClaimAllSound(got.db, now, r, paths[1..], mode, ttl);
        SoundTransitive(db, got.db, ClaimAll(got.db, now, r, paths[1..], mode, ttl).db, now);
      }
    }
  }

  lemma CreateChildSound(db: Db, now: int, r: RunId, meta: Meta, mode: Option<Mode>)
    ensures Sound(db, CreateChild(db, now, r, meta, mode).db, now)
    ensures r !in db.runs ==> CreateChild(db, now, r, meta, mode).db.runs == db.runs[r := Run(Queued, false, meta)]
    ensures CreateChild(db, now, r, meta, mode).db.links == db.links
  {
    var started := StartRun(db, r, Queued, meta);
    StartRunSound(db, now, r, Queued, meta);
    if started.result.Ok? {
      var told := RecordEvent(started.db, now, r, Some(OtherEvent), None, Some(Queued));
      assert told == Outcome(started.db, Ok(()));
      ClaimAllSound(told.db, now, r, meta.paths, mode, Some(DEFAULT_CLAIM_TTL));
      SoundTransitive(db, told.db, ClaimAll(told.db, now, r, meta.paths, mode, Some(DEFAULT_CLAIM_TTL)).db, now);
    }
  }

  lemma CreateChildrenSound(db: Db, now: int, meta: Meta, roles: seq<Role>, ids: nat -> RunId, i: nat)
    requires i <= |roles|
    ensures Sound(db, CreateChildren(db, now, meta, roles, ids, i).db, now)
    ensures CreateChildren(db, now, meta, roles, ids, i).db.links == db.links
    ensures forall r :: r in db.runs ==>
      r in CreateChildren(db, now, meta, roles, ids, i).db.runs && CreateChildren(db, now, meta, roles, ids, i).db.runs[r] == db.runs[r]
    decreases |roles| - i
  {
    if i == |roles| {
      SoundReflexive(db, now);
    } else {
      var one := CreateChild(db, now, ids(i), meta, roles[i].mode);
      CreateChildSound(db, now, ids(i), meta, roles[i].mode);
      if one.result.Ok? {
        CreateChildrenSound(one.db, now, meta, roles, ids, i + 1);
        SoundTransitive(db, one.db, CreateChildren(one.db, now, meta, roles, ids, i + 1).db, now);
      } else if ids(i) in db.runs {
        assert one.db == db;
      }
    }
  }

  lemma MarkSound(db: Db, now: int, p: RunId)
    requires p in db.runs && (db.runs[p].status.Queued? || db.runs[p].status.Ready?)
    ensures Sound(db, MarkMaterialized(db, p), now)
  {
    var b := MarkMaterialized(db, p);
    assert Narrows(db, b, now);
    NarrowsAreKept(db, b, now);
    if BlockersAgree(db) {
      forall l | Blocks(b, l) ensures !CompletedRun(b, l.blocker) {
        assert Blocks(db, l);
      }
      forall s | s in b.runs && b.runs[s].status.Blocked? && !b.runs[s].archived ensures HasActiveBlocker(b, s) {
        assert HasActiveBlocker(db, s);
      }
    }
  }

  lemma MaterializeSound(db: Db, now: int, p: RunId, ids: nat -> RunId)
    ensures Sound(db, Materialize(db, now, p, ids).db, now)
  {
    SoundReflexive(db, now);
    if p in db.runs && MaterializeRefusal(db, p).None? {
      MaterializeShape(db, now, p, ids);
      var roles := ResumeRoles(db.runs[p].meta);
      var meta := ChildMeta(p, db.runs[p].meta, |roles|);
      var made := CreateChildren(db, now, meta, roles, ids, 0);
      CreateChildrenSound(db, now, meta, roles, ids, 0);
      if made.result.Ok? {
        MarkSound(made.db, now, p);
        SoundTransitive(db, made.db, MarkMaterialized(made.db, p), now);
      }
    }
  }

  lemma ReconcileSound(db: Db, now: int, p: RunId)
    ensures Sound(db, Reconcile(db, now, p).db, now)
  {
    SoundReflexive(db, now);
    if p in db.runs && Reconciles(db, p) {
      var ended := EndRun(db, now, p, InReview);
      EndRunSound(db, now, p, InReview);
      RecordEventSound(ended.db, now, p, Some(StatusEvent), None, Some(InReview));
      SoundTransitive(db, ended.db, Reconcile(db, now, p).db, now);
    }
  }

  /* ---- which claims are live after a grant ---- */

  lemma ExpiryKeepsLiveClaims(db: Db, now: int, only: Option<ClaimKey>)
    ensures forall k :: LiveClaim(ExpireStale(db, now, only), now, k) <==> LiveClaim(db, now, k)
  {
  }

  lemma ConflictAgrees(a: Db, b: Db, now: int, k: ClaimKey)
    requires forall x :: LiveClaim(a, now, x) <==> LiveClaim(b, now, x)
    ensures Conflicted(a, now, k) <==> Conflicted(b, now, k)
  {
    if Conflicted(a, now, k) {
      var o :| o in a.claims && ConflictsWith(a, now, k, o);
      assert LiveClaim(b, now, o) && ConflictsWith(b, now, k, o);
    }
    if Conflicted(b, now, k) {
      var o :| o in b.claims && ConflictsWith(b, now, k, o);
      assert LiveClaim(a, now, o) && ConflictsWith(a, now, k, o);
    }
  }

  /** A live run is refused exactly on a conflict, and otherwise gains exactly the one live claim. */
  lemma ClaimFileOnLive(db: Db, now: int, r: RunId, path: Path, mode: Option<Mode>, ttl: Option<int>)
    requires LiveRun(db, r)
    ensures var out := ClaimFile(db, now, r, Some(path), mode, ttl, true);
            && (out.result.Ok? <==> mode.Some? && !Conflicted(db, now, ClaimKey(r, path, mode.value)))
            && out.db.runs == db.runs && out.db.links == db.links
            && (out.result.Ok? ==> forall x :: LiveClaim(out.db, now, x) <==> LiveClaim(db, now, x) || x == ClaimKey(r, path, mode.value))
            && (out.result.Err? ==> forall x :: LiveClaim(out.db, now, x) <==> LiveClaim(db, now, x))
  {
    var db1 := ExpireStale(db, now, None);
    ExpiryKeepsLiveClaims(db, now, None);
    if mode.Some? {
      ConflictAgrees(db1, db, now, ClaimKey(r, path, mode.value));
    }
  }

  ghost predicate PathsFree(db: Db, now: int, r: RunId, paths: seq<Path>, mode: Option<Mode>) {
    paths == [] || (mode.Some? && forall p :: p in paths ==> !Conflicted(db, now, ClaimKey(r, p, mode.value)))
  }

  ghost predicate ClaimedBy(k: ClaimKey, r: RunId, paths: seq<Path>, mode: Option<Mode>) {
    mode.Some? && k.run == r && k.path in paths && k.mode == mode.value
  }

  lemma {:induction false} ClaimAllOnLive(db: Db, now: int, r: RunId, paths: seq<Path>, mode: Option<Mode>,
                                          ttl: Option<int>)
    requires LiveRun(db, r)
    ensures var out := ClaimAll(db, now, r, paths, mode, ttl);
            && (out.result.Ok? <==> PathsFree(db, now, r, paths, mode))
            && (out.result.Ok? ==> forall x :: LiveClaim(out.db, now, x) <==> LiveClaim(db, now, x) || ClaimedBy(x, r, paths, mode))
    decreases |paths|
  {
    if paths != [] {
      var got := ClaimFile(db, now, r, Some(paths[0]), mode, ttl, true);
      ClaimFileOnLive(db, now, r, paths[0], mode, ttl);
      assert paths == [paths[0]] + paths[1..];
      if got.result.Ok? {
        ClaimAllOnLive(got.db, now, r, paths[1..], mode, ttl);
        forall p | p in paths[1..]
          ensures Conflicted(got.db, now, ClaimKey(r, p, mode.value)) <==> Conflicted(db, now, ClaimKey(r, p, mode.value))
        {
          OwnClaimIsNoConflict(db, got.db, now, r, ClaimKey(r, p, mode.value));
        }
      }
    }
  }

  lemma OwnClaimIsNoConflict(a: Db, b: Db, now: int, r: RunId, k: ClaimKey)
    requires k.run == r
    requires forall x: ClaimKey :: x.run != r ==> (LiveClaim(a, now, x) <==> LiveClaim(b, now, x))
    ensures Conflicted(a, now, k) <==> Conflicted(b, now, k)
  {
    if Conflicted(a, now, k) {
      var o :| o in a.claims && ConflictsWith(a, now, k, o);
      assert LiveClaim(b, now, o) && ConflictsWith(b, now, k, o);
    }
    if Conflicted(b, now, k) {
      var o :| o in b.claims && ConflictsWith(b, now, k, o);
      assert LiveClaim(a, now, o) && ConflictsWith(a, now, k, o);
    }
  }

  /* ---- exactly when the children can be created ---- */

  ghost predicate Creatable(db: Db, now: int, paths: seq<Path>, roles: seq<Role>, ids: nat -> RunId, i: nat) {
    && (forall j :: i <= j < |roles| ==> ids(j) !in db.runs)
    && (forall j, l :: i <= j < l < |roles| ==> ids(j) != ids(l))
    && (paths != [] ==>
          && (forall j :: i <= j < |roles| ==> PathsFree(db, now, ids(j), paths, roles[j].mode))
          && (forall j, l :: i <= j < l < |roles| ==> Compatible(roles[j].mode.value, roles[l].mode.value)))
  }

  /** A new run starts with no claims: starting it and telling it its task leaves just its row. */
  lemma StartedChild(db: Db, now: int, r: RunId, meta: Meta, mode: Option<Mode>)
    requires r !in db.runs
    ensures var started := db.(runs := db.runs[r := Run(Queued, false, meta)]);
            CreateChild(db, now, r, meta, mode) == ClaimAll(started, now, r, meta.paths, mode, Some(DEFAULT_CLAIM_TTL))
  {
    var started := StartRun(db, r, Queued, meta).db;
    assert RecordEvent(started, now, r, Some(OtherEvent), None, Some(Queued)) == Outcome(started, Ok(()));
  }

  lemma StartingIsInvisible(db: Db, now: int, r: RunId, meta: Meta)
    requires WellFormed(db) && r !in db.runs
    ensures var started := db.(runs := db.runs[r := Run(Queued, false, meta)]);
            && LiveRun(started, r)
            && forall x :: LiveClaim(started, now, x) <==> LiveClaim(db, now, x)
  {
  }

  lemma SamePathsFree(a: Db, b: Db, now: int, r: RunId, paths: seq<Path>, mode: Option<Mode>)
    requires forall x :: LiveClaim(a, now, x) <==> LiveClaim(b, now, x)
    ensures PathsFree(a, now, r, paths, mode) <==> PathsFree(b, now, r, paths, mode)
  {
    if mode.Some? {
      forall p | p in paths
        ensures Conflicted(a, now, ClaimKey(r, p, mode.value)) <==> Conflicted(b, now, ClaimKey(r, p, mode.value))
      {
        ConflictAgrees(a, b, now, ClaimKey(r, p, mode.value));
      }
    }
  }

  lemma CreateChildOnLive(db: Db, now: int, r: RunId, meta: Meta, mode: Option<Mode>)
    requires WellFormed(db)
    ensures var out := CreateChild(db, now, r, meta, mode);
            && (out.result.Ok? <==> r !in db.runs && PathsFree(db, now, r, meta.paths, mode))
            && (out.result.Ok? ==>
                  && out.db.runs == db.runs[r := Run(Queued, false, meta)]
                  && forall x :: LiveClaim(out.db, now, x) <==> LiveClaim(db, now, x) || ClaimedBy(x, r, meta.paths, mode))
  {
    if r !in db.runs {
      var started := db.(runs := db.runs[r := Run(Queued, false, meta)]);
      StartedChild(db, now, r, meta, mode);
      StartingIsInvisible(db, now, r, meta);
      SamePathsFree(started, db, now, r, meta.paths, mode);
      ClaimAllOnLive(started, now, r, meta.paths, mode, Some(DEFAULT_CLAIM_TTL));
      ClaimAllSound(started, now, r, meta.paths, mode, Some(DEFAULT_CLAIM_TTL));
    }
  }

  /** Another child conflicts with one just created exactly when their modes are incompatible. */
  lemma SiblingConflict(a: Db, b: Db, now: int, r: RunId, paths: seq<Path>, mode: Option<Mode>, s: RunId, other: Option<Mode>)
    requires paths != [] && mode.Some? && r != s
    requires forall x :: LiveClaim(b, now, x) <==> LiveClaim(a, now, x) || ClaimedBy(x, r, paths, mode)
    ensures PathsFree(b, now, s, paths, other)
        <==> PathsFree(a, now, s, paths, other) && Compatible(mode.value, other.value)
  {
    if other.Some? {
      forall p | p in paths
        ensures Conflicted(b, now, ClaimKey(s, p, other.value))
           <==> Conflicted(a, now, ClaimKey(s, p, other.value)) || !Compatible(mode.value, other.value)
      {
        var k := ClaimKey(s, p, other.value);
        if Conflicted(b, now, k) {
          var o :| o in b.claims && ConflictsWith(b, now, k, o);
          if LiveClaim(a, now, o) {
            assert ConflictsWith(a, now, k, o);
          }
        }
        if Conflicted(a, now, k) {
          var o :| o in a.claims && ConflictsWith(a, now, k, o);
          assert LiveClaim(b, now, o) && ConflictsWith(b, now, k, o);
        }
        if !Compatible(mode.value, other.value) {
          var o := ClaimKey(r, p, mode.value);
          assert ClaimedBy(o, r, paths, mode);
          assert LiveClaim(b, now, o) && ConflictsWith(b, now, k, o);
        }
      }
      assert paths[0] in paths;
    }
  }

  lemma {:induction false} CreateChildrenIff(db: Db, now: int, meta: Meta, roles: seq<Role>, ids: nat -> RunId, i: nat)
    requires WellFormed(db) && i <= |roles|
    ensures CreateChildren(db, now, meta, roles, ids, i).result.Ok? <==> Creatable(db, now, meta.paths, roles, ids, i)
    decreases |roles| - i
  {
    if i < |roles| {
      var one := CreateChild(db, now, ids(i), meta, roles[i].mode);
      CreateChildOnLive(db, now, ids(i), meta, roles[i].mode);
      if one.result.Ok? {
        CreateChildSound(db, now, ids(i), meta, roles[i].mode);
        CreateChildrenIff(one.db, now, meta, roles, ids, i + 1);
        CreatableStep(db, one.db, now, meta.paths, roles, ids, i);
      }
    }
  }

  /** The runs with one queued child for each of the ids from `i` up to `n`. */
  function WithChildren(runs: map<RunId, Run>, meta: Meta, ids: nat -> RunId, i: nat, n: nat): map<RunId, Run>
    decreases n - i
  {
    if i >= n then runs else WithChildren(runs[ids(i) := Run(Queued, false, meta)], meta, ids, i + 1, n)
  }

  lemma {:induction false} WithChildrenLookup(runs: map<RunId, Run>, meta: Meta, ids: nat -> RunId, i: nat, n: nat, r: RunId)
    ensures var b := WithChildren(runs, meta, ids, i, n);
            && (r in b <==> r in runs || exists j: nat :: i <= j < n && ids(j) == r)
            && (r in b ==> b[r] == if exists j: nat :: i <= j < n && ids(j) == r then Run(Queued, false, meta) else runs[r])
    decreases n - i
  {
    if i < n {
      WithChildrenLookup(runs[ids(i) := Run(Queued, false, meta)], meta, ids, i + 1, n, r);
      assert (exists j: nat :: i <= j < n && ids(j) == r)
        <==> ids(i) == r || exists j: nat :: i + 1 <= j < n && ids(j) == r;
    }
  }

  lemma {:induction false} CreateChildrenRuns(db: Db, now: int, meta: Meta, roles: seq<Role>, ids: nat -> RunId, i: nat)
    requires i <= |roles|
    requires CreateChildren(db, now, meta, roles, ids, i).result.Ok?
    ensures CreateChildren(db, now, meta, roles, ids, i).db.runs == WithChildren(db.runs, meta, ids, i, |roles|)
    decreases |roles| - i
  {
    if i < |roles| {
      var one := CreateChild(db, now, ids(i), meta, roles[i].mode);
      CreateChildSound(db, now, ids(i), meta, roles[i].mode);
      CreateChildrenRuns(one.db, now, meta, roles, ids, i + 1);
    }
  }

  lemma CreatableStep(a: Db, b: Db, now: int, paths: seq<Path>, roles: seq<Role>, ids: nat -> RunId, i: nat)
    requires i < |roles| && ids(i) !in a.runs && PathsFree(a, now, ids(i), paths, roles[i].mode)
    requires b.runs.Keys == a.runs.Keys + {ids(i)}
    requires forall x :: LiveClaim(b, now, x) <==> LiveClaim(a, now, x) || ClaimedBy(x, ids(i), paths, roles[i].mode)
    ensures Creatable(a, now, paths, roles, ids, i) <==> Creatable(b, now, paths, roles, ids, i + 1)
  {
    if paths != [] {
      forall j | i < j < |roles| && ids(j) != ids(i)
        ensures PathsFree(b, now, ids(j), paths, roles[j].mode)
           <==> PathsFree(a, now, ids(j), paths, roles[j].mode) && Compatible(roles[i].mode.value, roles[j].mode.value)
      {
        SiblingConflict(a, b, now, ids(i), paths, roles[i].mode, ids(j), roles[j].mode);
      }
    }
  }

  /** Marking the parent and recording its status event is all that follows the children. */
  lemma MaterializeShape(db: Db, now: int, p: RunId, ids: nat -> RunId)
    requires p in db.runs && MaterializeRefusal(db, p).None?
    ensures var roles := ResumeRoles(db.runs[p].meta);
            var made := CreateChildren(db, now, ChildMeta(p, db.runs[p].meta, |roles|), roles, ids, 0);
            Materialize(db, now, p, ids) ==
              if made.result.Err? then Outcome(db, Err(made.result.error))
              else if p !in made.db.runs then Outcome(db, Err(UnknownRun))
              else Outcome(MarkMaterialized(made.db, p), Ok(true))
  {
    var roles := ResumeRoles(db.runs[p].meta);
    var made := CreateChildren(db, now, ChildMeta(p, db.runs[p].meta, |roles|), roles, ids, 0);
    if made.result.Ok? && p in made.db.runs {
      var marked := MarkMaterialized(made.db, p);
      assert SetStatus(marked, p, Working) == marked;
    }
  }

  /** After the children are made, the parent's visible children are exactly they. */
  lemma ChildrenAreTheNewRuns(db: Db, now: int, p: RunId, ids: nat -> RunId)
    requires WellFormed(db) && p in db.runs && ChildRuns(db, p) == {} && IsSwarmParent(db.runs[p])
    requires var roles := ResumeRoles(db.runs[p].meta);
             CreateChildren(db, now, ChildMeta(p, db.runs[p].meta, |roles|), roles, ids, 0).result.Ok?
    ensures var roles := ResumeRoles(db.runs[p].meta);
            var made := CreateChildren(db, now, ChildMeta(p, db.runs[p].meta, |roles|), roles, ids, 0).db;
            && p in made.runs && made.runs[p] == db.runs[p]
            && ChildRuns(MarkMaterialized(made, p), p) == (set i: nat | i < |roles| :: ids(i))
            && forall i: nat :: i < |roles| ==> ids(i) in made.runs && ids(i) != p && made.runs[ids(i)].status == Queued
  {
    var roles := ResumeRoles(db.runs[p].meta);
    var meta := ChildMeta(p, db.runs[p].meta, |roles|);
    var made := CreateChildren(db, now, meta, roles, ids, 0).db;
    CreateChildrenIff(db, now, meta, roles, ids, 0);
    CreateChildrenRuns(db, now, meta, roles, ids, 0);
    ChildrenInTable(db, made, p, ids, meta, |roles|);
  }

  lemma ChildrenInTable(db: Db, made: Db, p: RunId, ids: nat -> RunId, meta: Meta, n: nat)
    requires p in db.runs && ChildRuns(db, p) == {} && IsSwarmParent(db.runs[p]) && meta.parent == Some(p)
    requires made.runs == WithChildren(db.runs, meta, ids, 0, n)
    requires forall j: nat :: j < n ==> ids(j) !in db.runs
    ensures && p in made.runs && made.runs[p] == db.runs[p]
            && ChildRuns(MarkMaterialized(made, p), p) == (set i: nat | i < n :: ids(i))
            && forall i: nat :: i < n ==> ids(i) in made.runs && ids(i) != p && made.runs[ids(i)].status == Queued
  {
    forall r {
      WithChildrenLookup(db.runs, meta, ids, 0, n, r);
    }
    var marked := MarkMaterialized(made, p);
    forall r ensures r in ChildRuns(marked, p) <==> exists j: nat :: j < n && ids(j) == r {
      if r in db.runs {
        assert r !in ChildRuns(db, p);
      }
    }
  }

  /**
   Children appear exactly when the parent is ready and the selected files are free for every
   role and between the roles; then all of them appear, and otherwise nothing changes at all.
   */
  lemma MaterializeIff(db: Db, now: int, p: RunId, ids: nat -> RunId)
    requires WellFormed(db) && p in db.runs
    ensures var out := Materialize(db, now, p, ids);
            var roles := ResumeRoles(db.runs[p].meta);
            && (out.result == Ok(true) <==>
                  MaterializeRefusal(db, p).None? && Creatable(db, now, db.runs[p].meta.paths, roles, ids, 0))
            && (out.result == Ok(true) ==>
                  && p in out.db.runs && out.db.runs[p].meta.materialized && out.db.runs[p].status == Working
                  && ChildRuns(out.db, p) == (set i: nat | i < |roles| :: ids(i))
                  && forall i: nat :: i < |roles| ==> ids(i) in out.db.runs && out.db.runs[ids(i)].status == Queued)
            && (out.result != Ok(true) ==> out.db == db)
  {
    if MaterializeRefusal(db, p).None? {
      var roles := ResumeRoles(db.runs[p].meta);
      var meta := ChildMeta(p, db.runs[p].meta, |roles|);
      MaterializeShape(db, now, p, ids);
      CreateChildrenIff(db, now, meta, roles, ids, 0);
      if CreateChildren(db, now, meta, roles, ids, 0).result.Ok? {
        ChildrenAreTheNewRuns(db, now, p, ids);
      }
    }
  }

  /** Two roles that both edit can never be materialized on a selected file. */
  lemma TwoEditorsNeverMaterialize(db: Db, now: int, p: RunId, ids: nat -> RunId, i: nat, j: nat)
    requires WellFormed(db) && p in db.runs && db.runs[p].meta.paths != []
    requires i < j < |ResumeRoles(db.runs[p].meta)|
    requires ResumeRoles(db.runs[p].meta)[i].mode == Some(EditMode)
    requires ResumeRoles(db.runs[p].meta)[j].mode == Some(EditMode)
    ensures Materialize(db, now, p, ids).db == db
  {
    MaterializeIff(db, now, p, ids);
    var roles := ResumeRoles(db.runs[p].meta);
    assert !Compatible(roles[i].mode.value, roles[j].mode.value);
  }

  /** What a release of all claims of a run makes of one row. */
  function ReleasedRow(c: Claim, k: ClaimKey, now: int, p: RunId): Claim {
    if k.run == p && c.status.Active? && c.kind.PlainClaim?
    then Logged(c.(status := Released, token := None), ReleasedEvent)
    else if StaleLease(c, now) then Logged(c.(status := Expired, token := None), ExpiredEvent)
    else c
  }

  lemma ReleaseTouches(db: Db, now: int, p: RunId)
    requires p in db.runs
    ensures var b := ReleaseClaims(db, now, p, None, None, AsReleased).db;
            && b.runs == db.runs && b.links == db.links && b.claims.Keys == db.claims.Keys
            && forall k :: k in db.claims ==> b.claims[k] == ReleasedRow(db.claims[k], k, now, p)
  {
  }

  lemma ReleasedRowTwice(c: Claim, k: ClaimKey, now: int, p: RunId)
    ensures ReleasedRow(ReleasedRow(c, k, now, p), k, now, p) == ReleasedRow(c, k, now, p)
  {
  }

  lemma ReleasedTwice(db: Db, b: Db, now: int, p: RunId)
    requires p in db.runs && b.claims.Keys == db.claims.Keys && p in b.runs
    requires forall k :: k in db.claims ==> b.claims[k] == ReleasedRow(db.claims[k], k, now, p)
    ensures ReleaseClaims(b, now, p, None, None, AsReleased).db == b
  {
    ReleaseTouches(b, now, p);
    var again := ReleaseClaims(b, now, p, None, None, AsReleased).db.claims;
    forall k | k in again
      ensures again[k] == b.claims[k]
    {
      ReleasedRowTwice(db.claims[k], k, now, p);
    }
    assert again == b.claims;
  }

  /**
   What putting a parent to review touches: its own status, its plain active claims, and leases past their expiry,
   of whichever run; no other run, no link, and no other claim.
   */
  lemma ReconcileTouchesOnly(db: Db, now: int, p: RunId)
    requires p in db.runs && Reconcile(db, now, p).result == Ok(true)
    ensures var b := Reconcile(db, now, p).db;
            && b.links == db.links
            && b.runs == db.runs[p := db.runs[p].(status := InReview)]
            && b.claims.Keys == db.claims.Keys
            && forall k :: k in db.claims ==> b.claims[k] == ReleasedRow(db.claims[k], k, now, p)
  {
    ReleaseTouches(db, now, p);
    var ended := EndRun(db, now, p, InReview).db;
    var told := SetStatus(ended, p, InReview);
    assert told == ended;
    ReleasedTwice(db, told, now, p);
    assert Reconcile(db, now, p).db == ReleaseClaims(told, now, p, None, None, AsReleased).db;
  }

  /** Freshly materialized children are queued, so the next reconciliation waits. */
  lemma MaterializedParentWaits(db: Db, now: int, p: RunId, ids: nat -> RunId)
    requires WellFormed(db) && p in db.runs && Materialize(db, now, p, ids).result == Ok(true)
    ensures var b := Materialize(db, now, p, ids).db; Reconcile(b, now, p) == Outcome(b, Ok(false))
  {
    MaterializeIff(db, now, p, ids);
    var b := Materialize(db, now, p, ids).db;
    var roles := ResumeRoles(db.runs[p].meta);
    assert ids(0) in ChildRuns(b, p);
    assert !Stopped(b.runs[ids(0)].status);
  }
}
