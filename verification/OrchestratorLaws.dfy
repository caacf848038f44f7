/** What one orchestrator pass does to dead runs, and what it keeps. */
module OrchestratorLaws {
  import opened Options
  import opened AgentTables
  import opened Claims
  import opened ClaimLaws
  import opened AgentRuns
  import opened AgentRunLaws
  import opened Swarm
  import opened SwarmLaws
  import opened Orchestrator

  /* ---- listings ---- */

  lemma {:induction false} DistinctRowsCount<T>(rows: seq<T>)
    requires forall i, j :: 0 <= i < j < |rows| ==> rows[i] != rows[j]
    ensures |set x | x in rows| == |rows|
  {
    if rows != [] {
      DistinctRowsCount(rows[1..]);
      assert (set x | x in rows) == {rows[0]} + set x | x in rows[1..];
      assert rows[0] !in rows[1..];
    }
  }

  lemma SubsetOfSameSize<T>(a: set<T>, b: set<T>)
    requires a <= b && |a| == |b|
    ensures a == b
  {
    assert |b - a| == |b| - |a|;
  }

  /** A listing that fits its limit is complete. */
  lemma ListsEverything<T(!new)>(rows: seq<T>, all: set<T>, limit: nat)
    requires Lists(rows, all, limit) && |all| <= limit
    ensures forall x :: x in rows <==> x in all
  {
    DistinctRowsCount(rows);
    var listed := set x | x in rows;
    SubsetOfSameSize(listed, all);
    assert forall x :: x in rows <==> x in listed;
  }

  /* ---- the laws go through ---- */

  lemma ExpireStaleSound(db: Db, now: int)
    ensures Sound(db, ExpireStale(db, now, None), now)
  {
    ExpireStaleNarrows(db, now, None);
    NarrowsAreKept(db, ExpireStale(db, now, None), now);
    ClaimsOnlySound(db, ExpireStale(db, now, None), now);
  }

  lemma {:induction false} ExpireDueSound(db: Db, seen: Db, now: int, at: int, rows: seq<ClaimKey>)
    ensures Sound(db, ExpireDue(db, seen, now, at, rows), now)
    decreases |rows|
  {
    SoundReflexive(db, now);
    if rows != [] {
      var next := if Due(seen, at, rows[0]) then ReleaseClaims(db, now, rows[0].run, Some(rows[0].path), None, AsExpired).db else db;
      ReleaseClaimsSound(db, now, rows[0].run, Some(rows[0].path), None, AsExpired);
      ExpireDueSound(next, seen, now, at, rows[1..]);
      SoundTransitive(db, next, ExpireDue(next, seen, now, at, rows[1..]), now);
    }
  }

  lemma ToReviewSound(db: Db, now: int, r: RunId)
    ensures Sound(db, ToReview(db, now, r), now)
  {
    var ended := EndRun(db, now, r, InReview).db;
    EndRunSound(db, now, r, InReview);
    RecordEventSound(ended, now, r, Some(StatusEvent), None, Some(InReview));
    SoundTransitive(db, ended, ToReview(db, now, r), now);
  }

  lemma {:induction false} MoveDeadSound(db: Db, seen: Db, now: int, dead: set<RunId>, held: seq<ClaimKey>, rows: seq<RunId>)
    ensures Sound(db, MoveDead(db, seen, now, dead, held, rows), now)
    decreases |rows|
  {
    SoundReflexive(db, now);
    if rows != [] {
      var next := if Orphaned(seen, rows[0], dead) && HoldsNone(held, rows[0]) then ToReview(db, now, rows[0]) else db;
      ToReviewSound(db, now, rows[0]);
      MoveDeadSound(next, seen, now, dead, held, rows[1..]);
      SoundTransitive(db, next, MoveDead(next, seen, now, dead, held, rows[1..]), now);
    }
  }

  lemma {:induction false} MaterializeReadySound(db: Db, seen: Db, now: int, rows: seq<RunId>, ids: RunId -> nat -> RunId)
    ensures Sound(db, MaterializeReady(db, seen, now, rows, ids), now)
    decreases |rows|
  {
    SoundReflexive(db, now);
    if rows != [] {
      var next := if ReadyParent(db, seen, rows[0]) then Materialize(db, now, rows[0], ids(rows[0])).db else db;
      MaterializeSound(db, now, rows[0], ids(rows[0]));
      MaterializeReadySound(next, seen, now, rows[1..], ids);
      SoundTransitive(db, next, MaterializeReady(next, seen, now, rows[1..], ids), now);
    }
  }

  lemma {:induction false} ReconcileAllSound(db: Db, seen: Db, now: int, rows: seq<RunId>)
    ensures Sound(db, ReconcileAll(db, seen, now, rows), now)
    decreases |rows|
  {
    SoundReflexive(db, now);
    if rows != [] {
      var next := if rows[0] in seen.runs && IsSwarmParent(seen.runs[rows[0]]) then Reconcile(db, now, rows[0]).db else db;
      ReconcileSound(db, now, rows[0]);
      ReconcileAllSound(next, seen, now, rows[1..]);
      SoundTransitive(db, next, ReconcileAll(next, seen, now, rows[1..]), now);
    }
  }

  lemma AfterExpirySound(db: Db, now: int, at: int, l: Listing)
    ensures Sound(db, AfterExpiry(db, now, at, l), now)
  {
    var seen := ExpireStale(db, now, None);
    ExpireStaleSound(db, now);
    var due := ExpireDue(seen, seen, now, at, l.due);
    ExpireDueSound(seen, seen, now, at, l.due);
    SoundTransitive(db, seen, due, now);
    ExpireStaleSound(due, now);
    SoundTransitive(db, due, AfterExpiry(db, now, at, l), now);
  }

  /** A whole pass keeps every claim and run law, whatever its lists contain. */
  lemma PassSound(db: Db, now: int, at: int, dead: set<RunId>, l: Listing, ids: RunId -> nat -> RunId)
    ensures Sound(db, Pass(db, now, at, dead, l, ids), now)
  {
    var a := AfterExpiry(db, now, at, l);
    AfterExpirySound(db, now, at, l);
    var b := AfterDeadRule(db, now, at, dead, l);
    MoveDeadSound(a, a, now, dead, l.held, l.active);
    SoundTransitive(db, a, b, now);
    var c := AfterMaterialize(db, now, at, dead, l, ids);
    MaterializeReadySound(b, b, now, l.ready, ids);
    SoundTransitive(db, b, c, now);
    ReconcileAllSound(c, c, now, l.parents);
    SoundTransitive(db, c, Pass(db, now, at, dead, l, ids), now);
  }

  /* ---- the dead-run rule ---- */

  /** Moving one run to review changes its row only, and no other run's live claims. */
  lemma ToReviewFrame(db: Db, now: int, r: RunId)
    requires r in db.runs
    ensures var b := ToReview(db, now, r);
            && b.links == db.links
            && b.runs == db.runs[r := db.runs[r].(status := InReview)]
            && forall k: ClaimKey :: k.run != r ==> (LiveClaim(b, now, k) <==> LiveClaim(db, now, k))
  {
  }

  predicate Moves(seen: Db, dead: set<RunId>, held: seq<ClaimKey>, rows: seq<RunId>, r: RunId) {
    r in rows && Orphaned(seen, r, dead) && HoldsNone(held, r)
  }

  lemma {:induction false} MoveDeadFrame(db: Db, seen: Db, now: int, dead: set<RunId>, held: seq<ClaimKey>, rows: seq<RunId>)
    requires db.runs.Keys == seen.runs.Keys
    ensures var b := MoveDead(db, seen, now, dead, held, rows);
            && b.links == db.links && b.runs.Keys == db.runs.Keys
            && (forall r :: r in db.runs ==>
                  b.runs[r] == if Moves(seen, dead, held, rows, r) then db.runs[r].(status := InReview) else db.runs[r])
            && (forall k: ClaimKey :: !Moves(seen, dead, held, rows, k.run) ==> (LiveClaim(b, now, k) <==> LiveClaim(db, now, k)))
    decreases |rows|
  {
    if rows != [] {
      var moved := Orphaned(seen, rows[0], dead) && HoldsNone(held, rows[0]);
      var next := if moved then ToReview(db, now, rows[0]) else db;
      if moved {
        ToReviewFrame(db, now, rows[0]);
      }
      MoveDeadFrame(next, seen, now, dead, held, rows[1..]);
      forall r ensures Moves(seen, dead, held, rows, r) <==> Moves(seen, dead, held, rows[1..], r) || (moved && r == rows[0]) {}
    }
  }

  /** A run the dead-run rule is for: live, known dead, unblocked, and holding no live claim. */
  ghost predicate Abandoned(db: Db, now: int, dead: set<RunId>, r: RunId) {
    && LiveRun(db, r)
    && r in dead
    && !db.runs[r].status.Blocked?
    && !HasActiveBlocker(db, r)
    && forall k :: LiveClaim(db, now, k) ==> k.run != r
  }

  /** Within the limits, the rule moves exactly the abandoned runs to review and touches no other run. */
  lemma DeadRuleIff(db: Db, now: int, at: int, dead: set<RunId>, l: Listing, ids: RunId -> nat -> RunId)
    requires ValidListing(db, now, at, dead, l, ids)
    requires |LiveClaims(AfterExpiry(db, now, at, l), now)| <= 500
    requires |ActiveRuns(AfterExpiry(db, now, at, l))| <= 100
    ensures var a := AfterExpiry(db, now, at, l);
            var b := AfterDeadRule(db, now, at, dead, l);
            && b.links == a.links && b.runs.Keys == a.runs.Keys
            && (forall r :: r in a.runs ==>
                  b.runs[r] == if Abandoned(a, now, dead, r) then a.runs[r].(status := InReview) else a.runs[r])
            && (forall r :: !Abandoned(b, now, dead, r))
  {
    var a := AfterExpiry(db, now, at, l);
    var b := AfterDeadRule(db, now, at, dead, l);
    ListsEverything(l.held, LiveClaims(a, now), CLAIM_LIMIT);
    ListsEverything(l.active, ActiveRuns(a), RUN_LIMIT);
    MoveDeadFrame(a, a, now, dead, l.held, l.active);
    forall r | r in a.runs ensures Moves(a, dead, l.held, l.active, r) <==> Abandoned(a, now, dead, r) {
      MovesIsAbandoned(a, now, dead, l.held, l.active, r);
    }
    forall r ensures !Abandoned(b, now, dead, r) {
      if r in a.runs && !Abandoned(a, now, dead, r) {
        AbandonedBackwards(a, b, now, dead, r);
      }
    }
  }

  /** A run that is abandoned later was so before, unless it lost a claim or changed its row or links. */
  lemma AbandonedBackwards(a: Db, b: Db, now: int, dead: set<RunId>, r: RunId)
    requires b.links == a.links
    requires LiveRun(b, r) && !b.runs[r].status.Blocked? ==> LiveRun(a, r) && !a.runs[r].status.Blocked?
    requires forall k: ClaimKey :: k.run == r && LiveClaim(a, now, k) ==> LiveClaim(b, now, k)
    ensures Abandoned(b, now, dead, r) ==> Abandoned(a, now, dead, r)
  {
    if Abandoned(b, now, dead, r) {
      assert HasActiveBlocker(a, r) == HasActiveBlocker(b, r);
      forall k | LiveClaim(a, now, k) ensures k.run != r {
        assert k.run == r ==> LiveClaim(b, now, k);
      }
    }
  }

  lemma MovesIsAbandoned(a: Db, now: int, dead: set<RunId>, held: seq<ClaimKey>, active: seq<RunId>, r: RunId)
    requires forall k :: k in held <==> k in LiveClaims(a, now)
    requires forall s :: s in active <==> s in ActiveRuns(a)
    ensures Moves(a, dead, held, active, r) <==> Abandoned(a, now, dead, r)
  {
    if Moves(a, dead, held, active, r) {
      assert r in ActiveRuns(a);
      forall k | LiveClaim(a, now, k) ensures k.run != r {
        assert k in LiveClaims(a, now);
      }
    }
    if Abandoned(a, now, dead, r) {
      assert r in ActiveRuns(a);
      forall k | k in held ensures k.run != r {
        assert k in LiveClaims(a, now);
      }
    }
  }

  /* ---- nothing abandoned is left ---- */

  ghost predicate NoneAbandoned(db: Db, now: int, dead: set<RunId>) {
    forall r :: !Abandoned(db, now, dead, r)
  }

  /** New children take no live claim away. */
  lemma {:induction false} CreateChildrenKeepClaims(db: Db, now: int, meta: Meta, roles: seq<Role>, ids: nat -> RunId, i: nat)
    requires WellFormed(db) && i <= |roles|
    requires CreateChildren(db, now, meta, roles, ids, i).result.Ok?
    ensures forall k :: LiveClaim(db, now, k) ==> LiveClaim(CreateChildren(db, now, meta, roles, ids, i).db, now, k)
    decreases |roles| - i
  {
    if i < |roles| {
      CreateChildOnLive(db, now, ids(i), meta, roles[i].mode);
      CreateChildSound(db, now, ids(i), meta, roles[i].mode);
      CreateChildrenKeepClaims(CreateChild(db, now, ids(i), meta, roles[i].mode).db, now, meta, roles, ids, i + 1);
    }
  }

  /** A change that keeps the live claims of its live runs and starts no dead run abandons nobody. */
  lemma NobodyNewIsAbandoned(a: Db, b: Db, now: int, dead: set<RunId>)
    requires NoneAbandoned(a, now, dead) && b.links == a.links
    requires forall r :: r in b.runs && r !in a.runs ==> r !in dead
    requires forall r :: r in a.runs && LiveRun(b, r) && !b.runs[r].status.Blocked? ==> LiveRun(a, r) && !a.runs[r].status.Blocked?
    requires forall k: ClaimKey :: LiveClaim(a, now, k) && LiveRun(b, k.run) ==> LiveClaim(b, now, k)
    ensures NoneAbandoned(b, now, dead)
  {
    forall r | r in a.runs && LiveRun(b, r) ensures !Abandoned(b, now, dead, r) {
      AbandonedBackwards(a, b, now, dead, r);
    }
  }

  lemma MaterializeAbandonsNone(db: Db, now: int, dead: set<RunId>, p: RunId, ids: nat -> RunId)
    requires WellFormed(db) && NoneAbandoned(db, now, dead)
    requires forall i :: ids(i) !in dead
    ensures NoneAbandoned(Materialize(db, now, p, ids).db, now, dead)
  {
    var out := Materialize(db, now, p, ids);
    if out.result == Ok(true) {
      var roles := ResumeRoles(db.runs[p].meta);
      var meta := ChildMeta(p, db.runs[p].meta, |roles|);
      MaterializeShape(db, now, p, ids);
      CreateChildrenSound(db, now, meta, roles, ids, 0);
      CreateChildrenAbandonNone(db, now, dead, meta, roles, ids);
      NobodyNewIsAbandoned(CreateChildren(db, now, meta, roles, ids, 0).db, out.db, now, dead);
    }
  }

  lemma CreateChildrenAbandonNone(db: Db, now: int, dead: set<RunId>, meta: Meta, roles: seq<Role>, ids: nat -> RunId)
    requires WellFormed(db) && NoneAbandoned(db, now, dead) && CreateChildren(db, now, meta, roles, ids, 0).result.Ok?
    requires forall i :: ids(i) !in dead
    ensures NoneAbandoned(CreateChildren(db, now, meta, roles, ids, 0).db, now, dead)
  {
    var made := CreateChildren(db, now, meta, roles, ids, 0).db;
    CreateChildrenRuns(db, now, meta, roles, ids, 0);
    CreateChildrenSound(db, now, meta, roles, ids, 0);
    CreateChildrenKeepClaims(db, now, meta, roles, ids, 0);
    forall r | r in made.runs && r !in db.runs ensures r !in dead {
      WithChildrenLookup(db.runs, meta, ids, 0, |roles|, r);
    }
    NobodyNewIsAbandoned(db, made, now, dead);
  }

  lemma ReconcileAbandonsNone(db: Db, now: int, dead: set<RunId>, p: RunId)
    requires NoneAbandoned(db, now, dead)
    ensures NoneAbandoned(Reconcile(db, now, p).db, now, dead)
  {
    if p in db.runs && Reconciles(db, p) {
      ToReviewFrame(db, now, p);
      NobodyNewIsAbandoned(db, ToReview(db, now, p), now, dead);
    }
  }

  lemma {:induction false} MaterializeReadyAbandonsNone(
      db: Db, seen: Db, now: int, dead: set<RunId>, rows: seq<RunId>, ids: RunId -> nat -> RunId)
    requires WellFormed(db) && NoneAbandoned(db, now, dead)
    requires forall p, i :: ids(p)(i) !in dead
    ensures NoneAbandoned(MaterializeReady(db, seen, now, rows, ids), now, dead)
    decreases |rows|
  {
    if rows != [] {
      MaterializeAbandonsNone(db, now, dead, rows[0], ids(rows[0]));
      MaterializeSound(db, now, rows[0], ids(rows[0]));
      var next := if ReadyParent(db, seen, rows[0]) then Materialize(db, now, rows[0], ids(rows[0])).db else db;
      MaterializeReadyAbandonsNone(next, seen, now, dead, rows[1..], ids);
    }
  }

  lemma {:induction false} ReconcileAllAbandonsNone(db: Db, seen: Db, now: int, dead: set<RunId>, rows: seq<RunId>)
    requires NoneAbandoned(db, now, dead)
    ensures NoneAbandoned(ReconcileAll(db, seen, now, rows), now, dead)
    decreases |rows|
  {
    if rows != [] {
      ReconcileAbandonsNone(db, now, dead, rows[0]);
      var next := if rows[0] in seen.runs && IsSwarmParent(seen.runs[rows[0]]) then Reconcile(db, now, rows[0]).db else db;
      ReconcileAllAbandonsNone(next, seen, now, dead, rows[1..]);
    }
  }

  /** After a pass within the limits, no live run is dead, unblocked and without a live claim. */
  lemma PassLeavesNoneAbandoned(db: Db, now: int, at: int, dead: set<RunId>, l: Listing, ids: RunId -> nat -> RunId)
    requires WellFormed(db) && ValidListing(db, now, at, dead, l, ids)
    requires |LiveClaims(AfterExpiry(db, now, at, l), now)| <= 500
    requires |ActiveRuns(AfterExpiry(db, now, at, l))| <= 100
    requires forall p, i :: ids(p)(i) !in dead
    ensures NoneAbandoned(Pass(db, now, at, dead, l, ids), now, dead)
  {
    DeadRuleIff(db, now, at, dead, l, ids);
    var a := AfterExpiry(db, now, at, l);
    AfterExpirySound(db, now, at, l);
    var b := AfterDeadRule(db, now, at, dead, l);
    MoveDeadSound(a, a, now, dead, l.held, l.active);
    MaterializeReadyAbandonsNone(b, b, now, dead, l.ready, ids);
    var c := AfterMaterialize(db, now, at, dead, l, ids);
    ReconcileAllAbandonsNone(c, c, now, dead, l.parents);
  }

  /* ---- the expiry loop ---- */

  /** The row has a deadline, and it has passed. */
  predicate Overdue(db: Db, at: int, d: ClaimKey) {
    d in db.claims && db.claims[d].expires.Some? && at >= db.claims[d].expires.value
  }

  /** A plain live claim survives the loop exactly when no overdue row of the list shares its run and path; else it expires. */
  lemma {:induction false} ExpireDueSpares(db: Db, seen: Db, now: int, at: int, rows: seq<ClaimKey>, k: ClaimKey)
    requires db.runs.Keys == seen.runs.Keys && (forall d :: d in seen.claims ==> d.run in seen.runs)
    requires k in db.claims && Current(db.claims[k], now) && db.claims[k].kind.PlainClaim?
    ensures k in ExpireDue(db, seen, now, at, rows).claims
    ensures ExpireDue(db, seen, now, at, rows).claims[k].status
         == if exists d :: d in rows && Overdue(seen, at, d) && d.run == k.run && d.path == k.path then Expired else Active
    decreases |rows|
  {
    if rows != [] {
      var d := rows[0];
      var next := if Due(seen, at, d) then ReleaseClaims(db, now, d.run, Some(d.path), None, AsExpired).db else db;
      if Due(seen, at, d) && d.run == k.run && d.path == k.path {
        assert next.claims[k].status.Expired?;
        ExpiredStaysExpired(next, seen, now, at, rows[1..], k);
      } else {
        ExpireDueSpares(next, seen, now, at, rows[1..], k);
        assert rows == [d] + rows[1..];
      }
    }
  }

  lemma {:induction false} ExpiredStaysExpired(db: Db, seen: Db, now: int, at: int, rows: seq<ClaimKey>, k: ClaimKey)
    requires k in db.claims && db.claims[k].status.Expired?
    ensures k in ExpireDue(db, seen, now, at, rows).claims && ExpireDue(db, seen, now, at, rows).claims[k].status.Expired?
    decreases |rows|
  {
    if rows != [] {
      var d := rows[0];
      var next := if Due(seen, at, d) then ReleaseClaims(db, now, d.run, Some(d.path), None, AsExpired).db else db;
      ExpiredStaysExpired(next, seen, now, at, rows[1..], k);
    }
  }
}
