/**
 Swarm parents and their children over whole runs: children are created at most once, and then all of them; a parent is
 put to review only over children that have stopped.
 */
module SwarmRuns {
  import opened Options
  import opened AgentTables
  import opened Claims
  import opened ClaimLaws
  import opened AgentRuns
  import opened AgentRunLaws
  import opened Swarm
  import opened SwarmLaws
  import opened Orchestrator
  import opened OrchestratorLaws
  import opened ProtocolRuns

  /* ---- children are created once ---- */

  function Offspring(db: Db, p: RunId): set<RunId> {
    set r | r in db.runs && db.runs[r].meta.parent == Some(p)
  }

  /** New children of a known parent come only with its materialization flag being set. */
  ghost predicate OffspringRule(a: Db, b: Db) {
    && a.runs.Keys <= b.runs.Keys
    && (forall r :: r in a.runs ==>
          && (a.runs[r].meta.materialized ==> b.runs[r].meta.materialized)
          && b.runs[r].meta.parent == a.runs[r].meta.parent)
    && (forall r, p :: r in b.runs && r !in a.runs && b.runs[r].meta.parent == Some(p) && p in a.runs
          ==> !a.runs[p].meta.materialized && b.runs[p].meta.materialized)
  }

  lemma OffspringTransitive(a: Db, b: Db, c: Db)
    requires OffspringRule(a, b) && OffspringRule(b, c)
    ensures OffspringRule(a, c)
  {
    forall r | r in a.runs
      ensures (a.runs[r].meta.materialized ==> c.runs[r].meta.materialized) && c.runs[r].meta.parent == a.runs[r].meta.parent
    {
      assert r in b.runs;
    }
    forall r, p | r in c.runs && r !in a.runs && c.runs[r].meta.parent == Some(p) && p in a.runs
      ensures !a.runs[p].meta.materialized && c.runs[p].meta.materialized
    {
      assert p in b.runs;
      assert r in b.runs ==> b.runs[r].meta.parent == Some(p);
    }
  }

  lemma MaterializeOffspring(db: Db, now: int, p: RunId, ids: nat -> RunId)
    ensures OffspringRule(db, Materialize(db, now, p, ids).db)
  {
    var out := Materialize(db, now, p, ids);
    if out.result == Ok(true) {
      var roles := ResumeRoles(db.runs[p].meta);
      var meta := ChildMeta(p, db.runs[p].meta, |roles|);
      MaterializeShape(db, now, p, ids);
      CreateChildrenRuns(db, now, meta, roles, ids, 0);
      CreateChildrenSound(db, now, meta, roles, ids, 0);
      forall r | r in out.db.runs && r !in db.runs ensures out.db.runs[r].meta.parent == Some(p) {
        WithChildrenLookup(db.runs, meta, ids, 0, |roles|, r);
      }
    }
  }

  lemma {:induction false} MaterializeReadyOffspring(db: Db, seen: Db, now: int, rows: seq<RunId>, ids: RunId -> nat -> RunId)
    ensures OffspringRule(db, MaterializeReady(db, seen, now, rows, ids))
    decreases |rows|
  {
    if rows != [] {
      var next := if ReadyParent(db, seen, rows[0]) then Materialize(db, now, rows[0], ids(rows[0])).db else db;
      MaterializeOffspring(db, now, rows[0], ids(rows[0]));
      MaterializeReadyOffspring(next, seen, now, rows[1..], ids);
      OffspringTransitive(db, next, MaterializeReady(next, seen, now, rows[1..], ids));
    }
  }

  lemma {:induction false} ExpireDueRuns(db: Db, seen: Db, now: int, at: int, rows: seq<ClaimKey>)
    ensures ExpireDue(db, seen, now, at, rows).runs == db.runs
    decreases |rows|
  {
    if rows != [] {
      var next := if Due(seen, at, rows[0]) then ReleaseClaims(db, now, rows[0].run, Some(rows[0].path), None, AsExpired).db else db;
      ExpireDueRuns(next, seen, now, at, rows[1..]);
    }
  }

  /** A call that starts no run keeps the rule by keeping the metadata. */
  lemma SameRunsOffspring(a: Db, b: Db)
    requires b.runs.Keys == a.runs.Keys
    requires forall r :: r in a.runs ==> b.runs[r].meta == a.runs[r].meta
    ensures OffspringRule(a, b)
  {
  }

  lemma {:induction false} ReconcileAllOffspring(db: Db, seen: Db, now: int, rows: seq<RunId>)
    ensures OffspringRule(db, ReconcileAll(db, seen, now, rows))
    decreases |rows|
  {
    if rows != [] {
      var next := if rows[0] in seen.runs && IsSwarmParent(seen.runs[rows[0]]) then Reconcile(db, now, rows[0]).db else db;
      if rows[0] in db.runs {
        ToReviewFrame(db, now, rows[0]);
      }
      assert OffspringRule(db, next);
      ReconcileAllOffspring(next, seen, now, rows[1..]);
      OffspringTransitive(db, next, ReconcileAll(next, seen, now, rows[1..]));
    }
  }

  lemma PassOffspring(db: Db, now: int, at: int, dead: set<RunId>, l: Listing, ids: RunId -> nat -> RunId)
    ensures OffspringRule(db, Pass(db, now, at, dead, l, ids))
  {
    var seen := ExpireStale(db, now, None);
    ExpireDueRuns(seen, seen, now, at, l.due);
    var a := AfterExpiry(db, now, at, l);
    MoveDeadFrame(a, a, now, dead, l.held, l.active);
    var b := AfterDeadRule(db, now, at, dead, l);
    forall r | r in db.runs ensures b.runs[r].meta == db.runs[r].meta {
      assert a.runs[r] == db.runs[r];
    }
    SameRunsOffspring(db, b);
    MaterializeReadyOffspring(b, b, now, l.ready, ids);
    var c := AfterMaterialize(db, now, at, dead, l, ids);
    OffspringTransitive(db, b, c);
    ReconcileAllOffspring(c, c, now, l.parents);
    OffspringTransitive(db, c, Pass(db, now, at, dead, l, ids));
  }

  predicate SwarmStep(step: Step) {
    step.MaterializeStep? || step.ReconcileStep? || step.PassStep?
  }

  lemma ReconcileOffspring(db: Db, now: int, r: RunId)
    ensures OffspringRule(db, Reconcile(db, now, r).db)
  {
    if r in db.runs {
      ToReviewFrame(db, now, r);
    }
  }

  lemma SwarmStepOffspring(s: State, step: Step)
    requires SwarmStep(step)
    ensures OffspringRule(s.db, Call(s.db, s.now, step))
  {
    if step.MaterializeStep? {
      MaterializeOffspring(s.db, s.now, step.run, step.ids);
    } else if step.ReconcileStep? {
      ReconcileOffspring(s.db, s.now, step.run);
    } else {
      PassOffspring(s.db, s.now, step.at, step.dead, step.listing, step.childIds);
    }
  }

  /** The materialization flag, once set, survives every step. */
  lemma {:induction false} FlagSticks(t: Trace, i: nat, j: nat, p: RunId)
    requires IsTrace(t) && i <= j < |t.states|
    requires p in t.states[i].db.runs && t.states[i].db.runs[p].meta.materialized
    ensures p in t.states[j].db.runs && t.states[j].db.runs[p].meta.materialized
    decreases j - i
  {
    if i < j {
      FlagSticks(t, i, j - 1, p);
      assert StepAt(t, j - 1);
      AnyStepKeepsRuns(t.states[j - 1], t.steps[j - 1]);
    }
  }

  predicate Spawns(t: Trace, i: nat, p: RunId)
    requires |t.states| == |t.steps| + 1 && i < |t.steps|
  {
    SwarmStep(t.steps[i]) && p in t.states[i].db.runs && Offspring(t.states[i + 1].db, p) != Offspring(t.states[i].db, p)
  }

  /** Over any run, swarm calls and orchestrator passes create the children of a parent in at most one step. */
  lemma ChildrenAreCreatedOnce(t: Trace, i: nat, j: nat, p: RunId)
    requires IsTrace(t) && i < |t.steps| && j < |t.steps|
    requires Spawns(t, i, p) && Spawns(t, j, p)
    ensures i == j
  {
    SpawnSetsFlag(t, i, p);
    SpawnSetsFlag(t, j, p);
    if i < j {
      FlagSticks(t, i + 1, j, p);
    } else if j < i {
      FlagSticks(t, j + 1, i, p);
    }
  }

  lemma SpawnSetsFlag(t: Trace, i: nat, p: RunId)
    requires IsTrace(t) && i < |t.steps| && Spawns(t, i, p)
    ensures !t.states[i].db.runs[p].meta.materialized
    ensures p in t.states[i + 1].db.runs && t.states[i + 1].db.runs[p].meta.materialized
  {
    var a, b := t.states[i].db, t.states[i + 1].db;
    assert StepAt(t, i);
    SwarmStepOffspring(t.states[i], t.steps[i]);
    assert forall r :: r in Offspring(a, p) ==> r in Offspring(b, p);
    var r :| r in Offspring(b, p) && r !in Offspring(a, p);
    assert r !in a.runs;
  }

  /* ---- all children or none ---- */

  /** A queued child with a live claim, in the mode of its role, on every selected file. */
  ghost predicate Equipped(db: Db, now: int, r: RunId, meta: Meta, mode: Option<Mode>) {
    && r in db.runs && db.runs[r] == Run(Queued, false, meta)
    && forall path | path in meta.paths :: mode.Some? && LiveClaim(db, now, ClaimKey(r, path, mode.value))
  }

  /**
   What `a` lacks and `b` has: one new, equipped child of the leading parent for each of its roles, working on the
   parent's selected files, and no other child.
   */
  ghost predicate WholeSwarm(a: Db, b: Db, now: int, p: RunId, ids: nat -> RunId) {
    && p in a.runs
    && var roles := ResumeRoles(a.runs[p].meta);
       && 0 < |roles|
       && a.runs[p].meta.parent == None && a.runs[p].meta.lead && !a.runs[p].meta.materialized
       && Offspring(b, p) == Offspring(a, p) + (set c: nat | c < |roles| :: ids(c))
       && (forall c: nat | c < |roles| :: ids(c) !in a.runs)
       && (forall c: nat, d: nat | c < d < |roles| :: ids(c) != ids(d))
       && forall c: nat | c < |roles| ::
            Equipped(b, now, ids(c), Meta(Some(p), false, false, 0, [], |roles|, a.runs[p].meta.paths), roles[c].mode)
  }

  lemma {:induction false} CreateChildrenClaims(db: Db, now: int, meta: Meta, roles: seq<Role>, ids: nat -> RunId, i: nat,
                                                c: nat, path: Path)
    requires WellFormed(db) && i <= c < |roles| && path in meta.paths
    requires CreateChildren(db, now, meta, roles, ids, i).result.Ok?
    ensures roles[c].mode.Some?
    ensures LiveClaim(CreateChildren(db, now, meta, roles, ids, i).db, now, ClaimKey(ids(c), path, roles[c].mode.value))
    decreases |roles| - i
  {
    var one := CreateChild(db, now, ids(i), meta, roles[i].mode).db;
    CreateChildOnLive(db, now, ids(i), meta, roles[i].mode);
    CreateChildSound(db, now, ids(i), meta, roles[i].mode);
    if i < c {
      CreateChildrenClaims(one, now, meta, roles, ids, i + 1, c, path);
    } else {
      assert ClaimedBy(ClaimKey(ids(i), path, roles[i].mode.value), ids(i), meta.paths, roles[i].mode);
      CreateChildrenKeepClaims(one, now, meta, roles, ids, i + 1);
    }
  }

  /** A materialization that succeeds: the children, and then the mark on the parent. */
  lemma MaterializedShape(db: Db, now: int, p: RunId, ids: nat -> RunId)
    requires WellFormed(db) && p in db.runs && Materialize(db, now, p, ids).result == Ok(true)
    ensures var roles := ResumeRoles(db.runs[p].meta);
            var meta := ChildMeta(p, db.runs[p].meta, |roles|);
            var made := CreateChildren(db, now, meta, roles, ids, 0);
            && MaterializeRefusal(db, p).None?
            && made.result.Ok?
            && made.db.runs == WithChildren(db.runs, meta, ids, 0, |roles|)
            && (forall c: nat | c < |roles| :: ids(c) !in db.runs)
            && (forall c: nat, d: nat | c < d < |roles| :: ids(c) != ids(d))
            && p in made.db.runs && made.db.runs[p] == db.runs[p]
            && Materialize(db, now, p, ids).db == MarkMaterialized(made.db, p)
  {
    var roles := ResumeRoles(db.runs[p].meta);
    var meta := ChildMeta(p, db.runs[p].meta, |roles|);
    MaterializeShape(db, now, p, ids);
    CreateChildrenIff(db, now, meta, roles, ids, 0);
    CreateChildrenRuns(db, now, meta, roles, ids, 0);
    WithChildrenLookup(db.runs, meta, ids, 0, |roles|, p);
  }

  /** Marking a parent that is queued or ready disturbs no child and no live claim. */
  lemma MarkKeeps(db: Db, now: int, p: RunId)
    requires p in db.runs && (db.runs[p].status.Queued? || db.runs[p].status.Ready?)
    ensures var b := MarkMaterialized(db, p);
            && (forall r | r in db.runs && r != p :: b.runs[r] == db.runs[r])
            && (forall k: ClaimKey :: LiveClaim(db, now, k) ==> LiveClaim(b, now, k))
            && (forall q :: Offspring(b, q) == Offspring(db, q))
  {
    forall q
      ensures Offspring(MarkMaterialized(db, p), q) == Offspring(db, q)
    {
    }
  }

  lemma WithChildrenOffspring(db: Db, made: Db, p: RunId, meta: Meta, ids: nat -> RunId, n: nat, q: RunId)
    requires made.runs == WithChildren(db.runs, meta, ids, 0, n) && meta.parent == Some(p)
    requires forall c: nat | c < n :: ids(c) !in db.runs
    ensures Offspring(made, q) == Offspring(db, q) + if q == p then (set c: nat | c < n :: ids(c)) else {}
    ensures forall c: nat | c < n :: ids(c) in made.runs && made.runs[ids(c)] == Run(Queued, false, meta)
    ensures forall r | r in db.runs :: r in made.runs && made.runs[r] == db.runs[r]
  {
    forall r {
      WithChildrenLookup(db.runs, meta, ids, 0, n, r);
    }
  }

  lemma MaterializedEquips(db: Db, now: int, p: RunId, ids: nat -> RunId, c: nat)
    requires WellFormed(db) && p in db.runs && Materialize(db, now, p, ids).result == Ok(true)
    requires c < |ResumeRoles(db.runs[p].meta)|
    ensures var roles := ResumeRoles(db.runs[p].meta);
            Equipped(Materialize(db, now, p, ids).db, now, ids(c), ChildMeta(p, db.runs[p].meta, |roles|), roles[c].mode)
  {
    var roles := ResumeRoles(db.runs[p].meta);
    var meta := ChildMeta(p, db.runs[p].meta, |roles|);
    var made := CreateChildren(db, now, meta, roles, ids, 0).db;
    MaterializedShape(db, now, p, ids);
    WithChildrenOffspring(db, made, p, meta, ids, |roles|, p);
    MarkKeeps(made, now, p);
    forall path | path in meta.paths
      ensures roles[c].mode.Some? && LiveClaim(MarkMaterialized(made, p), now, ClaimKey(ids(c), path, roles[c].mode.value))
    {
      CreateChildrenClaims(db, now, meta, roles, ids, 0, c, path);
    }
  }

  /** One call: the parent gets its whole swarm, and nobody else gets a child. */
  lemma MaterializedWhole(db: Db, now: int, p: RunId, ids: nat -> RunId)
    requires WellFormed(db) && p in db.runs && Materialize(db, now, p, ids).result == Ok(true)
    ensures var b := Materialize(db, now, p, ids).db;
            && WholeSwarm(db, b, now, p, ids)
            && p in b.runs && b.runs[p].meta.materialized
            && forall q | q in db.runs && q != p :: Offspring(b, q) == Offspring(db, q) && q in b.runs && b.runs[q] == db.runs[q]
  {
    var roles := ResumeRoles(db.runs[p].meta);
    var meta := ChildMeta(p, db.runs[p].meta, |roles|);
    var made := CreateChildren(db, now, meta, roles, ids, 0).db;
    MaterializedShape(db, now, p, ids);
    MarkKeeps(made, now, p);
    forall q {
      WithChildrenOffspring(db, made, p, meta, ids, |roles|, q);
    }
    forall c: nat | c < |roles|
      ensures Equipped(MarkMaterialized(made, p), now, ids(c), meta, roles[c].mode)
    {
      MaterializedEquips(db, now, p, ids, c);
    }
  }

  /* what comes later in the same pass leaves the children alone */

  lemma MaterializeKeepsChild(db: Db, now: int, q: RunId, ids: nat -> RunId, r: RunId, meta: Meta, mode: Option<Mode>)
    requires WellFormed(db) && Equipped(db, now, r, meta, mode) && meta.parent.Some?
    ensures Equipped(Materialize(db, now, q, ids).db, now, r, meta, mode)
  {
    if Materialize(db, now, q, ids).result == Ok(true) {
      var roles := ResumeRoles(db.runs[q].meta);
      var childMeta := ChildMeta(q, db.runs[q].meta, |roles|);
      var made := CreateChildren(db, now, childMeta, roles, ids, 0).db;
      MaterializedShape(db, now, q, ids);
      WithChildrenOffspring(db, made, q, childMeta, ids, |roles|, q);
      CreateChildrenKeepClaims(db, now, childMeta, roles, ids, 0);
      MarkKeeps(made, now, q);
      assert r != q;
    }
  }

  lemma {:induction false} MaterializeReadyKeepsChild(
      db: Db, seen: Db, now: int, rows: seq<RunId>, ids: RunId -> nat -> RunId, r: RunId, meta: Meta, mode: Option<Mode>)
    requires WellFormed(db) && Equipped(db, now, r, meta, mode) && meta.parent.Some?
    ensures Equipped(MaterializeReady(db, seen, now, rows, ids), now, r, meta, mode)
    decreases |rows|
  {
    if rows != [] {
      var next := if ReadyParent(db, seen, rows[0]) then Materialize(db, now, rows[0], ids(rows[0])).db else db;
      MaterializeKeepsChild(db, now, rows[0], ids(rows[0]), r, meta, mode);
      MaterializeSound(db, now, rows[0], ids(rows[0]));
      MaterializeReadyKeepsChild(next, seen, now, rows[1..], ids, r, meta, mode);
    }
  }

  lemma ReconcileKeepsChild(db: Db, now: int, q: RunId, r: RunId, meta: Meta, mode: Option<Mode>)
    requires Equipped(db, now, r, meta, mode) && meta.parent.Some?
    ensures Equipped(Reconcile(db, now, q).db, now, r, meta, mode)
  {
    if q in db.runs && Reconciles(db, q) {
      ReconcileTouchesOnly(db, now, q);
      assert r != q;
    }
  }

  lemma {:induction false} ReconcileAllKeepsChild(
      db: Db, seen: Db, now: int, rows: seq<RunId>, r: RunId, meta: Meta, mode: Option<Mode>)
    requires Equipped(db, now, r, meta, mode) && meta.parent.Some?
    ensures Equipped(ReconcileAll(db, seen, now, rows), now, r, meta, mode)
    decreases |rows|
  {
    if rows != [] {
      var next := if rows[0] in seen.runs && IsSwarmParent(seen.runs[rows[0]]) then Reconcile(db, now, rows[0]).db else db;
      ReconcileKeepsChild(db, now, rows[0], r, meta, mode);
      ReconcileAllKeepsChild(next, seen, now, rows[1..], r, meta, mode);
    }
  }

  lemma FlaggedGainsNone(a: Db, b: Db, p: RunId)
    requires OffspringRule(a, b) && p in a.runs && a.runs[p].meta.materialized
    ensures Offspring(b, p) == Offspring(a, p)
  {
  }

  /** The parent's children, and all that `WholeSwarm` says of them, are the same in `b` as in `a`. */
  lemma SwarmStays(base: Db, a: Db, b: Db, now: int, p: RunId, ids: nat -> RunId)
    requires WholeSwarm(base, a, now, p, ids) && Offspring(b, p) == Offspring(a, p)
    requires var roles := ResumeRoles(base.runs[p].meta);
             forall c: nat | c < |roles| ::
               Equipped(b, now, ids(c), ChildMeta(p, base.runs[p].meta, |roles|), roles[c].mode)
    ensures WholeSwarm(base, b, now, p, ids)
  {
  }

  lemma SwarmStaysWhole(base: Db, db: Db, seen: Db, now: int, rows: seq<RunId>, ids: RunId -> nat -> RunId, p: RunId)
    requires WellFormed(db) && WholeSwarm(base, db, now, p, ids(p)) && p in db.runs && db.runs[p].meta.materialized
    ensures WholeSwarm(base, MaterializeReady(db, seen, now, rows, ids), now, p, ids(p))
  {
    var b := MaterializeReady(db, seen, now, rows, ids);
    var roles := ResumeRoles(base.runs[p].meta);
    MaterializeReadyOffspring(db, seen, now, rows, ids);
    FlaggedGainsNone(db, b, p);
    forall c: nat | c < |roles|
      ensures Equipped(b, now, ids(p)(c), ChildMeta(p, base.runs[p].meta, |roles|), roles[c].mode)
    {
      MaterializeReadyKeepsChild(db, seen, now, rows, ids, ids(p)(c), ChildMeta(p, base.runs[p].meta, |roles|), roles[c].mode);
    }
    SwarmStays(base, db, b, now, p, ids(p));
  }

  /** Tables in which the parent is as in `a` and has the same children make the same whole swarm. */
  lemma WholeFromEarlier(a: Db, mid: Db, b: Db, now: int, p: RunId, ids: nat -> RunId)
    requires WholeSwarm(mid, b, now, p, ids)
    requires p in a.runs && a.runs.Keys <= mid.runs.Keys
    requires a.runs[p].meta == mid.runs[p].meta && Offspring(a, p) == Offspring(mid, p)
    ensures WholeSwarm(a, b, now, p, ids)
  {
  }

  /** The loop of a pass: the parent gets no child, or its whole swarm, however often it is listed. */
  lemma {:induction false} MaterializeReadyWhole(
      db: Db, seen: Db, now: int, rows: seq<RunId>, ids: RunId -> nat -> RunId, p: RunId)
    requires WellFormed(db) && p in db.runs
    ensures var b := MaterializeReady(db, seen, now, rows, ids);
            Offspring(b, p) == Offspring(db, p) || WholeSwarm(db, b, now, p, ids(p))
    decreases |rows|, 0
  {
    if rows != [] {
      var q := rows[0];
      var next := if ReadyParent(db, seen, q) then Materialize(db, now, q, ids(q)).db else db;
      MaterializeSound(db, now, q, ids(q));
      if next == db {
        MaterializeReadyWhole(db, seen, now, rows[1..], ids, p);
      } else {
        assert Materialize(db, now, q, ids(q)).result == Ok(true);
        MaterializedWhole(db, now, q, ids(q));
        MaterializedThenRest(db, next, seen, now, rows[1..], ids, p, q);
      }
    }
  }

  lemma {:induction false} MaterializedThenRest(
      db: Db, next: Db, seen: Db, now: int, rows: seq<RunId>, ids: RunId -> nat -> RunId, p: RunId, q: RunId)
    requires WellFormed(next) && p in db.runs && q in db.runs && db.runs.Keys <= next.runs.Keys
    requires WholeSwarm(db, next, now, q, ids(q)) && next.runs[q].meta.materialized
    requires q != p ==> Offspring(next, p) == Offspring(db, p) && next.runs[p] == db.runs[p]
    ensures var b := MaterializeReady(next, seen, now, rows, ids);
            Offspring(b, p) == Offspring(db, p) || WholeSwarm(db, b, now, p, ids(p))
    decreases |rows|, 1
  {
    if p == q {
      SwarmStaysWhole(db, next, seen, now, rows, ids, p);
    } else {
      MaterializeReadyWhole(next, seen, now, rows, ids, p);
      var b := MaterializeReady(next, seen, now, rows, ids);
      if Offspring(b, p) != Offspring(next, p) {
        WholeFromEarlier(db, next, b, now, p, ids(p));
      }
    }
  }

  lemma BeforeMaterialize(db: Db, now: int, at: int, dead: set<RunId>, l: Listing)
    ensures var b := AfterDeadRule(db, now, at, dead, l);
            && (WellFormed(db) ==> WellFormed(b))
            && b.runs.Keys == db.runs.Keys
            && (forall r | r in db.runs :: b.runs[r].meta == db.runs[r].meta)
  {
    var seen := ExpireStale(db, now, None);
    ExpireDueRuns(seen, seen, now, at, l.due);
    var a := AfterExpiry(db, now, at, l);
    AfterExpirySound(db, now, at, l);
    MoveDeadFrame(a, a, now, dead, l.held, l.active);
    MoveDeadSound(a, a, now, dead, l.held, l.active);
    forall r | r in db.runs
      ensures AfterDeadRule(db, now, at, dead, l).runs[r].meta == db.runs[r].meta
    {
      assert a.runs[r] == db.runs[r];
    }
  }

  lemma SameParentsSameOffspring(a: Db, b: Db, p: RunId)
    requires b.runs.Keys == a.runs.Keys && forall r | r in a.runs :: b.runs[r].meta == a.runs[r].meta
    ensures Offspring(b, p) == Offspring(a, p)
  {
  }

  lemma PassWhole(db: Db, now: int, at: int, dead: set<RunId>, l: Listing, ids: RunId -> nat -> RunId, p: RunId)
    requires WellFormed(db) && p in db.runs
    ensures var b := Pass(db, now, at, dead, l, ids);
            Offspring(b, p) == Offspring(db, p) || WholeSwarm(db, b, now, p, ids(p))
  {
    var a := AfterDeadRule(db, now, at, dead, l);
    BeforeMaterialize(db, now, at, dead, l);
    SameParentsSameOffspring(db, a, p);
    MaterializeReadyWhole(a, a, now, l.ready, ids, p);
    var c := AfterMaterialize(db, now, at, dead, l, ids);
    var b := Pass(db, now, at, dead, l, ids);
    ReconcileAllOnlyReviews(c, c, now, l.parents);
    SameParentsSameOffspring(c, b, p);
    if Offspring(c, p) != Offspring(a, p) {
      ReconciledSwarmIsWhole(a, c, now, l.parents, p, ids(p));
      WholeFromEarlier(db, a, b, now, p, ids(p));
    }
  }

  lemma ReconciledSwarmIsWhole(base: Db, c: Db, now: int, rows: seq<RunId>, p: RunId, ids: nat -> RunId)
    requires WholeSwarm(base, c, now, p, ids)
    requires Offspring(ReconcileAll(c, c, now, rows), p) == Offspring(c, p)
    ensures WholeSwarm(base, ReconcileAll(c, c, now, rows), now, p, ids)
  {
    var b := ReconcileAll(c, c, now, rows);
    var roles := ResumeRoles(base.runs[p].meta);
    forall i: nat | i < |roles|
      ensures Equipped(b, now, ids(i), ChildMeta(p, base.runs[p].meta, |roles|), roles[i].mode)
    {
      ReconcileAllKeepsChild(c, c, now, rows, ids(i), ChildMeta(p, base.runs[p].meta, |roles|), roles[i].mode);
    }
    SwarmStays(base, c, b, now, p, ids);
  }

  lemma MaterializeWhole(db: Db, now: int, r: RunId, ids: nat -> RunId, p: RunId)
    requires WellFormed(db) && p in db.runs
    ensures var b := Materialize(db, now, r, ids).db;
            Offspring(b, p) == Offspring(db, p) || (r == p && WholeSwarm(db, b, now, p, ids))
  {
    if Materialize(db, now, r, ids).result == Ok(true) {
      MaterializedWhole(db, now, r, ids);
    }
  }

  lemma ReconcileMakesNone(db: Db, now: int, r: RunId, p: RunId)
    ensures Offspring(Reconcile(db, now, r).db, p) == Offspring(db, p)
  {
    ReconcileOnlyReviews(db, now, r);
    SameParentsSameOffspring(db, Reconcile(db, now, r).db, p);
  }

  /** The ids a step would give the children of a parent. */
  function IdsFor(step: Step, p: RunId): nat -> RunId
    requires step.MaterializeStep? || step.PassStep?
  {
    if step.MaterializeStep? then step.ids else step.childIds(p)
  }

  /**
   Over any run, a swarm call or a whole orchestrator pass that gives a parent any child gives it all of them: one new
   child for each of its roles, queued, with a live claim on every selected file, and no other.
   */
  lemma SwarmsAreWhole(t: Trace, i: nat, p: RunId)
    requires IsTrace(t) && i < |t.steps| && WellFormed(t.states[0].db)
    requires Spawns(t, i, p)
    ensures t.steps[i].MaterializeStep? || t.steps[i].PassStep?
    ensures WholeSwarm(t.states[i].db, t.states[i + 1].db, t.states[i].now, p, IdsFor(t.steps[i], p))
  {
    TraceGrows(t, 0, i);
    assert StepAt(t, i);
    StepMakesWholeSwarm(t.states[i], t.steps[i], p);
  }

  lemma StepMakesWholeSwarm(s: State, step: Step, p: RunId)
    requires WellFormed(s.db) && SwarmStep(step) && p in s.db.runs
    requires Offspring(Call(s.db, s.now, step), p) != Offspring(s.db, p)
    ensures step.MaterializeStep? || step.PassStep?
    ensures WholeSwarm(s.db, Call(s.db, s.now, step), s.now, p, IdsFor(step, p))
  {
    if step.MaterializeStep? {
      MaterializeWhole(s.db, s.now, step.run, step.ids, p);
    } else if step.ReconcileStep? {
      ReconcileMakesNone(s.db, s.now, step.run, p);
    } else {
      PassWhole(s.db, s.now, step.at, step.dead, step.listing, step.childIds, p);
    }
  }

  /* ---- parents are reviewed over stopped children ---- */

  /** A parent in review with at least the children it expects, all of them stopped. */
  ghost predicate ChildrenDone(db: Db, p: RunId) {
    && p in db.runs && db.runs[p].status.InReview?
    && 0 < |ChildRuns(db, p)| && ExpectedChildren(db.runs[p].meta) <= |ChildRuns(db, p)|
    && forall r :: r in ChildRuns(db, p) ==> Stopped(db.runs[r].status)
  }

  /** Runs that only went to review. */
  ghost predicate OnlyReviewed(a: Db, b: Db) {
    && b.runs.Keys == a.runs.Keys
    && forall r :: r in a.runs ==> b.runs[r] == a.runs[r] || b.runs[r] == a.runs[r].(status := InReview)
  }

  lemma ReviewKeepsChildrenDone(a: Db, b: Db, p: RunId)
    requires OnlyReviewed(a, b) && ChildrenDone(a, p)
    ensures ChildrenDone(b, p)
  {
    assert ChildRuns(b, p) == ChildRuns(a, p);
  }

  lemma ReconcileOnlyReviews(db: Db, now: int, q: RunId)
    ensures OnlyReviewed(db, Reconcile(db, now, q).db)
    ensures forall p :: p in db.runs && p != q ==> Reconcile(db, now, q).db.runs[p] == db.runs[p]
  {
    if q in db.runs {
      ToReviewFrame(db, now, q);
    }
  }

  /** Reconciliation puts an unstopped run to review only over its stopped children, and they stay so. */
  lemma ReconciledIsDone(db: Db, now: int, p: RunId)
    requires p in db.runs && !Stopped(db.runs[p].status)
    requires Reconcile(db, now, p).db.runs[p].status.InReview?
    ensures ChildrenDone(Reconcile(db, now, p).db, p)
  {
    var b := Reconcile(db, now, p).db;
    ReconcileOnlyReviews(db, now, p);
    assert Reconciles(db, p);
    assert ChildRuns(b, p) == ChildRuns(db, p);
    assert |ChildRuns(db, p)| == 0 <==> ChildRuns(db, p) == {};
  }

  lemma {:induction false} ReconcileAllOnlyReviews(db: Db, seen: Db, now: int, rows: seq<RunId>)
    ensures OnlyReviewed(db, ReconcileAll(db, seen, now, rows))
    decreases |rows|
  {
    if rows != [] {
      var next := if rows[0] in seen.runs && IsSwarmParent(seen.runs[rows[0]]) then Reconcile(db, now, rows[0]).db else db;
      ReconcileOnlyReviews(db, now, rows[0]);
      ReconcileAllOnlyReviews(next, seen, now, rows[1..]);
    }
  }

  lemma {:induction false} ReconcileAllMoves(db: Db, seen: Db, now: int, rows: seq<RunId>, p: RunId)
    requires p in db.runs && !Stopped(db.runs[p].status)
    requires p in ReconcileAll(db, seen, now, rows).runs && ReconcileAll(db, seen, now, rows).runs[p].status.InReview?
    ensures ChildrenDone(ReconcileAll(db, seen, now, rows), p)
    decreases |rows|
  {
    if rows != [] {
      var next := if rows[0] in seen.runs && IsSwarmParent(seen.runs[rows[0]]) then Reconcile(db, now, rows[0]).db else db;
      ReconcileOnlyReviews(db, now, rows[0]);
      if next.runs[p].status.InReview? {
        ReconciledIsDone(db, now, p);
        ReconcileAllOnlyReviews(next, seen, now, rows[1..]);
        ReviewKeepsChildrenDone(next, ReconcileAll(next, seen, now, rows[1..]), p);
      } else {
        ReconcileAllMoves(next, seen, now, rows[1..], p);
      }
    }
  }

  /** The step puts the unstopped run to review by reconciliation, on its own or at the end of a pass. */
  ghost predicate Reviews(s: State, step: Step, p: RunId) {
    && p in Next(s, step).db.runs && Next(s, step).db.runs[p].status.InReview?
    && match step
       case ReconcileStep(r) => r == p && p in s.db.runs && !Stopped(s.db.runs[p].status)
       case PassStep(at, dead, listing, ids) =>
         var before := AfterMaterialize(s.db, s.now, at, dead, listing, ids);
         p in before.runs && !Stopped(before.runs[p].status)
       case _ => false
  }

  lemma ReviewedIsDone(s: State, step: Step, p: RunId)
    requires Reviews(s, step, p)
    ensures ChildrenDone(Next(s, step).db, p)
  {
    match step
    case ReconcileStep(_) => ReconciledIsDone(s.db, s.now, p);
    case PassStep(at, dead, listing, ids) =>
      var before := AfterMaterialize(s.db, s.now, at, dead, listing, ids);
      ReconcileAllMoves(before, before, s.now, listing.parents, p);
  }

  lemma DoneChild(db: Db, p: RunId, r: RunId)
    requires ChildrenDone(db, p) && r in db.runs && db.runs[r].meta.parent == Some(p)
    ensures db.runs[r].archived || Stopped(db.runs[r].status)
  {
    assert !db.runs[r].archived ==> r in ChildRuns(db, p);
  }

  lemma {:induction false} ParentSticks(t: Trace, i: nat, j: nat, r: RunId, p: RunId)
    requires IsTrace(t) && i <= j < |t.states|
    requires r in t.states[i].db.runs && t.states[i].db.runs[r].meta.parent == Some(p)
    ensures r in t.states[j].db.runs && t.states[j].db.runs[r].meta.parent == Some(p)
    decreases j - i
  {
    if i < j {
      ParentSticks(t, i, j - 1, r, p);
      assert StepAt(t, j - 1);
      AnyStepKeepsRuns(t.states[j - 1], t.steps[j - 1]);
    }
  }

  /**
   Over any run, whoever made the children and whatever happens to them in between: when a parent is put to review by
   reconciliation, on its own or in a pass, every run ever made its child has stopped or been archived.
   */
  lemma ReviewedChildrenHaveStopped(t: Trace, i: nat, n: nat, p: RunId, r: RunId)
    requires IsTrace(t) && i <= n + 1 <= |t.steps|
    requires r in t.states[i].db.runs && t.states[i].db.runs[r].meta.parent == Some(p)
    requires Reviews(t.states[n], t.steps[n], p)
    ensures var runs := t.states[n + 1].db.runs;
            r in runs && (runs[r].archived || Stopped(runs[r].status))
  {
    assert StepAt(t, n);
    ParentSticks(t, i, n + 1, r, p);
    ReviewedIsDone(t.states[n], t.steps[n], p);
    DoneChild(t.states[n + 1].db, p, r);
  }
}
