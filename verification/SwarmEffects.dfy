/**
 Exactly when children are made and when a parent is put to review, told by the runs, links and claims in the tables, and
 that a finished swarm does get its review.
 */
module SwarmEffects {
  import opened Options
  import opened AgentTables
  import opened Claims
  import opened ClaimLaws
  import opened ClaimEffects
  import opened AgentRuns
  import opened AgentRunLaws
  import opened RunEffects
  import opened Swarm
  import opened SwarmLaws
  import opened Orchestrator
  import opened OrchestratorLaws
  import opened ProtocolRuns
  import opened SwarmRuns

  /* ---- roles ---- */

  /** How many children the parent's metadata asks for. */
  function AskedFor(meta: Meta): nat {
    if meta.childCount > 0 then meta.childCount else if |meta.roles| > 0 then |meta.roles| else meta.size
  }

  /** Without roles the children read, edit, read and test, in this order, and all others review. */
  lemma DefaultRolesAre(meta: Meta)
    requires meta.roles == []
    ensures var roles := ResumeRoles(meta);
            && |roles| == AskedFor(meta)
            && forall i | 0 <= i < |roles| ::
                 roles[i].mode == Some(match i case 0 => ReadMode case 1 => EditMode case 2 => ReadMode case 3 => TestMode
                                               case _ => ReviewMode)
  {
  }

  function CountNamed(roles: seq<Role>): nat {
    if roles == [] then 0 else (if roles[0].named then 1 else 0) + CountNamed(roles[1..])
  }

  /** With roles the children take the named ones, all of them and in their order. */
  lemma {:induction false} NamedRoleAt(roles: seq<Role>, n: nat)
    requires n < |roles| && roles[n].named
    ensures |NamedRoles(roles)| == CountNamed(roles)
    ensures CountNamed(roles[..n]) < CountNamed(roles) && NamedRoles(roles)[CountNamed(roles[..n])] == roles[n]
  {
    NamedRolesCount(roles);
    if n == 0 {
      assert roles[..0] == [];
    } else {
      NamedRoleAt(roles[1..], n - 1);
      assert roles[..n][1..] == roles[1..][..n - 1];
    }
  }

  lemma {:induction false} NamedRolesCount(roles: seq<Role>)
    ensures |NamedRoles(roles)| == CountNamed(roles)
  {
    if roles != [] {
      NamedRolesCount(roles[1..]);
    }
  }

  /** The `n`-th role, if it is named, is that of the child that as many named roles come before. */
  lemma ResumeRolesAre(meta: Meta, n: nat)
    requires n < |meta.roles| && meta.roles[n].named
    ensures var roles := ResumeRoles(meta);
            && |roles| == CountNamed(meta.roles)
            && CountNamed(meta.roles[..n]) < |roles| && roles[CountNamed(meta.roles[..n])] == meta.roles[n]
  {
    NamedRoleAt(meta.roles, n);
  }

  lemma {:induction false} AllNamed(roles: seq<Role>)
    requires forall r | r in roles :: r.named
    ensures NamedRoles(roles) == roles
  {
    if roles != [] {
      AllNamed(roles[1..]);
    }
  }

  /* ---- when children are made ---- */

  predicate Child(db: Db, p: RunId, r: RunId) {
    r in db.runs && db.runs[r].meta.parent == Some(p) && !db.runs[r].archived
  }

  /** A leading run without parent, queued or ready, unblocked, that never had its swarm and has no child, with a role. */
  ghost predicate Startable(db: Db, p: RunId) {
    && p in db.runs
    && var run := db.runs[p];
       && run.meta.parent == None && run.meta.lead && run.status in {Queued, Ready} && !run.meta.materialized
       && !Waits(db, p) && (forall r :: !Child(db, p, r))
       && if run.meta.roles == [] then AskedFor(run.meta) > 0 else exists role :: role in run.meta.roles && role.named
  }

  lemma {:induction false} SomeNamed(roles: seq<Role>)
    ensures NamedRoles(roles) != [] <==> exists role :: role in roles && role.named
  {
    if roles != [] {
      SomeNamed(roles[1..]);
      assert forall role :: role in roles <==> role == roles[0] || role in roles[1..];
    }
  }

  lemma StartableIff(db: Db, p: RunId)
    requires p in db.runs
    ensures MaterializeRefusal(db, p).None? <==> Startable(db, p)
  {
    SomeNamed(db.runs[p].meta.roles);
    assert HasActiveBlocker(db, p) <==> Waits(db, p);
    assert ChildRuns(db, p) == {} <==> forall r :: !Child(db, p, r) by {
      forall r
        ensures r in ChildRuns(db, p) <==> Child(db, p, r)
      {
      }
    }
  }

  /** Ids that are new and differ, and selected files free for every role and between the roles. */
  ghost predicate Room(db: Db, now: int, paths: seq<Path>, roles: seq<Role>, ids: nat -> RunId) {
    && (forall c: nat | c < |roles| :: ids(c) !in db.runs)
    && (forall c: nat, d: nat | c < d < |roles| :: ids(c) != ids(d))
    && (paths != [] ==>
          && (forall c: nat | c < |roles| ::
                roles[c].mode.Some? && forall path | path in paths :: !HasRival(db, now, ids(c), path, roles[c].mode.value))
          && (forall c: nat, d: nat | c < d < |roles| :: !Clash(roles[c].mode.value, roles[d].mode.value)))
  }

  lemma RoomIff(db: Db, now: int, paths: seq<Path>, roles: seq<Role>, ids: nat -> RunId)
    ensures Creatable(db, now, paths, roles, ids, 0) <==> Room(db, now, paths, roles, ids)
  {
    forall c: nat, path | c < |roles| && path in paths && roles[c].mode.Some?
      ensures Conflicted(db, now, ClaimKey(ids(c), path, roles[c].mode.value))
         <==> HasRival(db, now, ids(c), path, roles[c].mode.value)
    {
      ConflictedIff(db, now, ClaimKey(ids(c), path, roles[c].mode.value));
    }
    forall c: nat | c < |roles| && paths != []
      ensures PathsFree(db, now, ids(c), paths, roles[c].mode)
         <==> roles[c].mode.Some? && forall path | path in paths :: !HasRival(db, now, ids(c), path, roles[c].mode.value)
    {
    }
  }

  /** The parent may start, and there is room for its swarm. */
  ghost predicate Starts(db: Db, now: int, p: RunId, ids: nat -> RunId) {
    Startable(db, p) && Room(db, now, db.runs[p].meta.paths, ResumeRoles(db.runs[p].meta), ids)
  }

  /** One call makes the whole swarm exactly then, and otherwise changes nothing. */
  lemma MaterializeExactly(db: Db, now: int, p: RunId, ids: nat -> RunId)
    requires WellFormed(db) && p in db.runs
    ensures var out := Materialize(db, now, p, ids);
            && (Starts(db, now, p, ids) <==> out.result == Ok(true))
            && if Starts(db, now, p, ids) then WholeSwarm(db, out.db, now, p, ids) && out.db.runs[p].status == Working
               else out.db == db
  {
    StartableIff(db, p);
    RoomIff(db, now, db.runs[p].meta.paths, ResumeRoles(db.runs[p].meta), ids);
    MaterializeIff(db, now, p, ids);
    if Materialize(db, now, p, ids).result == Ok(true) {
      MaterializedWhole(db, now, p, ids);
    }
  }

  /* ---- a pass makes them ---- */

  lemma {:induction false} MaterializeReadySplits(
      db: Db, seen: Db, now: int, front: seq<RunId>, rest: seq<RunId>, ids: RunId -> nat -> RunId)
    ensures MaterializeReady(db, seen, now, front + rest, ids)
         == MaterializeReady(MaterializeReady(db, seen, now, front, ids), seen, now, rest, ids)
    decreases |front|
  {
    if front == [] {
      assert front + rest == rest;
    } else {
      assert (front + rest)[0] == front[0] && (front + rest)[1..] == front[1..] + rest;
      var next := if ReadyParent(db, seen, front[0]) then Materialize(db, now, front[0], ids(front[0])).db else db;
      MaterializeReadySplits(next, seen, now, front[1..], rest, ids);
    }
  }

  /** The rounds of other parents leave this one as it is. */
  lemma {:induction false} OthersLeaveParent(db: Db, seen: Db, now: int, rows: seq<RunId>, ids: RunId -> nat -> RunId, p: RunId)
    requires WellFormed(db) && p in db.runs && p !in rows
    ensures var b := MaterializeReady(db, seen, now, rows, ids);
            WellFormed(b) && p in b.runs && b.runs[p] == db.runs[p] && Offspring(b, p) == Offspring(db, p)
    decreases |rows|
  {
    if rows != [] {
      var q := rows[0];
      var next := if ReadyParent(db, seen, q) then Materialize(db, now, q, ids(q)).db else db;
      MaterializeSound(db, now, q, ids(q));
      if next != db {
        MaterializedWhole(db, now, q, ids(q));
      }
      OthersLeaveParent(next, seen, now, rows[1..], ids, p);
    }
  }

  lemma ReadyIsStartable(db: Db, seen: Db, p: RunId)
    requires p in db.runs && p in seen.runs && db.runs[p] == seen.runs[p] && Startable(db, p)
    ensures ReadyParent(db, seen, p)
  {
    StartableIff(db, p);
  }

  /** The tables at the turn of the `i`-th listed parent: due claims and dead runs are gone, the parents before it are done. */
  ghost function AtTurn(db: Db, now: int, at: int, dead: set<RunId>, l: Listing, ids: RunId -> nat -> RunId, i: nat): Db
    requires i <= |l.ready|
  {
    var a := AfterDeadRule(db, now, at, dead, l);
    MaterializeReady(a, a, now, l.ready[..i], ids)
  }

  lemma TurnFacts(db: Db, now: int, at: int, dead: set<RunId>, l: Listing, ids: RunId -> nat -> RunId, p: RunId, i: nat)
    requires WellFormed(db) && p in db.runs && i < |l.ready| && p !in l.ready[..i]
    ensures var a, turn := AfterDeadRule(db, now, at, dead, l), AtTurn(db, now, at, dead, l, ids, i);
            && p in a.runs && p in turn.runs && turn.runs[p] == a.runs[p]
            && WellFormed(turn) && Offspring(turn, p) == Offspring(db, p)
  {
    var a := AfterDeadRule(db, now, at, dead, l);
    BeforeMaterialize(db, now, at, dead, l);
    SameParentsSameOffspring(db, a, p);
    OthersLeaveParent(a, a, now, l.ready[..i], ids, p);
  }

  lemma FromTurnOn(db: Db, now: int, at: int, dead: set<RunId>, l: Listing, ids: RunId -> nat -> RunId, p: RunId, i: nat)
    requires i < |l.ready| && l.ready[i] == p
    ensures var a, turn := AfterDeadRule(db, now, at, dead, l), AtTurn(db, now, at, dead, l, ids, i);
            var next := if ReadyParent(turn, a, p) then Materialize(turn, now, p, ids(p)).db else turn;
            AfterMaterialize(db, now, at, dead, l, ids) == MaterializeReady(next, a, now, l.ready[i + 1..], ids)
  {
    var a := AfterDeadRule(db, now, at, dead, l);
    assert l.ready == l.ready[..i] + l.ready[i..] && l.ready[i..][0] == p && l.ready[i..][1..] == l.ready[i + 1..];
    MaterializeReadySplits(a, a, now, l.ready[..i], l.ready[i..], ids);
  }

  lemma ReviewsMakeNoChild(db: Db, now: int, at: int, dead: set<RunId>, l: Listing, ids: RunId -> nat -> RunId, p: RunId)
    ensures Offspring(Pass(db, now, at, dead, l, ids), p) == Offspring(AfterMaterialize(db, now, at, dead, l, ids), p)
  {
    var c := AfterMaterialize(db, now, at, dead, l, ids);
    ReconcileAllOnlyReviews(c, c, now, l.parents);
    SameParentsSameOffspring(c, Pass(db, now, at, dead, l, ids), p);
  }

  /** A pass that lists a parent makes its whole swarm exactly when, at the parent's turn, it may start and there is room. */
  lemma PassMaterializesIff(db: Db, now: int, at: int, dead: set<RunId>, l: Listing, ids: RunId -> nat -> RunId,
                            p: RunId, i: nat)
    requires WellFormed(db) && p in db.runs && i < |l.ready| && l.ready[i] == p && p !in l.ready[..i]
    ensures Starts(AtTurn(db, now, at, dead, l, ids, i), now, p, ids(p)) ==>
              WholeSwarm(db, Pass(db, now, at, dead, l, ids), now, p, ids(p))
    ensures !Starts(AtTurn(db, now, at, dead, l, ids, i), now, p, ids(p)) && p !in l.ready[i + 1..] ==>
              Offspring(Pass(db, now, at, dead, l, ids), p) == Offspring(db, p)
  {
    var a, turn := AfterDeadRule(db, now, at, dead, l), AtTurn(db, now, at, dead, l, ids, i);
    TurnFacts(db, now, at, dead, l, ids, p, i);
    FromTurnOn(db, now, at, dead, l, ids, p, i);
    TurnMakesSwarm(turn, a, now, l.ready[i + 1..], ids, p);
    ReviewsMakeNoChild(db, now, at, dead, l, ids, p);
    PassWhole(db, now, at, dead, l, ids, p);
  }

  /** What becomes of the parent from its turn on. */
  lemma TurnMakesSwarm(turn: Db, seen: Db, now: int, rest: seq<RunId>, ids: RunId -> nat -> RunId, p: RunId)
    requires WellFormed(turn) && p in turn.runs && p in seen.runs && turn.runs[p] == seen.runs[p]
    ensures var next := if ReadyParent(turn, seen, p) then Materialize(turn, now, p, ids(p)).db else turn;
            var c := MaterializeReady(next, seen, now, rest, ids);
            && (Starts(turn, now, p, ids(p)) ==> Offspring(c, p) != Offspring(turn, p))
            && (!Starts(turn, now, p, ids(p)) && p !in rest ==> Offspring(c, p) == Offspring(turn, p))
  {
    var next := if ReadyParent(turn, seen, p) then Materialize(turn, now, p, ids(p)).db else turn;
    MaterializeExactly(turn, now, p, ids(p));
    MaterializeSound(turn, now, p, ids(p));
    if Starts(turn, now, p, ids(p)) {
      ReadyIsStartable(turn, seen, p);
      SwarmIsNew(turn, next, now, p, ids(p));
      MaterializeReadyOffspring(next, seen, now, rest, ids);
      assert forall r :: r in Offspring(next, p) ==> r in Offspring(MaterializeReady(next, seen, now, rest, ids), p);
    } else if p !in rest {
      OthersLeaveParent(next, seen, now, rest, ids, p);
    }
  }

  lemma SwarmIsNew(a: Db, b: Db, now: int, p: RunId, ids: nat -> RunId)
    requires WholeSwarm(a, b, now, p, ids)
    ensures ids(0) in Offspring(b, p) && ids(0) !in Offspring(a, p)
  {
    assert ids(0) !in a.runs;
  }

  /* ---- when a parent is put to review ---- */

  /** A leading run without parent that has not stopped, whose children have all stopped and are as many as asked for. */
  ghost predicate Reviewable(db: Db, p: RunId) {
    && p in db.runs
    && var run := db.runs[p];
       && run.meta.parent == None && run.meta.lead && run.status !in {Completed, Failed, Cancelled, InReview}
       && (exists r :: Child(db, p, r))
       && (forall r | Child(db, p, r) :: db.runs[r].status in {Completed, Failed, Cancelled, InReview})
       && |set r | r in db.runs && Child(db, p, r)| >= AskedFor(run.meta)
  }

  lemma ReviewableIff(db: Db, p: RunId)
    requires p in db.runs
    ensures Reconciles(db, p) <==> Reviewable(db, p)
  {
    var children := ChildRuns(db, p);
    assert children == set r | r in db.runs && Child(db, p, r);
    assert ExpectedChildren(db.runs[p].meta) == AskedFor(db.runs[p].meta);
    forall r
      ensures r in children <==> Child(db, p, r)
    {
    }
    assert children != {} <==> exists r :: Child(db, p, r);
    assert AllStopped(db, children)
      <==> forall r | Child(db, p, r) :: db.runs[r].status in {Completed, Failed, Cancelled, InReview};
  }

  /** `reconcile_swarm_parent` says whether the parent was reviewable; then it is in review, and otherwise nothing changes. */
  lemma ReconcileExactly(db: Db, now: int, p: RunId)
    ensures var out := Reconcile(db, now, p);
            && (p !in db.runs ==> out == Outcome(db, Err(UnknownRun)))
            && (p in db.runs && !Reviewable(db, p) ==> out == Outcome(db, Ok(false)))
            && (Reviewable(db, p) ==>
                  && out.result == Ok(true)
                  && out.db.links == db.links && ReleasedAll(db, out.db, now, p)
                  && out.db.runs == db.runs[p := Run(InReview, db.runs[p].archived, db.runs[p].meta)])
  {
    if p in db.runs {
      ReviewableIff(db, p);
      if Reviewable(db, p) {
        ReconcileTouchesOnly(db, now, p);
        forall k | k in db.claims
          ensures ReleasedRow(db.claims[k], k, now, p) == LetGo(db.claims[k], k, now, p, None, None, AsReleased)
        {
        }
      }
    }
  }

  /** Once a run is in review, the rest of the loop leaves it there. */
  lemma {:induction false} ReviewSticks(db: Db, seen: Db, now: int, rows: seq<RunId>, p: RunId)
    requires p in db.runs && db.runs[p].status == InReview
    ensures var b := ReconcileAll(db, seen, now, rows); p in b.runs && b.runs[p].status == InReview
  {
    ReconcileAllOnlyReviews(db, seen, now, rows);
  }

  /** The rounds of other parents take no child from this one and start none of its children again. */
  lemma ReviewableStays(a: Db, b: Db, p: RunId)
    requires OnlyReviewed(a, b) && p in a.runs && Reviewable(a, p)
    ensures Reviewable(b, p) || b.runs[p].status == InReview
  {
    if b.runs[p] == a.runs[p] {
      forall r
        ensures Child(b, p, r) <==> Child(a, p, r)
      {
      }
      assert (set r | r in b.runs && Child(b, p, r)) == set r | r in a.runs && Child(a, p, r);
    }
  }

  /** The loop of a pass puts every listed reviewable parent to review. */
  lemma {:induction false} ReconcileAllReviews(db: Db, seen: Db, now: int, rows: seq<RunId>, p: RunId)
    requires p in rows && Reviewable(db, p) && p in seen.runs && seen.runs[p].meta == db.runs[p].meta
    ensures var b := ReconcileAll(db, seen, now, rows); p in b.runs && b.runs[p].status == InReview
    decreases |rows|
  {
    var q := rows[0];
    var next := if q in seen.runs && IsSwarmParent(seen.runs[q]) then Reconcile(db, now, q).db else db;
    ReconcileOnlyReviews(db, now, q);
    ReviewableStays(db, next, p);
    if q == p {
      ReconcileExactly(db, now, p);
      ReviewSticks(next, seen, now, rows[1..], p);
    } else if next.runs[p].status == InReview {
      ReviewSticks(next, seen, now, rows[1..], p);
    } else {
      ReconcileAllReviews(next, seen, now, rows[1..], p);
    }
  }

  /** A parent with a child is not materialized, and the other rounds touch neither it nor its children. */
  lemma {:induction false} ParentWithChildIsLeft(
      db: Db, seen: Db, now: int, rows: seq<RunId>, ids: RunId -> nat -> RunId, p: RunId, c: RunId)
    requires WellFormed(db) && p in db.runs && Child(db, p, c)
    ensures var b := MaterializeReady(db, seen, now, rows, ids);
            && p in b.runs && b.runs[p] == db.runs[p] && Offspring(b, p) == Offspring(db, p)
            && forall r | r in Offspring(db, p) :: b.runs[r] == db.runs[r]
    decreases |rows|
  {
    if rows != [] {
      var q := rows[0];
      assert c in ChildRuns(db, p);
      var next := if ReadyParent(db, seen, q) then Materialize(db, now, q, ids(q)).db else db;
      MaterializeSound(db, now, q, ids(q));
      if next != db {
        assert q != p;
        MaterializedWhole(db, now, q, ids(q));
      }
      ParentWithChildIsLeft(next, seen, now, rows[1..], ids, p, c);
    }
  }

  lemma SameOffspringReviewable(a: Db, b: Db, p: RunId)
    requires p in a.runs && p in b.runs && b.runs[p] == a.runs[p] && Offspring(b, p) == Offspring(a, p)
    requires forall r | r in Offspring(a, p) :: b.runs[r] == a.runs[r]
    requires Reviewable(a, p)
    ensures Reviewable(b, p)
  {
    forall r
      ensures Child(b, p, r) <==> Child(a, p, r)
    {
      assert Child(b, p, r) ==> r in Offspring(b, p);
      assert Child(a, p, r) ==> r in Offspring(a, p);
    }
    assert (set r | r in b.runs && Child(b, p, r)) == set r | r in a.runs && Child(a, p, r);
  }

  lemma DeadRuleOnlyReviews(db: Db, now: int, at: int, dead: set<RunId>, l: Listing)
    ensures OnlyReviewed(db, AfterDeadRule(db, now, at, dead, l))
  {
    var seen := ExpireStale(db, now, None);
    var a := AfterExpiry(db, now, at, l);
    ExpireDueRuns(seen, seen, now, at, l.due);
    MoveDeadFrame(a, a, now, dead, l.held, l.active);
  }

  /** A pass puts every reviewable parent that it lists to review; the dead rule may have done so already. */
  lemma PassReviews(db: Db, now: int, at: int, dead: set<RunId>, l: Listing, ids: RunId -> nat -> RunId, p: RunId)
    requires WellFormed(db) && Reviewable(db, p) && p in l.parents
    ensures var b := Pass(db, now, at, dead, l, ids); p in b.runs && b.runs[p].status == InReview
  {
    var a := AfterDeadRule(db, now, at, dead, l);
    var c := AfterMaterialize(db, now, at, dead, l, ids);
    BeforeMaterialize(db, now, at, dead, l);
    DeadRuleOnlyReviews(db, now, at, dead, l);
    ReviewableStays(db, a, p);
    var r :| Child(db, p, r);
    assert Child(a, p, r);
    ParentWithChildIsLeft(a, a, now, l.ready, ids, p, r);
    if a.runs[p].status == InReview {
      ReviewSticks(c, c, now, l.parents, p);
    } else {
      SameOffspringReviewable(a, c, p);
      ReconcileAllReviews(c, c, now, l.parents, p);
    }
  }

  /* ---- finished swarms are reviewed ---- */

  lemma {:induction false} MetaSticks(t: Trace, i: nat, j: nat, r: RunId)
    requires IsTrace(t) && i <= j < |t.states| && r in t.states[i].db.runs
    ensures r in t.states[j].db.runs
    ensures var a, b := t.states[i].db.runs[r].meta, t.states[j].db.runs[r].meta; b == a.(materialized := b.materialized)
    decreases j - i
  {
    if i < j {
      MetaSticks(t, i, j - 1, r);
      assert StepAt(t, j - 1);
      AnyStepKeepsRuns(t.states[j - 1], t.steps[j - 1]);
    }
  }

  lemma {:induction false} DistinctIdsCount(ids: nat -> RunId, n: nat)
    requires forall c: nat, d: nat | c < d < n :: ids(c) != ids(d)
    ensures |set c: nat | c < n :: ids(c)| == n
  {
    if n > 0 {
      DistinctIdsCount(ids, n - 1);
      assert (set c: nat | c < n :: ids(c)) == (set c: nat | c < n - 1 :: ids(c)) + {ids(n - 1)};
    }
  }

  lemma SubsetIsNoLarger<T>(a: set<T>, b: set<T>)
    requires a <= b
    ensures |a| <= |b|
  {
    assert b == a + (b - a);
  }

  /** The roles yield at least as many children as the parent asks for. */
  predicate Fulfillable(meta: Meta) {
    meta.roles == [] || ((forall role | role in meta.roles :: role.named) && meta.childCount <= |meta.roles|)
  }

  lemma FulfillableYields(meta: Meta)
    requires Fulfillable(meta)
    ensures |ResumeRoles(meta)| >= AskedFor(meta)
  {
    if meta.roles != [] {
      AllNamed(meta.roles);
    }
  }

  /** The tables of state `n`: the children a parent got at step `i` are all there, and every child has stopped. */
  ghost predicate SwarmFinished(t: Trace, i: nat, n: nat, p: RunId)
    requires IsTrace(t) && i < n < |t.states| && p in t.states[i].db.runs
    requires t.steps[i].MaterializeStep? || t.steps[i].PassStep?
  {
    var s := t.states[n].db;
    && (forall c: nat | c < |ResumeRoles(t.states[i].db.runs[p].meta)| ::
          var r := IdsFor(t.steps[i], p)(c); r in s.runs && !s.runs[r].archived)
    && (forall r | Child(s, p, r) :: s.runs[r].status in {Completed, Failed, Cancelled, InReview})
  }

  lemma CreatedAreChildren(t: Trace, i: nat, n: nat, p: RunId, c: nat)
    requires IsTrace(t) && i < n < |t.states| && WellFormed(t.states[0].db) && Spawns(t, i, p)
    requires t.steps[i].MaterializeStep? || t.steps[i].PassStep?
    requires SwarmFinished(t, i, n, p) && c < |ResumeRoles(t.states[i].db.runs[p].meta)|
    ensures Child(t.states[n].db, p, IdsFor(t.steps[i], p)(c))
  {
    SwarmsAreWhole(t, i, p);
    ParentSticks(t, i + 1, n, IdsFor(t.steps[i], p)(c), p);
  }

  lemma EnoughChildren(db: Db, p: RunId, ids: nat -> RunId, k: nat)
    requires forall c: nat | c < k :: Child(db, p, ids(c))
    requires forall c: nat, d: nat | c < d < k :: ids(c) != ids(d)
    ensures |set r | r in db.runs && Child(db, p, r)| >= k
  {
    var made := set c: nat | c < k :: ids(c);
    assert made <= set r | r in db.runs && Child(db, p, r);
    SubsetIsNoLarger(made, set r | r in db.runs && Child(db, p, r));
    DistinctIdsCount(ids, k);
  }

  lemma FinishedIsReviewable(t: Trace, i: nat, n: nat, p: RunId)
    requires IsTrace(t) && i < n < |t.states| && WellFormed(t.states[0].db) && Spawns(t, i, p)
    requires t.steps[i].MaterializeStep? || t.steps[i].PassStep?
    requires Fulfillable(t.states[i].db.runs[p].meta) && SwarmFinished(t, i, n, p)
    requires p in t.states[n].db.runs && t.states[n].db.runs[p].status !in {Completed, Failed, Cancelled, InReview}
    ensures Reviewable(t.states[n].db, p)
  {
    var meta, s, ids := t.states[i].db.runs[p].meta, t.states[n].db, IdsFor(t.steps[i], p);
    SwarmsAreWhole(t, i, p);
    MetaSticks(t, i, n, p);
    forall c: nat | c < |ResumeRoles(meta)|
      ensures Child(s, p, ids(c))
    {
      CreatedAreChildren(t, i, n, p, c);
    }
    EnoughChildren(s, p, ids, |ResumeRoles(meta)|);
    FulfillableYields(meta);
    FinishedFacts(s, p, ids(0), meta);
  }

  lemma FinishedFacts(db: Db, p: RunId, c: RunId, meta: Meta)
    requires p in db.runs && db.runs[p].status !in {Completed, Failed, Cancelled, InReview} && Child(db, p, c)
    requires db.runs[p].meta == meta.(materialized := db.runs[p].meta.materialized) && meta.parent == None && meta.lead
    requires forall r | Child(db, p, r) :: db.runs[r].status in {Completed, Failed, Cancelled, InReview}
    requires |set r | r in db.runs && Child(db, p, r)| >= AskedFor(meta)
    ensures Reviewable(db, p)
  {
  }

  /**
   Over any run: once every child of a materialized parent has stopped, the created ones unarchived, the next
   reconciliation puts the parent to review, on its own or in a pass that lists it.
   */
  lemma FinishedSwarmIsReviewed(t: Trace, i: nat, n: nat, p: RunId)
    requires IsTrace(t) && i < n < |t.steps| && WellFormed(t.states[0].db) && Spawns(t, i, p)
    requires t.steps[i].MaterializeStep? || t.steps[i].PassStep?
    requires Fulfillable(t.states[i].db.runs[p].meta) && SwarmFinished(t, i, n, p)
    requires p in t.states[n].db.runs && t.states[n].db.runs[p].status !in {Completed, Failed, Cancelled, InReview}
    requires t.steps[n] == ReconcileStep(p) || (t.steps[n].PassStep? && p in t.steps[n].listing.parents)
    ensures p in t.states[n + 1].db.runs && t.states[n + 1].db.runs[p].status == InReview
  {
    FinishedIsReviewable(t, i, n, p);
    assert StepAt(t, n);
    TraceGrows(t, 0, n);
    ReviewableIsReviewed(t.states[n], t.steps[n], p);
  }

  lemma ReviewableIsReviewed(s: State, step: Step, p: RunId)
    requires WellFormed(s.db) && Reviewable(s.db, p)
    requires step == ReconcileStep(p) || (step.PassStep? && p in step.listing.parents)
    ensures var b := Next(s, step).db; p in b.runs && b.runs[p].status == InReview
  {
    if step.ReconcileStep? {
      ReconcileExactly(s.db, s.now, p);
    } else {
      PassReviews(s.db, s.now, step.at, step.dead, step.listing, step.childIds, p);
    }
  }
}
