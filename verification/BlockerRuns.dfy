/**
 Blocker links and run statuses over whole runs: exactly which runs of calls keep them in agreement, and how long a link
 stays active.
 */
module BlockerRuns {
  import opened Options
  import opened AgentTables
  import opened Claims
  import opened AgentRuns
  import opened AgentRunLaws
  import opened RunEffects
  import opened Swarm
  import opened SwarmLaws
  import opened Orchestrator
  import opened OrchestratorLaws
  import opened ProtocolRuns

  /** The call writes the status "blocked" by hand to this run. */
  predicate WritesBlocked(step: Step, r: RunId) {
    match step
    case StartStep(q, status, _) => q == r && status.Blocked?
    case EndStep(q, status) => q == r && status.Blocked?
    case EventStep(q, e, _, payload) => q == r && e == Some(StatusEvent) && payload == Some(Blocked)
    case _ => false
  }

  /**
   A hand-written "blocked" does no harm: `start_run` refuses the run because it exists, any other call does not know it,
   or it is archived, or it has an active blocker.
   */
  ghost predicate Harmless(s: State, step: Step) {
    forall r | WritesBlocked(step, r) ::
      if step.StartStep? then r in s.db.runs
      else r in s.db.runs ==> s.db.runs[r].archived || HasActiveBlocker(s.db, r)
  }

  lemma BlockedByHandIff(db: Db, r: RunId)
    requires BlockersAgree(db) && r in db.runs
    ensures BlockersAgree(SetStatus(db, r, Blocked)) <==> db.runs[r].archived || HasActiveBlocker(db, r)
  {
    var b := SetStatus(db, r, Blocked);
    assert HasActiveBlocker(b, r) == HasActiveBlocker(db, r);
    if db.runs[r].archived || HasActiveBlocker(db, r) {
      forall l | Blocks(b, l) ensures !CompletedRun(b, l.blocker) {
        assert Blocks(db, l);
      }
      forall q | q in b.runs && b.runs[q].status.Blocked? && !b.runs[q].archived ensures HasActiveBlocker(b, q) {
        assert HasActiveBlocker(db, q);
      }
    }
  }

  /** A run that is only now started has no blocker. */
  lemma StartedBlockedDisagrees(db: Db, r: RunId, meta: Meta)
    requires BlockersAgree(db) && r !in db.runs
    ensures !BlockersAgree(StartRun(db, r, Blocked, meta).db)
  {
    var b := StartRun(db, r, Blocked, meta).db;
    assert !HasActiveBlocker(b, r);
    assert r in b.runs && b.runs[r].status.Blocked? && !b.runs[r].archived;
  }

  lemma SameRunsAgree(a: Db, b: Db)
    requires a.runs == b.runs && a.links == b.links
    ensures BlockersAgree(a) <==> BlockersAgree(b)
  {
    SameRunsAreKept(a, b, true);
    SameRunsAreKept(b, a, true);
  }

  lemma EndBlockedIff(s: State, step: Step)
    requires step.EndStep? && step.status.Blocked? && step.run in s.db.runs && BlockersAgree(s.db)
    ensures BlockersAgree(Call(s.db, s.now, step)) <==> Harmless(s, step)
  {
    var r := step.run;
    var b := Call(s.db, s.now, step);
    SameRunsAgree(b, SetStatus(s.db, r, Blocked));
    BlockedByHandIff(s.db, r);
    assert WritesBlocked(step, r);
  }

  lemma EventBlockedIff(s: State, step: Step)
    requires step.EventStep? && step.event == Some(StatusEvent) && step.payload == Some(Blocked)
    requires step.run in s.db.runs && BlockersAgree(s.db)
    ensures BlockersAgree(Call(s.db, s.now, step)) <==> Harmless(s, step)
  {
    var r := step.run;
    assert Call(s.db, s.now, step) == SetStatus(s.db, r, Blocked);
    BlockedByHandIff(s.db, r);
    assert WritesBlocked(step, r);
  }

  lemma UnknownRunChangesNothing(s: State, step: Step)
    requires (step.EndStep? || step.EventStep?) && step.run !in s.db.runs
    ensures Call(s.db, s.now, step) == s.db
  {
  }

  /** Each call keeps links and statuses in agreement exactly when no "blocked" it writes by hand does harm. */
  lemma StepBlockersIff(s: State, step: Step)
    requires BlockersAgree(s.db)
    ensures BlockersAgree(Next(s, step).db) <==> Harmless(s, step)
  {
    if Calm(step) {
      AnyStepKeepsRuns(s, step);
    } else if step.StartStep? {
      assert WritesBlocked(step, step.run);
      if step.run !in s.db.runs {
        StartedBlockedDisagrees(s.db, step.run, step.meta);
      }
    } else if step.run !in s.db.runs {
      UnknownRunChangesNothing(s, step);
    } else if step.EndStep? {
      EndBlockedIff(s, step);
    } else {
      EventBlockedIff(s, step);
    }
  }

  ghost predicate HarmlessAt(t: Trace, i: nat) {
    i < |t.states| && i < |t.steps| && Harmless(t.states[i], t.steps[i])
  }

  ghost predicate AgreesAt(t: Trace, n: nat) {
    n < |t.states| && BlockersAgree(t.states[n].db)
  }

  lemma {:induction false} HarmlessRunAgrees(t: Trace, n: nat)
    requires IsTrace(t) && n < |t.states| && t.states[0].db == EMPTY
    requires forall i: nat :: i < n ==> HarmlessAt(t, i)
    ensures AgreesAt(t, n)
  {
    if n > 0 {
      HarmlessRunAgrees(t, n - 1);
      assert StepAt(t, n - 1) && HarmlessAt(t, n - 1);
      StepBlockersIff(t.states[n - 1], t.steps[n - 1]);
    }
  }

  /**
   Over any run from empty tables, in every state no active link points at a completed run and every unarchived blocked
   run has an active link, exactly when no call writes "blocked" by hand to an unarchived run without an active blocker.
   */
  lemma BlockersAgreeIff(t: Trace)
    requires IsTrace(t) && t.states[0].db == EMPTY
    ensures (forall n: nat :: n < |t.states| ==> AgreesAt(t, n)) <==> (forall i: nat :: i < |t.steps| ==> HarmlessAt(t, i))
  {
    if forall i: nat :: i < |t.steps| ==> HarmlessAt(t, i) {
      forall n: nat | n < |t.states| ensures AgreesAt(t, n) {
        HarmlessRunAgrees(t, n);
      }
    }
    if forall n: nat :: n < |t.states| ==> AgreesAt(t, n) {
      forall i: nat | i < |t.steps| ensures HarmlessAt(t, i) {
        assert AgreesAt(t, i) && AgreesAt(t, i + 1) && StepAt(t, i);
        StepBlockersIff(t.states[i], t.steps[i]);
      }
    }
  }

  lemma CalmIsHarmless(s: State, step: Step)
    requires Calm(step)
    ensures Harmless(s, step)
  {
  }

  /** In particular in every reachable state, when "blocked" is written only by `add_run_blockers`. */
  lemma BlockersAgreeOverRuns(t: Trace, n: nat)
    requires IsTrace(t) && n < |t.states| && t.states[0].db == EMPTY
    requires forall i :: 0 <= i < |t.steps| ==> Calm(t.steps[i])
    ensures BlockersAgree(t.states[n].db)
  {
    forall i: nat | i < n
      ensures HarmlessAt(t, i)
    {
      CalmIsHarmless(t.states[i], t.steps[i]);
    }
    HarmlessRunAgrees(t, n);
  }

  /* ---- how long a link stays ---- */

  /** If the blocker is not completed before or after, an active link stays active. */
  ghost predicate LinkStays(a: Db, b: Db, l: Link) {
    Blocks(a, l) && !CompletedRun(a, l.blocker) && !CompletedRun(b, l.blocker) ==> Blocks(b, l)
  }

  lemma SyncLinkStays(a: Db, b: Db, l: Link)
    requires Synchronised(a, b) && Blocks(a, l) && !CompletedRun(a, l.blocker)
    ensures Blocks(b, l)
  {
  }

  lemma EndLinkStays(db: Db, now: int, r: RunId, status: RunStatus, l: Link)
    ensures LinkStays(db, EndRun(db, now, r, status).db, l)
  {
    EndRunEffect(db, now, r, status);
  }

  lemma EventLinkStays(db: Db, now: int, r: RunId, e: Option<EventType>, path: Option<Path>, payload: Option<RunStatus>,
                       l: Link)
    ensures LinkStays(db, RecordEvent(db, now, r, e, path, payload).db, l)
  {
    if e == None || r !in db.runs {
      EventRefused(db, now, r, e, path, payload);
    } else if e == Some(StatusEvent) {
      StatusEventEffect(db, now, r, path, payload);
    } else {
      WorkEventEffect(db, now, r, e.value, path, payload);
    }
  }

  lemma LinkedStays(a: Db, b: Db, run: RunId, blockers: seq<RunId>, l: Link)
    requires Linked(a, b, run, blockers) && Blocks(a, l) && !CompletedRun(a, l.blocker)
    ensures Blocks(b, l) && !CompletedRun(b, l.blocker)
  {
  }

  lemma BlockLinkStays(db: Db, run: RunId, blockers: seq<RunId>, l: Link)
    ensures LinkStays(db, AddRunBlockers(db, run, blockers).db, l)
  {
    AddRunBlockersRefused(db, run, blockers);
    if run in db.runs && db.runs[run].status !in {Completed, Failed, Cancelled} && blockers != [] && run !in blockers
       && Blocks(db, l) && !CompletedRun(db, l.blocker) {
      if n: nat :| n < |blockers| && blockers[n] !in db.runs && forall i | 0 <= i < n :: blockers[i] in db.runs {
        LinkedStays(db, AddRunBlockers(db, run, blockers).db, run, blockers[..n], l);
      } else {
        AllKnown(db, blockers);
        var linked := AddRunBlockersEffect(db, run, blockers);
        LinkedStays(db, linked, run, blockers, l);
      }
    }
  }

  lemma {:induction false} AllKnown(db: Db, blockers: seq<RunId>)
    requires !exists n: nat :: n < |blockers| && blockers[n] !in db.runs && forall i | 0 <= i < n :: blockers[i] in db.runs
    ensures forall i | 0 <= i < |blockers| :: blockers[i] in db.runs
  {
    for n := 0 to |blockers|
      invariant forall i | 0 <= i < n :: blockers[i] in db.runs
    {
    }
  }

  lemma StepLinkStays(s: State, step: Step, l: Link)
    ensures LinkStays(s.db, Call(s.db, s.now, step), l)
  {
    if LeaseOrClock(step) {
      LeaseStepKeepsRuns(s, step);
    } else if step.EndStep? {
      EndLinkStays(s.db, s.now, step.run, step.status, l);
    } else if step.EventStep? {
      EventLinkStays(s.db, s.now, step.run, step.event, step.path, step.payload, l);
    } else if step.BlockStep? {
      BlockLinkStays(s.db, step.run, step.blockers, l);
    } else {
      OtherStepKeepsLinks(s, step);
    }
  }

  lemma OtherStepKeepsLinks(s: State, step: Step)
    requires !LeaseOrClock(step) && !step.EndStep? && !step.EventStep? && !step.BlockStep?
    ensures Call(s.db, s.now, step).links == s.db.links
  {
    if step.MaterializeStep? {
      MaterializeKeepsLinks(s.db, s.now, step.run, step.ids);
    } else if step.ReconcileStep? {
      ToReviewKeepsLinks(s.db, s.now, step.run);
    } else if step.PassStep? {
      PassKeepsLinks(s.db, s.now, step.at, step.dead, step.listing, step.childIds);
    }
  }

  lemma MaterializeKeepsLinks(db: Db, now: int, p: RunId, ids: nat -> RunId)
    ensures Materialize(db, now, p, ids).db.links == db.links
  {
    if p in db.runs && MaterializeRefusal(db, p).None? {
      var roles := ResumeRoles(db.runs[p].meta);
      MaterializeShape(db, now, p, ids);
      CreateChildrenSound(db, now, ChildMeta(p, db.runs[p].meta, |roles|), roles, ids, 0);
    }
  }

  lemma ToReviewKeepsLinks(db: Db, now: int, p: RunId)
    ensures p in db.runs ==> ToReview(db, now, p).links == db.links
    ensures Reconcile(db, now, p).db.links == db.links
  {
    if p in db.runs {
      ToReviewFrame(db, now, p);
    }
  }

  lemma {:induction false} MaterializeReadyKeepsLinks(db: Db, seen: Db, now: int, rows: seq<RunId>, ids: RunId -> nat -> RunId)
    ensures MaterializeReady(db, seen, now, rows, ids).links == db.links
    decreases |rows|
  {
    if rows != [] {
      var next := if ReadyParent(db, seen, rows[0]) then Materialize(db, now, rows[0], ids(rows[0])).db else db;
      MaterializeKeepsLinks(db, now, rows[0], ids(rows[0]));
      MaterializeReadyKeepsLinks(next, seen, now, rows[1..], ids);
    }
  }

  lemma {:induction false} ReconcileAllKeepsLinks(db: Db, seen: Db, now: int, rows: seq<RunId>)
    ensures ReconcileAll(db, seen, now, rows).links == db.links
    decreases |rows|
  {
    if rows != [] {
      var next := if rows[0] in seen.runs && IsSwarmParent(seen.runs[rows[0]]) then Reconcile(db, now, rows[0]).db else db;
      ToReviewKeepsLinks(db, now, rows[0]);
      ReconcileAllKeepsLinks(next, seen, now, rows[1..]);
    }
  }

  lemma {:induction false} ExpireDueKeepsLinks(db: Db, seen: Db, now: int, at: int, rows: seq<ClaimKey>)
    ensures ExpireDue(db, seen, now, at, rows).links == db.links
    decreases |rows|
  {
    if rows != [] {
      var next := if Due(seen, at, rows[0]) then ReleaseClaims(db, now, rows[0].run, Some(rows[0].path), None, AsExpired).db else db;
      ExpireDueKeepsLinks(next, seen, now, at, rows[1..]);
    }
  }

  lemma PassKeepsLinks(db: Db, now: int, at: int, dead: set<RunId>, l: Listing, ids: RunId -> nat -> RunId)
    ensures Pass(db, now, at, dead, l, ids).links == db.links
  {
    var seen := ExpireStale(db, now, None);
    var a, b := AfterExpiry(db, now, at, l), AfterDeadRule(db, now, at, dead, l);
    ExpireDueKeepsLinks(seen, seen, now, at, l.due);
    MoveDeadFrame(a, a, now, dead, l.held, l.active);
    MaterializeReadyKeepsLinks(b, b, now, l.ready, ids);
    var c := AfterMaterialize(db, now, at, dead, l, ids);
    ReconcileAllKeepsLinks(c, c, now, l.parents);
  }

  /** Over every run: while the blocker is not completed, an active link stays active, whatever the calls. */
  lemma {:induction false} LinkStaysActive(t: Trace, i: nat, n: nat, l: Link)
    requires IsTrace(t) && i <= n < |t.states|
    requires l in t.states[i].db.links && t.states[i].db.links[l] == LinkActive
    requires forall j: nat | i <= j <= n :: !Done(t.states[j].db, l.blocker)
    ensures l in t.states[n].db.links && t.states[n].db.links[l] == LinkActive
    decreases n - i
  {
    if i < n {
      LinkStaysActive(t, i, n - 1, l);
      assert StepAt(t, n - 1);
      assert !Done(t.states[n].db, l.blocker) && !Done(t.states[n - 1].db, l.blocker);
      StepLinkStays(t.states[n - 1], t.steps[n - 1], l);
    }
  }
}
