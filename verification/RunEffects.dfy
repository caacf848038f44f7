/**
 What each run call does, told by the tables themselves: the status it writes, the links, the claims it lets go, and that
 it leaves everything else alone.
 */
module RunEffects {
  import opened Options
  import opened AgentTables
  import opened Claims
  import opened ClaimLaws
  import opened ClaimEffects
  import opened AgentRuns
  import opened AgentRunLaws

  predicate Done(db: Db, r: RunId) {
    r in db.runs && db.runs[r].status == Completed
  }

  /** Some active link of the run leads to a run that is not completed. */
  ghost predicate HeldUp(db: Db, r: RunId) {
    exists l :: l in db.links && l.run == r && db.links[l] == LinkActive && !Done(db, l.blocker)
  }

  /* ---- start_run ---- */

  /** `start_run` adds exactly the new run, with the given status, and refuses a known id. */
  lemma StartRunEffect(db: Db, r: RunId, status: RunStatus, meta: Meta)
    ensures var out := StartRun(db, r, status, meta);
            if r in db.runs then out == Outcome(db, Err(DuplicateRun))
            else && out.result == Ok(())
                 && out.db.claims == db.claims && out.db.links == db.links
                 && out.db.runs.Keys == db.runs.Keys + {r}
                 && out.db.runs[r] == Run(status, false, meta)
                 && forall q | q in db.runs :: out.db.runs[q] == db.runs[q]
  {
  }

  /* ---- synchronisation ---- */

  /**
   Links to completed runs are resolved, blocked unarchived runs that nothing holds up any more are queued, and no other
   link, run or claim changes.
   */
  ghost predicate Synchronised(a: Db, b: Db) {
    && b.claims == a.claims && b.links.Keys == a.links.Keys && b.runs.Keys == a.runs.Keys
    && (forall l | l in a.links :: b.links[l] == if Done(a, l.blocker) then LinkResolved else a.links[l])
    && (forall r | r in a.runs ::
          b.runs[r] == if a.runs[r].status == Blocked && !a.runs[r].archived && !HeldUp(a, r)
                       then a.runs[r].(status := Queued) else a.runs[r])
  }

  lemma SyncEffect(db: Db)
    ensures Synchronised(db, SyncBlocked(db))
  {
    var a := ResolveLinks(db);
    forall r
      ensures HasActiveBlocker(a, r) <==> HeldUp(db, r)
    {
      if HasActiveBlocker(a, r) {
        var l :| l in a.links && l.run == r && a.links[l].LinkActive?;
        assert l in db.links && db.links[l] == LinkActive && !Done(db, l.blocker);
      }
      if HeldUp(db, r) {
        var l :| l in db.links && l.run == r && db.links[l] == LinkActive && !Done(db, l.blocker);
        assert a.links[l].LinkActive?;
      }
    }
  }

  /* ---- end_run, archive_run, record_event ---- */

  /** The run has the status, everything else as in `a`; completing it also synchronises. */
  ghost predicate Restated(a: Db, b: Db, r: RunId, status: RunStatus)
    requires r in a.runs
  {
    var mid := a.(runs := a.runs[r := Run(status, a.runs[r].archived, a.runs[r].meta)]);
    if status == Completed then Synchronised(mid, b.(claims := mid.claims))
    else b.runs == mid.runs && b.links == mid.links
  }

  /** The plain active claims of the run are released, and leases past their expiry are swept. */
  ghost predicate ReleasedAll(a: Db, b: Db, now: int, r: RunId) {
    && b.claims.Keys == a.claims.Keys
    && forall k | k in a.claims :: b.claims[k] == LetGo(a.claims[k], k, now, r, None, None, AsReleased)
  }

  /** `end_run` releases the run's plain claims and writes the status, whatever it is; completing it synchronises. */
  lemma EndRunEffect(db: Db, now: int, r: RunId, status: RunStatus)
    ensures var out := EndRun(db, now, r, status);
            if r !in db.runs then out == Outcome(db, Err(UnknownRun))
            else out.result == Ok(()) && ReleasedAll(db, out.db, now, r) && Restated(db, out.db, r, status)
  {
    if r in db.runs {
      ReleaseClaimsEffect(db, now, r, None, None, AsReleased);
      var db1 := ReleaseClaims(db, now, r, None, None, AsReleased).db;
      SyncEffect(SetStatus(db1, r, status));
      SameSynchronised(SetStatus(db1, r, status), SetStatus(db, r, status));
    }
  }

  /** Synchronisation looks at runs and links only. */
  lemma SameSynchronised(a: Db, c: Db)
    requires a.runs == c.runs && a.links == c.links
    ensures Synchronised(c, SyncBlocked(a).(claims := c.claims))
  {
    SyncEffect(a);
    var b := SyncBlocked(a);
    forall r
      ensures HeldUp(a, r) <==> HeldUp(c, r)
    {
      if HeldUp(a, r) {
        var l :| l in a.links && l.run == r && a.links[l] == LinkActive && !Done(a, l.blocker);
        assert l in c.links && c.links[l] == LinkActive && !Done(c, l.blocker);
      }
      if HeldUp(c, r) {
        var l :| l in c.links && l.run == r && c.links[l] == LinkActive && !Done(c, l.blocker);
        assert l in a.links && a.links[l] == LinkActive && !Done(a, l.blocker);
      }
    }
  }

  /** `archive_run` releases the run's plain claims and sets the mark. */
  lemma ArchiveRunEffect(db: Db, now: int, r: RunId)
    ensures var out := ArchiveRun(db, now, r);
            if r !in db.runs then out == Outcome(db, Err(UnknownRun))
            else && out.result == Ok(()) && ReleasedAll(db, out.db, now, r) && out.db.links == db.links
                 && out.db.runs == db.runs[r := Run(db.runs[r].status, true, db.runs[r].meta)]
  {
    ReleaseClaimsEffect(db, now, r, None, None, AsReleased);
  }

  /** A status event without a status changes nothing; with one it writes it, and a stopped one also releases. */
  lemma StatusEventEffect(db: Db, now: int, r: RunId, path: Option<Path>, payload: Option<RunStatus>)
    requires r in db.runs
    ensures var out := RecordEvent(db, now, r, Some(StatusEvent), path, payload);
            && out.result == Ok(())
            && (payload == None ==> out.db == db)
            && (payload.Some? ==>
                  && Restated(db, out.db, r, payload.value)
                  && if payload.value in {Completed, Failed, Cancelled, InReview} then ReleasedAll(db, out.db, now, r)
                     else out.db.claims == db.claims)
  {
    if payload.Some? {
      var mid := SetStatus(db, r, payload.value);
      RecordEventShape(db, now, r, StatusEvent, path, payload);
      ReleaseClaimsEffect(mid, now, r, None, None, AsReleased);
      SameSynchronised(ReleaseClaims(mid, now, r, None, None, AsReleased).db, mid);
    }
  }

  function EventMode(e: EventType): Option<Mode> {
    if e in {ReadEvent, NavigateEvent} then Some(ReadMode)
    else if e == EditEvent then Some(EditMode)
    else if e == TestEvent then Some(TestMode)
    else None
  }

  /**
   Any other event sets a run that is at work or waiting to working, unless it is of no known kind; a read, an edit or a
   test with a path then claims it for half an hour, and the event fails exactly when that does.
   */
  lemma WorkEventEffect(db: Db, now: int, r: RunId, e: EventType, path: Option<Path>, payload: Option<RunStatus>)
    requires r in db.runs && e != StatusEvent
    ensures var out := RecordEvent(db, now, r, Some(e), path, payload);
            var works := e != OtherEvent && db.runs[r].status !in {Completed, Failed, Cancelled, InReview};
            var mid := if works then db.(runs := db.runs[r := Run(Working, db.runs[r].archived, db.runs[r].meta)]) else db;
            if path.Some? && EventMode(e).Some?
            then var got := ClaimFile(mid, now, r, path, EventMode(e), Some(1800), true);
                 out.db == got.db && out.result == if got.result.Ok? then Ok(()) else Err(got.result.error)
            else out == Outcome(mid, Ok(()))
  {
  }

  lemma EventRefused(db: Db, now: int, r: RunId, e: Option<EventType>, path: Option<Path>, payload: Option<RunStatus>)
    requires e == None || r !in db.runs
    ensures RecordEvent(db, now, r, e, path, payload)
         == Outcome(db, Err(if e == None then EventTypeRequired else UnknownRun))
  {
  }

  /* ---- add_run_blockers ---- */

  /** Each listed blocker has a link, resolved when that run is completed and active otherwise; no other link changes. */
  ghost predicate Linked(a: Db, b: Db, run: RunId, blockers: seq<RunId>) {
    && b.runs == a.runs && b.claims == a.claims
    && b.links.Keys == a.links.Keys + (set x | x in blockers :: Link(run, x))
    && (forall x | x in blockers :: b.links[Link(run, x)] == if Done(a, x) then LinkResolved else LinkActive)
    && (forall l | l in a.links && !(l.run == run && l.blocker in blockers) :: b.links[l] == a.links[l])
  }

  lemma {:induction false} LoopLinks(db: Db, run: RunId, blockers: seq<RunId>, n: nat)
    requires n <= |blockers| && (forall i | 0 <= i < n :: blockers[i] in db.runs) && (n < |blockers| ==> blockers[n] !in db.runs)
    ensures var put := PutLinks(db, run, blockers);
            && Linked(db, put.db, run, blockers[..n])
            && put.result == if n < |blockers| then Err(UnknownBlocker) else Ok(())
    decreases |blockers|
  {
    if n > 0 {
      var b := PutLink(db, run, blockers[0]);
      LoopLinks(b, run, blockers[1..], n - 1);
      LinkedNext(db, b, PutLinks(db, run, blockers).db, run, blockers[0], blockers[1..][..n - 1]);
      assert [blockers[0]] + blockers[1..][..n - 1] == blockers[..n];
    }
  }

  lemma LinkedNext(a: Db, b: Db, c: Db, run: RunId, x: RunId, rest: seq<RunId>)
    requires b == PutLink(a, run, x) && Linked(b, c, run, rest)
    ensures Linked(a, c, run, [x] + rest)
  {
    var all := [x] + rest;
    assert forall y :: y in all <==> y == x || y in rest;
    assert (set y | y in all :: Link(run, y)) == {Link(run, x)} + (set y | y in rest :: Link(run, y));
  }

  /** The run has an active link. */
  ghost predicate Waits(db: Db, r: RunId) {
    exists l :: l in db.links && l.run == r && db.links[l] == LinkActive
  }

  lemma AfterLinksIs(db: Db, run: RunId)
    requires run in db.runs && db.runs[run].status !in {Completed, Failed, Cancelled}
    ensures var b := AfterLinks(db, run);
            if Waits(db, run)
            then && b.links == db.links && b.claims == db.claims
                 && b.runs == if db.runs[run].status == InReview then db.runs
                              else db.runs[run := Run(Blocked, db.runs[run].archived, db.runs[run].meta)]
            else Synchronised(db, b)
  {
    assert HasActiveBlocker(db, run) <==> Waits(db, run);
    SyncEffect(db);
  }

  /**
   `add_run_blockers` on a list without unknown runs links every one of them. Then a run with an active link is set to
   blocked, unless it is in review, and nothing else changes; otherwise what follows is one synchronisation.
   */
  lemma AddRunBlockersEffect(db: Db, run: RunId, blockers: seq<RunId>) returns (linked: Db)
    requires run in db.runs && db.runs[run].status !in {Completed, Failed, Cancelled}
    requires blockers != [] && run !in blockers && forall i | 0 <= i < |blockers| :: blockers[i] in db.runs
    ensures Linked(db, linked, run, blockers)
    ensures var out := AddRunBlockers(db, run, blockers);
            && out.result == Ok(())
            && if Waits(linked, run)
               then && out.db.links == linked.links && out.db.claims == db.claims
                    && out.db.runs == if db.runs[run].status == InReview then db.runs
                                      else db.runs[run := Run(Blocked, db.runs[run].archived, db.runs[run].meta)]
               else Synchronised(linked, out.db)
  {
    LoopLinks(db, run, blockers, |blockers|);
    assert blockers[..|blockers|] == blockers;
    linked := PutLinks(db, run, blockers).db;
    AfterLinksIs(linked, run);
  }

  /** In particular a run is blocked by any new blocker that is not completed. */
  lemma BlockedByNewBlocker(db: Db, run: RunId, blockers: seq<RunId>, x: RunId)
    requires run in db.runs && db.runs[run].status !in {Completed, Failed, Cancelled, InReview}
    requires run !in blockers && (forall i | 0 <= i < |blockers| :: blockers[i] in db.runs)
    requires x in blockers && !Done(db, x)
    ensures var b := AddRunBlockers(db, run, blockers).db;
            && Link(run, x) in b.links && b.links[Link(run, x)] == LinkActive
            && run in b.runs && b.runs[run].status == Blocked
  {
    var linked := AddRunBlockersEffect(db, run, blockers);
    assert Link(run, x) in linked.links && linked.links[Link(run, x)] == LinkActive;
    assert Waits(linked, run);
  }

  /** In all other cases it refuses, or has nothing to do; links before the first unknown run stay. */
  lemma AddRunBlockersRefused(db: Db, run: RunId, blockers: seq<RunId>)
    ensures var out := AddRunBlockers(db, run, blockers);
            && (run !in db.runs ==> out == Outcome(db, Err(UnknownRun)))
            && (run in db.runs && db.runs[run].status in {Completed, Failed, Cancelled} ==> out == Outcome(db, Err(TerminalRun)))
            && (run in db.runs && db.runs[run].status !in {Completed, Failed, Cancelled} ==>
                  && (blockers == [] ==> out == Outcome(db, Ok(())))
                  && (run in blockers ==> out == Outcome(db, Err(SelfBlock)))
                  && (run !in blockers ==>
                        forall n: nat | n < |blockers| && blockers[n] !in db.runs && (forall i | 0 <= i < n :: blockers[i] in db.runs) ::
                          out.result == Err(UnknownBlocker) && Linked(db, out.db, run, blockers[..n])))
  {
    if run in db.runs && run !in blockers {
      forall n: nat | n < |blockers| && blockers[n] !in db.runs && (forall i | 0 <= i < n :: blockers[i] in db.runs)
        ensures PutLinks(db, run, blockers).result == Err(UnknownBlocker)
        ensures Linked(db, PutLinks(db, run, blockers).db, run, blockers[..n])
      {
        LoopLinks(db, run, blockers, n);
      }
    }
  }
}
