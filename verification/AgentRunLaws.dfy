/**
 What the run calls keep: the blocker links agree with the run statuses, stopped runs stay
 stopped unless the caller asks otherwise, and the claim laws go through.
 */
module AgentRunLaws {
  import opened Options
  import opened AgentTables
  import opened Claims
  import opened ClaimLaws
  import opened AgentRuns

  ghost predicate LinksKnown(db: Db) {
    forall l :: l in db.links ==> l.run in db.runs && l.blocker in db.runs
  }

  /** No active link points at a completed run, and every unarchived blocked run has an active link. */
  ghost predicate BlockersAgree(db: Db) {
    && LinksKnown(db)
    && (forall l :: Blocks(db, l) ==> !CompletedRun(db, l.blocker))
    && (forall r :: r in db.runs && db.runs[r].status.Blocked? && !db.runs[r].archived ==> HasActiveBlocker(db, r))
  }

  /** Runs are never removed, stay archived, and keep their place in a swarm; links and statuses stay in agreement. */
  ghost predicate RunsKept(a: Db, b: Db, calm: bool) {
    && (calm && BlockersAgree(a) ==> BlockersAgree(b))
    && forall r :: r in a.runs ==>
         && r in b.runs
         && (a.runs[r].archived ==> b.runs[r].archived)
         && (a.runs[r].meta.materialized ==> b.runs[r].meta.materialized)
         && b.runs[r].meta == a.runs[r].meta.(materialized := b.runs[r].meta.materialized)
  }

  lemma RunsKeptTransitive(a: Db, b: Db, c: Db, calm: bool)
    requires RunsKept(a, b, calm) && RunsKept(b, c, calm)
    ensures RunsKept(a, c, calm)
  {
    forall r | r in a.runs
      ensures && r in c.runs
              && (a.runs[r].archived ==> c.runs[r].archived)
              && (a.runs[r].meta.materialized ==> c.runs[r].meta.materialized)
              && c.runs[r].meta == a.runs[r].meta.(materialized := c.runs[r].meta.materialized)
    {
      assert r in b.runs;
    }
  }

  /** The same, and no token is issued. */
  ghost predicate KeepsRuns(a: Db, b: Db, calm: bool) {
    TokensFrom(a, b) && RunsKept(a, b, calm)
  }

  /** Both families of laws; the blocker law only when the call is calm, that is, sets no run to blocked by hand. */
  ghost predicate SoundIf(a: Db, b: Db, now: int, calm: bool) {
    Keeps(a, b, now) && KeepsRuns(a, b, calm)
  }

  ghost predicate Sound(a: Db, b: Db, now: int) {
    SoundIf(a, b, now, true)
  }

  lemma SoundTransitive(a: Db, b: Db, c: Db, now: int)
    requires Sound(a, b, now) && Sound(b, c, now)
    ensures Sound(a, c, now)
  {
    SoundIfTransitive(a, b, c, now, true);
  }

  lemma SoundIfTransitive(a: Db, b: Db, c: Db, now: int, calm: bool)
    requires SoundIf(a, b, now, calm) && SoundIf(b, c, now, calm)
    ensures SoundIf(a, c, now, calm)
  {
    KeepsTransitive(a, b, c, now);
    TokensTransitive(a, b, c);
    RunsKeptTransitive(a, b, c, calm);
  }

  /** A call that leaves runs and links alone keeps the run laws. */
  lemma ClaimsOnlySound(a: Db, b: Db, now: int)
    requires Keeps(a, b, now) && TokensFrom(a, b) && b.runs == a.runs && b.links == a.links
    ensures Sound(a, b, now)
  {
    if BlockersAgree(a) {
      forall r | r in b.runs && b.runs[r].status.Blocked? && !b.runs[r].archived ensures HasActiveBlocker(b, r) {
        assert HasActiveBlocker(a, r);
      }
      forall l | Blocks(b, l) ensures !CompletedRun(b, l.blocker) {
        assert Blocks(a, l);
      }
    }
  }

  lemma ReleaseClaimsSound(db: Db, now: int, r: RunId, path: Option<Path>, mode: Option<Mode>, how: ReleaseAs)
    ensures Sound(db, ReleaseClaims(db, now, r, path, mode, how).db, now)
  {
    ReleaseClaimsNarrows(db, now, r, path, mode, how);
    NarrowsAreKept(db, ReleaseClaims(db, now, r, path, mode, how).db, now);
    NarrowsTokens(db, ReleaseClaims(db, now, r, path, mode, how).db, now);
    ClaimsOnlySound(db, ReleaseClaims(db, now, r, path, mode, how).db, now);
  }

  lemma ClaimFileSound(db: Db, now: int, run: RunId, path: Option<Path>, mode: Option<Mode>, ttl: Option<int>)
    ensures Sound(db, ClaimFile(db, now, run, path, mode, ttl, true).db, now)
  {
    ClaimFileKeeps(db, now, run, path, mode, ttl);
    ClaimFileTokens(db, now, run, path, mode, ttl);
    ClaimsOnlySound(db, ClaimFile(db, now, run, path, mode, ttl, true).db, now);
  }

  /* ---- blockers ---- */

  /** Whatever the links and statuses were, one `_sync_blocked_runs` makes them agree. */
  lemma SyncEstablishes(db: Db)
    requires LinksKnown(db)
    ensures BlockersAgree(SyncBlocked(db))
  {
    var a := ResolveLinks(db);
    var b := QueueUnblocked(a);
    forall l | Blocks(b, l) ensures !CompletedRun(b, l.blocker) {
      assert a.links[l] == LinkActive;
    }
    forall r | r in b.runs && b.runs[r].status.Blocked? && !b.runs[r].archived ensures HasActiveBlocker(b, r) {
      assert a.runs[r] == b.runs[r];
      assert HasActiveBlocker(a, r);
    }
  }

  /** One pass reaches the fixpoint. */
  lemma SyncIsFixpoint(db: Db)
    ensures SyncBlocked(SyncBlocked(db)) == SyncBlocked(db)
  {
    var a := ResolveLinks(db);
    var b := QueueUnblocked(a);
    forall r ensures CompletedRun(b, r) == CompletedRun(db, r) {}
    assert ResolveLinks(b).links == b.links;
    forall r | r in b.runs ensures !Unblocks(b, r) {
      assert HasActiveBlocker(b, r) <==> HasActiveBlocker(a, r);
    }
    assert QueueUnblocked(b).runs == b.runs;
  }

  lemma SyncNarrows(db: Db, now: int)
    ensures Narrows(db, SyncBlocked(db), now)
  {
  }

  lemma SyncSound(db: Db, now: int)
    ensures Sound(db, SyncBlocked(db), now)
  {
    SyncNarrows(db, now);
    NarrowsAreKept(db, SyncBlocked(db), now);
    NarrowsTokens(db, SyncBlocked(db), now);
    if BlockersAgree(db) {
      SyncEstablishes(db);
    }
  }

  lemma StatusNarrows(db: Db, now: int, r: RunId, status: RunStatus)
    requires r in db.runs
    requires !LiveRun(db, r) && !db.runs[r].archived ==> Stopped(status)
    ensures Narrows(db, SetStatus(db, r, status), now)
  {
  }

  /** Writing any status but "completed" leaves links and statuses in agreement, also when it revives a run. */
  lemma StatusKeepsRuns(db: Db, r: RunId, status: RunStatus)
    requires r in db.runs
    requires status.Completed? ==> db.runs[r].status.Completed?
    ensures RunsKept(db, SetStatus(db, r, status), !status.Blocked?)
  {
    var b := SetStatus(db, r, status);
    if BlockersAgree(db) && !status.Blocked? {
      forall l | Blocks(b, l) ensures !CompletedRun(b, l.blocker) {
        assert Blocks(db, l);
      }
      forall s | s in b.runs && b.runs[s].status.Blocked? && !b.runs[s].archived ensures HasActiveBlocker(b, s) {
        assert HasActiveBlocker(db, s);
      }
    }
  }

  lemma NarrowsSound(a: Db, b: Db, now: int, calm: bool)
    requires Narrows(a, b, now) && RunsKept(a, b, calm)
    ensures SoundIf(a, b, now, calm)
  {
    NarrowsAreKept(a, b, now);
    NarrowsTokens(a, b, now);
  }

  lemma SetStatusSound(db: Db, now: int, r: RunId, status: RunStatus)
    requires r in db.runs
    requires !LiveRun(db, r) && !db.runs[r].archived ==> Stopped(status)
    requires status.Completed? ==> db.runs[r].status.Completed?
    ensures SoundIf(db, SetStatus(db, r, status), now, !status.Blocked?)
  {
    StatusNarrows(db, now, r, status);
    StatusKeepsRuns(db, r, status);
    NarrowsSound(db, SetStatus(db, r, status), now, !status.Blocked?);
  }

  lemma CompletionKeepsRuns(db: Db, r: RunId)
    requires r in db.runs
    ensures RunsKept(db, SyncBlocked(SetStatus(db, r, Completed)), true)
  {
    if BlockersAgree(db) {
      SyncEstablishes(SetStatus(db, r, Completed));
    }
  }

  /** Setting a status and then, when it is "completed", synchronising keeps all the laws. */
  lemma StatusChangeSound(db: Db, now: int, r: RunId, status: RunStatus)
    requires r in db.runs
    requires !LiveRun(db, r) && !db.runs[r].archived ==> Stopped(status)
    ensures SoundIf(db, SyncIfCompleted(SetStatus(db, r, status), status), now, !status.Blocked?)
  {
    var b := SetStatus(db, r, status);
    if status.Completed? {
      StatusNarrows(db, now, r, status);
      SyncNarrows(b, now);
      NarrowsTransitive(db, b, SyncBlocked(b), now);
      CompletionKeepsRuns(db, r);
      NarrowsSound(db, SyncBlocked(b), now, true);
    } else {
      SetStatusSound(db, now, r, status);
    }
  }

  /** The caller does not bring a stopped run back to life. */
  predicate StaysStopped(db: Db, r: RunId, status: RunStatus) {
    r in db.runs && !LiveRun(db, r) && !db.runs[r].archived ==> Stopped(status)
  }

  lemma EndRunSound(db: Db, now: int, r: RunId, status: RunStatus)
    requires StaysStopped(db, r, status)
    ensures SoundIf(db, EndRun(db, now, r, status).db, now, !status.Blocked?)
  {
    if r in db.runs {
      var db1 := ReleaseClaims(db, now, r, None, None, AsReleased).db;
      ReleaseClaimsSound(db, now, r, None, None, AsReleased);
      StatusChangeSound(db1, now, r, status);
      SoundIfTransitive(db, db1, EndRun(db, now, r, status).db, now, !status.Blocked?);
    } else {
      SoundReflexive(db, now);
    }
  }

  lemma SoundReflexive(db: Db, now: int)
    ensures Sound(db, db, now)
  {
  }

  lemma ArchiveRunSound(db: Db, now: int, r: RunId)
    ensures Sound(db, ArchiveRun(db, now, r).db, now)
  {
    if r in db.runs {
      var db1 := ReleaseClaims(db, now, r, None, None, AsReleased).db;
      ReleaseClaimsSound(db, now, r, None, None, AsReleased);
      var b := db1.(runs := db1.runs[r := db1.runs[r].(archived := true)]);
      assert Narrows(db1, b, now);
      NarrowsAreKept(db1, b, now);
      if BlockersAgree(db1) {
        forall l | Blocks(b, l) ensures !CompletedRun(b, l.blocker) {
          assert Blocks(db1, l);
        }
        forall s | s in b.runs && b.runs[s].status.Blocked? && !b.runs[s].archived ensures HasActiveBlocker(b, s) {
          assert HasActiveBlocker(db1, s);
        }
      }
      SoundTransitive(db, db1, b, now);
    }
  }

  lemma StartRunSound(db: Db, now: int, r: RunId, status: RunStatus, meta: Meta)
    ensures SoundIf(db, StartRun(db, r, status, meta).db, now, !status.Blocked?)
  {
    var b := StartRun(db, r, status, meta).db;
    assert Narrows(db, b, now);
    NarrowsAreKept(db, b, now);
    if BlockersAgree(db) && !status.Blocked? {
      forall l | Blocks(b, l) ensures !CompletedRun(b, l.blocker) {
        assert Blocks(db, l);
      }
      forall s | s in b.runs && b.runs[s].status.Blocked? && !b.runs[s].archived ensures HasActiveBlocker(b, s) {
        assert HasActiveBlocker(db, s);
      }
    }
  }

  lemma AfterEventSound(db: Db, now: int, r: RunId, next: Option<RunStatus>)
    ensures Sound(db, AfterEvent(db, now, r, next), now)
  {
    if next.Some? && Stopped(next.value) {
      var db1 := ReleaseClaims(db, now, r, None, None, AsReleased).db;
      ReleaseClaimsSound(db, now, r, None, None, AsReleased);
      SyncSound(db1, now);
      SoundTransitive(db, db1, SyncBlocked(db1), now);
    }
  }

  /** The status an event asks for does not revive a stopped run. */
  predicate StoppingEvent(db: Db, r: RunId, e: Option<EventType>, payload: Option<RunStatus>) {
    e == Some(StatusEvent) && payload.Some? ==> StaysStopped(db, r, payload.value)
  }

  /** The event does not set "blocked" by hand. */
  predicate CalmEvent(e: Option<EventType>, payload: Option<RunStatus>) {
    e == Some(StatusEvent) ==> payload != Some(Blocked)
  }

  /** What `record_event` does once the status is written. */
  ghost function AfterStatus(db: Db, now: int, r: RunId, mode: Option<Mode>, path: Option<Path>, next: Option<RunStatus>): Db {
    if path.Some? && mode.Some? then
      var got := ClaimFile(db, now, r, path, mode, Some(DEFAULT_CLAIM_TTL), true);
      if got.result.Err? then got.db else AfterEvent(got.db, now, r, next)
    else AfterEvent(db, now, r, next)
  }

  lemma AfterStatusSound(db: Db, now: int, r: RunId, mode: Option<Mode>, path: Option<Path>, next: Option<RunStatus>)
    ensures Sound(db, AfterStatus(db, now, r, mode, path, next), now)
  {
    if path.Some? && mode.Some? {
      var got := ClaimFile(db, now, r, path, mode, Some(DEFAULT_CLAIM_TTL), true);
      ClaimFileSound(db, now, r, path, mode, Some(DEFAULT_CLAIM_TTL));
      AfterEventSound(got.db, now, r, next);
      SoundTransitive(db, got.db, AfterEvent(got.db, now, r, next), now);
    } else {
      AfterEventSound(db, now, r, next);
    }
  }

  lemma SoundThenSound(a: Db, b: Db, c: Db, now: int, calm: bool)
    requires SoundIf(a, b, now, calm) && Sound(b, c, now)
    ensures SoundIf(a, c, now, calm)
  {
    SoundIfTransitive(a, b, c, now, calm);
  }

  function WithStatus(db: Db, r: RunId, next: Option<RunStatus>): Db
    requires r in db.runs
  {
    if next.Some? then SetStatus(db, r, next.value) else db
  }

  lemma WithStatusSound(db: Db, now: int, r: RunId, e: EventType, payload: Option<RunStatus>)
    requires r in db.runs && StoppingEvent(db, r, Some(e), payload)
    requires NextStatus(db.runs[r].status, e, payload) != Some(Completed)
    ensures var next := NextStatus(db.runs[r].status, e, payload);
            SoundIf(db, WithStatus(db, r, next), now, CalmEvent(Some(e), payload))
  {
    var next := NextStatus(db.runs[r].status, e, payload);
    if next.Some? {
      SetStatusSound(db, now, r, next.value);
    } else {
      SoundReflexive(db, now);
    }
  }

  lemma RecordEventShape(db: Db, now: int, r: RunId, e: EventType, path: Option<Path>, payload: Option<RunStatus>)
    requires r in db.runs
    ensures var next := NextStatus(db.runs[r].status, e, payload);
            RecordEvent(db, now, r, Some(e), path, payload).db
            == AfterStatus(WithStatus(db, r, next), now, r, EventClaimMode(e), path, next)
  {
  }

  lemma UncompletedEventSound(db: Db, now: int, r: RunId, e: EventType, path: Option<Path>, payload: Option<RunStatus>)
    requires r in db.runs && StoppingEvent(db, r, Some(e), payload)
    requires NextStatus(db.runs[r].status, e, payload) != Some(Completed)
    ensures SoundIf(db, RecordEvent(db, now, r, Some(e), path, payload).db, now, CalmEvent(Some(e), payload))
  {
    var next := NextStatus(db.runs[r].status, e, payload);
    var db1 := WithStatus(db, r, next);
    var db2 := AfterStatus(db1, now, r, EventClaimMode(e), path, next);
    WithStatusSound(db, now, r, e, payload);
    AfterStatusSound(db1, now, r, EventClaimMode(e), path, next);
    RecordEventShape(db, now, r, e, path, payload);
    SoundThenSound(db, db1, db2, now, CalmEvent(Some(e), payload));
  }

  lemma RecordEventSound(db: Db, now: int, r: RunId, e: Option<EventType>, path: Option<Path>, payload: Option<RunStatus>)
    requires StoppingEvent(db, r, e, payload)
    ensures SoundIf(db, RecordEvent(db, now, r, e, path, payload).db, now, CalmEvent(e, payload))
  {
    if e.None? || r !in db.runs {
      SoundReflexive(db, now);
    } else {
      var next := NextStatus(db.runs[r].status, e.value, payload);
      if next == Some(Completed) {
        assert e == Some(StatusEvent);
        CompletionEventSound(db, now, r, path, RecordEvent(db, now, r, e, path, payload).db);
      } else {
        UncompletedEventSound(db, now, r, e.value, path, payload);
      }
    }
  }

  /** The "completed" status event: status, release and synchronisation together. */
  lemma CompletionEventSound(db: Db, now: int, r: RunId, path: Option<Path>, out: Db)
    requires r in db.runs
    requires out == RecordEvent(db, now, r, Some(StatusEvent), path, Some(Completed)).db
    ensures Sound(db, out, now)
  {
    var c := ReleaseClaims(SetStatus(db, r, Completed), now, r, None, None, AsReleased).db;
    assert out == SyncBlocked(c);
    CompletionNarrows(db, now, r);
    NarrowsAreKept(db, out, now);
    NarrowsTokens(db, out, now);
    if BlockersAgree(db) {
      assert LinksKnown(c);
      SyncEstablishes(c);
    }
  }

  lemma CompletionNarrows(db: Db, now: int, r: RunId)
    requires r in db.runs
    ensures Narrows(db, SyncBlocked(ReleaseClaims(SetStatus(db, r, Completed), now, r, None, None, AsReleased).db), now)
  {
    var b := SetStatus(db, r, Completed);
    var c := ReleaseClaims(b, now, r, None, None, AsReleased).db;
    assert Narrows(db, b, now);
    ReleaseClaimsNarrows(b, now, r, None, None, AsReleased);
    NarrowsTransitive(db, b, c, now);
    SyncNarrows(c, now);
    NarrowsTransitive(db, c, SyncBlocked(c), now);
  }

  lemma PutLinksSound(db: Db, now: int, run: RunId, blockers: seq<RunId>)
    requires run in db.runs
    ensures Sound(db, PutLinks(db, run, blockers).db, now)
    ensures PutLinks(db, run, blockers).db.runs == db.runs && PutLinks(db, run, blockers).db.claims == db.claims
    decreases |blockers|
  {
    if blockers == [] || blockers[0] !in db.runs {
      SoundReflexive(db, now);
    } else {
      var b := PutLink(db, run, blockers[0]);
      assert Narrows(db, b, now);
      NarrowsAreKept(db, b, now);
      if BlockersAgree(db) {
        PutLinkAgrees(db, run, blockers[0]);
      }
      PutLinksSound(b, now, run, blockers[1..]);
      SoundTransitive(db, b, PutLinks(db, run, blockers).db, now);
    }
  }

  lemma PutLinkAgrees(db: Db, run: RunId, blocker: RunId)
    requires BlockersAgree(db) && run in db.runs && blocker in db.runs
    ensures BlockersAgree(PutLink(db, run, blocker))
  {
    var b := PutLink(db, run, blocker);
    forall l | Blocks(b, l) ensures !CompletedRun(b, l.blocker) {
      assert l == Link(run, blocker) || Blocks(db, l);
    }
    forall r | r in b.runs && b.runs[r].status.Blocked? && !b.runs[r].archived ensures HasActiveBlocker(b, r) {
      var l :| l in db.links && l.run == r && db.links[l].LinkActive?;
      assert Blocks(db, l);
      assert b.links[l].LinkActive?;
    }
  }

  /** `add_run_blockers` is the one call that makes a run blocked, and only over an active link. */
  lemma AddRunBlockersSound(db: Db, now: int, run: RunId, blockers: seq<RunId>)
    ensures Sound(db, AddRunBlockers(db, run, blockers).db, now)
  {
    var out := AddRunBlockers(db, run, blockers);
    if run in db.runs && !Terminal(db.runs[run].status) && blockers != [] && run !in blockers {
      PutLinksSound(db, now, run, blockers);
      var put := PutLinks(db, run, blockers);
      if put.result.Ok? {
        AfterLinksSound(put.db, now, run);
        SoundTransitive(db, put.db, out.db, now);
      }
    } else {
      SoundReflexive(db, now);
    }
  }

  lemma BlockingKeepsRuns(db: Db, run: RunId)
    requires run in db.runs && HasActiveBlocker(db, run) && !Stopped(db.runs[run].status)
    ensures RunsKept(db, SetStatus(db, run, Blocked), true)
  {
    var b := SetStatus(db, run, Blocked);
    if BlockersAgree(db) {
      forall l | Blocks(b, l) ensures !CompletedRun(b, l.blocker) {
        assert Blocks(db, l);
      }
      forall r | r in b.runs && b.runs[r].status.Blocked? && !b.runs[r].archived ensures HasActiveBlocker(b, r) {
        assert HasActiveBlocker(db, r);
      }
    }
  }

  lemma AfterLinksSound(db: Db, now: int, run: RunId)
    ensures Sound(db, AfterLinks(db, run), now)
  {
    if !HasActiveBlocker(db, run) {
      SyncSound(db, now);
    } else if run in db.runs && !Stopped(db.runs[run].status) {
      StatusNarrows(db, now, run, Blocked);
      BlockingKeepsRuns(db, run);
      NarrowsSound(db, SetStatus(db, run, Blocked), now, true);
    } else {
      SoundReflexive(db, now);
    }
  }

  /* ---- whatever the statuses do ---- */

  /** A revival is a release of claims, or nothing, and then a status write. */
  lemma RevivalLasts(db: Db, now: int, mid: Db, r: RunId, status: RunStatus)
    requires SoundIf(db, mid, now, true) && r in mid.runs && !status.Completed?
    ensures KeepsClaims(db, SetStatus(mid, r, status), now) && RunsKept(db, SetStatus(mid, r, status), !status.Blocked?)
  {
    SameClaimsAreKept(mid, SetStatus(mid, r, status), now);
    KeepsClaimsTransitive(db, mid, SetStatus(mid, r, status), now);
    StatusKeepsRuns(mid, r, status);
    RunsKeptTransitive(db, mid, SetStatus(mid, r, status), !status.Blocked?);
  }

  /** `end_run` with any status, reviving or not, keeps the claim laws and the run laws. */
  lemma EndRunLasts(db: Db, now: int, r: RunId, status: RunStatus)
    ensures var b := EndRun(db, now, r, status).db; KeepsClaims(db, b, now) && RunsKept(db, b, !status.Blocked?)
  {
    if StaysStopped(db, r, status) {
      EndRunSound(db, now, r, status);
    } else {
      ReleaseClaimsSound(db, now, r, None, None, AsReleased);
      RevivalLasts(db, now, ReleaseClaims(db, now, r, None, None, AsReleased).db, r, status);
    }
  }

  /** So does any event. */
  lemma RecordEventLasts(db: Db, now: int, r: RunId, e: Option<EventType>, path: Option<Path>, payload: Option<RunStatus>)
    ensures var b := RecordEvent(db, now, r, e, path, payload).db;
            KeepsClaims(db, b, now) && RunsKept(db, b, CalmEvent(e, payload))
  {
    if StoppingEvent(db, r, e, payload) {
      RecordEventSound(db, now, r, e, path, payload);
    } else {
      SoundReflexive(db, now);
      RevivalLasts(db, now, db, r, payload.value);
      assert RecordEvent(db, now, r, e, path, payload).db == SetStatus(db, r, payload.value);
    }
  }

  lemma EndRunTokens(db: Db, now: int, r: RunId, status: RunStatus)
    ensures TokensFrom(db, EndRun(db, now, r, status).db)
  {
    ReleaseClaimsNarrows(db, now, r, None, None, AsReleased);
    NarrowsTokens(db, ReleaseClaims(db, now, r, None, None, AsReleased).db, now);
  }

  lemma AfterEventTokens(db: Db, now: int, r: RunId, next: Option<RunStatus>)
    ensures TokensFrom(db, AfterEvent(db, now, r, next))
  {
    ReleaseClaimsNarrows(db, now, r, None, None, AsReleased);
    NarrowsTokens(db, ReleaseClaims(db, now, r, None, None, AsReleased).db, now);
  }

  lemma RecordEventTokens(db: Db, now: int, r: RunId, e: Option<EventType>, path: Option<Path>, payload: Option<RunStatus>)
    ensures TokensFrom(db, RecordEvent(db, now, r, e, path, payload).db)
  {
    if e.Some? && r in db.runs {
      var next := NextStatus(db.runs[r].status, e.value, payload);
      var db1 := if next.Some? then SetStatus(db, r, next.value) else db;
      var mode := EventClaimMode(e.value);
      var got := ClaimFile(db1, now, r, path, mode, Some(DEFAULT_CLAIM_TTL), true);
      ClaimFileTokens(db1, now, r, path, mode, Some(DEFAULT_CLAIM_TTL));
      AfterEventTokens(got.db, now, r, next);
      AfterEventTokens(db1, now, r, next);
      TokensTransitive(db, got.db, AfterEvent(got.db, now, r, next));
    }
  }

  /* ---- completing a blocker ---- */

  predicate OnlyBlockedBy(db: Db, r: RunId, b: RunId) {
    forall l :: l in db.links && l.run == r && db.links[l].LinkActive? ==> l.blocker == b
  }

  lemma SyncAfterCompletion(db: Db, b: RunId, r: RunId)
    requires b in db.runs && r in db.runs && r != b
    requires db.runs[b].status.Completed? && db.runs[r].status.Blocked? && !db.runs[r].archived
    requires forall l :: Blocks(db, l) && l.blocker != b ==> !CompletedRun(db, l.blocker)
    ensures SyncBlocked(db).runs[r].status == if OnlyBlockedBy(db, r, b) then Queued else Blocked
  {
    var a := ResolveLinks(db);
    if OnlyBlockedBy(db, r, b) {
      assert !HasActiveBlocker(a, r);
    } else {
      var l :| l in db.links && l.run == r && db.links[l].LinkActive? && l.blocker != b;
      assert Blocks(db, l);
      assert a.links[l].LinkActive?;
    }
  }

  /** Completing `b`, by `end_run` or by a status event, queues exactly the runs only it was blocking. */
  lemma CompletionUnblocks(db: Db, now: int, b: RunId, r: RunId)
    requires BlockersAgree(db) && b in db.runs && r in db.runs && r != b
    requires db.runs[r].status.Blocked? && !db.runs[r].archived
    ensures var want := if OnlyBlockedBy(db, r, b) then Queued else Blocked;
            && EndRun(db, now, b, Completed).db.runs[r].status == want
            && RecordEvent(db, now, b, Some(StatusEvent), None, Some(Completed)).db.runs[r].status == want
  {
    var d1 := SetStatus(ReleaseClaims(db, now, b, None, None, AsReleased).db, b, Completed);
    var d2 := ReleaseClaims(SetStatus(db, b, Completed), now, b, None, None, AsReleased).db;
    forall l | Blocks(db, l) && l.blocker != b
      ensures !CompletedRun(d1, l.blocker) && !CompletedRun(d2, l.blocker)
    {
      assert !CompletedRun(db, l.blocker);
    }
    SyncAfterCompletion(d1, b, r);
    SyncAfterCompletion(d2, b, r);
    assert RecordEvent(db, now, b, Some(StatusEvent), None, Some(Completed)).db == SyncBlocked(d2);
  }
}
