/**
 The coordination tables as one mutable store, with every call updating rows in place as the
 SQL statements do. Each method is proved to leave exactly the tables that the functions of
 `Claims`, `AgentRuns`, `Swarm` and `Orchestrator` describe; their laws then apply to it.
 */
module AgentStore {
  import opened Options
  import opened AgentTables
  import opened Claims
  import opened AgentRuns
  import opened Swarm
  import opened Orchestrator

  /** The rows of `keys` updated, the others as before: what an UPDATE loop has done so far. */
  function Updated(before: map<ClaimKey, Claim>, keys: set<ClaimKey>, update: Claim -> Claim): map<ClaimKey, Claim> {
    map k | k in before :: if k in keys then update(before[k]) else before[k]
  }

  lemma UpdatedStep(before: map<ClaimKey, Claim>, keys: set<ClaimKey>, k: ClaimKey, update: Claim -> Claim)
    requires k in before && k !in keys
    ensures Updated(before, keys, update)[k] == before[k]
    ensures Updated(before, keys + {k}, update) == Updated(before, keys, update)[k := update(before[k])]
  {
  }

  lemma ExpiryIsUpdate(db: Db, now: int, only: Option<ClaimKey>, keys: set<ClaimKey>)
    requires keys == set k | k in db.claims && StaleLease(db.claims[k], now) && Matches(only, k)
    ensures Updated(db.claims, keys, c => ExpireRow(c)) == ExpireStale(db, now, only).claims
  {
  }

  lemma ReleaseIsUpdate(db: Db, run: RunId, path: Option<Path>, mode: Option<Mode>, how: ReleaseAs, keys: set<ClaimKey>)
    requires keys == set k | k in db.claims && ReleaseHits(db.claims[k], k, run, path, mode)
    ensures Updated(db.claims, keys, c => ReleaseRow(c, how)) == ReleaseRows(db, run, path, mode, how).claims
  {
  }

  class Store {
    var runs: map<RunId, Run>
    var claims: map<ClaimKey, Claim>
    var links: map<Link, LinkStatus>

    constructor ()
      ensures Tables() == Db(map[], map[], map[])
    {
      runs, claims, links := map[], map[], map[];
    }

    function Tables(): Db
      reads this
    {
      Db(runs, claims, links)
    }

    /** ROLLBACK to the tables saved at BEGIN. */
    method Restore(saved: Db)
      modifies this
      ensures Tables() == saved
    {
      runs, claims, links := saved.runs, saved.claims, saved.links;
    }

    /* ---- claims ---- */

    /** The UPDATE loop over selected rows that expiry and release share. */
    method UpdateEach(keys: set<ClaimKey>, update: Claim -> Claim)
      requires keys <= claims.Keys
      modifies this`claims
      ensures claims == Updated(old(claims), keys, update)
    {
      ghost var before := claims;
      var rows := keys;
      while rows != {}
        invariant rows <= keys
        invariant claims == Updated(before, keys - rows, update)
        decreases |rows|
      {
        var k :| k in rows;
        UpdatedStep(before, keys - rows, k, update);
        assert keys - rows + {k} == keys - (rows - {k});
        rows := rows - {k};
        claims := claims[k := update(claims[k])];
      }
      assert keys - rows == keys;
    }

    method ExpireStaleLeases(now: int, only: Option<ClaimKey>) returns (expired: set<ClaimKey>)
      modifies this
      ensures Tables() == ExpireStale(old(Tables()), now, only)
      ensures expired == set k | k in old(claims) && StaleLease(old(claims)[k], now) && Matches(only, k)
    {
      expired := set k | k in claims && StaleLease(claims[k], now) && Matches(only, k);
      ExpiryIsUpdate(Tables(), now, only, expired);
      UpdateEach(expired, c => ExpireRow(c));
    }

    method HasConflict(now: int, k: ClaimKey) returns (found: bool)
      ensures found == Conflicted(Tables(), now, k)
    {
      var rows := set o | o in claims && LiveClaim(Tables(), now, o) && o.path == k.path && o.run != k.run;
      ghost var all := rows;
      found := false;
      while rows != {}
        invariant rows <= all
        invariant forall o :: o in all && o !in rows ==> !ConflictsWith(Tables(), now, k, o)
        decreases |rows|
      {
        var o :| o in rows;
        if !Compatible(k.mode, o.mode) {
          assert ConflictsWith(Tables(), now, k, o);
          return true;
        }
        rows := rows - {o};
      }
    }

    method NextFenceToken(path: Path) returns (fence: nat)
      ensures fence == MaxFence(claims, path) + 1
    {
      var rows := set k | k in claims && k.path == path;
      ghost var all := rows;
      var m := 0;
      while rows != {}
        invariant rows <= all
        invariant forall k :: k in all && k !in rows ==> claims[k].fence <= m
        invariant m == 0 || exists k :: k in claims && k.path == path && claims[k].fence == m
        decreases |rows|
      {
        var k :| k in rows;
        rows := rows - {k};
        if claims[k].fence > m {
          m := claims[k].fence;
        }
      }
      assert IsMaxFence(claims, path, m);
      MaxFenceUnique(claims, path, m);
      fence := m + 1;
    }

    static lemma MaxFenceUnique(rows: map<ClaimKey, Claim>, path: Path, m: nat)
      requires IsMaxFence(rows, path, m)
      ensures m == MaxFence(rows, path)
    {
      assert IsMaxFence(rows, path, MaxFence(rows, path));
    }

    method ClaimFile(now: int, run: RunId, path: Option<Path>, mode: Option<Mode>, ttl: Option<int>, record: bool)
      returns (r: Result<ClaimKey, Error>)
      modifies this
      ensures Outcome(Tables(), r) == Claims.ClaimFile(old(Tables()), now, run, path, mode, ttl, record)
    {
      if run !in runs {
        return Err(UnknownRun);
      }
      if path.None? {
        return Err(PathRequired);
      }
      var _ := ExpireStaleLeases(now, None);
      if mode.None? {
        return Err(UnknownMode);
      }
      var k := ClaimKey(run, path.value, mode.value);
      var conflict := HasConflict(now, k);
      if conflict {
        return Err(ClaimConflict);
      }
      var fence := NextFenceToken(k.path);
      if !(k in claims && HeldLease(claims[k], now)) {
        claims := claims[k := Claim(Active, fence, IsoAfter(now, ttl), PlainClaim, None, RowLog(claims, k))];
        if record {
          claims := claims[k := Logged(claims[k], Created)];
        }
      } else {
        assert claims[k := claims[k]] == claims;
      }
      return Ok(k);
    }

    method CreateLease(now: int, run: RunId, path: Option<Path>, mode: Option<Mode>, ttl: Option<int>, token: Token)
      returns (r: Result<ClaimKey, Error>)
      modifies this
      ensures Outcome(Tables(), r) == Claims.CreateLease(old(Tables()), now, run, path, mode, ttl, token)
    {
      var saved := Tables();
      r := ClaimFile(now, run, path, mode, ttl, false);
      if r.Err? {
        Restore(saved);
        return;
      }
      claims := claims[r.value := LeaseRow(claims[r.value], token)];
    }

    method RenewLease(now: int, k: ClaimKey, token: Token, fence: Option<int>, ttl: Option<int>)
      returns (r: Result<ClaimKey, Error>)
      modifies this
      ensures Outcome(Tables(), r) == Claims.RenewLease(old(Tables()), now, k, token, fence, ttl)
    {
      var expired := ExpireStaleLeases(now, Some(k));
      if k !in claims {
        return Err(UnknownClaim);
      }
      if expired != {} {
        assert expired == {k};
        return Err(LeaseExpired);
      }
      assert claims[k] == old(claims)[k] && k !in expired;
      if !claims[k].status.Active? {
        return Err(LeaseNotActive);
      }
      if claims[k].token != Some(token) {
        claims := claims[k := Logged(claims[k], Denied(BadToken))];
        return Err(TokenMismatch);
      }
      if fence.None? {
        claims := claims[k := Logged(claims[k], Denied(BadFence))];
        return Err(FenceMalformed);
      }
      if fence.value != claims[k].fence {
        claims := claims[k := Logged(claims[k], Denied(OldFence))];
        return Err(FenceStale);
      }
      if !claims[k].kind.Lease? {
        return Err(LeaseChanged);
      }
      claims := claims[k := Logged(claims[k].(expires := IsoAfter(now, ttl)), Renewed)];
      return Ok(k);
    }

    method ReleaseLease(now: int, k: ClaimKey, token: Token, how: ReleaseAs)
      returns (r: Result<ClaimKey, Error>)
      modifies this
      ensures Outcome(Tables(), r) == Claims.ReleaseLease(old(Tables()), now, k, token, how)
    {
      var expired := ExpireStaleLeases(now, Some(k));
      if k !in claims {
        return Err(UnknownClaim);
      }
      if expired != {} {
        assert expired == {k};
        return Err(LeaseExpired);
      }
      assert claims[k] == old(claims)[k] && k !in expired;
      if !claims[k].status.Active? {
        return Err(LeaseNotActive);
      }
      if claims[k].token != Some(token) {
        claims := claims[k := Logged(claims[k], Denied(BadToken))];
        return Err(TokenMismatch);
      }
      if !claims[k].kind.Lease? {
        return Err(LeaseChanged);
      }
      claims := claims[k := ReleaseRow(claims[k], how)];
      return Ok(k);
    }

    method HeartbeatClaim(now: int, run: RunId, path: Option<Path>, mode: Option<Mode>, ttl: Option<int>)
      returns (r: Result<(), Error>)
      modifies this
      ensures Outcome(Tables(), r) == Heartbeat(old(Tables()), now, run, path, mode, ttl)
    {
      if run !in runs {
        return Err(UnknownRun);
      }
      if path.None? {
        return Err(PathRequired);
      }
      var tables := Tables();
      claims := map k | k in claims :: if BeatHits(tables, k, run, path.value, mode) then BeatRow(claims[k], now, ttl) else claims[k];
      if exists k :: k in claims && k.run == run && k.path == path.value && Matches(mode, k.mode) {
        return Ok(());
      }
      return Err(NoActiveClaim);
    }

    method ReleaseClaims(now: int, run: RunId, path: Option<Path>, mode: Option<Mode>, how: ReleaseAs)
      returns (r: Result<(), Error>)
      modifies this
      ensures Outcome(Tables(), r) == Claims.ReleaseClaims(old(Tables()), now, run, path, mode, how)
    {
      if run !in runs {
        return Err(UnknownRun);
      }
      if how.AsOther? {
        return Err(UnknownReleaseStatus);
      }
      var _ := ExpireStaleLeases(now, None);
      var hits := set k | k in claims && ReleaseHits(claims[k], k, run, path, mode);
      ReleaseIsUpdate(Tables(), run, path, mode, how, hits);
      UpdateEach(hits, c => ReleaseRow(c, how));
      return Ok(());
    }

    /** Reads only: foreign writers first, then the run's own write claims, row by row. */
    method VerifyWriteClaim(now: int, run: RunId, path: Option<Path>, fence: Option<int>) returns (v: Verdict)
      ensures v == VerifyWrite(Tables(), now, run, path, fence)
    {
      if path.None? {
        return MissingClaim;
      }
      if fence.None? {
        return WrongFence;
      }
      if run !in runs {
        return MissingClaim;
      }
      if exists k :: k in claims && ForeignWriter(Tables(), now, run, path.value, k) {
        return ConflictingClaim;
      }
      var rows := set k | k in claims && OwnWriteClaim(Tables(), run, path.value, k);
      if rows == {} {
        assert forall k :: k in claims && OwnWriteClaim(Tables(), run, path.value, k) ==> k in rows;
        return MissingClaim;
      }
      ghost var own := rows;
      assert exists k :: k in claims && OwnWriteClaim(Tables(), run, path.value, k) by {
        var k :| k in own;
      }
      v := ExpiredClaim;
      while rows != {}
        invariant rows <= own
        invariant v == ExpiredClaim || v == WrongFence
        invariant v == WrongFence <==> exists k :: k in own && k !in rows && Unexpired(claims[k], now)
        invariant forall k :: k in own && k !in rows && Unexpired(claims[k], now) ==> claims[k].fence != fence.value
        decreases |rows|
      {
        var k :| k in rows;
        if Unexpired(claims[k], now) {
          if claims[k].fence == fence.value {
            return Verified;
          }
          v := WrongFence;
        }
        rows := rows - {k};
      }
    }

    /* ---- runs ---- */

    method StartRun(r: RunId, status: RunStatus, meta: Meta) returns (res: Result<(), Error>)
      modifies this
      ensures Outcome(Tables(), res) == AgentRuns.StartRun(old(Tables()), r, status, meta)
    {
      if r in runs {
        return Err(DuplicateRun);
      }
      runs := runs[r := Run(status, false, meta)];
      return Ok(());
    }

    method SyncBlockedRuns()
      modifies this
      ensures Tables() == SyncBlocked(old(Tables()))
    {
      var tables := Tables();
      links := map l | l in links :: if CompletedRun(tables, l.blocker) then LinkResolved else links[l];
      tables := Tables();
      runs := map r | r in runs :: if Unblocks(tables, r) then runs[r].(status := Queued) else runs[r];
    }

    method AddRunBlockers(run: RunId, blockers: seq<RunId>) returns (res: Result<(), Error>)
      modifies this
      ensures Outcome(Tables(), res) == AgentRuns.AddRunBlockers(old(Tables()), run, blockers)
    {
      if run !in runs {
        return Err(UnknownRun);
      }
      if Terminal(runs[run].status) {
        return Err(TerminalRun);
      }
      if blockers == [] {
        return Ok(());
      }
      if run in blockers {
        return Err(SelfBlock);
      }
      for i := 0 to |blockers|
        invariant runs == old(runs) && claims == old(claims)
        invariant PutLinks(Tables(), run, blockers[i..]) == PutLinks(old(Tables()), run, blockers)
      {
        if blockers[i] !in runs {
          return Err(UnknownBlocker);
        }
        assert blockers[i..][0] == blockers[i] && blockers[i..][1..] == blockers[i + 1..];
        links := links[Link(run, blockers[i]) := if CompletedRun(Tables(), blockers[i]) then LinkResolved else LinkActive];
      }
      if HasActiveBlocker(Tables(), run) {
        if !Stopped(runs[run].status) {
          runs := runs[run := runs[run].(status := Blocked)];
        }
      } else {
        SyncBlockedRuns();
      }
      return Ok(());
    }

    method EndRun(now: int, r: RunId, status: RunStatus) returns (res: Result<(), Error>)
      modifies this
      ensures Outcome(Tables(), res) == AgentRuns.EndRun(old(Tables()), now, r, status)
    {
      if r !in runs {
        return Err(UnknownRun);
      }
      var _ := ReleaseClaims(now, r, None, None, AsReleased);
      runs := runs[r := runs[r].(status := status)];
      if status.Completed? {
        SyncBlockedRuns();
      }
      return Ok(());
    }

    method ArchiveRun(now: int, r: RunId) returns (res: Result<(), Error>)
      modifies this
      ensures Outcome(Tables(), res) == AgentRuns.ArchiveRun(old(Tables()), now, r)
    {
      if r !in runs {
        return Err(UnknownRun);
      }
      var _ := ReleaseClaims(now, r, None, None, AsReleased);
      runs := runs[r := runs[r].(archived := true)];
      return Ok(());
    }

    method RecordEvent(now: int, r: RunId, e: Option<EventType>, path: Option<Path>, payload: Option<RunStatus>)
      returns (res: Result<(), Error>)
      modifies this
      ensures Outcome(Tables(), res) == AgentRuns.RecordEvent(old(Tables()), now, r, e, path, payload)
    {
      if e.None? {
        return Err(EventTypeRequired);
      }
      if r !in runs {
        return Err(UnknownRun);
      }
      var next := NextStatus(runs[r].status, e.value, payload);
      if next.Some? {
        runs := runs[r := runs[r].(status := next.value)];
      }
      var mode := EventClaimMode(e.value);
      if path.Some? && mode.Some? {
        var got := ClaimFile(now, r, path, mode, Some(DEFAULT_CLAIM_TTL), true);
        if got.Err? {
          return Err(got.error);
        }
      }
      if next.Some? && Stopped(next.value) {
        var _ := ReleaseClaims(now, r, None, None, AsReleased);
        if next.value.Completed? {
          SyncBlockedRuns();
        }
      }
      return Ok(());
    }

    /* ---- swarms ---- */

    method ClaimFiles(now: int, r: RunId, paths: seq<Path>, mode: Option<Mode>, ttl: Option<int>)
      returns (res: Result<(), Error>)
      modifies this
      ensures Outcome(Tables(), res) == ClaimAll(old(Tables()), now, r, paths, mode, ttl)
    {
      for i := 0 to |paths|
        invariant ClaimAll(Tables(), now, r, paths[i..], mode, ttl) == ClaimAll(old(Tables()), now, r, paths, mode, ttl)
      {
        assert paths[i..][0] == paths[i] && paths[i..][1..] == paths[i + 1..];
        var got := ClaimFile(now, r, Some(paths[i]), mode, ttl, true);
        if got.Err? {
          return Err(got.error);
        }
      }
      return Ok(());
    }

    /** The loop over the child specifications, inside the transaction. */
    method CreateSwarmChildren(now: int, meta: Meta, roles: seq<Role>, ids: nat -> RunId) returns (res: Result<(), Error>)
      modifies this
      ensures Outcome(Tables(), res) == CreateChildren(old(Tables()), now, meta, roles, ids, 0)
    {
      for i := 0 to |roles|
        invariant CreateChildren(Tables(), now, meta, roles, ids, i) == CreateChildren(old(Tables()), now, meta, roles, ids, 0)
      {
        res := StartRun(ids(i), Queued, meta);
        if res.Err? {
          return;
        }
        res := RecordEvent(now, ids(i), Some(OtherEvent), None, Some(Queued));
        if res.Err? {
          return;
        }
        res := ClaimFiles(now, ids(i), meta.paths, roles[i].mode, Some(DEFAULT_CLAIM_TTL));
        if res.Err? {
          return;
        }
      }
      return Ok(());
    }

    method MaterializeSwarmChildren(now: int, p: RunId, ids: nat -> RunId) returns (res: Result<bool, Error>)
      modifies this
      ensures Outcome(Tables(), res) == Materialize(old(Tables()), now, p, ids)
    {
      var saved := Tables();
      if p !in runs {
        return Err(UnknownRun);
      }
      if MaterializeRefusal(Tables(), p).Some? {
        return Ok(false);
      }
      var roles := ResumeRoles(runs[p].meta);
      var made := CreateSwarmChildren(now, ChildMeta(p, runs[p].meta, |roles|), roles, ids);
      if made.Err? {
        Restore(saved);
        return Err(made.error);
      }
      if p in runs {
        runs := runs[p := runs[p].(status := Working, meta := runs[p].meta.(materialized := true))];
      }
      var told := RecordEvent(now, p, Some(StatusEvent), None, Some(Working));
      if told.Err? {
        Restore(saved);
        return Err(told.error);
      }
      return Ok(true);
    }

    method ReconcileSwarmParent(now: int, p: RunId) returns (res: Result<bool, Error>)
      modifies this
      ensures Outcome(Tables(), res) == Reconcile(old(Tables()), now, p)
    {
      if p !in runs {
        return Err(UnknownRun);
      }
      if !Reconciles(Tables(), p) {
        return Ok(false);
      }
      var _ := EndRun(now, p, InReview);
      var _ := RecordEvent(now, p, Some(StatusEvent), None, Some(InReview));
      return Ok(true);
    }

    /* ---- the orchestrator pass ---- */

    method ExpireDueClaims(now: int, at: int, rows: seq<ClaimKey>)
      modifies this
      ensures Tables() == ExpireDue(old(Tables()), old(Tables()), now, at, rows)
    {
      var seen := Tables();
      for i := 0 to |rows|
        invariant ExpireDue(Tables(), seen, now, at, rows[i..]) == ExpireDue(seen, seen, now, at, rows)
      {
        assert rows[i..][0] == rows[i] && rows[i..][1..] == rows[i + 1..];
        if Due(seen, at, rows[i]) {
          var _ := ReleaseClaims(now, rows[i].run, Some(rows[i].path), None, AsExpired);
        }
      }
    }

    method MoveDeadRuns(now: int, dead: set<RunId>, held: seq<ClaimKey>, rows: seq<RunId>)
      modifies this
      ensures Tables() == MoveDead(old(Tables()), old(Tables()), now, dead, held, rows)
    {
      var seen := Tables();
      for i := 0 to |rows|
        invariant MoveDead(Tables(), seen, now, dead, held, rows[i..]) == MoveDead(seen, seen, now, dead, held, rows)
      {
        assert rows[i..][0] == rows[i] && rows[i..][1..] == rows[i + 1..];
        if Orphaned(seen, rows[i], dead) && HoldsNone(held, rows[i]) {
          var _ := EndRun(now, rows[i], InReview);
          var _ := RecordEvent(now, rows[i], Some(StatusEvent), None, Some(InReview));
        }
      }
    }

    method MaterializeReadyParents(now: int, rows: seq<RunId>, ids: RunId -> nat -> RunId)
      modifies this
      ensures Tables() == MaterializeReady(old(Tables()), old(Tables()), now, rows, ids)
    {
      var seen := Tables();
      for i := 0 to |rows|
        invariant MaterializeReady(Tables(), seen, now, rows[i..], ids) == MaterializeReady(seen, seen, now, rows, ids)
      {
        assert rows[i..][0] == rows[i] && rows[i..][1..] == rows[i + 1..];
        if ReadyParent(Tables(), seen, rows[i]) {
          var _ := MaterializeSwarmChildren(now, rows[i], ids(rows[i]));
        }
      }
    }

    method ReconcileParents(now: int, rows: seq<RunId>)
      modifies this
      ensures Tables() == ReconcileAll(old(Tables()), old(Tables()), now, rows)
    {
      var seen := Tables();
      for i := 0 to |rows|
        invariant ReconcileAll(Tables(), seen, now, rows[i..]) == ReconcileAll(seen, seen, now, rows)
      {
        assert rows[i..][0] == rows[i] && rows[i..][1..] == rows[i + 1..];
        if rows[i] in seen.runs && IsSwarmParent(seen.runs[rows[i]]) {
          var _ := ReconcileSwarmParent(now, rows[i]);
        }
      }
    }

    method Apply(now: int, at: int, dead: set<RunId>, l: Listing, ids: RunId -> nat -> RunId)
      modifies this
      ensures Tables() == Pass(old(Tables()), now, at, dead, l, ids)
    {
      var _ := ExpireStaleLeases(now, None);
      ExpireDueClaims(now, at, l.due);
      var _ := ExpireStaleLeases(now, None);
      MoveDeadRuns(now, dead, l.held, l.active);
      MaterializeReadyParents(now, l.ready, ids);
      ReconcileParents(now, l.parents);
    }
  }
}
