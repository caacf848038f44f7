/**
 What each claim and lease call does, told by the rows themselves: exactly when it succeeds, the row it leaves, and that
 it leaves every other row alone but for leases past their expiry.
 */
module ClaimEffects {
  import opened Options
  import opened AgentTables
  import opened Claims
  import opened ClaimLaws

  /* ---- conflicts ---- */

  /** The run can hold others up: it is known, unarchived, and neither ended nor in review. */
  predicate AtWork(db: Db, r: RunId) {
    r in db.runs && !db.runs[r].archived && db.runs[r].status !in {Completed, Failed, Cancelled, InReview}
  }

  predicate InForce(c: Claim, now: int) {
    c.status == Active && (c.expires.Some? ==> now <= c.expires.value)
  }

  /** Readers, reviewers and testers share; editors share with those but not with each other; an exclusive claim is alone. */
  predicate Clash(a: Mode, b: Mode) {
    a == ExclusiveMode || b == ExclusiveMode || (a == EditMode && b == EditMode)
  }

  /** Another run at work has a claim in force on the path that does not go with the mode. */
  predicate Rival(db: Db, now: int, r: RunId, path: Path, mode: Mode, o: ClaimKey) {
    o in db.claims && o.path == path && o.run != r && AtWork(db, o.run) && InForce(db.claims[o], now) && Clash(mode, o.mode)
  }

  ghost predicate HasRival(db: Db, now: int, r: RunId, path: Path, mode: Mode) {
    exists o :: Rival(db, now, r, path, mode, o)
  }

  lemma ConflictedIff(db: Db, now: int, k: ClaimKey)
    ensures Conflicted(db, now, k) <==> HasRival(db, now, k.run, k.path, k.mode)
  {
    forall o
      ensures o in db.claims && ConflictsWith(db, now, k, o) <==> Rival(db, now, k.run, k.path, k.mode, o)
    {
    }
    if HasRival(db, now, k.run, k.path, k.mode) {
      var o :| Rival(db, now, k.run, k.path, k.mode, o);
      assert o in db.claims && ConflictsWith(db, now, k, o);
    }
  }

  lemma ExpiryKeepsRivals(db: Db, now: int, r: RunId, path: Path, mode: Mode)
    ensures HasRival(ExpireStale(db, now, None), now, r, path, mode) <==> HasRival(db, now, r, path, mode)
  {
    var b := ExpireStale(db, now, None);
    forall o
      ensures Rival(b, now, r, path, mode, o) <==> Rival(db, now, r, path, mode, o)
    {
    }
  }

  /* ---- rows ---- */

  /** A lease past its expiry is marked so, loses its token and logs it; any other row stays. */
  function Swept(c: Claim, now: int): Claim {
    if c.kind == Lease && c.status == Active && c.expires.Some? && c.expires.value < now
    then Claim(Expired, c.fence, c.expires, Lease, None, c.log + [ClaimEvent(ExpiredEvent, c.fence)])
    else c
  }

  /** Runs and links are as before, and so are the rows, leases past their expiry apart; `k` may be new or different. */
  ghost predicate SweptExcept(a: Db, b: Db, now: int, k: ClaimKey) {
    && b.runs == a.runs && b.links == a.links
    && b.claims.Keys == a.claims.Keys + {k}
    && forall j | j in a.claims && j != k :: b.claims[j] == Swept(a.claims[j], now)
  }

  /** Nothing but the sweep has happened. */
  ghost predicate OnlySwept(a: Db, b: Db, now: int) {
    && b.runs == a.runs && b.links == a.links && b.claims.Keys == a.claims.Keys
    && forall j | j in a.claims :: b.claims[j] == Swept(a.claims[j], now)
  }

  /** Only the row of `k` may have changed. */
  ghost predicate OnlyRow(a: Db, b: Db, k: ClaimKey) {
    && b.runs == a.runs && b.links == a.links && b.claims.Keys == a.claims.Keys
    && forall j | j in a.claims && j != k :: b.claims[j] == a.claims[j]
  }

  lemma ExpireStaleSweeps(db: Db, now: int)
    ensures OnlySwept(db, ExpireStale(db, now, None), now)
  {
  }

  /** With a claim given, the sweep reaches only that one. */
  lemma ExpireOneSweeps(db: Db, now: int, k: ClaimKey)
    ensures var b := ExpireStale(db, now, Some(k));
            OnlyRow(db, b, k) && (k in db.claims ==> b.claims[k] == Swept(db.claims[k], now))
  {
  }

  predicate IsHeldLease(db: Db, now: int, k: ClaimKey) {
    k in db.claims && db.claims[k].kind == Lease && db.claims[k].token.Some? && InForce(db.claims[k], now)
  }

  /** One more than the largest fence of the path, or 1 when the path has none. */
  ghost predicate NextFence(db: Db, path: Path, fence: nat) {
    && fence > 0
    && (forall o | o in db.claims && o.path == path :: db.claims[o].fence < fence)
    && (fence == 1 || exists o :: o in db.claims && o.path == path && db.claims[o].fence == fence - 1)
  }

  lemma MaxFenceIsNext(db: Db, now: int, path: Path)
    ensures NextFence(db, path, MaxFence(ExpireStale(db, now, None).claims, path) + 1)
  {
    var b := ExpireStale(db, now, None);
    var m := MaxFence(b.claims, path);
    forall o | o in db.claims && o.path == path
      ensures db.claims[o].fence < m + 1
    {
      assert b.claims[o].fence <= m;
    }
    if m > 0 {
      var o :| o in b.claims && o.path == path && b.claims[o].fence == m;
      assert o in db.claims && db.claims[o].fence == m;
    }
  }

  function LogBefore(db: Db, now: int, k: ClaimKey): seq<ClaimEvent> {
    if k in db.claims then Swept(db.claims[k], now).log else []
  }

  /* ---- claim_file ---- */

  /** `claim_file` succeeds exactly when the run is known, path and mode are given, and no rival is in the way. */
  lemma ClaimFileIff(db: Db, now: int, r: RunId, path: Option<Path>, mode: Option<Mode>, ttl: Option<int>)
    ensures ClaimFile(db, now, r, path, mode, ttl, true).result ==
            if r !in db.runs then Err(UnknownRun)
            else if path.None? then Err(PathRequired)
            else if mode.None? then Err(UnknownMode)
            else if HasRival(db, now, r, path.value, mode.value) then Err(ClaimConflict)
            else Ok(ClaimKey(r, path.value, mode.value))
  {
    if path.Some? && mode.Some? {
      ConflictedIff(ExpireStale(db, now, None), now, ClaimKey(r, path.value, mode.value));
      ExpiryKeepsRivals(db, now, r, path.value, mode.value);
    }
  }

  /**
   What it leaves: a held lease of the same key as it was, and otherwise an active plain row with the next fence, the
   deadline of the time to live if that is positive, no token, and its creation logged; all other rows as they were.
   */
  lemma ClaimFileEffect(db: Db, now: int, r: RunId, path: Path, mode: Mode, ttl: Option<int>)
    requires ClaimFile(db, now, r, Some(path), Some(mode), ttl, true).result.Ok?
    ensures var b, k := ClaimFile(db, now, r, Some(path), Some(mode), ttl, true).db, ClaimKey(r, path, mode);
            && SweptExcept(db, b, now, k)
            && if IsHeldLease(db, now, k) then b.claims[k] == db.claims[k]
               else && NextFence(db, path, b.claims[k].fence)
                    && b.claims[k] == Claim(Active, b.claims[k].fence,
                                            if ttl.Some? && ttl.value > 0 then Some(now + ttl.value) else None,
                                            PlainClaim, None,
                                            LogBefore(db, now, k) + [ClaimEvent(Created, b.claims[k].fence)])
  {
    ClaimFileShape(db, now, r, Some(path), Some(mode), ttl);
    var k := ClaimKey(r, path, mode);
    PutSweeps(db, now, k, GrantRow(ExpireStale(db, now, None).claims, now, k, ttl, true));
    GrantEffect(db, now, k, ttl);
  }

  lemma PutSweeps(db: Db, now: int, k: ClaimKey, row: Claim)
    ensures SweptExcept(db, PutRow(ExpireStale(db, now, None), k, row), now, k)
  {
    ExpireStaleSweeps(db, now);
  }

  /** The row of a grant, before a lease adds its token. */
  lemma GrantEffect(db: Db, now: int, k: ClaimKey, ttl: Option<int>)
    ensures var row := GrantRow(ExpireStale(db, now, None).claims, now, k, ttl, true);
            && if IsHeldLease(db, now, k) then row == db.claims[k]
               else && NextFence(db, k.path, row.fence)
                    && row == Claim(Active, row.fence, if ttl.Some? && ttl.value > 0 then Some(now + ttl.value) else None,
                                    PlainClaim, None, LogBefore(db, now, k) + [ClaimEvent(Created, row.fence)])
  {
    MaxFenceIsNext(db, now, k.path);
    var db1 := ExpireStale(db, now, None);
    assert k in db.claims ==> db1.claims[k] == Swept(db.claims[k], now);
  }

  /** A refused claim has swept, when it came as far as that, and nothing else. */
  lemma ClaimFileRefused(db: Db, now: int, r: RunId, path: Option<Path>, mode: Option<Mode>, ttl: Option<int>)
    requires ClaimFile(db, now, r, path, mode, ttl, true).result.Err?
    ensures var b := ClaimFile(db, now, r, path, mode, ttl, true).db;
            if r !in db.runs || path.None? then b == db else OnlySwept(db, b, now)
  {
  }

  /* ---- create_lease ---- */

  /** `create_lease` succeeds in the same cases and fails with the same errors, leaving nothing behind then. */
  lemma CreateLeaseIff(db: Db, now: int, r: RunId, path: Option<Path>, mode: Option<Mode>, ttl: Option<int>, token: Token)
    ensures var out := CreateLease(db, now, r, path, mode, ttl, token);
            && out.result == ClaimFile(db, now, r, path, mode, ttl, true).result
            && (out.result.Err? ==> out.db == db)
  {
  }

  /** The row it leaves is an active lease with the token; a held lease keeps fence and expiry, any other row takes new ones. */
  lemma CreateLeaseEffect(db: Db, now: int, r: RunId, path: Path, mode: Mode, ttl: Option<int>, token: Token)
    requires CreateLease(db, now, r, Some(path), Some(mode), ttl, token).result.Ok?
    ensures var b, k := CreateLease(db, now, r, Some(path), Some(mode), ttl, token).db, ClaimKey(r, path, mode);
            && SweptExcept(db, b, now, k)
            && b.claims[k] == Claim(Active, b.claims[k].fence, b.claims[k].expires, Lease, Some(token),
                                    LogBefore(db, now, k) + [ClaimEvent(Created, b.claims[k].fence)])
            && if IsHeldLease(db, now, k)
               then b.claims[k].fence == db.claims[k].fence && b.claims[k].expires == db.claims[k].expires
               else && NextFence(db, path, b.claims[k].fence)
                    && b.claims[k].expires == if ttl.Some? && ttl.value > 0 then Some(now + ttl.value) else None
  {
    var k := CreateLeaseShape(db, now, r, Some(path), Some(mode), ttl, token);
    PutSweeps(db, now, k, LeaseRow(GrantRow(ExpireStale(db, now, None).claims, now, k, ttl, false), token));
    LeaseGrantEffect(db, now, k, ttl);
  }

  lemma LeaseGrantEffect(db: Db, now: int, k: ClaimKey, ttl: Option<int>)
    ensures var row := GrantRow(ExpireStale(db, now, None).claims, now, k, ttl, false);
            && row.status == Active && row.log == LogBefore(db, now, k)
            && if IsHeldLease(db, now, k) then row.fence == db.claims[k].fence && row.expires == db.claims[k].expires
               else && NextFence(db, k.path, row.fence)
                    && row.expires == if ttl.Some? && ttl.value > 0 then Some(now + ttl.value) else None
  {
    MaxFenceIsNext(db, now, k.path);
    var db1 := ExpireStale(db, now, None);
    assert k in db.claims ==> db1.claims[k] == Swept(db.claims[k], now);
  }

  /* ---- renew_lease, release_lease ---- */

  /** The row is an active lease within its time, and the caller knows its token. */
  predicate MayUse(db: Db, now: int, k: ClaimKey, token: Token) {
    k in db.claims && db.claims[k].kind == Lease && db.claims[k].token == Some(token) && InForce(db.claims[k], now)
  }

  /**
   `renew_lease` succeeds exactly with the token and the fence of an active lease within its time. Then it moves the
   expiry, to none when the time to live is not positive, logs it, and touches nothing else.
   */
  lemma RenewLeaseEffect(db: Db, now: int, k: ClaimKey, token: Token, fence: Option<int>, ttl: Option<int>)
    ensures var out := RenewLease(db, now, k, token, fence, ttl);
            && (out.result.Ok? <==> MayUse(db, now, k, token) && fence == Some(db.claims[k].fence))
            && (out.result.Ok? ==>
                  var c := db.claims[k];
                  && out.result == Ok(k)
                  && OnlyRow(db, out.db, k)
                  && out.db.claims[k] == Claim(Active, c.fence,
                                               if ttl.Some? && ttl.value > 0 then Some(now + ttl.value) else None,
                                               Lease, Some(token), c.log + [ClaimEvent(Renewed, c.fence)]))
  {
  }

  /**
   `release_lease` succeeds exactly with the token of an active lease within its time. Then the row is released, or
   expired if the caller says so, without token, with its fence and expiry kept and that one event logged; nothing else
   changes.
   */
  lemma ReleaseLeaseEffect(db: Db, now: int, k: ClaimKey, token: Token, how: ReleaseAs)
    ensures var out := ReleaseLease(db, now, k, token, how);
            && (out.result.Ok? <==> MayUse(db, now, k, token))
            && (out.result.Ok? ==>
                  var c := db.claims[k];
                  && out.result == Ok(k)
                  && OnlyRow(db, out.db, k)
                  && out.db.claims[k] ==
                     if how == AsExpired
                     then Claim(Expired, c.fence, c.expires, Lease, None, c.log + [ClaimEvent(ExpiredEvent, c.fence)])
                     else Claim(Released, c.fence, c.expires, Lease, None, c.log + [ClaimEvent(ReleasedEvent, c.fence)]))
  {
  }

  /** The errors both share, in the order in which they are looked for; an expired lease is swept on the way. */
  lemma LeaseRefused(db: Db, now: int, k: ClaimKey, token: Token, how: ReleaseAs)
    requires !MayUse(db, now, k, token)
    ensures var out := ReleaseLease(db, now, k, token, how);
            out.result ==
              Err(if k !in db.claims then UnknownClaim
                  else if db.claims[k].status != Active then LeaseNotActive
                  else if db.claims[k].kind == Lease && !InForce(db.claims[k], now) then LeaseExpired
                  else if db.claims[k].token != Some(token) then TokenMismatch
                  else LeaseChanged)
            && (k !in db.claims ==> out.db == db)
            && (k in db.claims ==>
                  && OnlyRow(db, out.db, k)
                  && out.db.claims[k] ==
                     if out.result == Err(TokenMismatch)
                     then db.claims[k].(log := db.claims[k].log + [ClaimEvent(Denied(BadToken), db.claims[k].fence)])
                     else Swept(db.claims[k], now))
  {
    assert k !in db.claims ==> ExpireStale(db, now, Some(k)).claims == db.claims;
  }

  lemma RenewalRefused(db: Db, now: int, k: ClaimKey, token: Token, fence: Option<int>, ttl: Option<int>)
    requires !(MayUse(db, now, k, token) && fence == Some(db.claims[k].fence))
    ensures var out := RenewLease(db, now, k, token, fence, ttl);
            && (k in db.claims && db.claims[k].status == Active && db.claims[k].token == Some(token)
                && (db.claims[k].kind == Lease ==> InForce(db.claims[k], now)) ==>
                  out.result == Err(if fence == None then FenceMalformed
                                    else if fence != Some(db.claims[k].fence as int) then FenceStale
                                    else LeaseChanged))
            && (!(k in db.claims && db.claims[k].status == Active && db.claims[k].token == Some(token)
                  && (db.claims[k].kind == Lease ==> InForce(db.claims[k], now))) ==>
                  out == ReleaseLease(db, now, k, token, AsReleased))
  {
  }

  /* ---- heartbeat_claim ---- */

  predicate BeatReaches(k: ClaimKey, r: RunId, path: Path, mode: Option<Mode>) {
    k.run == r && k.path == path && (mode.None? || mode == Some(k.mode))
  }

  /**
   A heartbeat gives every active row of the run, path and mode, expired or not, the deadline of a positive time to live,
   and touches nothing else; it fails only for want of any such row.
   */
  lemma HeartbeatEffect(db: Db, now: int, r: RunId, path: Option<Path>, mode: Option<Mode>, ttl: Option<int>)
    ensures var out := Heartbeat(db, now, r, path, mode, ttl);
            && (out.result ==
                if r !in db.runs then Err(UnknownRun)
                else if path.None? then Err(PathRequired)
                else if exists k :: k in db.claims && BeatReaches(k, r, path.value, mode) then Ok(())
                else Err(NoActiveClaim))
            && out.db.runs == db.runs && out.db.links == db.links && out.db.claims.Keys == db.claims.Keys
            && forall k | k in db.claims ::
                 out.db.claims[k] ==
                   if r in db.runs && path.Some? && BeatReaches(k, r, path.value, mode) && db.claims[k].status == Active
                      && ttl.Some? && ttl.value > 0
                   then db.claims[k].(expires := Some(now + ttl.value))
                   else db.claims[k]
  {
    if path.Some? {
      if k :| k in db.claims && BeatReaches(k, r, path.value, mode) {
        assert k in db.claims && k.run == r && k.path == path.value && Matches(mode, k.mode);
      }
    }
  }

  /* ---- release_claims ---- */

  predicate ReleaseReaches(c: Claim, k: ClaimKey, r: RunId, path: Option<Path>, mode: Option<Mode>) {
    && c.status == Active && c.kind == PlainClaim && k.run == r
    && (path.None? || path == Some(k.path)) && (mode.None? || mode == Some(k.mode))
  }

  /** What a release leaves of one row. */
  function LetGo(c: Claim, k: ClaimKey, now: int, r: RunId, path: Option<Path>, mode: Option<Mode>, how: ReleaseAs): Claim {
    if !ReleaseReaches(c, k, r, path, mode) then Swept(c, now)
    else if how == AsExpired
    then Claim(Expired, c.fence, c.expires, PlainClaim, None, c.log + [ClaimEvent(ExpiredEvent, c.fence)])
    else Claim(Released, c.fence, c.expires, PlainClaim, None, c.log + [ClaimEvent(ReleasedEvent, c.fence)])
  }

  /** `release_claims` lets go of exactly the active plain rows of the run, path and mode. */
  lemma ReleaseClaimsEffect(db: Db, now: int, r: RunId, path: Option<Path>, mode: Option<Mode>, how: ReleaseAs)
    ensures var out := ReleaseClaims(db, now, r, path, mode, how);
            && (out.result == if r !in db.runs then Err(UnknownRun) else if how == AsOther then Err(UnknownReleaseStatus) else Ok(()))
            && (out.result.Err? ==> out.db == db)
            && out.db.runs == db.runs && out.db.links == db.links && out.db.claims.Keys == db.claims.Keys
            && (out.result.Ok? ==>
                  forall k | k in db.claims :: out.db.claims[k] == LetGo(db.claims[k], k, now, r, path, mode, how))
  {
  }

  /* ---- verify_write_claim ---- */

  /** Another run at work may write the path. */
  predicate RivalWriter(db: Db, now: int, r: RunId, path: Path, o: ClaimKey) {
    && o in db.claims && o.path == path && o.run != r && (o.mode == EditMode || o.mode == ExclusiveMode)
    && AtWork(db, o.run) && InForce(db.claims[o], now)
  }

  predicate OwnWriter(db: Db, r: RunId, path: Path, o: ClaimKey) {
    && o in db.claims && o.path == path && o.run == r && (o.mode == EditMode || o.mode == ExclusiveMode)
    && db.claims[o].status == Active
  }

  /**
   A write verifies exactly when the run is known, no other run at work may write the path, and the run has an edit or
   exclusive claim there, active and within its time, with that very fence.
   */
  lemma VerifiedIff(db: Db, now: int, r: RunId, path: Option<Path>, fence: Option<int>)
    ensures VerifyWrite(db, now, r, path, fence) == Verified
       <==> && path.Some? && fence.Some? && r in db.runs
            && (forall o :: !RivalWriter(db, now, r, path.value, o))
            && exists o :: OwnWriter(db, r, path.value, o) && InForce(db.claims[o], now) && db.claims[o].fence == fence.value
  {
    if path.Some? {
      VerdictWords(db, now, r, path.value);
      if o :| OwnWriter(db, r, path.value, o) && InForce(db.claims[o], now) && fence == Some(db.claims[o].fence) {
        assert OwnWriteClaim(db, r, path.value, o) && Unexpired(db.claims[o], now);
      }
    }
  }

  lemma VerdictWords(db: Db, now: int, r: RunId, path: Path)
    ensures (exists o :: o in db.claims && ForeignWriter(db, now, r, path, o)) <==> (exists o :: RivalWriter(db, now, r, path, o))
    ensures (exists o :: o in db.claims && OwnWriteClaim(db, r, path, o)) <==> (exists o :: OwnWriter(db, r, path, o))
    ensures (exists o :: o in db.claims && OwnWriteClaim(db, r, path, o) && Unexpired(db.claims[o], now))
       <==> (exists o :: OwnWriter(db, r, path, o) && InForce(db.claims[o], now))
  {
    if o :| o in db.claims && ForeignWriter(db, now, r, path, o) {
      assert RivalWriter(db, now, r, path, o);
    }
    if o :| RivalWriter(db, now, r, path, o) {
      assert o in db.claims && ForeignWriter(db, now, r, path, o);
    }
    if o :| o in db.claims && OwnWriteClaim(db, r, path, o) {
      assert OwnWriter(db, r, path, o);
    }
    if o :| OwnWriter(db, r, path, o) {
      assert o in db.claims && OwnWriteClaim(db, r, path, o);
    }
    if o :| o in db.claims && OwnWriteClaim(db, r, path, o) && Unexpired(db.claims[o], now) {
      assert OwnWriter(db, r, path, o) && InForce(db.claims[o], now);
    }
    if o :| OwnWriter(db, r, path, o) && InForce(db.claims[o], now) {
      assert o in db.claims && OwnWriteClaim(db, r, path, o) && Unexpired(db.claims[o], now);
    }
  }

  /** What is said otherwise: a rival first, then no own claim, then only expired ones, then the wrong fence. */
  lemma RefusedWriteIff(db: Db, now: int, r: RunId, path: Path, fence: int)
    requires r in db.runs && VerifyWrite(db, now, r, Some(path), Some(fence)) != Verified
    ensures VerifyWrite(db, now, r, Some(path), Some(fence)) ==
            if exists o :: RivalWriter(db, now, r, path, o) then ConflictingClaim
            else if !exists o :: OwnWriter(db, r, path, o) then MissingClaim
            else if !exists o :: OwnWriter(db, r, path, o) && InForce(db.claims[o], now) then ExpiredClaim
            else WrongFence
  {
    VerdictWords(db, now, r, path);
  }
}
