/**
 Claims and leases as functions of the tables and one clock reading
 (`code_index/agent_activity.py`, `code_index/lease_manager.py`).
 `AgentStore` computes the same tables by updating rows in place.
 */
module Claims {
  import opened Options
  import opened AgentTables

  /** DEFAULT_CLAIM_TTL_SECONDS. */
  const DEFAULT_CLAIM_TTL := 30 * 60

  function IsoAfter(now: int, ttl: Option<int>): Option<int> {
    if ttl.None? || ttl.value <= 0 then None else Some(now + ttl.value)
  }

  predicate Unexpired(c: Claim, now: int) {
    c.expires.None? || c.expires.value >= now
  }

  predicate Current(c: Claim, now: int) {
    c.status.Active? && Unexpired(c, now)
  }

  predicate LiveRun(db: Db, r: RunId) {
    r in db.runs && !db.runs[r].archived && !Stopped(db.runs[r].status)
  }

  predicate LiveClaim(db: Db, now: int, k: ClaimKey) {
    k in db.claims && Current(db.claims[k], now) && LiveRun(db, k.run)
  }

  predicate Writes(m: Mode) {
    m.EditMode? || m.ExclusiveMode?
  }

  predicate Compatible(a: Mode, b: Mode) {
    !a.ExclusiveMode? && !b.ExclusiveMode? && !(Writes(a) && Writes(b))
  }

  /** The rows `_raise_on_claim_conflict` would raise on. */
  predicate ConflictsWith(db: Db, now: int, k: ClaimKey, o: ClaimKey) {
    LiveClaim(db, now, o) && o.path == k.path && o.run != k.run && !Compatible(k.mode, o.mode)
  }

  predicate Conflicted(db: Db, now: int, k: ClaimKey) {
    exists o :: o in db.claims && ConflictsWith(db, now, k, o)
  }

  /* ---- fences ---- */

  ghost predicate IsMaxFence(claims: map<ClaimKey, Claim>, path: Path, m: nat) {
    && (forall k | k in claims && k.path == path :: claims[k].fence <= m)
    && (m == 0 || exists k :: k in claims && k.path == path && claims[k].fence == m)
  }

  lemma {:induction false} MaxFenceExists(claims: map<ClaimKey, Claim>, path: Path)
    ensures exists m: nat :: IsMaxFence(claims, path, m)
    decreases |claims|
  {
    if claims == map[] {
      assert IsMaxFence(claims, path, 0);
    } else {
      var k :| k in claims;
      var rest := claims - {k};
      assert claims.Keys == rest.Keys + {k};
      MaxFenceExists(rest, path);
      var m: nat :| IsMaxFence(rest, path, m);
      if k.path == path && claims[k].fence > m {
        assert IsMaxFence(claims, path, claims[k].fence);
      } else {
        if m != 0 {
          var j :| j in rest && j.path == path && rest[j].fence == m;
          assert j in claims && claims[j].fence == m;
        }
        assert IsMaxFence(claims, path, m);
      }
    }
  }

  /** COALESCE(MAX(fence_token), 0) over the rows of one path. */
  ghost function MaxFence(claims: map<ClaimKey, Claim>, path: Path): (m: nat)
    ensures IsMaxFence(claims, path, m)
  {
    MaxFenceExists(claims, path);
    var m: nat :| IsMaxFence(claims, path, m);
    m
  }

  /* ---- single rows ---- */

  function Logged(c: Claim, kind: EventKind): Claim {
    c.(log := c.log + [ClaimEvent(kind, c.fence)])
  }

  predicate StaleLease(c: Claim, now: int) {
    c.kind.Lease? && c.status.Active? && !Unexpired(c, now)
  }

  function ExpireRow(c: Claim): Claim {
    Logged(c.(status := Expired, token := None), ExpiredEvent)
  }

  datatype ReleaseAs = AsReleased | AsExpired | AsOther

  function ReleaseRow(c: Claim, how: ReleaseAs): Claim {
    if how.AsExpired? then ExpireRow(c)
    else Logged(c.(status := Released, token := None), ReleasedEvent)
  }

  predicate HeldLease(c: Claim, now: int) {
    c.kind.Lease? && c.status.Active? && c.token.Some? && Unexpired(c, now)
  }

  function RowLog(claims: map<ClaimKey, Claim>, k: ClaimKey): seq<ClaimEvent> {
    if k in claims then claims[k].log else []
  }

  /** The upsert of `claim_file`: a held lease of the same key is left as it is. */
  ghost function GrantRow(claims: map<ClaimKey, Claim>, now: int, k: ClaimKey, ttl: Option<int>, record: bool): Claim {
    if k in claims && HeldLease(claims[k], now) then claims[k]
    else
      var row := Claim(Active, MaxFence(claims, k.path) + 1, IsoAfter(now, ttl), PlainClaim, None, RowLog(claims, k));
      if record then Logged(row, Created) else row
  }

  function LeaseRow(c: Claim, token: Token): Claim {
    Logged(c.(token := Some(token), kind := Lease), Created)
  }

  /* ---- calls ---- */

  predicate Matches<T(==)>(filter: Option<T>, x: T) {
    filter.None? || filter.value == x
  }

  /** `expire_stale_leases`, for one claim or for all of them. */
  function ExpireStale(db: Db, now: int, only: Option<ClaimKey>): Db {
    db.(claims := map k | k in db.claims ::
      if StaleLease(db.claims[k], now) && Matches(only, k) then ExpireRow(db.claims[k]) else db.claims[k])
  }

  /** `claim_file`. Expiry is already committed when a conflict or a bad mode is reported. */
  ghost function ClaimFile(db: Db, now: int, run: RunId, path: Option<Path>, mode: Option<Mode>, ttl: Option<int>, record: bool)
    : Outcome<ClaimKey>
  {
    if run !in db.runs then Outcome(db, Err(UnknownRun))
    else if path.None? then Outcome(db, Err(PathRequired))
    else
      var db1 := ExpireStale(db, now, None);
      if mode.None? then Outcome(db1, Err(UnknownMode))
      else
        var k := ClaimKey(run, path.value, mode.value);
        if Conflicted(db1, now, k) then Outcome(db1, Err(ClaimConflict))
        else Outcome(db1.(claims := db1.claims[k := GrantRow(db1.claims, now, k, ttl, record)]), Ok(k))
  }

  /** `create_lease`: one transaction, rolled back when the claim is refused. */
  ghost function CreateLease(db: Db, now: int, run: RunId, path: Option<Path>, mode: Option<Mode>, ttl: Option<int>, token: Token)
    : Outcome<ClaimKey>
  {
    var got := ClaimFile(db, now, run, path, mode, ttl, false);
    if got.result.Err? then Outcome(db, got.result)
    else
      var k := got.result.value;
      if k !in got.db.claims then Outcome(db, Err(UnknownClaim))
      else Outcome(got.db.(claims := got.db.claims[k := LeaseRow(got.db.claims[k], token)]), Ok(k))
  }

  /** How the shared head of `renew_lease` and `release_lease` ends, before any fence check. */
  function LeaseGuard(db: Db, now: int, k: ClaimKey, token: Token): Option<Error> {
    if k !in db.claims then Some(UnknownClaim)
    else if StaleLease(db.claims[k], now) then Some(LeaseExpired)
    else if !db.claims[k].status.Active? then Some(LeaseNotActive)
    else if db.claims[k].token != Some(token) then Some(TokenMismatch)
    else None
  }

  function Deny(db: Db, k: ClaimKey, reason: DenyReason): Db
    requires k in db.claims
  {
    db.(claims := db.claims[k := Logged(db.claims[k], Denied(reason))])
  }

  /** `renew_lease`; `fence` is None when it is not a number. */
  function RenewLease(db: Db, now: int, k: ClaimKey, token: Token, fence: Option<int>, ttl: Option<int>): Outcome<ClaimKey> {
    var db1 := ExpireStale(db, now, Some(k));
    var guard := LeaseGuard(db, now, k, token);
    if guard.Some? then
      Outcome(if guard.value.TokenMismatch? then Deny(db1, k, BadToken) else db1, Err(guard.value))
    else if fence.None? then Outcome(Deny(db1, k, BadFence), Err(FenceMalformed))
    else if fence.value != db1.claims[k].fence then Outcome(Deny(db1, k, OldFence), Err(FenceStale))
    else if !db1.claims[k].kind.Lease? then Outcome(db1, Err(LeaseChanged))
    else
      Outcome(
        db1.(claims := db1.claims[k := Logged(db1.claims[k].(expires := IsoAfter(now, ttl)), Renewed)]),
        Ok(k))
  }

  /** `release_lease`; any status other than "expired" releases. */
  function ReleaseLease(db: Db, now: int, k: ClaimKey, token: Token, how: ReleaseAs): Outcome<ClaimKey> {
    var db1 := ExpireStale(db, now, Some(k));
    var guard := LeaseGuard(db, now, k, token);
    if guard.Some? then
      Outcome(if guard.value.TokenMismatch? then Deny(db1, k, BadToken) else db1, Err(guard.value))
    else if !db1.claims[k].kind.Lease? then Outcome(db1, Err(LeaseChanged))
    else
      Outcome(db1.(claims := db1.claims[k := ReleaseRow(db1.claims[k], how)]), Ok(k))
  }

  /** The rows an UPDATE of `heartbeat_claim` touches: it asks for 'active', not for unexpired. */
  predicate BeatHits(db: Db, k: ClaimKey, run: RunId, path: Path, mode: Option<Mode>) {
    k in db.claims && k.run == run && k.path == path && db.claims[k].status.Active? && Matches(mode, k.mode)
  }

  function BeatRow(c: Claim, now: int, ttl: Option<int>): Claim {
    var e := IsoAfter(now, ttl);
    if e.Some? then c.(expires := e) else c
  }

  /** `heartbeat_claim`: it fails only when the run has no row at all for the path and mode. */
  function Heartbeat(db: Db, now: int, run: RunId, path: Option<Path>, mode: Option<Mode>, ttl: Option<int>): Outcome<()> {
    if run !in db.runs then Outcome(db, Err(UnknownRun))
    else if path.None? then Outcome(db, Err(PathRequired))
    else
      var db1 := db.(claims := map k | k in db.claims ::
        if BeatHits(db, k, run, path.value, mode) then BeatRow(db.claims[k], now, ttl) else db.claims[k]);
      if exists k :: k in db.claims && k.run == run && k.path == path.value && Matches(mode, k.mode)
      then Outcome(db1, Ok(()))
      else Outcome(db1, Err(NoActiveClaim))
  }

  /** The rows `release_claims` takes: plain active claims of the run, optionally of one path or mode. */
  predicate ReleaseHits(c: Claim, k: ClaimKey, run: RunId, path: Option<Path>, mode: Option<Mode>) {
    k.run == run && c.status.Active? && !c.kind.Lease? && Matches(path, k.path) && Matches(mode, k.mode)
  }

  function ReleaseRows(db: Db, run: RunId, path: Option<Path>, mode: Option<Mode>, how: ReleaseAs): Db {
    db.(claims := map k | k in db.claims ::
      if ReleaseHits(db.claims[k], k, run, path, mode) then ReleaseRow(db.claims[k], how) else db.claims[k])
  }

  /** `release_claims`; AsOther is a status it does not know. */
  function ReleaseClaims(db: Db, now: int, run: RunId, path: Option<Path>, mode: Option<Mode>, how: ReleaseAs): Outcome<()> {
    if run !in db.runs then Outcome(db, Err(UnknownRun))
    else if how.AsOther? then Outcome(db, Err(UnknownReleaseStatus))
    else Outcome(ReleaseRows(ExpireStale(db, now, None), run, path, mode, how), Ok(()))
  }

  /* ---- supervised writes ---- */

  datatype Verdict = MissingClaim | WrongFence | ConflictingClaim | ExpiredClaim | Verified

  predicate ForeignWriter(db: Db, now: int, run: RunId, path: Path, k: ClaimKey) {
    LiveClaim(db, now, k) && k.path == path && k.run != run && Writes(k.mode)
  }

  predicate OwnWriteClaim(db: Db, run: RunId, path: Path, k: ClaimKey) {
    k in db.claims && k.path == path && k.run == run && Writes(k.mode) && db.claims[k].status.Active?
  }

  /** `verify_write_claim`; a fence of None is not a number. */
  function VerifyWrite(db: Db, now: int, run: RunId, path: Option<Path>, fence: Option<int>): Verdict {
    if path.None? then MissingClaim
    else if fence.None? then WrongFence
    else if run !in db.runs then MissingClaim
    else if exists k :: k in db.claims && ForeignWriter(db, now, run, path.value, k) then ConflictingClaim
    else if !exists k :: k in db.claims && OwnWriteClaim(db, run, path.value, k) then MissingClaim
    else if !exists k :: k in db.claims && OwnWriteClaim(db, run, path.value, k) && Unexpired(db.claims[k], now) then ExpiredClaim
    else if exists k :: k in db.claims && OwnWriteClaim(db, run, path.value, k) && Unexpired(db.claims[k], now)
                        && db.claims[k].fence == fence.value then Verified
    else WrongFence
  }
}
