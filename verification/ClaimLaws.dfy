/**
 What every claim and lease call keeps, stated once as a relation between the tables before
 and after (`Evolves`, `Narrows`) so that compound calls inherit it by transitivity.
 */
module ClaimLaws {
  import opened Options
  import opened AgentTables
  import opened Claims

  /* ---- the event log of one claim ---- */

  datatype View = View(status: ClaimStatus, fence: nat)

  /** One event of the log: only a creation sets the fence, and a denial changes nothing. */
  function Fold(v: Option<View>, e: ClaimEvent): Option<View> {
    match e.kind
    case Created => Some(View(Active, e.fence))
    case Renewed => v
    case Denied(_) => v
    case ReleasedEvent => if v.Some? then Some(v.value.(status := Released)) else None
    case ExpiredEvent => if v.Some? then Some(v.value.(status := Expired)) else None
  }

  function Replay(log: seq<ClaimEvent>): Option<View> {
    if log == [] then None else Fold(Replay(log[..|log| - 1]), log[|log| - 1])
  }

  lemma ReplayAppend(log: seq<ClaimEvent>, e: ClaimEvent)
    ensures Replay(log + [e]) == Fold(Replay(log), e)
  {
    assert (log + [e])[..|log|] == log;
  }

  /** A row agrees with its log, and holds a token exactly while it is an active lease. */
  ghost predicate RowOk(c: Claim) {
    && (c.token.Some? <==> c.status.Active? && c.kind.Lease?)
    && c.fence > 0
    && Replay(c.log) == Some(View(c.status, c.fence))
    && (forall e :: e in c.log ==> e.fence <= c.fence)
  }

  /* ---- whole tables ---- */

  ghost predicate DistinctFences(claims: map<ClaimKey, Claim>) {
    forall j, k :: j in claims && k in claims && j != k && j.path == k.path ==> claims[j].fence != claims[k].fence
  }

  ghost predicate WellFormed(db: Db) {
    && (forall k :: k in db.claims ==> k.run in db.runs && RowOk(db.claims[k]))
    && DistinctFences(db.claims)
  }

  /** No two live claims of different runs on one path may be incompatible. */
  ghost predicate Exclusive(db: Db, now: int) {
    forall j, k :: LiveClaim(db, now, j) && LiveClaim(db, now, k) && j.path == k.path && j.run != k.run
      ==> Compatible(j.mode, k.mode)
  }

  ghost predicate FreshFence(db: Db, path: Path, fence: nat) {
    forall o :: o in db.claims && o.path == path ==> db.claims[o].fence < fence
  }

  /** A current row of the later table was current with this fence before, or its fence is new to the path. */
  ghost predicate Evolves(a: Db, ta: int, b: Db, tb: int) {
    && ta <= tb
    && a.runs.Keys <= b.runs.Keys
    && (forall k :: k in a.claims ==>
          k in b.claims && a.claims[k].fence <= b.claims[k].fence && a.claims[k].log <= b.claims[k].log)
    && (forall k :: k in b.claims && Current(b.claims[k], tb) ==>
          || (k in a.claims && Current(a.claims[k], ta) && a.claims[k].fence == b.claims[k].fence)
          || FreshFence(a, k.path, b.claims[k].fence))
  }

  /** No run or claim goes; fences only rise, and logs are only appended to. */
  ghost predicate Grows(a: Db, b: Db) {
    && a.runs.Keys <= b.runs.Keys
    && forall k :: k in a.claims ==>
         k in b.claims && a.claims[k].fence <= b.claims[k].fence && a.claims[k].log <= b.claims[k].log
  }

  lemma GrowsTransitive(a: Db, b: Db, c: Db)
    requires Grows(a, b) && Grows(b, c)
    ensures Grows(a, c)
  {
    forall k | k in a.claims
      ensures k in c.claims && a.claims[k].fence <= c.claims[k].fence && a.claims[k].log <= c.claims[k].log
    {
      assert k in b.claims;
    }
  }

  /** No run of the earlier table is live later without having been live. */
  ghost predicate StopsStick(a: Db, b: Db) {
    && a.runs.Keys <= b.runs.Keys
    && forall r :: r in a.runs && LiveRun(b, r) ==> LiveRun(a, r)
  }

  lemma EvolvesTransitive(a: Db, ta: int, b: Db, tb: int, c: Db, tc: int)
    requires Evolves(a, ta, b, tb) && Evolves(b, tb, c, tc)
    ensures Evolves(a, ta, c, tc)
  {
    forall k | k in c.claims && Current(c.claims[k], tc)
      ensures (k in a.claims && Current(a.claims[k], ta) && a.claims[k].fence == c.claims[k].fence)
           || FreshFence(a, k.path, c.claims[k].fence)
    {
      if FreshFence(b, k.path, c.claims[k].fence) {
        forall o | o in a.claims && o.path == k.path ensures a.claims[o].fence < c.claims[k].fence {
          assert o in b.claims;
        }
      }
    }
    forall k | k in a.claims
      ensures k in c.claims && a.claims[k].fence <= c.claims[k].fence && a.claims[k].log <= c.claims[k].log
    {
      assert k in b.claims;
    }
  }

  /* ---- steps that grant nothing ---- */

  ghost predicate RowStep(c: Claim, d: Claim, now: int) {
    && (RowOk(c) ==> RowOk(d))
    && d.fence == c.fence
    && c.log <= d.log
    && (Current(d, now) ==> Current(c, now))
    && (d.token.Some? ==> d.token == c.token)
  }

  ghost predicate Narrows(a: Db, b: Db, now: int) {
    && StopsStick(a, b)
    && a.claims.Keys == b.claims.Keys
    && forall k :: k in a.claims ==> RowStep(a.claims[k], b.claims[k], now)
  }

  lemma NarrowsTransitive(a: Db, b: Db, c: Db, now: int)
    requires Narrows(a, b, now) && Narrows(b, c, now)
    ensures Narrows(a, c, now)
  {
    forall k | k in a.claims ensures RowStep(a.claims[k], c.claims[k], now) {
      assert RowStep(a.claims[k], b.claims[k], now) && RowStep(b.claims[k], c.claims[k], now);
    }
  }

  lemma NarrowsKeeps(a: Db, b: Db, now: int)
    requires WellFormed(a) && Narrows(a, b, now)
    ensures WellFormed(b) && Evolves(a, now, b, now) && (Exclusive(a, now) ==> Exclusive(b, now))
  {
    forall k | k in b.claims ensures RowStep(a.claims[k], b.claims[k], now) && k.run in b.runs && RowOk(b.claims[k]) {
      assert k in a.claims;
    }
    forall j, k | j in b.claims && k in b.claims && j != k && j.path == k.path
      ensures b.claims[j].fence != b.claims[k].fence
    {
      assert RowStep(a.claims[j], b.claims[j], now) && RowStep(a.claims[k], b.claims[k], now);
    }
    forall k | LiveClaim(b, now, k) ensures LiveClaim(a, now, k) {
      assert RowStep(a.claims[k], b.claims[k], now);
    }
  }

  /* ---- the rows ---- */

  lemma LoggedKeeps(c: Claim, d: Claim, kind: EventKind, now: int)
    requires d.fence == c.fence && d.log == c.log && !kind.Created?
    requires RowOk(c) ==> (d.token.Some? <==> d.status.Active? && d.kind.Lease?)
    requires RowOk(c) ==> Fold(Some(View(c.status, c.fence)), ClaimEvent(kind, c.fence)) == Some(View(d.status, d.fence))
    requires Current(d, now) ==> Current(c, now)
    requires d.token.Some? ==> d.token == c.token
    ensures RowStep(c, Logged(d, kind), now)
  {
    ReplayAppend(c.log, ClaimEvent(kind, c.fence));
    var e := ClaimEvent(kind, c.fence);
    assert forall x :: x in c.log + [e] ==> x in c.log || x == e;
  }

  lemma ExpireStaleNarrows(db: Db, now: int, only: Option<ClaimKey>)
    ensures Narrows(db, ExpireStale(db, now, only), now)
  {
    forall k | k in db.claims ensures RowStep(db.claims[k], ExpireStale(db, now, only).claims[k], now) {
      var c := db.claims[k];
      LoggedKeeps(c, c.(status := Expired, token := None), ExpiredEvent, now);
    }
  }

  lemma ReleaseRowsNarrows(db: Db, now: int, run: RunId, path: Option<Path>, mode: Option<Mode>, how: ReleaseAs)
    ensures Narrows(db, ReleaseRows(db, run, path, mode, how), now)
  {
    forall k | k in db.claims ensures RowStep(db.claims[k], ReleaseRows(db, run, path, mode, how).claims[k], now) {
      var c := db.claims[k];
      LoggedKeeps(c, c.(status := Expired, token := None), ExpiredEvent, now);
      LoggedKeeps(c, c.(status := Released, token := None), ReleasedEvent, now);
    }
  }

  lemma ReleaseClaimsNarrows(db: Db, now: int, run: RunId, path: Option<Path>, mode: Option<Mode>, how: ReleaseAs)
    ensures Narrows(db, ReleaseClaims(db, now, run, path, mode, how).db, now)
  {
    ExpireStaleNarrows(db, now, None);
    var db1 := ExpireStale(db, now, None);
    ReleaseRowsNarrows(db1, now, run, path, mode, how);
    if run in db.runs && !how.AsOther? {
      NarrowsTransitive(db, db1, ReleaseRows(db1, run, path, mode, how), now);
    }
  }

  function PutRow(db: Db, k: ClaimKey, row: Claim): Db {
    db.(claims := db.claims[k := row])
  }

  lemma PutRowNarrows(db: Db, now: int, k: ClaimKey, row: Claim)
    requires k in db.claims && RowStep(db.claims[k], row, now)
    ensures Narrows(db, PutRow(db, k, row), now)
  {
  }

  lemma DenyNarrows(db: Db, now: int, k: ClaimKey, reason: DenyReason)
    requires k in db.claims
    ensures Narrows(db, Deny(db, k, reason), now)
  {
    LoggedKeeps(db.claims[k], db.claims[k], Denied(reason), now);
    PutRowNarrows(db, now, k, Logged(db.claims[k], Denied(reason)));
  }

  /** Renewing keeps the fence and can only move the expiry of a lease that is still unexpired. */
  lemma RenewLeaseNarrows(db: Db, now: int, k: ClaimKey, token: Token, fence: Option<int>, ttl: Option<int>)
    ensures Narrows(db, RenewLease(db, now, k, token, fence, ttl).db, now)
  {
    var db1 := ExpireStale(db, now, Some(k));
    var out := RenewLease(db, now, k, token, fence, ttl);
    ExpireStaleNarrows(db, now, Some(k));
    if out.db != db1 {
      if out.result.Ok? {
        var c := db1.claims[k];
        LoggedKeeps(c, c.(expires := IsoAfter(now, ttl)), Renewed, now);
        PutRowNarrows(db1, now, k, Logged(c.(expires := IsoAfter(now, ttl)), Renewed));
      } else {
        DenyNarrows(db1, now, k,
          if out.result.error.TokenMismatch? then BadToken else if out.result.error.FenceMalformed? then BadFence else OldFence);
      }
      NarrowsTransitive(db, db1, out.db, now);
    }
  }

  lemma ReleaseLeaseNarrows(db: Db, now: int, k: ClaimKey, token: Token, how: ReleaseAs)
    ensures Narrows(db, ReleaseLease(db, now, k, token, how).db, now)
  {
    var db1 := ExpireStale(db, now, Some(k));
    var out := ReleaseLease(db, now, k, token, how);
    ExpireStaleNarrows(db, now, Some(k));
    if out.db != db1 {
      if out.result.Ok? {
        var c := db1.claims[k];
        LoggedKeeps(c, c.(status := Expired, token := None), ExpiredEvent, now);
        LoggedKeeps(c, c.(status := Released, token := None), ReleasedEvent, now);
        PutRowNarrows(db1, now, k, ReleaseRow(c, how));
      } else {
        DenyNarrows(db1, now, k, BadToken);
      }
      NarrowsTransitive(db, db1, out.db, now);
    }
  }

  /** A heartbeat that reaches only unexpired rows. */
  predicate TimelyBeat(db: Db, now: int, run: RunId, path: Option<Path>, mode: Option<Mode>) {
    path.Some? ==> forall k :: k in db.claims && BeatHits(db, k, run, path.value, mode) ==> Unexpired(db.claims[k], now)
  }

  lemma HeartbeatNarrows(db: Db, now: int, run: RunId, path: Option<Path>, mode: Option<Mode>, ttl: Option<int>)
    requires TimelyBeat(db, now, run, path, mode)
    ensures Narrows(db, Heartbeat(db, now, run, path, mode, ttl).db, now)
  {
  }

  /** Every token in the later table was there before, on the same row and with the same fence. */
  ghost predicate TokensFrom(a: Db, b: Db) {
    forall k :: k in b.claims && b.claims[k].token.Some? ==>
      k in a.claims && a.claims[k].token == b.claims[k].token && a.claims[k].fence == b.claims[k].fence
  }

  lemma TokensTransitive(a: Db, b: Db, c: Db)
    requires TokensFrom(a, b) && TokensFrom(b, c)
    ensures TokensFrom(a, c)
  {
    forall k | k in c.claims && c.claims[k].token.Some?
      ensures k in a.claims && a.claims[k].token == c.claims[k].token && a.claims[k].fence == c.claims[k].fence
    {
      assert k in b.claims && b.claims[k].token.Some?;
    }
  }

  lemma NarrowsTokens(a: Db, b: Db, now: int)
    requires Narrows(a, b, now)
    ensures TokensFrom(a, b)
  {
    forall k | k in b.claims ensures RowStep(a.claims[k], b.claims[k], now) {
      assert k in a.claims;
    }
  }

  lemma ClaimFileTokens(db: Db, now: int, run: RunId, path: Option<Path>, mode: Option<Mode>, ttl: Option<int>)
    ensures TokensFrom(db, ClaimFile(db, now, run, path, mode, ttl, true).db)
  {
    var out := ClaimFile(db, now, run, path, mode, ttl, true);
    ExpireStaleNarrows(db, now, None);
    NarrowsTokens(db, ExpireStale(db, now, None), now);
    if out.result.Ok? {
      TokensTransitive(db, ExpireStale(db, now, None), out.db);
    }
  }

  /* ---- granting ---- */

  lemma CreatedRowOk(c: Claim)
    requires c.status.Active? && c.fence > 0 && (c.token.Some? <==> c.kind.Lease?)
    requires forall e :: e in c.log ==> e.fence <= c.fence
    ensures RowOk(Logged(c, Created))
  {
    var e := ClaimEvent(Created, c.fence);
    ReplayAppend(c.log, e);
    assert forall x :: x in c.log + [e] ==> x in c.log || x == e;
  }

  lemma GrantRowFacts(claims: map<ClaimKey, Claim>, now: int, k: ClaimKey, ttl: Option<int>)
    requires k in claims ==> RowOk(claims[k])
    ensures var g := GrantRow(claims, now, k, ttl, false);
            && Current(g, now) && g.fence > 0
            && (forall e :: e in g.log ==> e.fence <= g.fence)
            && (g == if k in claims && HeldLease(claims[k], now) then claims[k] else g.(kind := PlainClaim, token := None))
            && RowLog(claims, k) == g.log
            && (g.fence == MaxFence(claims, k.path) + 1
                || (k in claims && Current(claims[k], now) && g.fence == claims[k].fence))
  {
    if k in claims && !HeldLease(claims[k], now) {
      assert claims[k].fence <= MaxFence(claims, k.path);
    }
  }

  /** The row a grant leaves: that of `claim_file`, or with a token that of `create_lease`. */
  ghost function GrantedAs(claims: map<ClaimKey, Claim>, now: int, k: ClaimKey, ttl: Option<int>, token: Option<Token>): Claim {
    if token.Some? then LeaseRow(GrantRow(claims, now, k, ttl, false), token.value)
    else GrantRow(claims, now, k, ttl, true)
  }

  lemma GrantedRow(claims: map<ClaimKey, Claim>, now: int, k: ClaimKey, ttl: Option<int>, token: Option<Token>)
    requires k in claims ==> RowOk(claims[k])
    ensures var row, g := GrantedAs(claims, now, k, ttl, token), GrantRow(claims, now, k, ttl, false);
            RowOk(row) && Current(row, now) && row.fence == g.fence && RowLog(claims, k) <= row.log
  {
    var g := GrantRow(claims, now, k, ttl, false);
    GrantRowFacts(claims, now, k, ttl);
    if token.Some? {
      CreatedRowOk(g.(token := token, kind := Lease));
    } else if !(k in claims && HeldLease(claims[k], now)) {
      CreatedRowOk(g);
    }
  }

  /** A row that may be put at `k`: its fence is the current one kept, or one more than the largest. */
  ghost predicate Grantable(db: Db, now: int, k: ClaimKey, row: Claim) {
    && k.run in db.runs
    && !Conflicted(db, now, k)
    && RowOk(row)
    && RowLog(db.claims, k) <= row.log
    && ((k in db.claims && Current(db.claims[k], now) && row.fence == db.claims[k].fence)
        || row.fence == MaxFence(db.claims, k.path) + 1)
  }

  lemma GrantIsWellFormed(db: Db, now: int, k: ClaimKey, row: Claim)
    requires WellFormed(db) && Grantable(db, now, k, row)
    ensures WellFormed(PutRow(db, k, row))
  {
    assert IsMaxFence(db.claims, k.path, MaxFence(db.claims, k.path));
    forall j | j in db.claims && j.path == k.path && j != k ensures row.fence != db.claims[j].fence {}
  }

  lemma GrantEvolves(db: Db, now: int, k: ClaimKey, row: Claim)
    requires WellFormed(db) && Grantable(db, now, k, row)
    ensures Evolves(db, now, PutRow(db, k, row), now)
  {
    assert IsMaxFence(db.claims, k.path, MaxFence(db.claims, k.path));
    if row.fence == MaxFence(db.claims, k.path) + 1 {
      assert FreshFence(db, k.path, row.fence);
    }
  }

  lemma GrantKeepsExclusion(db: Db, now: int, k: ClaimKey, row: Claim)
    requires Exclusive(db, now) && !Conflicted(db, now, k)
    ensures Exclusive(PutRow(db, k, row), now)
  {
    var b := PutRow(db, k, row);
    forall o | LiveClaim(b, now, o) && o.path == k.path && o.run != k.run ensures Compatible(k.mode, o.mode) {
      assert LiveClaim(db, now, o);
      assert !ConflictsWith(db, now, k, o);
    }
    forall i, j | LiveClaim(b, now, i) && LiveClaim(b, now, j) && i.path == j.path && i.run != j.run
      ensures Compatible(i.mode, j.mode)
    {
      if i != k && j != k {
        assert LiveClaim(db, now, i) && LiveClaim(db, now, j);
      }
    }
  }

  lemma GrantedIsGrantable(db: Db, now: int, k: ClaimKey, ttl: Option<int>, token: Option<Token>)
    requires WellFormed(db) && k.run in db.runs && !Conflicted(db, now, k)
    ensures Grantable(db, now, k, GrantedAs(db.claims, now, k, ttl, token))
  {
    GrantedRow(db.claims, now, k, ttl, token);
    GrantRowFacts(db.claims, now, k, ttl);
  }

  /** A granted row put into tables that show no conflict keeps every table law. */
  lemma GrantKeeps(db: Db, now: int, k: ClaimKey, row: Claim)
    requires WellFormed(db) && Grantable(db, now, k, row)
    ensures Keeps(db, PutRow(db, k, row), now)
  {
    GrantIsWellFormed(db, now, k, row);
    GrantEvolves(db, now, k, row);
    if Exclusive(db, now) {
      GrantKeepsExclusion(db, now, k, row);
    }
  }

  ghost predicate Keeps(a: Db, b: Db, now: int) {
    WellFormed(a) ==>
      WellFormed(b) && Evolves(a, now, b, now) && StopsStick(a, b) && (Exclusive(a, now) ==> Exclusive(b, now))
  }

  lemma KeepsTransitive(a: Db, b: Db, c: Db, now: int)
    requires Keeps(a, b, now) && Keeps(b, c, now)
    ensures Keeps(a, c, now)
  {
    if WellFormed(a) {
      EvolvesTransitive(a, now, b, now, c, now);
    }
  }

  lemma NarrowsAreKept(a: Db, b: Db, now: int)
    requires Narrows(a, b, now)
    ensures Keeps(a, b, now)
  {
    if WellFormed(a) {
      NarrowsKeeps(a, b, now);
    }
  }

  /** Expiry and then a grant, where there is no conflict. */
  lemma GrantAfterExpiryKeeps(db: Db, now: int, k: ClaimKey, ttl: Option<int>, token: Option<Token>)
    requires k.run in db.runs && !Conflicted(ExpireStale(db, now, None), now, k)
    ensures var db1 := ExpireStale(db, now, None);
            Keeps(db, PutRow(db1, k, GrantedAs(db1.claims, now, k, ttl, token)), now)
  {
    var db1 := ExpireStale(db, now, None);
    ExpireStaleNarrows(db, now, None);
    NarrowsAreKept(db, db1, now);
    if WellFormed(db) {
      GrantedIsGrantable(db1, now, k, ttl, token);
      GrantKeeps(db1, now, k, GrantedAs(db1.claims, now, k, ttl, token));
      KeepsTransitive(db, db1, PutRow(db1, k, GrantedAs(db1.claims, now, k, ttl, token)), now);
    }
  }

  lemma ClaimFileShape(db: Db, now: int, run: RunId, path: Option<Path>, mode: Option<Mode>, ttl: Option<int>)
    ensures var out, db1 := ClaimFile(db, now, run, path, mode, ttl, true), ExpireStale(db, now, None);
            && (out.result.Err? ==> out.db == db || out.db == db1)
            && (out.result.Ok? ==>
                  var k := out.result.value;
                  && k.run in db.runs && !Conflicted(db1, now, k)
                  && out.db == PutRow(db1, k, GrantedAs(db1.claims, now, k, ttl, None)))
  {
  }

  /** `claim_file`, by any run and in any state, keeps the table laws; so does `create_lease`. */
  lemma ClaimFileKeeps(db: Db, now: int, run: RunId, path: Option<Path>, mode: Option<Mode>, ttl: Option<int>)
    ensures Keeps(db, ClaimFile(db, now, run, path, mode, ttl, true).db, now)
  {
    ClaimFileShape(db, now, run, path, mode, ttl);
    ExpireStaleNarrows(db, now, None);
    NarrowsAreKept(db, ExpireStale(db, now, None), now);
    KeepsReflexive(db, now);
    var out := ClaimFile(db, now, run, path, mode, ttl, true);
    if out.result.Ok? {
      GrantAfterExpiryKeeps(db, now, out.result.value, ttl, None);
    }
  }

  lemma KeepsReflexive(db: Db, now: int)
    ensures Keeps(db, db, now)
  {
  }

  lemma CreateLeaseShape(db: Db, now: int, run: RunId, path: Option<Path>, mode: Option<Mode>, ttl: Option<int>, token: Token)
    returns (k: ClaimKey)
    requires CreateLease(db, now, run, path, mode, ttl, token).result.Ok?
    ensures var db1 := ExpireStale(db, now, None);
            && CreateLease(db, now, run, path, mode, ttl, token).result == Ok(k)
            && path == Some(k.path) && mode == Some(k.mode) && run == k.run && run in db.runs
            && !Conflicted(db1, now, k)
            && CreateLease(db, now, run, path, mode, ttl, token).db
               == PutRow(db1, k, LeaseRow(GrantRow(db1.claims, now, k, ttl, false), token))
  {
    k := ClaimKey(run, path.value, mode.value);
    var db1 := ExpireStale(db, now, None);
    var row := GrantRow(db1.claims, now, k, ttl, false);
    assert db1.claims[k := row][k := LeaseRow(row, token)] == db1.claims[k := LeaseRow(row, token)];
  }

  lemma CreateLeaseKeeps(db: Db, now: int, run: RunId, path: Option<Path>, mode: Option<Mode>, ttl: Option<int>, token: Token)
    ensures Keeps(db, CreateLease(db, now, run, path, mode, ttl, token).db, now)
  {
    if CreateLease(db, now, run, path, mode, ttl, token).result.Ok? {
      var k := CreateLeaseShape(db, now, run, path, mode, ttl, token);
      GrantAfterExpiryKeeps(db, now, k, ttl, Some(token));
    } else {
      KeepsReflexive(db, now);
    }
  }

  /* ---- what does not depend on the runs ---- */

  /** The claim laws that hold whatever a call does to the statuses of runs. */
  ghost predicate KeepsClaims(a: Db, b: Db, now: int) {
    WellFormed(a) ==> WellFormed(b) && Evolves(a, now, b, now)
  }

  lemma KeepsClaimsTransitive(a: Db, b: Db, c: Db, now: int)
    requires KeepsClaims(a, b, now) && KeepsClaims(b, c, now)
    ensures KeepsClaims(a, c, now)
  {
    if WellFormed(a) {
      EvolvesTransitive(a, now, b, now, c, now);
    }
  }

  lemma SameClaimsAreKept(a: Db, b: Db, now: int)
    requires b.claims == a.claims && a.runs.Keys <= b.runs.Keys
    ensures KeepsClaims(a, b, now)
  {
  }

  /** A step that moves nothing but expiries. */
  ghost predicate MovesExpiries(a: Db, b: Db) {
    && b.runs == a.runs && b.claims.Keys == a.claims.Keys
    && forall k :: k in a.claims ==> b.claims[k] == a.claims[k].(expires := b.claims[k].expires)
  }

  lemma ExpiriesKeepRows(a: Db, b: Db)
    requires WellFormed(a) && MovesExpiries(a, b)
    ensures forall k :: k in b.claims ==> k.run in b.runs && RowOk(b.claims[k])
  {
    forall k | k in b.claims
      ensures k.run in b.runs && RowOk(b.claims[k])
    {
      assert RowOk(a.claims[k]);
    }
  }

  lemma ExpiriesGrow(a: Db, b: Db)
    requires WellFormed(a) && MovesExpiries(a, b)
    ensures WellFormed(b) && Grows(a, b)
  {
    ExpiriesKeepRows(a, b);
    forall j, k | j in b.claims && k in b.claims && j != k && j.path == k.path
      ensures b.claims[j].fence != b.claims[k].fence
    {
      assert a.claims[j].fence != a.claims[k].fence;
    }
  }

  lemma HeartbeatMovesExpiries(db: Db, now: int, run: RunId, path: Option<Path>, mode: Option<Mode>, ttl: Option<int>)
    ensures MovesExpiries(db, Heartbeat(db, now, run, path, mode, ttl).db)
  {
  }
}
