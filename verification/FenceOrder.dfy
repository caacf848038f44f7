/**
 When exactly fences order the writers of a path. Two kinds of call can put them out of order: a heartbeat that
 extends an expired claim, and the revival of a run. Each is harmless exactly when no claim it brings back has been
 overtaken: when no other run has had a write claim on the path with as large a fence. `FenceGrants` shows that such a
 run could write with that fence, so the condition is exact for verified writes over whole runs.
 */
module FenceOrder {
  import opened Options
  import opened AgentTables
  import opened Claims
  import opened ClaimLaws
  import opened AgentRuns
  import opened AgentRunLaws
  import opened ProtocolRuns
  import opened ProtocolLimits
  import opened FenceGrants

  /** Another run has had a write claim on the path with this fence or a larger one. */
  ghost predicate Overtaken(db: Db, k: ClaimKey, fence: nat) {
    exists o :: o in db.claims && o.path == k.path && o.run != k.run && Writes(o.mode) && fence <= db.claims[o].fence
  }

  ghost predicate LiveWriter(s: State, k: ClaimKey) {
    LiveClaim(s.db, s.now, k) && Writes(k.mode)
  }

  /** A live write claim of the later state was live before with its fence, or had not been overtaken. */
  ghost predicate OrderedAt(s: State, n: State, k: ClaimKey) {
    LiveWriter(n, k) ==>
      || (LiveWriter(s, k) && s.db.claims[k].fence == n.db.claims[k].fence)
      || !Overtaken(s.db, k, n.db.claims[k].fence)
  }

  ghost predicate KeepsOrder(s: State, n: State) {
    forall k: ClaimKey :: OrderedAt(s, n, k)
  }

  /** That is enough: a later write of another live run carries a larger fence. */
  lemma KeptOrderOrdersWriters(s: State, n: State, a: RunId, b: RunId, path: Path, f: int, g: int)
    requires KeepsOrder(s, n) && a != b
    requires Verifies(s, a, path, f) && Verifies(n, b, path, g) && LiveRun(n.db, b)
    ensures g > f
  {
    var own := VerifiedRow(s, a, path, f);
    var k := VerifiedRow(n, b, path, g);
    VerifiedAlone(s, a, path, f, k);
    assert OrderedAt(s, n, k);
  }

  lemma KeepsOrderTransitive(a: State, b: State, c: State)
    requires KeepsOrder(a, b) && KeepsOrder(b, c) && Grows(a.db, b.db)
    ensures KeepsOrder(a, c)
  {
    forall k: ClaimKey
      ensures OrderedAt(a, c, k)
    {
      assert OrderedAt(a, b, k) && OrderedAt(b, c, k);
      if LiveWriter(c, k) && Overtaken(a.db, k, c.db.claims[k].fence) {
        OvertakenStays(a.db, b.db, k, c.db.claims[k].fence);
      }
    }
  }

  lemma OvertakenStays(a: Db, b: Db, k: ClaimKey, fence: nat)
    requires Grows(a, b) && Overtaken(a, k, fence)
    ensures Overtaken(b, k, fence)
  {
    var o :| o in a.claims && o.path == k.path && o.run != k.run && Writes(o.mode) && fence <= a.claims[o].fence;
    assert o in b.claims && fence <= b.claims[o].fence;
  }

  /* ---- which calls keep the order ---- */

  lemma KeptStepKeepsOrder(s: State, n: State)
    requires WellFormed(s.db) && StepKeeps(s, n)
    ensures KeepsOrder(s, n)
  {
    forall k: ClaimKey
      ensures OrderedAt(s, n, k)
    {
    }
  }

  /** A heartbeat of this live run would extend an expired write claim that has been overtaken. */
  ghost predicate RevivesOvertaken(db: Db, now: int, run: RunId, path: Path, mode: Option<Mode>) {
    exists k :: k in db.claims && BeatHits(db, k, run, path, mode) && !Unexpired(db.claims[k], now) && Writes(k.mode)
                && Overtaken(db, k, db.claims[k].fence)
  }

  lemma HeartbeatOrderAt(db: Db, now: int, run: RunId, path: Path, mode: Option<Mode>, ttl: Option<int>, k: ClaimKey)
    requires run in db.runs
    ensures var b := Heartbeat(db, now, run, Some(path), mode, ttl).db;
            OrderedAt(State(db, now), State(b, now), k)
            <==> !(&& k in db.claims && BeatHits(db, k, run, path, mode) && !Unexpired(db.claims[k], now) && Writes(k.mode)
                   && LiveRun(db, run) && IsoAfter(now, ttl).Some? && Overtaken(db, k, db.claims[k].fence))
  {
  }

  /** A heartbeat keeps the order exactly when it extends no expired write claim of a live run that was overtaken. */
  lemma HeartbeatOrderIff(db: Db, now: int, run: RunId, path: Path, mode: Option<Mode>, ttl: Option<int>)
    requires run in db.runs
    ensures KeepsOrder(State(db, now), State(Heartbeat(db, now, run, Some(path), mode, ttl).db, now))
       <==> !(IsoAfter(now, ttl).Some? && LiveRun(db, run) && RevivesOvertaken(db, now, run, path, mode))
  {
    var n := State(Heartbeat(db, now, run, Some(path), mode, ttl).db, now);
    forall k: ClaimKey
      ensures OrderedAt(State(db, now), n, k)
         <==> !(&& k in db.claims && BeatHits(db, k, run, path, mode) && !Unexpired(db.claims[k], now) && Writes(k.mode)
                && LiveRun(db, run) && IsoAfter(now, ttl).Some? && Overtaken(db, k, db.claims[k].fence))
    {
      HeartbeatOrderAt(db, now, run, path, mode, ttl, k);
    }
    if IsoAfter(now, ttl).Some? && LiveRun(db, run) && RevivesOvertaken(db, now, run, path, mode) {
      var k :| k in db.claims && BeatHits(db, k, run, path, mode) && !Unexpired(db.claims[k], now) && Writes(k.mode)
               && Overtaken(db, k, db.claims[k].fence);
      assert !OrderedAt(State(db, now), n, k);
    }
  }

  /** A revival would bring back an overtaken write claim. */
  ghost predicate BringsBackOvertaken(db: Db, now: int, r: RunId, leasesOnly: bool) {
    exists k :: BringsBack(db, now, r, leasesOnly, k) && Writes(k.mode) && Overtaken(db, k, db.claims[k].fence)
  }

  /** The run comes back to life, and was not alive. */
  predicate ComesBack(db: Db, r: RunId, status: RunStatus) {
    r in db.runs && !db.runs[r].archived && !LiveRun(db, r) && !Stopped(status)
  }

  lemma RevivalOrderIff(db: Db, b: Db, now: int, r: RunId, leasesOnly: bool)
    requires !LiveRun(db, r)
    requires forall k :: k in db.claims ==> k in b.claims && b.claims[k].fence == db.claims[k].fence
    requires forall k: ClaimKey :: k.run != r ==> (LiveClaim(b, now, k) ==> LiveClaim(db, now, k))
    requires forall k: ClaimKey :: k.run == r ==> (LiveClaim(b, now, k) <==> BringsBack(db, now, r, leasesOnly, k))
    ensures KeepsOrder(State(db, now), State(b, now)) <==> !BringsBackOvertaken(db, now, r, leasesOnly)
  {
    if BringsBackOvertaken(db, now, r, leasesOnly) {
      var k :| BringsBack(db, now, r, leasesOnly, k) && Writes(k.mode) && Overtaken(db, k, db.claims[k].fence);
      assert LiveClaim(b, now, k);
      assert !OrderedAt(State(db, now), State(b, now), k);
    } else {
      forall k: ClaimKey
        ensures OrderedAt(State(db, now), State(b, now), k)
      {
      }
    }
  }

  /** The exact condition, call by call. */
  ghost predicate Orderly(s: State, step: Step) {
    match step
    case BeatStep(r, path, mode, ttl) =>
      !(path.Some? && IsoAfter(s.now, ttl).Some? && LiveRun(s.db, r) && RevivesOvertaken(s.db, s.now, r, path.value, mode))
    case EndStep(r, status) => ComesBack(s.db, r, status) ==> !BringsBackOvertaken(s.db, s.now, r, true)
    case EventStep(r, e, _, payload) =>
      e == Some(StatusEvent) && payload.Some? && ComesBack(s.db, r, payload.value) ==>
        !BringsBackOvertaken(s.db, s.now, r, false)
    case _ => true
  }

  lemma BeatOrderIff(s: State, step: Step)
    requires step.BeatStep?
    ensures KeepsOrder(s, Next(s, step)) <==> Orderly(s, step)
  {
    if step.run in s.db.runs && step.path.Some? {
      HeartbeatOrderIff(s.db, s.now, step.run, step.path.value, step.mode, step.ttl);
    } else {
      assert Next(s, step) == s;
      forall k: ClaimKey
        ensures OrderedAt(s, s, k)
      {
      }
    }
  }

  lemma EndOrderIff(s: State, step: Step)
    requires step.EndStep? && WellFormed(s.db)
    ensures KeepsOrder(s, Next(s, step)) <==> Orderly(s, step)
  {
    if ComesBack(s.db, step.run, step.status) {
      EndRevivalOrderIff(s.db, s.now, step.run, step.status);
    } else {
      BehavedStepKeeps(s, step);
      KeptStepKeepsOrder(s, Next(s, step));
    }
  }

  lemma EndRevivalOrderIff(db: Db, now: int, r: RunId, status: RunStatus)
    requires ComesBack(db, r, status)
    ensures KeepsOrder(State(db, now), State(EndRun(db, now, r, status).db, now)) <==> !BringsBackOvertaken(db, now, r, true)
  {
    var b := EndRun(db, now, r, status).db;
    forall k: ClaimKey
      ensures LiveClaim(b, now, k) <==> if k.run == r then BringsBack(db, now, r, true, k) else LiveClaim(db, now, k)
    {
      EndRunLiveClaims(db, now, r, status, k);
    }
    RevivalOrderIff(db, b, now, r, true);
  }

  lemma EventOrderIff(s: State, step: Step)
    requires step.EventStep? && WellFormed(s.db)
    ensures KeepsOrder(s, Next(s, step)) <==> Orderly(s, step)
  {
    var db, now, r := s.db, s.now, step.run;
    if step.event == Some(StatusEvent) && step.payload.Some? && ComesBack(db, r, step.payload.value) {
      var b := RecordEvent(db, now, r, step.event, step.path, step.payload).db;
      assert b.claims == db.claims;
      forall k: ClaimKey
        ensures LiveClaim(b, now, k) <==> if k.run == r then BringsBack(db, now, r, false, k) else LiveClaim(db, now, k)
      {
        StatusEventLiveClaims(db, now, r, step.path, step.payload.value, k);
      }
      RevivalOrderIff(db, b, now, r, false);
    } else {
      BehavedStepKeeps(s, step);
      KeptStepKeepsOrder(s, Next(s, step));
    }
  }

  /** In well-formed tables, a call keeps the order of fences exactly when it brings back no overtaken claim. */
  lemma StepOrderIff(s: State, step: Step)
    requires WellFormed(s.db)
    ensures KeepsOrder(s, Next(s, step)) <==> Orderly(s, step)
  {
    match step
    case BeatStep(_, _, _, _) => BeatOrderIff(s, step);
    case EndStep(_, _) => EndOrderIff(s, step);
    case EventStep(_, _, _, _) => EventOrderIff(s, step);
    case _ =>
      BehavedStepKeeps(s, step);
      KeptStepKeepsOrder(s, Next(s, step));
  }

  /* ---- over whole runs ---- */

  ghost predicate OrderlyAt(t: Trace, i: nat) {
    i < |t.states| && i < |t.steps| && Orderly(t.states[i], t.steps[i])
  }

  ghost predicate InOrder(first: State, s: State) {
    WellFormed(s.db) && Grows(first.db, s.db) && KeepsOrder(first, s)
  }

  lemma InOrderNext(first: State, s: State, step: Step)
    requires InOrder(first, s) && Orderly(s, step)
    ensures InOrder(first, Next(s, step))
  {
    AnyStepLasts(s, step);
    GrowsTransitive(first.db, s.db, Next(s, step).db);
    StepOrderIff(s, step);
    KeepsOrderTransitive(first, s, Next(s, step));
  }

  lemma InOrderAtFirst(s: State)
    requires WellFormed(s.db)
    ensures InOrder(s, s)
  {
    forall k: ClaimKey
      ensures OrderedAt(s, s, k)
    {
    }
  }

  /**
   Fences order the writers in every run whose calls are orderly: heartbeats may come late and runs may be revived,
   as long as no overtaken write claim comes back.
   */
  lemma OrderlyRunOrdersWriters(t: Trace, i: nat, j: nat, a: RunId, b: RunId, path: Path, f: int, g: int)
    requires IsTrace(t) && i <= j < |t.states| && WellFormed(t.states[0].db)
    requires forall k: nat :: k < |t.steps| ==> OrderlyAt(t, k)
    requires Verifies(t.states[i], a, path, f)
    requires Verifies(t.states[j], b, path, g) && LiveRun(t.states[j].db, b)
    requires a != b
    ensures g > f
  {
    TraceGrows(t, 0, i);
    var inv := (s: State) => InOrder(t.states[i], s);
    InOrderAtFirst(t.states[i]);
    forall k: nat | k + 1 < |t.states| && inv(t.states[k])
      ensures inv(t.states[k + 1])
    {
      assert StepAt(t, k) && OrderlyAt(t, k);
      InOrderNext(t.states[i], t.states[k], t.steps[k]);
    }
    Invariantly(t.states, inv, i, j);
    KeptOrderOrdersWriters(t.states[i], t.states[j], a, b, path, f, g);
  }

  /** A behaved step is orderly, so this covers every behaved run. */
  lemma BehavedStepIsOrderly(s: State, step: Step)
    requires WellFormed(s.db) && Behaved(s, step)
    ensures Orderly(s, step)
  {
    BehavedStepKeeps(s, step);
    KeptStepKeepsOrder(s, Next(s, step));
    StepOrderIff(s, step);
  }

  /* ---- why the condition cannot be weakened ---- */

  function Archived(db: Db, now: int, rs: seq<RunId>): Db {
    if rs == [] then db else ArchiveRun(Archived(db, now, rs[..|rs| - 1]), now, rs[|rs| - 1]).db
  }

  lemma ArchivingSpares(db: Db, now: int, r: RunId, k: ClaimKey)
    requires LiveClaim(db, now, k) && k.run != r
    ensures var b := ArchiveRun(db, now, r).db;
            && LiveClaim(b, now, k) && b.claims[k].fence == db.claims[k].fence
            && b.claims.Keys == db.claims.Keys && b.runs.Keys == db.runs.Keys
            && (r in b.runs ==> b.runs[r].archived)
            && forall q :: q in db.runs && db.runs[q].archived ==> b.runs[q].archived
  {
  }

  lemma {:induction false} ArchivingAllSpares(db: Db, now: int, rs: seq<RunId>, k: ClaimKey)
    requires LiveClaim(db, now, k) && k.run !in rs
    ensures var b := Archived(db, now, rs);
            && LiveClaim(b, now, k) && b.claims[k].fence == db.claims[k].fence
            && b.claims.Keys == db.claims.Keys && b.runs.Keys == db.runs.Keys
            && forall r :: r in rs && r in b.runs ==> b.runs[r].archived
  {
    if rs != [] {
      var front, last := rs[..|rs| - 1], rs[|rs| - 1];
      ArchivingAllSpares(db, now, front, k);
      ArchivingSpares(Archived(db, now, front), now, last, k);
    }
  }

  lemma {:induction false} ListOf(runs: set<RunId>) returns (rs: seq<RunId>)
    ensures forall r :: r in rs <==> r in runs
  {
    if runs == {} {
      rs := [];
    } else {
      var r :| r in runs;
      rs := ListOf(runs - {r});
      rs := rs + [r];
    }
  }

  /** A live write claim can always come to write: after the other runs are archived its fence verifies. */
  lemma LiveClaimCanWrite(db: Db, now: int, k: ClaimKey) returns (others: seq<RunId>)
    requires LiveClaim(db, now, k) && Writes(k.mode)
    ensures k.run !in others
    ensures var b := Archived(db, now, others);
            LiveRun(b, k.run) && Verifies(State(b, now), k.run, k.path, db.claims[k].fence)
  {
    others := ListOf(db.runs.Keys - {k.run});
    ArchivingAllSpares(db, now, others, k);
    var b := Archived(db, now, others);
    assert OwnWriteClaim(b, k.run, k.path, k);
    forall o | o in b.claims
      ensures !ForeignWriter(b, now, k.run, k.path, o)
    {
    }
  }

  /* ---- exactly which runs keep the writers in order ---- */

  /** Two writes out of order: a later verified write of another live run has no larger fence. */
  ghost predicate OutOfOrder(t: Trace, i: nat, j: nat, a: RunId, b: RunId, path: Path, f: int, g: int) {
    && i <= j < |t.states| && a != b
    && Verifies(t.states[i], a, path, f)
    && Verifies(t.states[j], b, path, g) && LiveRun(t.states[j].db, b)
    && g <= f
  }

  ghost predicate WritersOrdered(t: Trace) {
    forall i: nat, j: nat, a, b, path, f, g :: !OutOfOrder(t, i, j, a, b, path, f, g)
  }

  ghost predicate AllOrderly(t: Trace) {
    forall k: nat :: k < |t.steps| ==> OrderlyAt(t, k)
  }

  lemma OrderlyWritersOrdered(t: Trace)
    requires IsTrace(t) && WellFormed(t.states[0].db) && AllOrderly(t)
    ensures WritersOrdered(t)
  {
    forall i: nat, j: nat, a, b, path, f, g
      ensures !OutOfOrder(t, i, j, a, b, path, f, g)
    {
      if OutOfOrder(t, i, j, a, b, path, f, g) {
        OrderlyRunOrdersWriters(t, i, j, a, b, path, f, g);
      }
    }
  }

  /** The run with one more call. */
  ghost function Extended(t: Trace, step: Step): (u: Trace)
    requires IsTrace(t)
    ensures IsTrace(u) && |u.steps| == |t.steps| + 1
    ensures forall i: nat | i < |t.states| :: u.states[i] == t.states[i]
    ensures forall i: nat | i < |t.steps| :: u.steps[i] == t.steps[i]
    ensures u.steps[|t.steps|] == step && u.states[|t.states|] == Next(t.states[|t.steps|], step)
  {
    var u := Trace(t.states + [Next(t.states[|t.steps|], step)], t.steps + [step]);
    assert forall i: nat | i < |u.steps| :: StepAt(u, i) by {
      forall i: nat | i < |u.steps|
        ensures StepAt(u, i)
      {
        assert i < |t.steps| ==> StepAt(t, i);
      }
    }
    u
  }

  ghost function Prefix(t: Trace, n: nat): (u: Trace)
    requires IsTrace(t) && n < |t.states|
    ensures IsTrace(u) && |u.steps| == n
    ensures forall i: nat | i <= n :: u.states[i] == t.states[i]
    ensures forall i: nat | i < n :: u.steps[i] == t.steps[i]
  {
    var u := Trace(t.states[..n + 1], t.steps[..n]);
    assert forall i: nat | i < |u.steps| :: StepAt(u, i) by {
      forall i: nat | i < |u.steps|
        ensures StepAt(u, i)
      {
        assert StepAt(t, i);
      }
    }
    u
  }

  /** The run up to a state, after which the given runs are archived, one after the other. */
  ghost function ThenArchived(t: Trace, n: nat, rs: seq<RunId>): (u: Trace)
    requires IsTrace(t) && n < |t.states|
    ensures IsTrace(u) && |u.steps| == n + |rs|
    ensures forall i: nat | i <= n :: u.states[i] == t.states[i]
    ensures forall i: nat | i < n :: u.steps[i] == t.steps[i]
    ensures forall i: nat | n <= i < n + |rs| :: u.steps[i].ArchiveStep?
    ensures u.states[n + |rs|] == State(Archived(t.states[n].db, t.states[n].now, rs), t.states[n].now)
    decreases |rs|
  {
    if rs == [] then Prefix(t, n)
    else Extended(ThenArchived(t, n, rs[..|rs| - 1]), ArchiveStep(rs[|rs| - 1]))
  }

  lemma ArchivingIsOrderly(t: Trace, n: nat, rs: seq<RunId>)
    requires IsTrace(t) && n < |t.states| && forall k: nat :: k < n ==> OrderlyAt(t, k)
    ensures AllOrderly(ThenArchived(t, n, rs))
  {
    var u := ThenArchived(t, n, rs);
    forall k: nat | k < |u.steps|
      ensures OrderlyAt(u, k)
    {
      if k < n {
        assert OrderlyAt(t, k);
      } else {
        assert u.steps[k].ArchiveStep?;
      }
    }
  }

  /** A call that is not orderly brings back a live write claim that another run's has overtaken. */
  lemma DisorderlyBringsBack(s: State, step: Step) returns (k: ClaimKey, o: ClaimKey)
    requires WellFormed(s.db) && !Orderly(s, step)
    ensures LiveWriter(Next(s, step), k)
    ensures o in s.db.claims && o.path == k.path && o.run != k.run && Writes(o.mode)
    ensures Next(s, step).db.claims[k].fence <= s.db.claims[o].fence
  {
    StepOrderIff(s, step);
    k :| !OrderedAt(s, Next(s, step), k);
    var fence := Next(s, step).db.claims[k].fence;
    o :| o in s.db.claims && o.path == k.path && o.run != k.run && Writes(o.mode) && fence <= s.db.claims[o].fence;
  }

  lemma DisorderlyAt(t: Trace, n: nat) returns (k: ClaimKey, o: ClaimKey)
    requires IsTrace(t) && n < |t.steps| && WellFormed(t.states[0].db) && !OrderlyAt(t, n)
    ensures LiveWriter(t.states[n + 1], k)
    ensures o in t.states[n].db.claims && o.path == k.path && o.run != k.run && Writes(o.mode)
    ensures t.states[n + 1].db.claims[k].fence <= t.states[n].db.claims[o].fence
  {
    TraceGrows(t, 0, n);
    assert StepAt(t, n);
    k, o := DisorderlyBringsBack(t.states[n], t.steps[n]);
  }

  /**
   The condition is needed. After any run from empty tables, a call that is not orderly brings back a claim whose fence
   is not above one that another run has had verified on the path, and once the other runs are archived it writes.
   */
  lemma OvertakenClaimWritesOutOfOrder(t: Trace, n: nat) returns (others: seq<RunId>)
    requires IsTrace(t) && n < |t.steps| && t.states[0].db == EMPTY && !OrderlyAt(t, n)
    ensures !WritersOrdered(ThenArchived(t, n + 1, others))
  {
    var k, o := DisorderlyAt(t, n);
    var m := WriteFencesWereVerified(t, n, o);
    others := OutOfOrderOnceAlone(t, m, n + 1, o, t.states[n].db.claims[o].fence, k);
  }

  /** A live write claim writes, once the others are archived, after the write of another run with as large a fence. */
  lemma OutOfOrderOnceAlone(t: Trace, m: nat, n: nat, o: ClaimKey, f: nat, k: ClaimKey) returns (others: seq<RunId>)
    requires IsTrace(t) && m <= n < |t.states| && WroteAt(t, m, o, f)
    requires LiveWriter(t.states[n], k) && k.run != o.run && k.path == o.path && t.states[n].db.claims[k].fence <= f
    ensures !WritersOrdered(ThenArchived(t, n, others))
  {
    others := LiveClaimCanWrite(t.states[n].db, t.states[n].now, k);
    var u := ThenArchived(t, n, others);
    assert u.states[m] == t.states[m];
    assert OutOfOrder(u, m, n + |others|, o.run, k.run, k.path, f, t.states[n].db.claims[k].fence);
  }

  /**
   Fences order the writers of a run, wherever it stops and whichever runs are then archived, exactly when no call of it
   brings back an overtaken write claim.
   */
  lemma FenceOrderIff(t: Trace)
    requires IsTrace(t) && t.states[0].db == EMPTY
    ensures AllOrderly(t)
       <==> forall n: nat, rs: seq<RunId> :: n < |t.states| ==> WritersOrdered(ThenArchived(t, n, rs))
  {
    if AllOrderly(t) {
      forall n: nat, rs: seq<RunId> | n < |t.states|
        ensures WritersOrdered(ThenArchived(t, n, rs))
      {
        ArchivingIsOrderly(t, n, rs);
        OrderlyWritersOrdered(ThenArchived(t, n, rs));
      }
    } else {
      var n: nat :| n < |t.steps| && !OrderlyAt(t, n);
      var others := OvertakenClaimWritesOutOfOrder(t, n);
      assert !WritersOrdered(ThenArchived(t, n + 1, others));
    }
  }

  /** The same for the next call after an orderly run: it alone decides whether writes can come out of order. */
  lemma NextCallOrderIff(t: Trace, step: Step)
    requires IsTrace(t) && t.states[0].db == EMPTY && AllOrderly(t)
    ensures Orderly(t.states[|t.steps|], step)
       <==> var u := Extended(t, step); forall rs: seq<RunId> :: WritersOrdered(ThenArchived(u, |u.steps|, rs))
  {
    var u := Extended(t, step);
    var last := |t.steps|;
    forall k: nat | k < last
      ensures OrderlyAt(u, k)
    {
      assert OrderlyAt(t, k);
    }
    assert OrderlyAt(u, last) <==> Orderly(t.states[last], step);
    if Orderly(t.states[last], step) {
      forall rs: seq<RunId>
        ensures WritersOrdered(ThenArchived(u, |u.steps|, rs))
      {
        ArchivingIsOrderly(u, |u.steps|, rs);
        OrderlyWritersOrdered(ThenArchived(u, |u.steps|, rs));
      }
    } else {
      var others := OvertakenClaimWritesOutOfOrder(u, last);
      assert !WritersOrdered(ThenArchived(u, |u.steps|, others));
    }
  }
}
