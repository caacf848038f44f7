/**
 Where the protocol stops protecting its callers, and exactly when: heartbeats on expired
 claims and revived runs. Also what refused and repeated lease calls leave alone.
 `FenceOrder` has the exact conditions for the order of fences.
 */
module ProtocolLimits {
  import opened Options
  import opened AgentTables
  import opened Claims
  import opened ClaimLaws
  import opened AgentRuns
  import opened AgentRunLaws
  import opened ProtocolRuns

  /* ---- heartbeats ---- */

  /** A heartbeat of this run would extend an expired claim that is in conflict now. */
  ghost predicate RevivesConflict(db: Db, now: int, run: RunId, path: Path, mode: Option<Mode>) {
    exists k :: k in db.claims && BeatHits(db, k, run, path, mode) && !Unexpired(db.claims[k], now) && Conflicted(db, now, k)
  }

  /**
   `heartbeat_claim` keeps mutual exclusion exactly when no expired claim it extends fails the
   conflict test that `claim_file` would have made.
   */
  lemma HeartbeatExclusionIff(db: Db, now: int, run: RunId, path: Path, mode: Option<Mode>, ttl: Option<int>)
    requires Exclusive(db, now) && run in db.runs
    ensures Exclusive(Heartbeat(db, now, run, Some(path), mode, ttl).db, now)
       <==> !(IsoAfter(now, ttl).Some? && LiveRun(db, run) && RevivesConflict(db, now, run, path, mode))
  {
    var b := Heartbeat(db, now, run, Some(path), mode, ttl).db;
    if IsoAfter(now, ttl).Some? && LiveRun(db, run) && RevivesConflict(db, now, run, path, mode) {
      var k :| k in db.claims && BeatHits(db, k, run, path, mode) && !Unexpired(db.claims[k], now) && Conflicted(db, now, k);
      var o :| o in db.claims && ConflictsWith(db, now, k, o);
      assert LiveClaim(b, now, k) && LiveClaim(b, now, o);
      assert !Compatible(k.mode, o.mode);
    } else {
      forall i, j | LiveClaim(b, now, i) && LiveClaim(b, now, j) && i.path == j.path && i.run != j.run
        ensures Compatible(i.mode, j.mode)
      {
        if j.run != run {
          BeatPair(db, now, run, path, mode, ttl, i, j);
        } else {
          BeatPair(db, now, run, path, mode, ttl, j, i);
        }
      }
    }
  }

  lemma BeatPair(db: Db, now: int, run: RunId, path: Path, mode: Option<Mode>, ttl: Option<int>, i: ClaimKey, j: ClaimKey)
    requires Exclusive(db, now) && run in db.runs
    requires !(IsoAfter(now, ttl).Some? && LiveRun(db, run) && RevivesConflict(db, now, run, path, mode))
    requires var b := Heartbeat(db, now, run, Some(path), mode, ttl).db; LiveClaim(b, now, i) && LiveClaim(b, now, j)
    requires i.path == j.path && i.run != j.run && j.run != run
    ensures Compatible(i.mode, j.mode)
  {
    assert LiveClaim(db, now, j);
    if !LiveClaim(db, now, i) {
      assert BeatHits(db, i, run, path, mode) && !Unexpired(db.claims[i], now);
      assert !Conflicted(db, now, i);
      assert !ConflictsWith(db, now, i, j);
    }
  }

  /** A row that was not current is so again with the fence it had. */
  lemma RevivedRowDoesNotEvolve(a: Db, b: Db, now: int, k: ClaimKey)
    requires k in a.claims && k in b.claims && a.claims[k].fence == b.claims[k].fence
    requires !Current(a.claims[k], now) && Current(b.claims[k], now)
    ensures !Evolves(a, now, b, now)
  {
    assert !FreshFence(a, k.path, b.claims[k].fence);
  }

  lemma SameTablesEvolve(db: Db, now: int)
    ensures Evolves(db, now, db, now)
  {
  }

  /**
   A heartbeat keeps the evolution of rows, and with it that dead fences stay dead, exactly when it extends no
   expired row.
   */
  lemma HeartbeatEvolvesIff(db: Db, now: int, run: RunId, path: Path, mode: Option<Mode>, ttl: Option<int>)
    requires WellFormed(db) && run in db.runs
    ensures Evolves(db, now, Heartbeat(db, now, run, Some(path), mode, ttl).db, now)
       <==> IsoAfter(now, ttl).None? || TimelyBeat(db, now, run, Some(path), mode)
  {
    var b := Heartbeat(db, now, run, Some(path), mode, ttl).db;
    if TimelyBeat(db, now, run, Some(path), mode) {
      HeartbeatNarrows(db, now, run, Some(path), mode, ttl);
      NarrowsKeeps(db, b, now);
    } else if IsoAfter(now, ttl).None? {
      assert b.claims == db.claims;
      SameTablesEvolve(db, now);
    } else {
      var k :| k in db.claims && BeatHits(db, k, run, path, mode) && !Unexpired(db.claims[k], now);
      RevivedRowDoesNotEvolve(db, b, now, k);
    }
  }

  /** An expired claim of one live run beside the current claim of another, the only writers of their path. */
  ghost predicate LateWriter(db: Db, now: int, late: ClaimKey, held: ClaimKey) {
    && late in db.claims && held in db.claims
    && late.path == held.path && late.run != held.run && Writes(late.mode) && Writes(held.mode)
    && LiveRun(db, late.run) && LiveRun(db, held.run)
    && db.claims[late].status.Active? && !Unexpired(db.claims[late], now)
    && Current(db.claims[held], now) && db.claims[held].kind.PlainClaim?
    && (forall o :: o in db.claims && o.path == held.path && Writes(o.mode) && db.claims[o].status.Active? ==> o == late || o == held)
  }

  lemma SoleWriterVerifies(s: State, k: ClaimKey)
    requires k.run in s.db.runs && k in s.db.claims && Writes(k.mode) && Current(s.db.claims[k], s.now)
    requires forall o :: o in s.db.claims && o.path == k.path && o.run != k.run && Writes(o.mode) ==> !Current(s.db.claims[o], s.now)
    ensures Verifies(s, k.run, k.path, s.db.claims[k].fence)
  {
    assert OwnWriteClaim(s.db, k.run, k.path, k);
  }

  /**
   Without the timeliness of heartbeats the fence order fails in every such state: `held` writes,
   and after a heartbeat of `late` and the release of `held`, `late` writes with its old fence.
   */
  lemma LateHeartbeatReordersFences(db: Db, now: int, late: ClaimKey, held: ClaimKey, ttl: Option<int>)
    requires LateWriter(db, now, late, held) && IsoAfter(now, ttl).Some? && db.claims[late].kind.PlainClaim?
    ensures var beaten := Heartbeat(db, now, late.run, Some(late.path), Some(late.mode), ttl).db;
            var freed := ReleaseClaims(beaten, now, held.run, None, None, AsReleased).db;
            && Verifies(State(db, now), held.run, held.path, db.claims[held].fence)
            && !Exclusive(beaten, now)
            && Verifies(State(freed, now), late.run, late.path, db.claims[late].fence)
            && LiveRun(freed, late.run)
  {
    SoleWriterVerifies(State(db, now), held);
    var beaten := Heartbeat(db, now, late.run, Some(late.path), Some(late.mode), ttl).db;
    assert BeatHits(db, late, late.run, late.path, Some(late.mode));
    assert beaten.claims[held] == db.claims[held];
    assert LiveClaim(beaten, now, late) && LiveClaim(beaten, now, held) && !Compatible(late.mode, held.mode);
    var freed := ReleaseClaims(beaten, now, held.run, None, None, AsReleased).db;
    assert freed.claims[late] == beaten.claims[late];
    assert freed.claims[held].status.Released?;
    SoleWriterVerifies(State(freed, now), late);
  }

  lemma ReleasedWriterIsGone(db: Db, now: int, late: ClaimKey, held: ClaimKey)
    requires LateWriter(db, now, late, held) && Exclusive(db, now)
    ensures var freed := ReleaseClaims(db, now, held.run, None, None, AsReleased).db;
            && Exclusive(freed, now) && LiveRun(freed, late.run)
            && late in freed.claims && (db.claims[late].kind.PlainClaim? ==> freed.claims[late] == db.claims[late])
            && forall o :: o in freed.claims && o.path == late.path && o.run != late.run && Writes(o.mode)
                           ==> !Current(freed.claims[o], now)
  {
    var freed := ReleaseClaims(db, now, held.run, None, None, AsReleased).db;
    assert freed.claims[held].status.Released?;
    forall k | LiveClaim(freed, now, k)
      ensures LiveClaim(db, now, k)
    {
    }
    FewerLiveClaimsStayExclusive(db, freed, now);
  }

  lemma LoneEditorHasNoConflict(db: Db, now: int, k: ClaimKey)
    requires k.mode.EditMode?
    requires forall o :: o in db.claims && o.path == k.path && o.run != k.run && Writes(o.mode) ==> !Current(db.claims[o], now)
    ensures !Conflicted(db, now, k)
  {
  }

  /**
   Mutual exclusion alone does not save the order: once `held` has written and released, the heartbeat of an editing
   `late` is in no conflict, and yet `late` writes with its old fence after `held` wrote with its own.
   */
  lemma QuietHeartbeatReordersFences(db: Db, now: int, late: ClaimKey, held: ClaimKey, ttl: Option<int>)
    requires LateWriter(db, now, late, held) && IsoAfter(now, ttl).Some? && db.claims[late].kind.PlainClaim?
    requires Exclusive(db, now)
    ensures var freed := ReleaseClaims(db, now, held.run, None, None, AsReleased).db;
            var beaten := Heartbeat(freed, now, late.run, Some(late.path), Some(late.mode), ttl).db;
            && Verifies(State(db, now), held.run, held.path, db.claims[held].fence)
            && Exclusive(freed, now)
            && (late.mode.EditMode? ==> !RevivesConflict(freed, now, late.run, late.path, Some(late.mode)))
            && Verifies(State(beaten, now), late.run, late.path, db.claims[late].fence)
  {
    SoleWriterVerifies(State(db, now), held);
    var freed := ReleaseClaims(db, now, held.run, None, None, AsReleased).db;
    ReleasedWriterIsGone(db, now, late, held);
    if late.mode.EditMode? {
      LoneEditorHasNoConflict(freed, now, late);
    }
    var beaten := Heartbeat(freed, now, late.run, Some(late.path), Some(late.mode), ttl).db;
    assert BeatHits(freed, late, late.run, late.path, Some(late.mode));
    SoleWriterVerifies(State(beaten, now), late);
  }

  const PLAIN := Meta(None, false, false, 0, [], 0, [])

  function PlainEdit(fence: nat, expires: Option<int>): Claim {
    Claim(Active, fence, expires, PlainClaim, None, [ClaimEvent(Created, fence)])
  }

  lemma PlainEditOk(fence: nat, expires: Option<int>)
    requires fence > 0
    ensures RowOk(PlainEdit(fence, expires))
  {
    ReplayAppend([], ClaimEvent(Created, fence));
    assert [] + [ClaimEvent(Created, fence)] == [ClaimEvent(Created, fence)];
  }

  /** A concrete one: at time 10 the claim of `a`, fence 1, expired at 5, and `b` holds fence 2. */
  lemma LateWriterExample(a: RunId, b: RunId, f: Path)
    requires a != b
    ensures var run := Run(Working, false, PLAIN);
            var late, held := ClaimKey(a, f, EditMode), ClaimKey(b, f, EditMode);
            var db := Db(map[a := run, b := run], map[late := PlainEdit(1, Some(5)), held := PlainEdit(2, None)], map[]);
            WellFormed(db) && Exclusive(db, 10) && LateWriter(db, 10, late, held) && db.claims[late].fence < db.claims[held].fence
  {
    PlainEditOk(1, Some(5));
    PlainEditOk(2, None);
  }

  /* ---- revived runs ---- */

  /** The current claims that a run gets back with its life: its leases after `end_run`, all of them after an event. */
  ghost predicate BringsBack(db: Db, now: int, r: RunId, leasesOnly: bool, k: ClaimKey) {
    k in db.claims && k.run == r && Current(db.claims[k], now) && (leasesOnly ==> db.claims[k].kind.Lease?)
  }

  ghost predicate BringsBackConflict(db: Db, now: int, r: RunId, leasesOnly: bool) {
    exists k :: BringsBack(db, now, r, leasesOnly, k) && Conflicted(db, now, k)
  }

  /** Tables in which just the run's claims that it brings back have joined the live ones. */
  lemma RevivedExclusionIff(db: Db, b: Db, now: int, r: RunId, leasesOnly: bool)
    requires Exclusive(db, now)
    requires forall k: ClaimKey :: k.run != r ==> (LiveClaim(b, now, k) <==> LiveClaim(db, now, k))
    requires forall k: ClaimKey :: k.run == r ==> (LiveClaim(b, now, k) <==> BringsBack(db, now, r, leasesOnly, k))
    ensures Exclusive(b, now) <==> !BringsBackConflict(db, now, r, leasesOnly)
  {
    if BringsBackConflict(db, now, r, leasesOnly) {
      var k :| BringsBack(db, now, r, leasesOnly, k) && Conflicted(db, now, k);
      var o :| o in db.claims && ConflictsWith(db, now, k, o);
      assert LiveClaim(b, now, k) && LiveClaim(b, now, o) && !Compatible(k.mode, o.mode);
    } else {
      forall i, j | LiveClaim(b, now, i) && LiveClaim(b, now, j) && i.path == j.path && i.run != j.run
        ensures Compatible(i.mode, j.mode)
      {
        if i.run == r {
          assert LiveClaim(db, now, j) && !ConflictsWith(db, now, i, j);
        } else if j.run == r {
          assert LiveClaim(db, now, i) && !ConflictsWith(db, now, j, i);
        } else {
          assert LiveClaim(db, now, i) && LiveClaim(db, now, j);
        }
      }
    }
  }

  lemma FewerLiveClaimsStayExclusive(a: Db, b: Db, now: int)
    requires Exclusive(a, now) && forall k :: LiveClaim(b, now, k) ==> LiveClaim(a, now, k)
    ensures Exclusive(b, now)
  {
  }

  lemma EndRunLiveClaims(db: Db, now: int, r: RunId, status: RunStatus, k: ClaimKey)
    requires r in db.runs
    ensures LiveClaim(EndRun(db, now, r, status).db, now, k)
       <==> if k.run == r then !db.runs[r].archived && !Stopped(status) && BringsBack(db, now, r, true, k)
            else LiveClaim(db, now, k)
  {
  }

  /**
   `end_run`, with any status and on any run, keeps mutual exclusion exactly when the run stays archived or stopped,
   or none of the leases it still holds is in conflict (its plain claims were released).
   */
  lemma RevivedRunExclusionIff(db: Db, now: int, r: RunId, status: RunStatus)
    requires Exclusive(db, now) && r in db.runs
    ensures Exclusive(EndRun(db, now, r, status).db, now)
       <==> db.runs[r].archived || Stopped(status) || !BringsBackConflict(db, now, r, true)
  {
    var b := EndRun(db, now, r, status).db;
    forall k: ClaimKey
      ensures LiveClaim(b, now, k)
         <==> if k.run == r then !db.runs[r].archived && !Stopped(status) && BringsBack(db, now, r, true, k)
              else LiveClaim(db, now, k)
    {
      EndRunLiveClaims(db, now, r, status, k);
    }
    if db.runs[r].archived || Stopped(status) {
      FewerLiveClaimsStayExclusive(db, b, now);
    } else {
      RevivedExclusionIff(db, b, now, r, true);
    }
  }

  lemma StatusEventLiveClaims(db: Db, now: int, r: RunId, path: Option<Path>, status: RunStatus, k: ClaimKey)
    requires r in db.runs
    ensures LiveClaim(RecordEvent(db, now, r, Some(StatusEvent), path, Some(status)).db, now, k)
       <==> if k.run == r then !db.runs[r].archived && !Stopped(status) && BringsBack(db, now, r, false, k)
            else LiveClaim(db, now, k)
  {
  }

  /**
   A status event releases nothing unless its status is stopped, and claims may have been made while the run was
   stopped: it keeps mutual exclusion exactly when the run stays archived or stopped, or none of its current claims,
   plain or lease, is in conflict.
   */
  lemma StatusEventExclusionIff(db: Db, now: int, r: RunId, path: Option<Path>, status: RunStatus)
    requires Exclusive(db, now) && r in db.runs
    ensures Exclusive(RecordEvent(db, now, r, Some(StatusEvent), path, Some(status)).db, now)
       <==> db.runs[r].archived || Stopped(status) || !BringsBackConflict(db, now, r, false)
  {
    var b := RecordEvent(db, now, r, Some(StatusEvent), path, Some(status)).db;
    forall k: ClaimKey
      ensures LiveClaim(b, now, k)
         <==> if k.run == r then !db.runs[r].archived && !Stopped(status) && BringsBack(db, now, r, false, k)
              else LiveClaim(db, now, k)
    {
      StatusEventLiveClaims(db, now, r, path, status, k);
    }
    if db.runs[r].archived || Stopped(status) {
      FewerLiveClaimsStayExclusive(db, b, now);
    } else {
      RevivedExclusionIff(db, b, now, r, false);
    }
  }

  /** A stopped run with a current plain claim beside the current plain claim of a live one, the writers of a path. */
  ghost predicate IdleWriter(db: Db, now: int, idle: ClaimKey, busy: ClaimKey) {
    && idle in db.claims && busy in db.claims && idle.run in db.runs
    && idle.path == busy.path && idle.run != busy.run && Writes(idle.mode) && Writes(busy.mode)
    && Stopped(db.runs[idle.run].status) && !db.runs[idle.run].archived && LiveRun(db, busy.run)
    && Current(db.claims[idle], now) && db.claims[idle].kind.PlainClaim?
    && Current(db.claims[busy], now) && db.claims[busy].kind.PlainClaim?
    && (forall o :: o in db.claims && o.path == busy.path && Writes(o.mode) && o != idle ==> o == busy)
  }

  /**
   A status event that lets the stopped run go on breaks exclusion there, though it holds no lease; and once `busy`,
   which could write, has released, `idle` writes with its own fence, older or not.
   */
  lemma IdleWriterComesBack(db: Db, now: int, idle: ClaimKey, busy: ClaimKey, status: RunStatus)
    requires IdleWriter(db, now, idle, busy) && !Stopped(status)
    ensures var back := RecordEvent(db, now, idle.run, Some(StatusEvent), None, Some(status)).db;
            var freed := ReleaseClaims(back, now, busy.run, None, None, AsReleased).db;
            && Verifies(State(db, now), busy.run, busy.path, db.claims[busy].fence)
            && !Exclusive(back, now)
            && Verifies(State(freed, now), idle.run, idle.path, db.claims[idle].fence)
            && LiveRun(freed, idle.run)
  {
    IdleIsForeignToNobody(db, now, idle, busy);
    var back := RecordEvent(db, now, idle.run, Some(StatusEvent), None, Some(status)).db;
    assert back.claims == db.claims;
    assert LiveClaim(back, now, idle) && LiveClaim(back, now, busy) && !Compatible(idle.mode, busy.mode);
    var freed := ReleaseClaims(back, now, busy.run, None, None, AsReleased).db;
    assert freed.claims[busy].status.Released?;
    assert freed.claims[idle] == db.claims[idle];
    SoleWriterVerifies(State(freed, now), idle);
  }

  lemma IdleIsForeignToNobody(db: Db, now: int, idle: ClaimKey, busy: ClaimKey)
    requires IdleWriter(db, now, idle, busy)
    ensures Verifies(State(db, now), busy.run, busy.path, db.claims[busy].fence)
  {
    assert OwnWriteClaim(db, busy.run, busy.path, busy);
    forall k | k in db.claims
      ensures !ForeignWriter(db, now, busy.run, busy.path, k)
    {
    }
  }

  /** Concrete tables of that kind: `a` is in review with an edit claim, fence 1, and `b` works with fence 2. */
  lemma IdleWriterExample(a: RunId, b: RunId, f: Path)
    requires a != b
    ensures var ka, kb := ClaimKey(a, f, EditMode), ClaimKey(b, f, EditMode);
            var db := Db(map[a := Run(InReview, false, PLAIN), b := Run(Working, false, PLAIN)],
                         map[ka := PlainEdit(1, None), kb := PlainEdit(2, None)], map[]);
            && WellFormed(db) && Exclusive(db, 0) && IdleWriter(db, 0, ka, kb)
            && db.claims[ka].fence < db.claims[kb].fence
  {
    PlainEditOk(1, None);
    PlainEditOk(2, None);
  }

  /* ---- exactly which runs keep exclusion ---- */

  /** The exact condition, call by call. */
  ghost predicate Safe(s: State, step: Step) {
    match step
    case BeatStep(r, path, mode, ttl) =>
      !(path.Some? && IsoAfter(s.now, ttl).Some? && LiveRun(s.db, r) && RevivesConflict(s.db, s.now, r, path.value, mode))
    case EndStep(r, status) =>
      r in s.db.runs ==> s.db.runs[r].archived || Stopped(status) || !BringsBackConflict(s.db, s.now, r, true)
    case EventStep(r, e, _, payload) =>
      r in s.db.runs && e == Some(StatusEvent) && payload.Some? ==>
        s.db.runs[r].archived || Stopped(payload.value) || !BringsBackConflict(s.db, s.now, r, false)
    case _ => true
  }

  lemma BeatExclusionIff(s: State, step: Step)
    requires step.BeatStep? && Exclusive(s.db, s.now)
    ensures Exclusive(Next(s, step).db, s.now) <==> Safe(s, step)
  {
    if step.run in s.db.runs && step.path.Some? {
      HeartbeatExclusionIff(s.db, s.now, step.run, step.path.value, step.mode, step.ttl);
    }
  }

  lemma EventExclusionIff(s: State, step: Step)
    requires step.EventStep? && WellFormed(s.db) && Exclusive(s.db, s.now)
    ensures Exclusive(Next(s, step).db, s.now) <==> Safe(s, step)
  {
    if step.run in s.db.runs && step.event == Some(StatusEvent) && step.payload.Some? {
      StatusEventExclusionIff(s.db, s.now, step.run, step.path, step.payload.value);
    } else {
      OtherEventKeepsExclusion(s.db, s.now, step.run, step.event, step.path, step.payload);
    }
  }

  lemma OtherEventKeepsExclusion(db: Db, now: int, r: RunId, e: Option<EventType>, path: Option<Path>,
                                 payload: Option<RunStatus>)
    requires WellFormed(db) && Exclusive(db, now)
    requires !(r in db.runs && e == Some(StatusEvent) && payload.Some?)
    ensures Exclusive(RecordEvent(db, now, r, e, path, payload).db, now)
  {
    RecordEventSound(db, now, r, e, path, payload);
  }

  lemma StepExclusionIff(s: State, step: Step)
    requires WellFormed(s.db) && Exclusive(s.db, s.now)
    ensures Exclusive(Next(s, step).db, Next(s, step).now) <==> Safe(s, step)
  {
    match step
    case BeatStep(_, _, _, _) => BeatExclusionIff(s, step);
    case EndStep(r, status) =>
      if r in s.db.runs {
        RevivedRunExclusionIff(s.db, s.now, r, status);
      }
    case EventStep(_, _, _, _) => EventExclusionIff(s, step);
    case _ => BehavedStepKeeps(s, step);
  }

  ghost predicate SafeAt(t: Trace, i: nat) {
    i < |t.states| && i < |t.steps| && Safe(t.states[i], t.steps[i])
  }

  ghost predicate ExclusiveAt(t: Trace, n: nat) {
    n < |t.states| && Exclusive(t.states[n].db, t.states[n].now)
  }

  lemma {:induction false} SafeRunIsExclusive(t: Trace, n: nat)
    requires IsTrace(t) && n < |t.states| && t.states[0].db == EMPTY
    requires forall i: nat :: i < n ==> SafeAt(t, i)
    ensures ExclusiveAt(t, n)
  {
    if n > 0 {
      SafeRunIsExclusive(t, n - 1);
      assert StepAt(t, n - 1) && SafeAt(t, n - 1);
      TraceGrows(t, 0, n - 1);
      StepExclusionIff(t.states[n - 1], t.steps[n - 1]);
    }
  }

  lemma ExclusiveStepIsSafe(t: Trace, i: nat)
    requires IsTrace(t) && i < |t.steps| && t.states[0].db == EMPTY
    requires ExclusiveAt(t, i) && ExclusiveAt(t, i + 1)
    ensures SafeAt(t, i)
  {
    assert StepAt(t, i);
    TraceGrows(t, 0, i);
    StepExclusionIff(t.states[i], t.steps[i]);
  }

  /**
   Over any run from empty tables, mutual exclusion holds throughout exactly when no heartbeat extends an expired
   claim of a live run that is in conflict, and no revival brings a claim back that is.
   */
  lemma ExclusionIff(t: Trace)
    requires IsTrace(t) && t.states[0].db == EMPTY
    ensures (forall n: nat :: n < |t.states| ==> ExclusiveAt(t, n)) <==> (forall i: nat :: i < |t.steps| ==> SafeAt(t, i))
  {
    if forall i: nat :: i < |t.steps| ==> SafeAt(t, i) {
      forall n: nat | n < |t.states| ensures ExclusiveAt(t, n) {
        SafeRunIsExclusive(t, n);
      }
    }
    if forall n: nat :: n < |t.states| ==> ExclusiveAt(t, n) {
      forall i: nat | i < |t.steps| ensures SafeAt(t, i) {
        assert ExclusiveAt(t, i) && ExclusiveAt(t, i + 1);
        ExclusiveStepIsSafe(t, i);
      }
    }
  }

  /* ---- tokens of leases past their expiry ---- */

  /** On a row that agrees with its log, exactly the stored token is accepted, while the row is current. */
  lemma AcceptsIff(s: State, k: ClaimKey, token: Token)
    requires k in s.db.claims && RowOk(s.db.claims[k])
    ensures Accepts(s, k, token) <==> HoldsToken(s, k, token) && Current(s.db.claims[k], s.now)
  {
    if Accepts(s, k, token) {
      AcceptedMeansHeld(s, k, token);
    }
    if HoldsToken(s, k, token) && Current(s.db.claims[k], s.now) {
      assert LeaseGuard(s.db, s.now, k, token).None?;
      assert RenewLease(s.db, s.now, k, token, Some(s.db.claims[k].fence), None).result.Ok?;
    }
  }

  /** A step that gives an expired lease's token its force back. */
  ghost predicate RevivesToken(s: State, step: Step, k: ClaimKey, token: Token) {
    || Issues(s, step, k) == Some(token)
    || (step.BeatStep? && step.run in s.db.runs && step.path.Some? && BeatHits(s.db, k, step.run, step.path.value, step.mode)
        && IsoAfter(s.now, step.ttl).Some?)
  }

  lemma IssuedTokenIsAccepted(s: State, step: Step, k: ClaimKey)
    requires WellFormed(s.db) && Issues(s, step, k).Some?
    ensures Accepts(Next(s, step), k, Issues(s, step, k).value)
  {
    var token := Issues(s, step, k).value;
    LeasedRow(s.db, s.now, step.run, step.path, step.mode, step.ttl, token, k);
    AcceptsIff(Next(s, step), k, token);
  }

  lemma LeasedRow(db: Db, now: int, run: RunId, path: Option<Path>, mode: Option<Mode>, ttl: Option<int>, token: Token,
                  k: ClaimKey)
    requires WellFormed(db) && CreateLease(db, now, run, path, mode, ttl, token).result == Ok(k)
    ensures var b := CreateLease(db, now, run, path, mode, ttl, token).db;
            k in b.claims && RowOk(b.claims[k]) && Current(b.claims[k], now) && b.claims[k].token == Some(token)
  {
    var j := CreateLeaseShape(db, now, run, path, mode, ttl, token);
    var db1 := ExpireStale(db, now, None);
    ExpireStaleNarrows(db, now, None);
    NarrowsKeeps(db, db1, now);
    GrantedRow(db1.claims, now, k, ttl, Some(token));
  }

  lemma BeatenTokenIsAccepted(s: State, step: Step, k: ClaimKey, token: Token)
    requires WellFormed(s.db) && HoldsToken(s, k, token)
    requires step.BeatStep? && RevivesToken(s, step, k, token)
    ensures Accepts(Next(s, step), k, token)
  {
    AnyStepLasts(s, step);
    BeatenRow(s.db, s.now, step.run, step.path.value, step.mode, step.ttl, k);
    AcceptsIff(Next(s, step), k, token);
  }

  lemma BeatenRow(db: Db, now: int, run: RunId, path: Path, mode: Option<Mode>, ttl: Option<int>, k: ClaimKey)
    requires run in db.runs && BeatHits(db, k, run, path, mode) && IsoAfter(now, ttl).Some?
    ensures var b := Heartbeat(db, now, run, Some(path), mode, ttl).db;
            k in b.claims && Current(b.claims[k], now) && b.claims[k].token == db.claims[k].token
  {
  }

  lemma EvolvedRowHasNewFence(a: Db, ta: int, b: Db, tb: int, k: ClaimKey)
    requires Evolves(a, ta, b, tb) && k in a.claims && !Current(a.claims[k], ta)
    ensures k in b.claims && (Current(b.claims[k], tb) ==> a.claims[k].fence < b.claims[k].fence)
  {
  }

  lemma CurrentAgainMeansNewFence(s: State, step: Step, k: ClaimKey)
    requires WellFormed(s.db) && k in s.db.claims && !Current(s.db.claims[k], s.now) && !step.BeatStep?
    ensures var n := Next(s, step);
            k in n.db.claims && (Current(n.db.claims[k], n.now) ==> s.db.claims[k].fence < n.db.claims[k].fence)
  {
    TimelyStepKeepsClaims(s, step);
    EvolvedRowHasNewFence(s.db, s.now, Next(s, step).db, Next(s, step).now, k);
  }

  lemma AcceptedTokenWasRevived(s: State, step: Step, k: ClaimKey, token: Token)
    requires WellFormed(s.db) && HoldsToken(s, k, token) && !Current(s.db.claims[k], s.now)
    requires Accepts(Next(s, step), k, token)
    ensures RevivesToken(s, step, k, token)
  {
    AcceptedMeansHeld(Next(s, step), k, token);
    TokenComesFromStep(s, step, k);
    if !step.BeatStep? {
      CurrentAgainMeansNewFence(s, step, k);
    }
  }

  /**
   A lease past its expiry that no call has cleared yet: whatever the next call, its token is accepted after it
   exactly when the call extends the claim by a heartbeat, or issues that token anew.
   */
  lemma ExpiredTokenWorksAgainIff(s: State, step: Step, k: ClaimKey, token: Token)
    requires WellFormed(s.db) && HoldsToken(s, k, token) && !Current(s.db.claims[k], s.now)
    ensures !Accepts(s, k, token)
    ensures Accepts(Next(s, step), k, token) <==> RevivesToken(s, step, k, token)
  {
    AcceptsIff(s, k, token);
    if Issues(s, step, k) == Some(token) {
      IssuedTokenIsAccepted(s, step, k);
    } else if RevivesToken(s, step, k, token) {
      BeatenTokenIsAccepted(s, step, k, token);
    }
    if Accepts(Next(s, step), k, token) {
      AcceptedTokenWasRevived(s, step, k, token);
    }
  }

  /** So a heartbeat gives every active lease past its expiry its token back. */
  lemma LateHeartbeatRevivesToken(db: Db, now: int, k: ClaimKey, ttl: Option<int>)
    requires WellFormed(db) && k in db.claims && db.claims[k].kind.Lease? && db.claims[k].status.Active?
    requires !Unexpired(db.claims[k], now) && IsoAfter(now, ttl).Some?
    ensures var token := db.claims[k].token;
            && token.Some?
            && !Accepts(State(db, now), k, token.value)
            && Accepts(State(Heartbeat(db, now, k.run, Some(k.path), Some(k.mode), ttl).db, now), k, token.value)
  {
    assert RowOk(db.claims[k]);
    ExpiredTokenWorksAgainIff(State(db, now), BeatStep(k.run, Some(k.path), Some(k.mode), ttl), k, db.claims[k].token.value);
  }

  /** With timely heartbeats, a token that works has been on a current row ever since it was issued. */
  lemma AcceptedTokenWasAlwaysCurrent(t: Trace, i: nat, j: nat, n: nat, k: ClaimKey, token: Token)
    requires TimelyRun(t) && i < j <= n < |t.states| && t.states[0].db == EMPTY && TokensDiffer(t)
    requires Issues(t.states[i], t.steps[i], k) == Some(token) && Accepts(t.states[n], k, token)
    ensures k in t.states[j].db.claims && Current(t.states[j].db.claims[k], t.states[j].now)
  {
    AcceptedTokenIsLatest(t, n, k, token);
    StoredTokenIsLatest(t, n, k, token);
    assert LatestLease(t, n, k).value == i;
    TraceGrows(t, 0, j);
    TimelyRunEvolves(t, j, n);
    assert !FreshFence(t.states[j].db, k.path, t.states[n].db.claims[k].fence);
  }

  /** After expiry, swept or not, an older token never works again, when heartbeats are timely. */
  lemma ExpiredTokenNeverWorks(t: Trace, i: nat, j: nat, n: nat, k: ClaimKey, token: Token)
    requires TimelyRun(t) && i < j <= n < |t.states| && t.states[0].db == EMPTY && TokensDiffer(t)
    requires Issues(t.states[i], t.steps[i], k) == Some(token)
    requires !(k in t.states[j].db.claims && Current(t.states[j].db.claims[k], t.states[j].now))
    ensures !Accepts(t.states[n], k, token)
  {
    if Accepts(t.states[n], k, token) {
      AcceptedTokenWasAlwaysCurrent(t, i, j, n, k, token);
    }
  }

  /* ---- refused and repeated calls ---- */

  /** A denial is invisible to the replay of the log. */
  lemma DenialsDoNotReplay(log: seq<ClaimEvent>, reason: DenyReason, fence: nat)
    ensures Replay(log + [ClaimEvent(Denied(reason), fence)]) == Replay(log)
  {
    ReplayAppend(log, ClaimEvent(Denied(reason), fence));
  }

  /** A renewal refused for its token or fence changes no field of any row and logs one denial. */
  lemma RefusedRenewalOnlyLogs(db: Db, now: int, k: ClaimKey, token: Token, fence: Option<int>, ttl: Option<int>)
    requires k in db.claims && db.claims[k].status.Active? && !StaleLease(db.claims[k], now)
    requires db.claims[k].token != Some(token) || fence != Some(db.claims[k].fence)
    ensures var out := RenewLease(db, now, k, token, fence, ttl);
            && out.result.Err?
            && exists reason ::
                 out.db == db.(claims := db.claims[k := db.claims[k].(log := db.claims[k].log + [ClaimEvent(Denied(reason), db.claims[k].fence)])])
    ensures Replay(RenewLease(db, now, k, token, fence, ttl).db.claims[k].log) == Replay(db.claims[k].log)
  {
    var db1 := ExpireStale(db, now, Some(k));
    assert db1.claims == db.claims;
    var reason := if db.claims[k].token != Some(token) then BadToken else if fence.None? then BadFence else OldFence;
    assert RenewLease(db, now, k, token, fence, ttl).db == Deny(db1, k, reason);
    DenialsDoNotReplay(db.claims[k].log, reason, db.claims[k].fence);
  }

  /** The same for a release with a wrong token. */
  lemma RefusedReleaseOnlyLogs(db: Db, now: int, k: ClaimKey, token: Token, how: ReleaseAs)
    requires k in db.claims && db.claims[k].status.Active? && !StaleLease(db.claims[k], now)
    requires db.claims[k].token != Some(token)
    ensures ReleaseLease(db, now, k, token, how) ==
      Outcome(
        db.(claims := db.claims[k := db.claims[k].(log := db.claims[k].log + [ClaimEvent(Denied(BadToken), db.claims[k].fence)])]),
        Err(TokenMismatch))
    ensures Replay(ReleaseLease(db, now, k, token, how).db.claims[k].log) == Replay(db.claims[k].log)
  {
    assert ExpireStale(db, now, Some(k)).claims == db.claims;
    DenialsDoNotReplay(db.claims[k].log, BadToken, db.claims[k].fence);
  }

  /** A plain re-claim over a held lease changes nothing of the lease: fence, token, expiry and log stay. */
  lemma ReclaimKeepsHeldLease(db: Db, now: int, k: ClaimKey, ttl: Option<int>)
    requires k.run in db.runs && k in db.claims && HeldLease(db.claims[k], now) && !Conflicted(ExpireStale(db, now, None), now, k)
    ensures ClaimFile(db, now, k.run, Some(k.path), Some(k.mode), ttl, true) == Outcome(ExpireStale(db, now, None), Ok(k))
    ensures ExpireStale(db, now, None).claims[k] == db.claims[k]
  {
    var db1 := ExpireStale(db, now, None);
    assert db1.claims[k := db1.claims[k]] == db1.claims;
  }

  /** Ending a run leaves its unexpired leases as they were, so they still verify for it. */
  lemma EndRunKeepsHeldLeases(db: Db, now: int, r: RunId, status: RunStatus, k: ClaimKey)
    requires k in db.claims && k.run == r && r in db.runs && HeldLease(db.claims[k], now)
    ensures k in EndRun(db, now, r, status).db.claims && EndRun(db, now, r, status).db.claims[k] == db.claims[k]
  {
  }
}
