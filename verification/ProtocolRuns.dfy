/**
 Whole runs of the coordination protocol: any sequence of calls and clock ticks.
 `Behaved` spells out what a caller has to respect for the safety results.
 */
module ProtocolRuns {
  import opened Options
  import opened AgentTables
  import opened Claims
  import opened ClaimLaws
  import opened AgentRuns
  import opened AgentRunLaws
  import opened Swarm
  import opened SwarmLaws
  import opened Orchestrator
  import opened OrchestratorLaws

  datatype State = State(db: Db, now: int)

  datatype Step =
    | StartStep(run: RunId, status: RunStatus, meta: Meta)
    | ClaimStep(run: RunId, path: Option<Path>, mode: Option<Mode>, ttl: Option<int>)
    | BeatStep(run: RunId, path: Option<Path>, mode: Option<Mode>, ttl: Option<int>)
    | GiveUpStep(run: RunId, path: Option<Path>, mode: Option<Mode>, how: ReleaseAs)
    | LeaseStep(run: RunId, path: Option<Path>, mode: Option<Mode>, ttl: Option<int>, token: Token)
    | RenewStep(key: ClaimKey, token: Token, fence: Option<int>, ttl: Option<int>)
    | ReturnStep(key: ClaimKey, token: Token, how: ReleaseAs)
    | SweepStep(only: Option<ClaimKey>)
    | EndStep(run: RunId, status: RunStatus)
    | ArchiveStep(run: RunId)
    | EventStep(run: RunId, event: Option<EventType>, path: Option<Path>, payload: Option<RunStatus>)
    | BlockStep(run: RunId, blockers: seq<RunId>)
    | MaterializeStep(run: RunId, ids: nat -> RunId)
    | ReconcileStep(run: RunId)
    | PassStep(at: int, dead: set<RunId>, listing: Listing, childIds: RunId -> nat -> RunId)
    | TickStep(elapsed: nat)

  ghost function Call(db: Db, now: int, step: Step): Db {
    match step
    case StartStep(r, status, meta) => StartRun(db, r, status, meta).db
    case ClaimStep(r, path, mode, ttl) => ClaimFile(db, now, r, path, mode, ttl, true).db
    case BeatStep(r, path, mode, ttl) => Heartbeat(db, now, r, path, mode, ttl).db
    case GiveUpStep(r, path, mode, how) => ReleaseClaims(db, now, r, path, mode, how).db
    case LeaseStep(r, path, mode, ttl, token) => CreateLease(db, now, r, path, mode, ttl, token).db
    case RenewStep(k, token, fence, ttl) => RenewLease(db, now, k, token, fence, ttl).db
    case ReturnStep(k, token, how) => ReleaseLease(db, now, k, token, how).db
    case SweepStep(only) => ExpireStale(db, now, only)
    case EndStep(r, status) => EndRun(db, now, r, status).db
    case ArchiveStep(r) => ArchiveRun(db, now, r).db
    case EventStep(r, e, path, payload) => RecordEvent(db, now, r, e, path, payload).db
    case BlockStep(r, blockers) => AddRunBlockers(db, r, blockers).db
    case MaterializeStep(r, ids) => Materialize(db, now, r, ids).db
    case ReconcileStep(r) => Reconcile(db, now, r).db
    case PassStep(at, dead, listing, ids) => Pass(db, now, at, dead, listing, ids)
    case TickStep(_) => db
  }

  ghost function Next(s: State, step: Step): State {
    State(Call(s.db, s.now, step), if step.TickStep? then s.now + step.elapsed else s.now)
  }

  /** Heartbeats reach only unexpired claims; runs may be revived. */
  ghost predicate Timely(s: State, step: Step) {
    step.BeatStep? ==> TimelyBeat(s.db, s.now, step.run, step.path, step.mode)
  }

  /** Heartbeats reach only unexpired claims, and no caller revives a stopped run. */
  ghost predicate Behaved(s: State, step: Step) {
    && Timely(s, step)
    && (step.EndStep? ==> StaysStopped(s.db, step.run, step.status))
    && (step.EventStep? ==> StoppingEvent(s.db, step.run, step.event, step.payload))
  }

  /** No caller writes the status "blocked" by hand. */
  predicate Calm(step: Step) {
    match step
    case StartStep(_, status, _) => !status.Blocked?
    case EndStep(_, status) => !status.Blocked?
    case EventStep(_, e, _, payload) => CalmEvent(e, payload)
    case _ => true
  }

  datatype Trace = Trace(states: seq<State>, steps: seq<Step>)

  ghost predicate StepAt(t: Trace, i: nat) {
    i + 1 < |t.states| && i < |t.steps| && t.states[i + 1] == Next(t.states[i], t.steps[i])
  }

  ghost predicate BehavedAt(t: Trace, i: nat) {
    i < |t.states| && i < |t.steps| && Behaved(t.states[i], t.steps[i])
  }

  ghost predicate IsTrace(t: Trace) {
    |t.states| == |t.steps| + 1 && forall i: nat :: i < |t.steps| ==> StepAt(t, i)
  }

  ghost predicate WellBehaved(t: Trace) {
    IsTrace(t) && forall i: nat :: i < |t.steps| ==> BehavedAt(t, i)
  }

  ghost predicate TimelyAt(t: Trace, i: nat) {
    i < |t.states| && i < |t.steps| && Timely(t.states[i], t.steps[i])
  }

  ghost predicate TimelyRun(t: Trace) {
    IsTrace(t) && forall i: nat :: i < |t.steps| ==> TimelyAt(t, i)
  }

  const EMPTY := Db(map[], map[], map[])

  /* ---- one step ---- */

  ghost predicate StepKeeps(s: State, n: State) {
    WellFormed(s.db) ==>
      && WellFormed(n.db)
      && Evolves(s.db, s.now, n.db, n.now)
      && StopsStick(s.db, n.db)
      && (Exclusive(s.db, s.now) ==> Exclusive(n.db, n.now))
  }

  /** The calls that touch only lease rows or the clock. */
  predicate LeaseOrClock(step: Step) {
    step.BeatStep? || step.LeaseStep? || step.RenewStep? || step.ReturnStep? || step.SweepStep? || step.TickStep?
  }

  lemma StepSound(s: State, step: Step)
    requires Behaved(s, step) && !LeaseOrClock(step)
    ensures SoundIf(s.db, Call(s.db, s.now, step), s.now, Calm(step))
  {
    var db, now := s.db, s.now;
    match step
    case StartStep(r, status, meta) => StartRunSound(db, now, r, status, meta);
    case ClaimStep(r, path, mode, ttl) => ClaimFileSound(db, now, r, path, mode, ttl);
    case GiveUpStep(r, path, mode, how) => ReleaseClaimsSound(db, now, r, path, mode, how);
    case EndStep(r, status) => EndRunSound(db, now, r, status);
    case ArchiveStep(r) => ArchiveRunSound(db, now, r);
    case EventStep(r, e, path, payload) => RecordEventSound(db, now, r, e, path, payload);
    case BlockStep(r, blockers) => AddRunBlockersSound(db, now, r, blockers);
    case _ => SwarmStepSound(s, step);
  }

  lemma SwarmStepSound(s: State, step: Step)
    requires step.MaterializeStep? || step.ReconcileStep? || step.PassStep?
    ensures Sound(s.db, Call(s.db, s.now, step), s.now)
  {
    if step.MaterializeStep? {
      MaterializeSound(s.db, s.now, step.run, step.ids);
    } else if step.ReconcileStep? {
      ReconcileSound(s.db, s.now, step.run);
    } else {
      PassStepSound(s, step);
    }
  }

  lemma PassStepSound(s: State, step: Step)
    requires step.PassStep?
    ensures Sound(s.db, Call(s.db, s.now, step), s.now)
  {
    PassSound(s.db, s.now, step.at, step.dead, step.listing, step.childIds);
  }

  lemma NarrowingKeeps(s: State, n: State)
    requires n.now == s.now && Narrows(s.db, n.db, s.now)
    ensures StepKeeps(s, n)
  {
    NarrowsAreKept(s.db, n.db, s.now);
  }

  lemma BeatStepKeeps(s: State, step: Step)
    requires step.BeatStep? && Timely(s, step)
    ensures StepKeeps(s, Next(s, step))
  {
    HeartbeatNarrows(s.db, s.now, step.run, step.path, step.mode, step.ttl);
    NarrowingKeeps(s, Next(s, step));
  }

  lemma RenewStepKeeps(s: State, step: Step)
    requires step.RenewStep?
    ensures StepKeeps(s, Next(s, step))
  {
    RenewLeaseNarrows(s.db, s.now, step.key, step.token, step.fence, step.ttl);
    NarrowingKeeps(s, Next(s, step));
  }

  lemma ReturnStepKeeps(s: State, step: Step)
    requires step.ReturnStep?
    ensures StepKeeps(s, Next(s, step))
  {
    ReleaseLeaseNarrows(s.db, s.now, step.key, step.token, step.how);
    NarrowingKeeps(s, Next(s, step));
  }

  lemma SweepStepKeeps(s: State, step: Step)
    requires step.SweepStep?
    ensures StepKeeps(s, Next(s, step))
  {
    ExpireStaleNarrows(s.db, s.now, step.only);
    NarrowingKeeps(s, Next(s, step));
  }

  lemma GrantStepKeeps(s: State, step: Step)
    requires step.LeaseStep?
    ensures StepKeeps(s, Next(s, step))
  {
    CreateLeaseKeeps(s.db, s.now, step.run, step.path, step.mode, step.ttl, step.token);
  }

  lemma TickStepKeeps(s: State, step: Step)
    requires step.TickStep?
    ensures StepKeeps(s, Next(s, step))
  {
    TickKeeps(s.db, s.now, step.elapsed);
  }

  lemma LeaseStepKeeps(s: State, step: Step)
    requires Timely(s, step) && LeaseOrClock(step)
    ensures StepKeeps(s, Next(s, step))
  {
    match step
    case BeatStep(_, _, _, _) => BeatStepKeeps(s, step);
    case LeaseStep(_, _, _, _, _) => GrantStepKeeps(s, step);
    case RenewStep(_, _, _, _) => RenewStepKeeps(s, step);
    case ReturnStep(_, _, _) => ReturnStepKeeps(s, step);
    case SweepStep(_) => SweepStepKeeps(s, step);
    case TickStep(_) => TickStepKeeps(s, step);
  }

  lemma {:induction false} BehavedStepKeeps(s: State, step: Step)
    requires Behaved(s, step)
    ensures StepKeeps(s, Next(s, step))
  {
    if LeaseOrClock(step) {
      LeaseStepKeeps(s, step);
    } else {
      StepSound(s, step);
    }
  }

  lemma TickKeeps(db: Db, now: int, d: nat)
    ensures StepKeeps(State(db, now), State(db, now + d))
  {
    forall k | LiveClaim(db, now + d, k) ensures LiveClaim(db, now, k) {}
  }

  /* ---- one step of any caller ---- */

  /** The claim laws that also survive the revival of a run. */
  ghost predicate StepKeepsClaims(s: State, n: State) {
    WellFormed(s.db) ==> WellFormed(n.db) && Evolves(s.db, s.now, n.db, n.now)
  }

  /** The claim laws that survive everything. */
  ghost predicate StepLasts(s: State, n: State) {
    WellFormed(s.db) ==> WellFormed(n.db) && Grows(s.db, n.db)
  }

  lemma TimelyStepKeepsClaims(s: State, step: Step)
    requires Timely(s, step)
    ensures StepKeepsClaims(s, Next(s, step))
  {
    match step
    case EndStep(r, status) => EndRunLasts(s.db, s.now, r, status);
    case EventStep(r, e, path, payload) => RecordEventLasts(s.db, s.now, r, e, path, payload);
    case _ => BehavedStepKeeps(s, step);
  }

  lemma AnyStepLasts(s: State, step: Step)
    ensures StepLasts(s, Next(s, step))
  {
    if step.BeatStep? {
      HeartbeatMovesExpiries(s.db, s.now, step.run, step.path, step.mode, step.ttl);
      if WellFormed(s.db) {
        ExpiriesGrow(s.db, Next(s, step).db);
      }
    } else {
      TimelyStepKeepsClaims(s, step);
    }
  }

  lemma AnyStepKeepsRuns(s: State, step: Step)
    ensures RunsKept(s.db, Call(s.db, s.now, step), Calm(step))
  {
    if LeaseOrClock(step) {
      LeaseStepKeepsRuns(s, step);
      SameRunsAreKept(s.db, Call(s.db, s.now, step), Calm(step));
    } else if step.EndStep? {
      EndRunLasts(s.db, s.now, step.run, step.status);
    } else if step.EventStep? {
      RecordEventLasts(s.db, s.now, step.run, step.event, step.path, step.payload);
    } else {
      StepSound(s, step);
    }
  }

  lemma LeaseStepKeepsRuns(s: State, step: Step)
    requires LeaseOrClock(step)
    ensures Call(s.db, s.now, step).runs == s.db.runs && Call(s.db, s.now, step).links == s.db.links
  {
  }

  lemma SameRunsAreKept(a: Db, b: Db, calm: bool)
    requires b.runs == a.runs && b.links == a.links
    ensures RunsKept(a, b, calm)
  {
    if BlockersAgree(a) {
      forall l | Blocks(b, l) ensures !CompletedRun(b, l.blocker) {
        assert Blocks(a, l);
      }
      forall r | r in b.runs && b.runs[r].status.Blocked? && !b.runs[r].archived ensures HasActiveBlocker(b, r) {
        assert HasActiveBlocker(a, r);
      }
    }
  }

  /* ---- safety over whole runs ---- */

  lemma TraceStepKeeps(t: Trace, i: nat)
    requires WellBehaved(t) && i < |t.steps|
    ensures StepKeeps(t.states[i], t.states[i + 1])
  {
    assert StepAt(t, i) && BehavedAt(t, i);
    BehavedStepKeeps(t.states[i], t.steps[i]);
  }

  ghost predicate KeptAt(states: seq<State>, i: nat) {
    i + 1 < |states| && StepKeeps(states[i], states[i + 1])
  }

  /** What is left of a behaved run for the table laws: that every step keeps them. */
  ghost predicate Kept(states: seq<State>) {
    forall i: nat :: i + 1 < |states| ==> KeptAt(states, i)
  }

  lemma BehavedRunIsKept(t: Trace)
    requires WellBehaved(t)
    ensures Kept(t.states)
  {
    forall i: nat | i + 1 < |t.states|
      ensures KeptAt(t.states, i)
    {
      TraceStepKeeps(t, i);
    }
  }

  /** What every state of a kept run has, if the first one has it. */
  ghost predicate Lawful(s: State, first: State) {
    WellFormed(s.db) && (Exclusive(first.db, first.now) ==> Exclusive(s.db, s.now))
  }

  lemma {:induction false} Invariantly(states: seq<State>, inv: State -> bool, i: nat, j: nat)
    requires i <= j < |states| && inv(states[i])
    requires forall k: nat | k + 1 < |states| && inv(states[k]) :: inv(states[k + 1])
    ensures inv(states[j])
    decreases j - i
  {
    if i < j {
      Invariantly(states, inv, i, j - 1);
    }
  }

  lemma KeptIsLawful(states: seq<State>, n: nat, first: State)
    requires KeptAt(states, n) && Lawful(states[n], first)
    ensures Lawful(states[n + 1], first)
  {
  }

  lemma KeptRunIsLawful(states: seq<State>, n: nat)
    requires Kept(states) && n < |states| && Lawful(states[0], states[0])
    ensures Lawful(states[n], states[0])
  {
    var inv := (s: State) => Lawful(s, states[0]);
    forall k: nat | k + 1 < |states| && inv(states[k])
      ensures inv(states[k + 1])
    {
      KeptIsLawful(states, k, states[0]);
    }
    Invariantly(states, inv, 0, n);
  }

  lemma TraceKeeps(t: Trace, n: nat)
    requires WellBehaved(t) && n < |t.states|
    requires WellFormed(t.states[0].db)
    ensures WellFormed(t.states[n].db)
    ensures Exclusive(t.states[0].db, t.states[0].now) ==> Exclusive(t.states[n].db, t.states[n].now)
  {
    BehavedRunIsKept(t);
    KeptRunIsLawful(t.states, n);
  }

  /** Everything a later state of a behaved run owes to an earlier one. */
  ghost predicate Leads(s: State, n: State) {
    WellFormed(n.db) && Evolves(s.db, s.now, n.db, n.now) && StopsStick(s.db, n.db)
  }

  lemma LeadsNext(first: State, b: State, c: State)
    requires Leads(first, b) && StepKeeps(b, c)
    ensures Leads(first, c)
  {
    EvolvesTransitive(first.db, first.now, b.db, b.now, c.db, c.now);
  }

  lemma LeadsReflexive(s: State)
    requires WellFormed(s.db)
    ensures Leads(s, s)
  {
  }

  /** In a behaved run a row that is current later was so before, with its fence, or its fence is new to the path. */
  lemma TraceEvolves(t: Trace, i: nat, j: nat)
    requires WellBehaved(t) && i <= j < |t.states|
    requires WellFormed(t.states[i].db)
    ensures Evolves(t.states[i].db, t.states[i].now, t.states[j].db, t.states[j].now)
    ensures StopsStick(t.states[i].db, t.states[j].db)
  {
    var inv := (s: State) => Leads(t.states[i], s);
    LeadsReflexive(t.states[i]);
    forall k: nat | k + 1 < |t.states| && inv(t.states[k])
      ensures inv(t.states[k + 1])
    {
      TraceStepKeeps(t, k);
      LeadsNext(t.states[i], t.states[k], t.states[k + 1]);
    }
    Invariantly(t.states, inv, i, j);
  }

  ghost predicate Follows(s: State, n: State) {
    WellFormed(n.db) && Evolves(s.db, s.now, n.db, n.now)
  }

  lemma FollowsNext(first: State, b: State, c: State)
    requires Follows(first, b) && StepKeepsClaims(b, c)
    ensures Follows(first, c)
  {
    EvolvesTransitive(first.db, first.now, b.db, b.now, c.db, c.now);
  }

  /** The first half of that needs only timely heartbeats: runs may be revived. */
  lemma TimelyRunEvolves(t: Trace, i: nat, j: nat)
    requires TimelyRun(t) && i <= j < |t.states|
    requires WellFormed(t.states[i].db)
    ensures Evolves(t.states[i].db, t.states[i].now, t.states[j].db, t.states[j].now)
  {
    var inv := (s: State) => Follows(t.states[i], s);
    LeadsReflexive(t.states[i]);
    forall k: nat | k + 1 < |t.states| && inv(t.states[k])
      ensures inv(t.states[k + 1])
    {
      assert StepAt(t, k) && TimelyAt(t, k);
      TimelyStepKeepsClaims(t.states[k], t.steps[k]);
      FollowsNext(t.states[i], t.states[k], t.states[k + 1]);
    }
    Invariantly(t.states, inv, i, j);
  }

  ghost predicate Outgrows(s: State, n: State) {
    WellFormed(n.db) && Grows(s.db, n.db)
  }

  lemma OutgrowsNext(first: State, b: State, c: State)
    requires Outgrows(first, b) && StepLasts(b, c)
    ensures Outgrows(first, c)
  {
    GrowsTransitive(first.db, b.db, c.db);
  }

  /** In every run, whatever its callers do, rows agree with their logs, and fences and logs only grow. */
  lemma TraceGrows(t: Trace, i: nat, j: nat)
    requires IsTrace(t) && i <= j < |t.states|
    requires WellFormed(t.states[i].db)
    ensures WellFormed(t.states[j].db) && Grows(t.states[i].db, t.states[j].db)
  {
    var inv := (s: State) => Outgrows(t.states[i], s);
    forall k: nat | k + 1 < |t.states| && inv(t.states[k])
      ensures inv(t.states[k + 1])
    {
      assert StepAt(t, k);
      AnyStepLasts(t.states[k], t.steps[k]);
      OutgrowsNext(t.states[i], t.states[k], t.states[k + 1]);
    }
    Invariantly(t.states, inv, i, j);
  }

  /** From empty tables, no behaved run ever lets two runs write, or anyone share an exclusive file. */
  lemma MutualExclusion(t: Trace, n: nat, j: ClaimKey, k: ClaimKey)
    requires WellBehaved(t) && n < |t.states| && t.states[0].db == EMPTY
    requires LiveClaim(t.states[n].db, t.states[n].now, j) && LiveClaim(t.states[n].db, t.states[n].now, k)
    requires j.path == k.path && j.run != k.run
    ensures !(Writes(j.mode) && Writes(k.mode)) && !j.mode.ExclusiveMode? && !k.mode.ExclusiveMode?
  {
    assert Exclusive(EMPTY, t.states[0].now);
    TraceKeeps(t, n);
    assert Compatible(j.mode, k.mode);
  }

  ghost predicate Verifies(s: State, run: RunId, path: Path, fence: int) {
    VerifyWrite(s.db, s.now, run, Some(path), Some(fence)) == Verified
  }

  /** A verified write means that no other live run has a current write claim on the path. */
  lemma VerifiedAlone(s: State, a: RunId, path: Path, f: int, k: ClaimKey)
    requires Verifies(s, a, path, f)
    ensures !ForeignWriter(s.db, s.now, a, path, k)
    ensures exists own :: own in s.db.claims && own.path == path && s.db.claims[own].fence == f
  {
    var own :| own in s.db.claims && OwnWriteClaim(s.db, a, path, own) && s.db.claims[own].fence == f;
    assert own.path == path;
  }

  lemma VerifiedRow(s: State, run: RunId, path: Path, f: int) returns (k: ClaimKey)
    requires Verifies(s, run, path, f)
    ensures k in s.db.claims && k.run == run && k.path == path && Writes(k.mode)
    ensures Current(s.db.claims[k], s.now) && s.db.claims[k].fence == f
  {
    k :| k in s.db.claims && OwnWriteClaim(s.db, run, path, k) && Unexpired(s.db.claims[k], s.now) && s.db.claims[k].fence == f;
  }

  /** Fences order the writers: a later write of another live run carries a larger fence. */
  lemma FencesOrderWriters(t: Trace, i: nat, j: nat, a: RunId, b: RunId, path: Path, f: int, g: int)
    requires WellBehaved(t) && i <= j < |t.states| && WellFormed(t.states[0].db)
    requires Verifies(t.states[i], a, path, f)
    requires Verifies(t.states[j], b, path, g) && LiveRun(t.states[j].db, b)
    requires a != b
    ensures g > f
  {
    TraceKeeps(t, i);
    TraceEvolves(t, i, j);
    LaterWriterIsNewer(t.states[i], t.states[j], a, b, path, f, g);
  }

  lemma LaterWriterIsNewer(s: State, n: State, a: RunId, b: RunId, path: Path, f: int, g: int)
    requires WellFormed(s.db) && Evolves(s.db, s.now, n.db, n.now) && StopsStick(s.db, n.db)
    requires Verifies(s, a, path, f) && Verifies(n, b, path, g) && LiveRun(n.db, b) && a != b
    ensures g > f
  {
    var k := VerifiedRow(n, b, path, g);
    VerifiedAlone(s, a, path, f, k);
    assert FreshFence(s.db, path, n.db.claims[k].fence);
  }

  ghost predicate NoCurrentRowHas(s: State, path: Path, f: nat) {
    forall k :: k in s.db.claims && k.path == path && Current(s.db.claims[k], s.now) ==> s.db.claims[k].fence != f
  }

  /** Once no current row of a path carries an issued fence, no write with that fence verifies again. */
  lemma DeadFenceStaysDead(t: Trace, i: nat, j: nat, path: Path, f: nat, run: RunId)
    requires TimelyRun(t) && i <= j < |t.states| && WellFormed(t.states[0].db)
    requires exists o :: o in t.states[i].db.claims && o.path == path && f <= t.states[i].db.claims[o].fence
    requires NoCurrentRowHas(t.states[i], path, f)
    ensures !Verifies(t.states[j], run, path, f)
  {
    TraceGrows(t, 0, i);
    TimelyRunEvolves(t, i, j);
    DeadFenceDoesNotEvolve(t.states[i], t.states[j], path, f, run);
  }

  lemma DeadFenceDoesNotEvolve(s: State, n: State, path: Path, f: nat, run: RunId)
    requires Evolves(s.db, s.now, n.db, n.now)
    requires exists o :: o in s.db.claims && o.path == path && f <= s.db.claims[o].fence
    requires NoCurrentRowHas(s, path, f)
    ensures !Verifies(n, run, path, f)
  {
    var o :| o in s.db.claims && o.path == path && f <= s.db.claims[o].fence;
    forall k | k in n.db.claims && OwnWriteClaim(n.db, run, path, k) && Unexpired(n.db.claims[k], n.now)
      ensures n.db.claims[k].fence != f
    {
      assert Current(n.db.claims[k], n.now);
      if FreshFence(s.db, k.path, n.db.claims[k].fence) {
        assert s.db.claims[o].fence < n.db.claims[k].fence;
      }
    }
  }

  /* ---- fence history ---- */

  /** Some event of the path, on any of its claims, carries this fence. */
  ghost predicate Issued(db: Db, path: Path, f: nat) {
    exists k, e :: k in db.claims && k.path == path && e in db.claims[k].log && e.kind == Created && e.fence == f
  }

  lemma {:induction false} ReplayedFenceWasCreated(log: seq<ClaimEvent>)
    requires Replay(log).Some?
    ensures ClaimEvent(Created, Replay(log).value.fence) in log
  {
    var rest := log[..|log| - 1];
    if log[|log| - 1].kind.Created? {
      assert log[|log| - 1] in log;
    } else {
      ReplayedFenceWasCreated(rest);
      assert forall e :: e in rest ==> e in log;
    }
  }

  /**
   The table's largest fence is the largest one ever issued on the path, although rows are
   overwritten: a new grant therefore exceeds every fence in the path's history.
   */
  lemma TableMaximumIsHistoricalMaximum(db: Db, path: Path)
    requires WellFormed(db)
    ensures forall f: nat :: Issued(db, path, f) ==> f <= MaxFence(db.claims, path)
    ensures MaxFence(db.claims, path) == 0 || Issued(db, path, MaxFence(db.claims, path))
  {
    var m := MaxFence(db.claims, path);
    forall f: nat | Issued(db, path, f) ensures f <= m {
      var k, e :| k in db.claims && k.path == path && e in db.claims[k].log && e.kind == Created && e.fence == f;
      assert db.claims[k].fence <= m;
    }
    if m != 0 {
      var k :| k in db.claims && k.path == path && db.claims[k].fence == m;
      ReplayedFenceWasCreated(db.claims[k].log);
      assert ClaimEvent(Created, m) in db.claims[k].log;
    }
  }

  /** Over a run, history only grows, and every claim's log replays to its row. */
  lemma LogsReplayOverRuns(t: Trace, i: nat, j: nat, k: ClaimKey)
    requires IsTrace(t) && i <= j < |t.states| && t.states[0].db == EMPTY
    requires k in t.states[i].db.claims
    ensures k in t.states[j].db.claims
    ensures t.states[i].db.claims[k].log <= t.states[j].db.claims[k].log
    ensures Replay(t.states[j].db.claims[k].log) == Some(View(t.states[j].db.claims[k].status, t.states[j].db.claims[k].fence))
    ensures t.states[j].db.claims[k].token.Some? <==> t.states[j].db.claims[k].status.Active? && t.states[j].db.claims[k].kind.Lease?
  {
    TraceGrows(t, 0, i);
    TraceGrows(t, i, j);
  }

  /** The claim a call grants with a new fence: any but a lease that is held already. */
  ghost predicate GrantsAnew(s: State, step: Step, k: ClaimKey) {
    && !(k in s.db.claims && HeldLease(s.db.claims[k], s.now))
    && match step
       case ClaimStep(r, path, mode, ttl) => ClaimFile(s.db, s.now, r, path, mode, ttl, true).result == Ok(k)
       case LeaseStep(r, path, mode, ttl, token) => CreateLease(s.db, s.now, r, path, mode, ttl, token).result == Ok(k)
       case _ => false
  }

  /** In any reachable state, `claim_file` and `create_lease` grant a fence that no event of the path's history carries. */
  lemma GrantedFenceIsNew(t: Trace, n: nat, step: Step, k: ClaimKey, f: nat)
    requires IsTrace(t) && n < |t.states| && t.states[0].db == EMPTY
    requires GrantsAnew(t.states[n], step, k) && Issued(t.states[n].db, k.path, f)
    ensures var b := Next(t.states[n], step).db; k in b.claims && f < b.claims[k].fence
  {
    TraceGrows(t, 0, n);
    GrantedFenceExceedsIssued(t.states[n], step, k, f);
  }

  lemma GrantedFenceExceedsIssued(s: State, step: Step, k: ClaimKey, f: nat)
    requires WellFormed(s.db) && GrantsAnew(s, step, k) && Issued(s.db, k.path, f)
    ensures var b := Next(s, step).db; k in b.claims && f < b.claims[k].fence
  {
    TableMaximumIsHistoricalMaximum(s.db, k.path);
    if step.ClaimStep? {
      ClaimedFence(s, step, k);
    } else {
      LeasedFence(s, step, k);
    }
  }

  lemma ClaimedFence(s: State, step: Step, k: ClaimKey)
    requires step.ClaimStep? && GrantsAnew(s, step, k)
    ensures var b := Next(s, step).db; k in b.claims && b.claims[k].fence == MaxFence(s.db.claims, k.path) + 1
  {
    ExpiryKeepsMaxFence(s.db, s.now, k.path);
    ClaimFileShape(s.db, s.now, step.run, step.path, step.mode, step.ttl);
  }

  lemma LeasedFence(s: State, step: Step, k: ClaimKey)
    requires step.LeaseStep? && GrantsAnew(s, step, k)
    ensures var b := Next(s, step).db; k in b.claims && b.claims[k].fence == MaxFence(s.db.claims, k.path) + 1
  {
    ExpiryKeepsMaxFence(s.db, s.now, k.path);
    var j := CreateLeaseShape(s.db, s.now, step.run, step.path, step.mode, step.ttl, step.token);
  }

  lemma ExpiryKeepsMaxFence(db: Db, now: int, path: Path)
    ensures MaxFence(ExpireStale(db, now, None).claims, path) == MaxFence(db.claims, path)
  {
    var db1 := ExpireStale(db, now, None);
    forall k | k in db.claims
      ensures k in db1.claims && db1.claims[k].fence == db.claims[k].fence
    {
    }
  }

  /** Whatever the call, late heartbeats apart: a fence that a row gains or becomes current with is new to its path. */
  lemma GainedFenceIsNew(t: Trace, n: nat, step: Step, k: ClaimKey, f: nat)
    requires IsTrace(t) && n < |t.states| && t.states[0].db == EMPTY && Timely(t.states[n], step)
    requires var s, b := t.states[n], Next(t.states[n], step);
             && k in b.db.claims && Current(b.db.claims[k], b.now)
             && !(k in s.db.claims && Current(s.db.claims[k], s.now) && s.db.claims[k].fence == b.db.claims[k].fence)
    requires Issued(t.states[n].db, k.path, f)
    ensures f < Next(t.states[n], step).db.claims[k].fence
  {
    var s := t.states[n];
    TraceGrows(t, 0, n);
    TimelyStepKeepsClaims(s, step);
    TableMaximumIsHistoricalMaximum(s.db, k.path);
    var m := MaxFence(s.db.claims, k.path);
    assert IsMaxFence(s.db.claims, k.path, m);
    assert FreshFence(s.db, k.path, Next(s, step).db.claims[k].fence);
  }

  /* ---- lease tokens over whole runs ---- */

  /** The token a step issues for a claim: only a successful `create_lease` does. */
  ghost function Issues(s: State, step: Step, k: ClaimKey): Option<Token> {
    if step.LeaseStep? && CreateLease(s.db, s.now, step.run, step.path, step.mode, step.ttl, step.token).result == Ok(k)
    then Some(step.token) else None
  }

  lemma OtherStepsIssueNothing(s: State, step: Step)
    requires !step.LeaseStep?
    ensures TokensFrom(s.db, Call(s.db, s.now, step))
  {
    match step
    case BeatStep(r, path, mode, ttl) => BeatIssuesNothing(s.db, s.now, r, path, mode, ttl);
    case EndStep(r, status) => EndRunTokens(s.db, s.now, r, status);
    case EventStep(r, e, path, payload) => RecordEventTokens(s.db, s.now, r, e, path, payload);
    case _ =>
      if LeaseOrClock(step) {
        LeaseCallsIssueNothing(s, step);
      } else {
        StepSound(s, step);
      }
  }

  lemma BeatIssuesNothing(db: Db, now: int, r: RunId, path: Option<Path>, mode: Option<Mode>, ttl: Option<int>)
    ensures TokensFrom(db, Heartbeat(db, now, r, path, mode, ttl).db)
  {
  }

  lemma LeaseCallsIssueNothing(s: State, step: Step)
    requires step.RenewStep? || step.ReturnStep? || step.SweepStep? || step.TickStep?
    ensures TokensFrom(s.db, Call(s.db, s.now, step))
  {
    var db, now := s.db, s.now;
    match step
    case RenewStep(k, token, fence, ttl) =>
      RenewLeaseNarrows(db, now, k, token, fence, ttl);
      NarrowsTokens(db, Call(db, now, step), now);
    case ReturnStep(k, token, how) =>
      ReleaseLeaseNarrows(db, now, k, token, how);
      NarrowsTokens(db, Call(db, now, step), now);
    case SweepStep(only) =>
      ExpireStaleNarrows(db, now, only);
      NarrowsTokens(db, Call(db, now, step), now);
    case TickStep(_) =>
  }

  lemma TokenComesFromStep(s: State, step: Step, k: ClaimKey)
    requires k in Call(s.db, s.now, step).claims && Call(s.db, s.now, step).claims[k].token.Some?
    ensures var c := Call(s.db, s.now, step).claims[k];
            || Issues(s, step, k) == c.token
            || (Issues(s, step, k).None? && k in s.db.claims && s.db.claims[k].token == c.token && s.db.claims[k].fence == c.fence)
  {
    if step.LeaseStep? {
      var out := CreateLease(s.db, s.now, step.run, step.path, step.mode, step.ttl, step.token);
      if out.result.Ok? {
        var issued := CreateLeaseShape(s.db, s.now, step.run, step.path, step.mode, step.ttl, step.token);
        ExpireStaleNarrows(s.db, s.now, None);
        NarrowsTokens(s.db, ExpireStale(s.db, s.now, None), s.now);
      }
    } else {
      OtherStepsIssueNothing(s, step);
    }
  }

  /** The index of the last step before state `n` that issued a token for `k`. */
  ghost function LatestLease(t: Trace, n: nat, k: ClaimKey): (r: Option<nat>)
    requires IsTrace(t) && n < |t.states|
    ensures r.Some? ==> r.value < n
  {
    if n == 0 then None
    else if Issues(t.states[n - 1], t.steps[n - 1], k).Some? then Some(n - 1)
    else LatestLease(t, n - 1, k)
  }

  ghost predicate HoldsToken(s: State, k: ClaimKey, token: Token) {
    k in s.db.claims && s.db.claims[k].token == Some(token)
  }

  /** A stored token is the one of the claim's latest `create_lease` and has stayed there, fence and all, ever since. */
  lemma {:induction false} StoredTokenIsLatest(t: Trace, n: nat, k: ClaimKey, token: Token)
    requires IsTrace(t) && n < |t.states| && t.states[0].db == EMPTY
    requires HoldsToken(t.states[n], k, token)
    ensures var i := LatestLease(t, n, k);
            && i.Some?
            && Issues(t.states[i.value], t.steps[i.value], k) == Some(token)
            && forall j :: i.value < j <= n ==>
                 HoldsToken(t.states[j], k, token) && t.states[j].db.claims[k].fence == t.states[n].db.claims[k].fence
  {
    assert n > 0 && StepAt(t, n - 1);
    TokenComesFromStep(t.states[n - 1], t.steps[n - 1], k);
    if Issues(t.states[n - 1], t.steps[n - 1], k).None? {
      StoredTokenIsLatest(t, n - 1, k, token);
    }
  }

  ghost predicate Accepts(s: State, k: ClaimKey, token: Token) {
    || (exists fence, ttl :: RenewLease(s.db, s.now, k, token, fence, ttl).result.Ok?)
    || (exists how :: ReleaseLease(s.db, s.now, k, token, how).result.Ok?)
  }

  /** Renewing and releasing work only with the latest token, on a lease that is active and unexpired. */
  lemma {:induction false} AcceptedTokenIsLatest(t: Trace, n: nat, k: ClaimKey, token: Token)
    requires IsTrace(t) && n < |t.states| && t.states[0].db == EMPTY
    requires Accepts(t.states[n], k, token)
    ensures var i := LatestLease(t, n, k);
            && i.Some?
            && Issues(t.states[i.value], t.steps[i.value], k) == Some(token)
            && (forall j :: i.value < j <= n ==> HoldsToken(t.states[j], k, token))
            && Current(t.states[n].db.claims[k], t.states[n].now)
  {
    AcceptedMeansHeld(t.states[n], k, token);
    StoredTokenIsLatest(t, n, k, token);
  }

  lemma AcceptedMeansHeld(s: State, k: ClaimKey, token: Token)
    requires Accepts(s, k, token)
    ensures HoldsToken(s, k, token) && Current(s.db.claims[k], s.now)
  {
    assert LeaseGuard(s.db, s.now, k, token).None?;
    var db1 := ExpireStale(s.db, s.now, Some(k));
  }

  /** Every successful `create_lease` of the run got a token of its own. */
  ghost predicate TokensDiffer(t: Trace)
    requires IsTrace(t)
  {
    forall i, j, k, l :: 0 <= i < |t.steps| && 0 <= j < |t.steps|
      && Issues(t.states[i], t.steps[i], k).Some? && Issues(t.states[i], t.steps[i], k) == Issues(t.states[j], t.steps[j], l)
      ==> i == j
  }

  /** A token that works has been on its claim ever since the step that issued it. */
  lemma AcceptedTokenWasNeverLost(t: Trace, i: nat, n: nat, k: ClaimKey, token: Token)
    requires IsTrace(t) && i < n < |t.states| && t.states[0].db == EMPTY && TokensDiffer(t)
    requires Issues(t.states[i], t.steps[i], k) == Some(token) && Accepts(t.states[n], k, token)
    ensures forall j :: i < j <= n ==> HoldsToken(t.states[j], k, token)
  {
    AcceptedTokenIsLatest(t, n, k, token);
    assert LatestLease(t, n, k).value == i;
  }

  /** Once its claim has lost a token, by release, expiry or re-creation, that token never works again. */
  lemma LostTokenNeverWorks(t: Trace, i: nat, j: nat, n: nat, k: ClaimKey, token: Token)
    requires IsTrace(t) && i < j <= n < |t.states| && t.states[0].db == EMPTY && TokensDiffer(t)
    requires Issues(t.states[i], t.steps[i], k) == Some(token)
    requires !HoldsToken(t.states[j], k, token)
    ensures !Accepts(t.states[n], k, token)
  {
    if Accepts(t.states[n], k, token) {
      AcceptedTokenWasNeverLost(t, i, n, k, token);
    }
  }
}
