/**
 The cross-process writer lock (`code_index/locking.py`) as a step machine over
 processes and threads: each process has one re-entrant thread lock and one
 held count, and all processes share one POSIX record lock. A step is one
 statement of `writer_lock`, so any interleaving of threads and processes is a
 list of steps.
 */
module WriterLock {
  import opened Options

  type Process = nat
  type Thread = nat
  type Fd = nat

  /** One `with writer_lock(...)` body that a thread is inside. */
  datatype Frame = Outer(fd: Fd) | Nested

  /** The statement a thread will run next; `Running` is user code. */
  datatype Phase =
    | Running
    | Calling
    | Checking
    | Polling(fd: Fd)
    | Won(fd: Fd)
    | LeavingNested
    | Clearing(fd: Fd)
    | Unlocking(fd: Fd)
    | Closing(fd: Fd)
    | Releasing

  datatype Activity = Activity(frames: seq<Frame>, phase: Phase)

  /** `owner` and `count` are the thread lock, `held` the process's entry in `_HELD_COUNT`. */
  datatype Proc = Proc(owner: Option<Thread>, count: nat, held: int, threads: map<Thread, Activity>)

  datatype State = State(procs: map<Process, Proc>, os: Option<Process>)

  datatype Op =
    | Call
    | AcquireLocal
    | EnterNested
    | Open(fd: Fd)
    | OpenFails
    | TryLock
    | SetHeld
    | GiveUp
    | Exit
    | Decrement
    | Clear
    | Unlock(ok: bool)
    | Close
    | Release

  datatype Step =
    | Start(p: Process)
    | Spawn(p: Process, t: Thread)
    | Die(p: Process)
    | ThreadStep(p: Process, t: Thread, op: Op)

  const IDLE := Activity([], Running)
  const FRESH := Proc(None, 0, 0, map[])
  const INITIAL := State(map[], None)

  /* ---- the machine ---- */

  /** What one thread's statement reads and writes: the shared locks and its own activity. */
  datatype View = View(owner: Option<Thread>, count: nat, held: int, os: Option<Process>, act: Activity)

  /** POSIX drops a record lock when its process unlocks or closes any descriptor of the file. */
  function Dropped(os: Option<Process>, p: Process): Option<Process> {
    if os == Some(p) then None else os
  }

  predicate Enabled(v: View, step: Step)
    requires step.ThreadStep?
  {
    var phase := v.act.phase;
    match step.op
    case Call => phase.Running?
    case AcquireLocal => phase.Calling? && (v.owner.None? || v.owner == Some(step.t))
    case EnterNested => phase.Checking? && v.held > 0
    case Open(_) => phase.Checking? && v.held <= 0
    case OpenFails => phase.Checking? && v.held <= 0
    case TryLock => phase.Polling?
    case SetHeld => phase.Won?
    case GiveUp => phase.Polling?
    case Exit => phase.Running? && v.act.frames != []
    case Decrement => phase.LeavingNested?
    case Clear => phase.Clearing?
    case Unlock(_) => phase.Unlocking?
    case Close => phase.Closing?
    case Release => phase.Releasing? && v.owner == Some(step.t) && v.count > 0
  }

  /** The statement itself. */
  function Do(v: View, step: Step): View
    requires step.ThreadStep? && Enabled(v, step)
  {
    var p, t := step.p, step.t;
    var Activity(frames, phase) := v.act;
    match step.op
    case Call => v.(act := Activity(frames, Calling))
    case AcquireLocal => v.(owner := Some(t), count := v.count + 1, act := Activity(frames, Checking))
    case EnterNested => v.(held := v.held + 1, act := Activity(frames + [Nested], Running))
    case Open(fd) => v.(act := Activity(frames, Polling(fd)))
    case OpenFails => v.(act := Activity(frames, Releasing))
    case TryLock =>
      if v.os.None? || v.os == Some(p) then v.(os := Some(p), act := Activity(frames, Won(phase.fd))) else v
    case SetHeld => v.(held := 1, act := Activity(frames + [Outer(phase.fd)], Running))
    case GiveUp => v.(act := Activity(frames, Closing(phase.fd)))
    case Exit =>
      var top, rest := frames[|frames| - 1], frames[..|frames| - 1];
      v.(act := Activity(rest, if top.Nested? then LeavingNested else Clearing(top.fd)))
    case Decrement => v.(held := v.held - 1, act := Activity(frames, Releasing))
    case Clear => v.(held := 0, act := Activity(frames, Unlocking(phase.fd)))
    case Unlock(ok) => v.(os := if ok then Dropped(v.os, p) else v.os, act := Activity(frames, Closing(phase.fd)))
    case Close => v.(os := Dropped(v.os, p), act := Activity(frames, Releasing))
    case Release =>
      v.(owner := if v.count == 1 then None else v.owner, count := v.count - 1, act := Activity(frames, Running))
  }

  predicate Exists(s: State, p: Process, t: Thread) {
    p in s.procs && t in s.procs[p].threads
  }

  function Look(s: State, p: Process, t: Thread): View
    requires Exists(s, p, t)
  {
    var pr := s.procs[p];
    View(pr.owner, pr.count, pr.held, s.os, pr.threads[t])
  }

  function Put(s: State, p: Process, t: Thread, v: View): State
    requires p in s.procs
  {
    State(s.procs[p := Proc(v.owner, v.count, v.held, s.procs[p].threads[t := v.act])], v.os)
  }

  /** A process may start, grow a thread, or die, when the system drops its record lock. */
  function Next(s: State, step: Step): Option<State> {
    match step
    case Start(p) =>
      if p in s.procs then None else Some(s.(procs := s.procs[p := FRESH]))
    case Spawn(p, t) =>
      if p !in s.procs || t in s.procs[p].threads then None
      else Some(s.(procs := s.procs[p := s.procs[p].(threads := s.procs[p].threads[t := IDLE])]))
    case Die(p) =>
      if p !in s.procs then None else Some(State(s.procs - {p}, Dropped(s.os, p)))
    case ThreadStep(p, t, _) =>
      if Exists(s, p, t) && Enabled(Look(s, p, t), step) then Some(Put(s, p, t, Do(Look(s, p, t), step))) else None
  }

  function Run(steps: seq<Step>): Option<State> {
    if steps == [] then Some(INITIAL)
    else
      var before := Run(steps[..|steps| - 1]);
      if before.None? then None else Next(before.value, steps[|steps| - 1])
  }

  /* ---- what an activity says about the locks ---- */

  predicate Inside(a: Activity) {
    a.frames != []
  }

  /** How often this thread holds its process's thread lock. */
  function Depth(a: Activity): nat {
    |a.frames| + if a.phase.Running? || a.phase.Calling? then 0 else 1
  }

  /** What `_HELD_COUNT` must say while this thread owns the thread lock. */
  function HeldBy(a: Activity): nat {
    |a.frames| + if a.phase.LeavingNested? || a.phase.Clearing? then 1 else 0
  }

  predicate MustHoldOs(a: Activity) {
    Inside(a) || a.phase.Won? || a.phase.Clearing? || a.phase.Unlocking?
  }

  predicate MayHoldOs(a: Activity) {
    MustHoldOs(a) || a.phase.Closing?
  }

  predicate Shaped(a: Activity) {
    && (forall i | 0 <= i < |a.frames| :: a.frames[i].Outer? <==> i == 0)
    && (a.frames != [] ==>
          a.phase.Running? || a.phase.Calling? || a.phase.Checking? || a.phase.LeavingNested? || a.phase.Releasing?)
    && (a.phase.LeavingNested? ==> a.frames != [])
  }

  predicate ProcOk(pr: Proc) {
    && (forall t | t in pr.threads :: Shaped(pr.threads[t]))
    && (forall t | t in pr.threads :: Depth(pr.threads[t]) == if pr.owner == Some(t) then pr.count else 0)
    && match pr.owner
       case None => pr.count == 0 && pr.held == 0
       case Some(t) => t in pr.threads && pr.count > 0 && pr.held == HeldBy(pr.threads[t])
  }

  predicate Holds(pr: Proc, must: bool) {
    && pr.owner.Some? && pr.owner.value in pr.threads
    && var a := pr.threads[pr.owner.value];
    if must then MustHoldOs(a) else MayHoldOs(a)
  }

  ghost predicate Inv(s: State) {
    && (forall p | p in s.procs :: ProcOk(s.procs[p]))
    && (forall p | p in s.procs && Holds(s.procs[p], true) :: s.os == Some(p))
    && (s.os.Some? ==> s.os.value in s.procs && Holds(s.procs[s.os.value], false))
  }

  /** The part of the invariant that thread `t` of process `p` can break. */
  predicate ViewOk(v: View, p: Process, t: Thread) {
    && Shaped(v.act)
    && Depth(v.act) == (if v.owner == Some(t) then v.count else 0)
    && (v.owner.None? ==> v.count == 0 && v.held == 0)
    && (v.owner.Some? ==> v.count > 0)
    && (v.owner == Some(t) ==> v.held == HeldBy(v.act))
    && (v.owner == Some(t) && MustHoldOs(v.act) ==> v.os == Some(p))
    && (v.owner == Some(t) && v.os == Some(p) ==> MayHoldOs(v.act))
    && (v.owner.None? ==> v.os != Some(p))
  }

  /** What the statement does to the other threads of the process, and to the other processes. */
  predicate Spares(v: View, v': View, p: Process, t: Thread) {
    && (v'.owner == v.owner || (v'.owner == Some(t) && v.owner.None?) || (v'.owner.None? && v.owner == Some(t)))
    && (v.owner != Some(t) && v'.owner != Some(t) ==> v'.count == v.count && v'.held == v.held && v'.os == v.os)
    && (v.os.Some? && v.os != Some(p) ==> v'.os == v.os)
    && (v'.os == v.os || v'.os == Some(p) || v'.os.None?)
  }

  lemma DoKeeps(v: View, step: Step)
    requires step.ThreadStep? && Enabled(v, step) && ViewOk(v, step.p, step.t)
    ensures ViewOk(Do(v, step), step.p, step.t)
    ensures Spares(v, Do(v, step), step.p, step.t)
  {
    var frames := v.act.frames;
    if step.op.Exit? {
      assert frames[|frames| - 1].Nested? <==> |frames| > 1;
    }
  }

  lemma LookIsOk(s: State, p: Process, t: Thread)
    requires Inv(s) && Exists(s, p, t)
    ensures ViewOk(Look(s, p, t), p, t)
  {
    var pr := s.procs[p];
    assert ProcOk(pr);
    if pr.owner == Some(t) && MustHoldOs(pr.threads[t]) {
      assert Holds(pr, true);
    }
  }

  /** The process of the thread keeps its books: the thread's own side, and that of its other threads. */
  lemma PutKeepsProc(s: State, p: Process, t: Thread, v: View)
    requires Inv(s) && Exists(s, p, t)
    requires ViewOk(v, p, t) && Spares(Look(s, p, t), v, p, t)
    ensures ProcOk(Put(s, p, t, v).procs[p])
  {
    var pr, pr' := s.procs[p], Put(s, p, t, v).procs[p];
    assert ProcOk(pr);
    forall u | u in pr'.threads
      ensures Shaped(pr'.threads[u]) && Depth(pr'.threads[u]) == if pr'.owner == Some(u) then pr'.count else 0
    {
      if u != t {
        assert pr'.threads[u] == pr.threads[u];
      }
    }
  }

  /** If the process must hold the record lock, it does: its owner is this thread, or another one that had it. */
  lemma PutKeepsHolder(s: State, p: Process, t: Thread, v: View)
    requires Inv(s) && Exists(s, p, t)
    requires ViewOk(v, p, t) && Spares(Look(s, p, t), v, p, t)
    ensures Holds(Put(s, p, t, v).procs[p], true) ==> v.os == Some(p)
    ensures v.os == Some(p) ==> Holds(Put(s, p, t, v).procs[p], false)
  {
    var pr := s.procs[p];
    assert ProcOk(pr);
    if v.owner.Some? && v.owner != Some(t) {
      assert pr.owner == v.owner && Put(s, p, t, v).procs[p].threads[v.owner.value] == pr.threads[v.owner.value];
      assert Holds(Put(s, p, t, v).procs[p], true) ==> Holds(pr, true);
    }
  }

  /** No other process notices. */
  lemma PutSparesProc(s: State, p: Process, t: Thread, v: View, q: Process)
    requires Inv(s) && Exists(s, p, t) && q in s.procs && q != p
    requires ViewOk(v, p, t) && Spares(Look(s, p, t), v, p, t)
    ensures Put(s, p, t, v).procs[q] == s.procs[q]
    ensures Holds(s.procs[q], true) ==> v.os == Some(q)
  {
    if Holds(s.procs[q], true) {
      assert s.os == Some(q);
    }
  }

  lemma PutKeeps(s: State, p: Process, t: Thread, v: View)
    requires Inv(s) && Exists(s, p, t)
    requires ViewOk(v, p, t) && Spares(Look(s, p, t), v, p, t)
    ensures Inv(Put(s, p, t, v))
  {
    PutKeepsProc(s, p, t, v);
    PutKeepsHolder(s, p, t, v);
    forall q | q in s.procs && q != p
      ensures Put(s, p, t, v).procs[q] == s.procs[q]
      ensures Holds(s.procs[q], true) ==> v.os == Some(q)
    {
      PutSparesProc(s, p, t, v, q);
    }
  }

  lemma {:induction false} StepKeepsInv(s: State, step: Step)
    requires Inv(s) && Next(s, step).Some?
    ensures Inv(Next(s, step).value)
  {
    match step
    case Start(p) =>
    case Spawn(p, t) => SpawnKeeps(s, p, t);
    case Die(p) =>
    case ThreadStep(p, t, _) =>
      LookIsOk(s, p, t);
      DoKeeps(Look(s, p, t), step);
      PutKeeps(s, p, t, Do(Look(s, p, t), step));
  }

  lemma SpawnKeeps(s: State, p: Process, t: Thread)
    requires Inv(s) && Next(s, Spawn(p, t)).Some?
    ensures Inv(Next(s, Spawn(p, t)).value)
  {
    var pr := s.procs[p];
    assert ProcOk(pr);
    IdleThreadIsOk(pr, t);
    ReplacedProcIsOk(s, p, pr.(threads := pr.threads[t := IDLE]));
  }

  lemma IdleThreadIsOk(pr: Proc, t: Thread)
    requires ProcOk(pr) && t !in pr.threads
    ensures var pr' := pr.(threads := pr.threads[t := IDLE]);
            ProcOk(pr') && (Holds(pr', true) <==> Holds(pr, true)) && (Holds(pr', false) <==> Holds(pr, false))
  {
  }

  lemma ReplacedProcIsOk(s: State, p: Process, pr': Proc)
    requires Inv(s) && p in s.procs && ProcOk(pr')
    requires Holds(pr', true) <==> Holds(s.procs[p], true)
    requires Holds(pr', false) <==> Holds(s.procs[p], false)
    ensures Inv(s.(procs := s.procs[p := pr']))
  {
  }

  lemma {:induction false} RunKeepsInv(steps: seq<Step>)
    requires Run(steps).Some?
    ensures Inv(Run(steps).value)
  {
    if steps != [] {
      var before := steps[..|steps| - 1];
      RunKeepsInv(before);
      StepKeepsInv(Run(before).value, steps[|steps| - 1]);
    }
  }

  /* ---- safety over every interleaving ---- */

  /** At most one thread of one process is inside a `with writer_lock` body. */
  lemma {:induction false} MutualExclusion(steps: seq<Step>, p: Process, t: Thread, q: Process, u: Thread)
    requires Run(steps).Some?
    requires Exists(Run(steps).value, p, t) && Inside(Run(steps).value.procs[p].threads[t])
    requires Exists(Run(steps).value, q, u) && Inside(Run(steps).value.procs[q].threads[u])
    ensures p == q && t == u
  {
    RunKeepsInv(steps);
    var s := Run(steps).value;
    assert ProcOk(s.procs[p]) && ProcOk(s.procs[q]);
    assert Holds(s.procs[p], true) && Holds(s.procs[q], true);
  }

  /** The held count is the nesting depth of the one thread inside, which owns the thread lock as often. */
  lemma {:induction false} HeldIsNestingDepth(steps: seq<Step>, p: Process, t: Thread)
    requires Run(steps).Some?
    requires Exists(Run(steps).value, p, t)
    requires Run(steps).value.procs[p].threads[t].phase.Running?
    requires Inside(Run(steps).value.procs[p].threads[t])
    ensures var pr := Run(steps).value.procs[p];
            && pr.held == |pr.threads[t].frames| == pr.count
            && pr.owner == Some(t)
            && Run(steps).value.os == Some(p)
  {
    RunKeepsInv(steps);
    assert ProcOk(Run(steps).value.procs[p]);
    assert Holds(Run(steps).value.procs[p], true);
  }

  /** A positive held count means that this process has the record lock. */
  lemma {:induction false} HeldMeansLocked(steps: seq<Step>, p: Process)
    requires Run(steps).Some? && p in Run(steps).value.procs
    requires Run(steps).value.procs[p].held > 0
    ensures Run(steps).value.os == Some(p)
  {
    RunKeepsInv(steps);
    var pr := Run(steps).value.procs[p];
    assert ProcOk(pr);
    var a := pr.threads[pr.owner.value];
    if a.phase.LeavingNested? {
      assert Shaped(a);
    }
    assert Holds(pr, true);
  }

  /**
   The record lock leaves a process only when the process dies or while its owning thread runs the finaliser of
   its outermost context: nobody in the process is inside and the held count is already gone.
   */
  lemma {:induction false} LockLeavesAtOutermostExit(steps: seq<Step>, step: Step, p: Process)
    requires Run(steps).Some? && Next(Run(steps).value, step).Some?
    requires Run(steps).value.os == Some(p)
    requires Next(Run(steps).value, step).value.os != Some(p)
    ensures step == Die(p) || (step.ThreadStep? && step.p == p && (step.op.Unlock? || step.op.Close?))
    ensures step.ThreadStep? ==>
              var pr := Run(steps).value.procs[p];
              && pr.owner == Some(step.t) && pr.held == 0 && pr.count == 1
              && forall t | t in pr.threads :: !Inside(pr.threads[t])
  {
    RunKeepsInv(steps);
    var s := Run(steps).value;
    if step.ThreadStep? {
      LookIsOk(s, step.p, step.t);
      DropIsOutermost(Look(s, step.p, step.t), step, p);
      NobodyInside(s.procs[p], step.t);
    }
  }

  lemma DropIsOutermost(v: View, step: Step, p: Process)
    requires step.ThreadStep? && Enabled(v, step) && ViewOk(v, step.p, step.t)
    requires v.os == Some(p) && Do(v, step).os != Some(p)
    ensures step.p == p && (step.op.Unlock? || step.op.Close?)
    ensures v.owner == Some(step.t) && v.held == 0 && v.count == 1 && !Inside(v.act)
  {
  }

  lemma NobodyInside(pr: Proc, t: Thread)
    requires ProcOk(pr) && t in pr.threads && pr.owner == Some(t) && !Inside(pr.threads[t])
    ensures forall u | u in pr.threads :: !Inside(pr.threads[u])
  {
    forall u | u in pr.threads
      ensures !Inside(pr.threads[u])
    {
      assert Depth(pr.threads[u]) >= |pr.threads[u].frames|;
    }
  }

  /** Once every thread of a process is back in plain user code, it holds none of the three locks. */
  lemma {:induction false} LeavingRestoresEverything(steps: seq<Step>, p: Process)
    requires Run(steps).Some? && p in Run(steps).value.procs
    requires forall t | t in Run(steps).value.procs[p].threads :: Run(steps).value.procs[p].threads[t] == IDLE
    ensures var pr := Run(steps).value.procs[p];
            pr.owner.None? && pr.count == 0 && pr.held == 0 && Run(steps).value.os != Some(p)
  {
    RunKeepsInv(steps);
    var pr := Run(steps).value.procs[p];
    assert ProcOk(pr);
    assert forall t | t in pr.threads :: Depth(pr.threads[t]) == 0;
  }

  /**
   Re-entering never waits and never touches the record lock: the thread inside takes the thread lock at once,
   always finds a positive count, and comes back in one level deeper.
   */
  lemma ReentryNeverBlocks(steps: seq<Step>, p: Process, t: Thread)
    requires Run(steps).Some?
    requires Exists(Run(steps).value, p, t)
    requires Inside(Run(steps).value.procs[p].threads[t])
    requires Run(steps).value.procs[p].threads[t].phase.Running?
    ensures var call := [ThreadStep(p, t, Call), ThreadStep(p, t, AcquireLocal), ThreadStep(p, t, EnterNested)];
            && Run(steps + call).Some?
            && Run(steps + call).value.os == Some(p)
            && var before := Run(steps).value.procs[p].threads[t];
            Run(steps + call).value.procs[p].threads[t] == Activity(before.frames + [Nested], Running)
  {
    HeldIsNestingDepth(steps, p, t);
    var call, acquire, enter := ThreadStep(p, t, Call), ThreadStep(p, t, AcquireLocal), ThreadStep(p, t, EnterNested);
    RunAppend(steps, call);
    RunAppend(steps + [call], acquire);
    RunAppend(steps + [call] + [acquire], enter);
    assert steps + [call, acquire, enter] == steps + [call] + [acquire] + [enter];
  }

  lemma RunAppend(steps: seq<Step>, step: Step)
    ensures Run(steps + [step]) == if Run(steps).None? then None else Next(Run(steps).value, step)
  {
    assert (steps + [step])[..|steps|] == steps;
  }

  /** What is left of the finaliser a thread is in, on any way out. */
  function Finaliser(phase: Phase): seq<Op> {
    match phase
    case LeavingNested => [Decrement, Release]
    case Clearing(_) => [Clear, Unlock(true), Close, Release]
    case Unlocking(_) => [Unlock(true), Close, Release]
    case Closing(_) => [Close, Release]
    case Releasing => [Release]
    case _ => []
  }

  /** Leaving never waits and never fails: the next finaliser step is enabled, and what is left shrinks by it. */
  lemma FinalisersNeverStick(steps: seq<Step>, p: Process, t: Thread)
    requires Run(steps).Some? && Exists(Run(steps).value, p, t)
    requires Finaliser(Run(steps).value.procs[p].threads[t].phase) != []
    ensures var todo := Finaliser(Run(steps).value.procs[p].threads[t].phase);
            var after := Run(steps + [ThreadStep(p, t, todo[0])]);
            && after.Some?
            && Exists(after.value, p, t)
            && Finaliser(after.value.procs[p].threads[t].phase) == todo[1..]
            && after.value.procs[p].threads[t].frames == Run(steps).value.procs[p].threads[t].frames
  {
    RunKeepsInv(steps);
    var s := Run(steps).value;
    LookIsOk(s, p, t);
    var step := ThreadStep(p, t, Finaliser(s.procs[p].threads[t].phase)[0]);
    RunAppend(steps, step);
    FinaliserShrinks(Look(s, p, t), step);
  }

  lemma FinaliserShrinks(v: View, step: Step)
    requires step.ThreadStep? && Finaliser(v.act.phase) != [] && step.op == Finaliser(v.act.phase)[0]
    requires ViewOk(v, step.p, step.t)
    ensures Enabled(v, step)
    ensures Finaliser(Do(v, step).act.phase) == Finaliser(v.act.phase)[1..]
    ensures Do(v, step).act.frames == v.act.frames
  {
  }

  /** Whoever polls may give up, keeps no frame for it, and has only to close the file and release the thread lock. */
  lemma GivingUpLeaves(steps: seq<Step>, p: Process, t: Thread)
    requires Run(steps).Some? && Exists(Run(steps).value, p, t)
    requires Run(steps).value.procs[p].threads[t].phase.Polling?
    ensures var after := Run(steps + [ThreadStep(p, t, GiveUp)]);
            && after.Some? && Exists(after.value, p, t)
            && after.value.os == Run(steps).value.os
            && after.value.procs[p].threads[t].frames == Run(steps).value.procs[p].threads[t].frames
            && Finaliser(after.value.procs[p].threads[t].phase) == [Close, Release]
  {
    RunAppend(steps, ThreadStep(p, t, GiveUp));
  }

  /** A successful unlock frees the record lock, and so does closing the file, whether the unlock succeeded or not. */
  lemma FinaliserFreesLock(steps: seq<Step>, p: Process, t: Thread, op: Op)
    requires op == Unlock(true) || op == Close
    requires Run(steps + [ThreadStep(p, t, op)]).Some?
    ensures Run(steps + [ThreadStep(p, t, op)]).value.os != Some(p)
  {
    RunAppend(steps, ThreadStep(p, t, op));
  }

  /** A free record lock is won by the next attempt, and it is free unless some process's owner may hold it. */
  lemma FreeLockIsWon(steps: seq<Step>, p: Process, t: Thread)
    requires Run(steps).Some? && Exists(Run(steps).value, p, t)
    requires Run(steps).value.procs[p].threads[t].phase.Polling?
    requires forall q | q in Run(steps).value.procs && q != p :: !Holds(Run(steps).value.procs[q], false)
    ensures Run(steps + [ThreadStep(p, t, TryLock)]).Some?
    ensures Run(steps + [ThreadStep(p, t, TryLock)]).value.os == Some(p)
    ensures Run(steps + [ThreadStep(p, t, TryLock)]).value.procs[p].threads[t].phase.Won?
  {
    RunKeepsInv(steps);
    RunAppend(steps, ThreadStep(p, t, TryLock));
  }
}
