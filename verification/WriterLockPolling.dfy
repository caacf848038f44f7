/**
 The acquire loop of `writer_lock` (`code_index/locking.py`), over a clock in
 real seconds. The environment is given: `won(i)` says whether attempt `i` finds
 the record lock free, `busy(i)` how long the attempt and the clock reading
 after it take, and `late(i)` how much longer than asked the sleep lasts.
 */
module WriterLockPolling {
  datatype Polled = Acquired | TimedOut | SleepRefused

  datatype Wait = Wait(start: real, timeout: real, poll: real, won: nat -> bool, busy: nat -> real, late: nat -> real)

  const BACKOFF_CAP := 0.5

  function Min(a: real, b: real): real {
    if a <= b then a else b
  }

  function Max(a: real, b: real): real {
    if a >= b then a else b
  }

  function Deadline(w: Wait): real {
    w.start + w.timeout
  }

  /** The sleep after attempt `i`: the first is not capped. */
  function Backoff(poll: real, i: nat): real {
    if i == 0 then poll else Min(Backoff(poll, i - 1) * 1.5, BACKOFF_CAP)
  }

  /** When attempt `i` starts, and what the clock says after it. */
  function AttemptAt(w: Wait, i: nat): real
    decreases i, 0
  {
    if i == 0 then w.start else ClockAt(w, i - 1) + Backoff(w.poll, i - 1) + w.late(i - 1)
  }

  function ClockAt(w: Wait, i: nat): real
    decreases i, 1
  {
    AttemptAt(w, i) + w.busy(i)
  }

  ghost predicate Realistic(w: Wait, tick: real) {
    && tick > 0.0
    && (forall i: nat :: w.busy(i) >= tick)
    && (forall i: nat :: w.late(i) >= 0.0)
  }

  lemma {:induction false} BackoffBounds(poll: real, i: nat)
    requires poll >= 0.0
    ensures Min(poll, BACKOFF_CAP) <= Backoff(poll, i) <= Max(poll, BACKOFF_CAP)
    ensures i > 0 ==> Backoff(poll, i) <= BACKOFF_CAP
  {
    if i > 0 {
      BackoffBounds(poll, i - 1);
    }
  }

  function Grown(poll: real, i: nat): real {
    if i == 0 then poll else 1.5 * Grown(poll, i - 1)
  }

  lemma {:induction false} GrownKeepsGrowing(poll: real, i: nat)
    requires poll >= 0.0
    ensures 0.0 <= Grown(poll, i) <= Grown(poll, i + 1)
  {
    if i > 0 {
      GrownKeepsGrowing(poll, i - 1);
    }
  }

  /** The sleeps are the poll interval, grown by half each time, and from the second on capped at half a second. */
  lemma {:induction false} SleepsGrow(poll: real, i: nat)
    requires poll >= 0.0 && i > 0
    ensures Backoff(poll, i) == Min(Grown(poll, i), 0.5)
  {
    GrownKeepsGrowing(poll, i - 1);
    if i > 1 {
      SleepsGrow(poll, i - 1);
    }
  }

  /**
   The loop tries until the first attempt that wins or whose clock reading has reached the deadline; only a
   negative poll interval makes the sleep itself fail.
   */
  method PollOsLock(w: Wait, ghost tick: real) returns (outcome: Polled, last: nat)
    requires Realistic(w, tick)
    ensures forall i | 0 <= i < last :: !w.won(i) && ClockAt(w, i) < Deadline(w)
    ensures outcome.Acquired? <==> w.won(last)
    ensures outcome.TimedOut? <==> !w.won(last) && ClockAt(w, last) >= Deadline(w)
    ensures outcome.SleepRefused? ==> w.poll < 0.0 && last == 0
  {
    var deadline := w.start + w.timeout;
    var backoff := w.poll;
    var clock := w.start;
    last := 0;
    ghost var room := Room(deadline - clock, tick);
    while true
      invariant clock == AttemptAt(w, last)
      invariant backoff == Backoff(w.poll, last)
      invariant last > 0 ==> w.poll >= 0.0
      invariant forall i | 0 <= i < last :: !w.won(i) && ClockAt(w, i) < Deadline(w)
      invariant deadline - clock <= room as real * tick
      decreases room
    {
      if w.poll >= 0.0 {
        BackoffBounds(w.poll, last);
      }
      if w.won(last) {
        return Acquired, last;
      }
      clock := clock + w.busy(last);
      if clock >= deadline {
        return TimedOut, last;
      }
      if backoff < 0.0 {
        return SleepRefused, last;
      }
      clock := clock + backoff + w.late(last);
      backoff := Min(backoff * 1.5, BACKOFF_CAP);
      last := last + 1;
      RoomShrinks(room, tick);
      room := room - 1;
    }
  }

  /** A number of ticks that covers the distance. */
  ghost function Room(distance: real, tick: real): (room: nat)
    requires tick > 0.0
    ensures distance <= room as real * tick
  {
    if distance <= 0.0 then 0
    else
      var room := (distance / tick).Floor + 1;
      assert distance / tick <= room as real;
      assert distance == distance / tick * tick;
      room
  }

  lemma RoomShrinks(room: nat, tick: real)
    requires tick > 0.0
    ensures (room - 1) as real * tick == room as real * tick - tick
    ensures room as real * tick > 0.0 ==> room > 0
  {
  }

  /**
   No attempt after the first starts later than the deadline plus the last sleep: at most half a second late
   from the third attempt on, and at most the larger of the poll interval and half a second for the second.
   */
  lemma {:induction false} PollingIsPunctual(w: Wait, i: nat)
    requires w.poll >= 0.0
    requires ClockAt(w, i) < Deadline(w)
    ensures AttemptAt(w, i + 1) < Deadline(w) + Max(w.poll, 0.5) + w.late(i)
    ensures i > 0 ==> AttemptAt(w, i + 1) < Deadline(w) + 0.5 + w.late(i)
  {
    BackoffBounds(w.poll, i);
  }

  lemma GapAfter(w: Wait, tick: real, i: nat, gap: real)
    requires Realistic(w, tick) && w.poll >= 0.0 && gap == Min(w.poll, BACKOFF_CAP)
    ensures AttemptAt(w, i + 1) >= AttemptAt(w, i) + gap
  {
    BackoffBounds(w.poll, i);
    assert AttemptAt(w, i + 1) == AttemptAt(w, i) + w.busy(i) + Backoff(w.poll, i) + w.late(i);
  }

  /** Attempts stay at least the smaller of the poll interval and half a second apart. */
  lemma {:induction false} AttemptsAreSpread(w: Wait, tick: real, i: nat, gap: real)
    requires Realistic(w, tick) && w.poll >= 0.0 && gap == Min(w.poll, BACKOFF_CAP)
    ensures AttemptAt(w, i) >= w.start + i as real * gap
  {
    if i > 0 {
      AttemptsAreSpread(w, tick, i - 1, gap);
      GapAfter(w, tick, i - 1, gap);
      NextGap(i, gap);
    }
  }

  lemma NextGap(i: nat, gap: real)
    ensures i as real * gap == (i - 1) as real * gap + gap
  {
  }

  /** So a wait makes at most two attempts plus as many as its timeout has room for. */
  lemma AttemptsAreBounded(w: Wait, tick: real, last: nat)
    requires Realistic(w, tick) && w.poll >= 0.0
    requires last > 0 && ClockAt(w, last - 1) < Deadline(w)
    ensures (last - 1) as real * Min(w.poll, 0.5) < w.timeout
  {
    AttemptsAreSpread(w, tick, last - 1, Min(w.poll, BACKOFF_CAP));
  }
}
