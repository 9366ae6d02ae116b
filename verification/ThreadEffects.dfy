/**
 What the operations of the thread manager are for: how many threads a service call supplies, what status
 a thread has after each step, who quits, and what pausing and resuming mean.
 */
module ThreadEffects {
  import opened Types
  import opened ThreadModel
  import opened ThreadCounts
  import opened ThreadSupply
  import opened ThreadStatus
  import opened ThreadBounds
  import opened ThreadAttendance
  import opened ThreadJobs
  import opened PoolSound

  // ---- the service call ----

  /** The tasks a service call sees: those that could start, and one for all the removed ones. */
  function Work(c: Core): int { (if c.paused then 0 else c.pendings) + Bit(c.dispatchs != []) }

  /**
   The service call, exactly.  It does nothing while somebody is free or woken or there is no work; else it
   wakes two sleepers at most; and with none asleep it takes on as many threads as there is room, as may be
   made at a time, and as there is work for, whichever is least.
   */
  lemma EnsureExact(c: Core)
    requires Sound(c) && c.pendings >= 0 && c.realPool <= c.maxthreads
    ensures var r := Ensure(c);
      if c.realFree > 0 || c.qthsWaked > 0 || !HasWork(c) then r == c
      else if c.qthsWait > 0 then
        r.qthsWaked == Min(Min(2, c.perTime), c.qthsWait) && r.realPool == c.realPool && r.qths == c.qths
      else r.realPool == c.realPool + Min(Min(c.maxthreads - c.realPool, c.perTime), Work(c))
  {
    CountersBalance(c);
    assert Drift(c, Dying) == 0;
    if c.realFree == 0 && c.qthsWaked == 0 && HasWork(c) {
      if c.waitq != [] {
        WakeNExact(c, Min(2, c.perTime));
        WakeNKeeps(c, Min(2, c.perTime));
      } else {
        AddThreadsExact(c, WantedThreads(c));
      }
    }
  }

  /** The test that saves the call never saves one that would do something. */
  lemma NeedEnsureExact(c: Core)
    requires Sound(c) && c.realPool <= c.maxthreads
    ensures !NeedEnsure(c) ==> Ensure(c) == c
  {
    CountersBalance(c);
  }

  /** The collector's flush leaves a thread that is awake, to carry it out. */
  lemma TryGCServes(c: Core)
    requires Sound(c)
    ensures Attended(TryGC(c, true))
  {
    CountersBalance(c);
    if c.realFree == 0 && c.running == c.dyingRun {
      if c.sleeping != 0 { WakingOneAttends(c); } else { AddingAttends(c, 1); }
    }
  }

  lemma WakingOneAttends(c: Core)
    requires Sound(c) && c.sleeping > 0
    ensures Attended(WakeN(c, 1))
  {
    WakeNKeeps(c, 1);
    CountersBalance(c);
  }

  // ---- statuses ----

  /** Whoever stays only when idle quits at its time-out: unless too few are left, or there is work. */
  lemma TimedoutQuits(c: Core, i: nat, mayQuit: bool)
    requires Sound(c) && i < |c.ths| && c.ths[i].status == Wait && !c.ths[i].rm
    ensures var r := ToTimedout(c, i, mayQuit); var quits := mayQuit && c.realPool > c.minthreads && !HasWork(c);
      && r.ths[i].status == Timedout && r.ths[i].rm == quits && r.ths[i].run == !quits
      && r.realPool == c.realPool - Bit(quits) && r.dying == c.dying + Bit(quits) && i !in r.waitq
  {
    RemoveMembers(c.waitq, i);
  }

  /** A thread that quits of its own accord, or is told to, is out of service and stops. */
  lemma QuitQuits(c: Core, i: nat)
    requires Sound(c) && i < |c.ths| && Awake(c.ths[i])
    ensures var r := ToForceQuit(c, i);
      && r.ths[i].status == ForceQuit && r.ths[i].rm && !r.ths[i].run
      && r.realPool == c.realPool - Bit(!c.ths[i].rm)
      && CanLeave(r.ths[i]) && ToLeave(r, i).ths[i].status == Status.Left && ToLeave(r, i).qths == c.qths - 1
  {
  }

  /** A thread that goes to sleep is the first to be woken. */
  lemma LastAsleepFirstWoken(c: Core, i: nat, n: int)
    requires Sound(c) && i < |c.ths| && Awake(c.ths[i]) && !c.ths[i].rm && n != 0
    ensures var r := ToWait(c, i); r.ths[i].status == Wait && !r.ths[i].waked && WakeN(r, n).ths[i].waked
  {
    var r := ToWait(c, i);
    WaitKeepsCounts(c, i);
    WakeNExact(r, n);
    assert r.waitq[0] == i && WakeCount(r, n) >= 1;
    assert i in r.waitq[..WakeCount(r, n)];
  }

  /** A woken thread is back in service, free. */
  lemma WokenIsFree(c: Core, i: nat)
    requires Sound(c) && i < |c.ths| && c.ths[i].status == Wait && c.ths[i].waked && !c.ths[i].rm
    ensures var r := ToFree(c, i);
      r.ths[i] == c.ths[i].(status := Free) && r.realFree == c.realFree + 1 && r.sleeping == c.sleeping - 1
  {
  }

  // ---- pausing ----

  /** Suspending sets the flag and nothing else. */
  lemma SuspendSuspends(c: Core)
    ensures SuspendCore(c).paused && SuspendCore(c).(paused := c.paused) == c
  {
  }

  /** Resuming clears it, and sees to it that waiting work is attended. */
  lemma ResumeResumes(c: Core)
    requires Steady(c) && c.pendings >= 0 && 1 <= c.maxthreads
    ensures var r := ResumeCore(c);
      !r.paused && r.pendings == c.pendings && (c.paused && c.pendings > 0 ==> Attended(r)) && (!c.paused ==> r == c)
  {
    EnsureJobs(c.(paused := false));
    if c.paused && c.pendings > 0 {
      WorkWrite(c, c.(paused := false));
      EnsureServes(c.(paused := false));
    }
  }

  // ---- construction ----

  /** The settings of a new pool: what was asked for, clamped, and minthreads threads that have not started yet. */
  lemma NewCoreSettings(maxthreads: int, minthreads: int, perTime: int, paused: bool)
    requires perTime >= 1
    ensures var c := NewCore(maxthreads, minthreads, perTime, paused);
      && c.maxthreads == Max(1, maxthreads) && c.minthreads == Min(Max(0, minthreads), c.maxthreads)
      && c.perTime == perTime && c.paused == paused && c.pendings == 0 && c.dispatchs == []
      && |c.ths| == c.minthreads && forall i :: 0 <= i < |c.ths| ==> c.ths[i] == NEWBORN
  {
    var hi := Max(1, maxthreads);
    var lo := Min(Max(0, minthreads), hi);
    var c := Core([], [], 0, 0, 0, 0, 0, 0, 0, 0, 0, hi, lo, perTime, paused, 0, []);
    assert Counted(c);
    assert Drift(c, Dying) == 0;
    AddThreadsJobs(c, lo);
    AddThreadsExact(c, lo);
  }
}
