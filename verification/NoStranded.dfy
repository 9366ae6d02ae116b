/**
 No stranded work: while something is startable, some thread is free, woken or running.
 The claim is about steps that take no thread out of service; of a flush and of a lowered maximum, which do,
 ThreadAttendance says exactly whether they leave somebody to attend.
 */
module NoStranded {
  import opened Types
  import opened ThreadModel
  import opened ThreadCounts
  import opened ThreadSupply
  import opened ThreadStatus
  import opened ThreadBounds
  import opened ThreadAttendance
  import opened ThreadJobs
  import opened ActivePrefix
  import opened GroupModel
  import opened GroupCounts
  import opened GroupShape
  import opened GroupExact
  import opened GroupPlaces
  import opened Scheduler
  import opened PoolSound

  /** Only threads that have given up for want of work are marked. */
  ghost predicate OnlyQuitters(c: Core)
  {
    forall i :: 0 <= i < |c.ths| && c.ths[i].rm ==>
      c.ths[i].status == Timedout || c.ths[i].status == ForceQuit || c.ths[i].status == Status.Left
  }

  ghost predicate Manned(c: Core) { OnlyQuitters(c) && 1 <= c.maxthreads && (HasWork(c) ==> Attended(c)) }

  /** Adding to the pool never leaves it less attended. */
  lemma GrownManned(c: Core, r: Core)
    requires Sound(c) && Sound(r) && Grown(c, r) && r.running == c.running && OnlyQuitters(c)
    ensures OnlyQuitters(r) && (Attended(c) ==> Attended(r))
  {
    forall j | 0 <= j < |c.ths|
      ensures Weight(c.ths[j], Waked) <= Weight(r.ths[j], Waked)
      ensures Weight(c.ths[j], RealFree) <= Weight(r.ths[j], RealFree)
    {
      assert KeepsJob(c.ths[j], r.ths[j]);
    }
    CountMonotone(c.ths, r.ths, Waked);
    CountMonotone(c.ths, r.ths, RealFree);
    assert Drift(c, Waked) == 0 && Drift(c, RealFree) == 0 && Drift(r, Waked) == 0 && Drift(r, RealFree) == 0;
    forall j | 0 <= j < |r.ths| && r.ths[j].rm
      ensures j < |c.ths| && c.ths[j].rm && r.ths[j].status == c.ths[j].status
    {
      if j < |c.ths| { assert KeepsJob(c.ths[j], r.ths[j]); }
    }
  }

  lemma EnsureManned(c: Core)
    requires Steady(c) && OnlyQuitters(c) && 1 <= c.maxthreads && c.pendings >= 0
    ensures Manned(Ensure(c))
  {
    assert Drift(c, Dying) == 0;
    EnsureKeeps(c);
    EnsureSound(c);
    GrownManned(c, Ensure(c));
    if HasWork(c) { EnsureServes(c); }
  }

  lemma GuardedEnsureManned(c: Core)
    requires Steady(c) && OnlyQuitters(c) && 1 <= c.maxthreads && c.pendings >= 0
    ensures Manned(if NeedEnsure(c) then Ensure(c) else c)
  {
    EnsureManned(c);
    if HasWork(c) { NeedEnsureServes(c); }
  }

  /** Work that was there before is attended after, if the attending threads still are. */
  lemma LessWork(c: Core, r: Core)
    requires Manned(c) && OnlyQuitters(r) && r.maxthreads == c.maxthreads
    requires (HasWork(r) ==> HasWork(c)) && (Attended(c) ==> Attended(r))
    ensures Manned(r)
  {
  }

  // ---- queueing, taking, completing ----

  lemma DeliverManned(p: Pool, g: nat, t: Task)
    requires Shaped(p) && g < |p.entries| && Steady(p.core) && Manned(p.core) && p.core.pendings >= 0
    ensures Manned(Deliver(p, g, t).core)
  {
    DeliverEffect(p, g, t);
    var c := AddCore(p.core, 1);
    WorkWrite(p.core, c);
    if p.core.paused { LessWork(p.core, c); } else { GuardedEnsureManned(c); }
  }

  lemma RunManned(c: Core, i: nat)
    requires i < |c.ths| && Awake(c.ths[i]) && !c.ths[i].rm && Steady(c) && OnlyQuitters(c) && 1 <= c.maxthreads
    ensures Manned(ToRun(c, i))
  {
    var b := BeforeRun(c, i);
    BeforeRunDrift(c, i);
    CountersBalance(c);
    assert Drift(b, Dying) == 0;
    EnsureKeeps(b);
    var d := ServiceCheck(b);
    forall j | 0 <= j < |d.ths| && j != i && d.ths[j].rm
      ensures j < |c.ths| && c.ths[j].rm && d.ths[j].status == c.ths[j].status
    {
      if j < |c.ths| { assert KeepsJob(b.ths[j], d.ths[j]); }
    }
    assert KeepsJob(b.ths[i], d.ths[i]);
  }

  lemma GetTaskManned(p: Pool, i: nat)
    requires Shaped(p) && i < |p.core.ths| && Awake(p.core.ths[i]) && !p.core.ths[i].rm
    requires Steady(p.core) && Manned(p.core) && GetTask(p, i).Took?
    ensures Manned(GetTask(p, i).pool.core) && Steady(GetTask(p, i).pool.core)
  {
    GetTaskCore(p, i);
    LoadedSteady(p, i);
    RunManned(Loaded(p, i), i);
    GetTaskSteady(p, i);
  }

  /** A thread that completes its work is free, and one that has more of its batch keeps running. */
  lemma ReleasedManned(p: Pool, i: nat, g: nat)
    requires Shaped(p) && i < |p.core.ths| && g < |p.entries| && p.core.ths[i].status == Run
    requires Steady(p.core) && Manned(p.core)
    ensures Manned(CompleteIfIdle(Release(p, i, g), i).core)
  {
    var c := Release(p, i, g).core;
    WorkWrite(p.core, c);
    assert OnlyQuitters(c);
    RunnerAttends(c, i);
    if c.ths[i].batch == [] { assert CompleteIfIdle(Release(p, i, g), i).core == ToComplete(c, i); }
  }

  /** A running thread attends, and so does one that has completed, if it is not marked. */
  lemma RunnerAttends(c: Core, i: nat)
    requires Sound(c) && OnlyQuitters(c) && 1 <= c.maxthreads && i < |c.ths| && c.ths[i].status == Run
    ensures Manned(c) && Manned(ToComplete(c, i))
  {
    CountersBalance(c);
    CountMember(c.ths, i, Running);
    assert Drift(c, Running) == 0;
    assert !c.ths[i].rm;
  }

  lemma ReleasedPendings(p: Pool, i: nat, g: nat)
    requires Tidy(p) && Covers(p) && i < |p.core.ths| && g < |p.entries| && Job(p.core.ths[i]).Some?
    ensures CompleteIfIdle(Release(p, i, g), i).core.pendings >= 0
  {
    ReleaseTidy(p, i, g);
    ReleaseExact(p, i, g, false);
    PendingsNonNegative(Release(p, i, g), false);
  }

  lemma FinishManned(p: Pool, i: nat, detached: bool)
    requires Tidy(p) && Covers(p) && Steady(p.core) && Manned(p.core) && i < |p.core.ths| && p.core.ths[i].status == Run
    requires Job(p.core.ths[i]).Some? && Job(p.core.ths[i]).value.gid < |p.entries|
    ensures Manned(Finish(p, i, detached).core)
  {
    var t := Job(p.core.ths[i]).value;
    ReleasedManned(p, i, t.gid);
    ReleasedSteady(p, i, t.gid);
    if !(detached || !WantsAgain(p, t.id)) {
      ReleasedPendings(p, i, t.gid);
      DeliverManned(CompleteIfIdle(Release(p, i, t.gid), i), t.gid, NiceAdjust(t));
    }
  }

  // ---- removing, suspending, resuming, attributes ----

  /** Removal changes the thread manager's work, not its threads. */
  lemma RemoveWaitingCore(p: Pool, t: Task, byPool: bool)
    requires Tidy(p) && Covers(p) && Steady(p.core) && t.gid < |p.entries| && t in p.entries[t.gid].queue
    ensures var c, d := p.core, RemoveWaiting(p, t, byPool).core;
      && d == c.(pendings := d.pendings, dispatchs := if byPool && t.handler then c.dispatchs + [t] else c.dispatchs)
      && 0 <= d.pendings <= c.pendings && Steady(d)
  {
    RemoveWaitingExact(p, t, byPool, false);
    PendingsNonNegative(RemoveWaiting(p, t, byPool), false);
    WorkWrite(p.core, RemoveWaiting(p, t, byPool).core);
  }

  lemma RemoveTaskManned(p: Pool, t: Task, byPool: bool)
    requires Tidy(p) && Covers(p) && Steady(p.core) && Manned(p.core) && t.gid < |p.entries|
    requires t.id in p.stat && p.stat[t.id].place == Waiting ==> t in p.entries[t.gid].queue
    ensures Manned(RemoveTask(p, t, byPool).0.core)
  {
    if t.id in p.stat && p.stat[t.id].place == Waiting {
      RemoveWaitingCore(p, t, byPool);
      var r := RemoveWaiting(p, t, byPool);
      if byPool && t.handler { GuardedEnsureManned(r.core); } else { LessWork(p.core, r.core); }
    }
  }

  /**
   Marking the tasks of one group for removal ensures no service: work handed to the pool's threads
   this way is stranded exactly when nobody was attending.
   */
  lemma DiscardManned(p: Pool, t: Task, byPool: bool)
    requires Tidy(p) && Covers(p) && Steady(p.core) && Manned(p.core) && t.gid < |p.entries|
    requires t.id in p.stat && p.stat[t.id] == Stat(Waiting, false) && t in p.entries[t.gid].queue
    ensures Manned(Discard(p, t, byPool).core) <==> !(byPool && t.handler) || Attended(p.core)
  {
    RemoveWaitingCore(p, t, byPool);
  }

  lemma SuspendManned(p: Pool, g: nat)
    requires Tidy(p) && Covers(p) && Manned(p.core) && g < |p.entries|
    ensures Manned(Suspend(p, g).core)
  {
    assert EntryTidy(p.entries[g], g, p.pre.active[g]);
    PendingsNonNegative(p, false);
    SuspendTidy(p, g);
    SuspendExact(p, g, false);
    PendingsNonNegative(Suspend(p, g), false);
    LessWork(p.core, Suspend(p, g).core);
  }

  lemma ResumeManned(p: Pool, g: nat)
    requires Tidy(p) && Steady(p.core) && Manned(p.core) && g < |p.entries| && p.core.pendings >= 0
    ensures Manned(Resume(p, g).core)
  {
    var e := p.entries[g];
    assert EntryTidy(e, g, p.pre.active[g]);
    var c := ResumeQuietly(p, g).core;
    WorkWrite(p.core, c);
    if ValidEntry(e) && e.paused && e.npendings != 0 { GuardedEnsureManned(c); }
  }

  /** A group at its limit has a thread running. */
  lemma AtLimitRuns(p: Pool, g: nat)
    requires Placed(p) && Sound(p.core) && g < |p.entries| && p.entries[g].nrunnings > 0
    ensures p.core.running > 0
  {
    assert TallyOf(p, InGroup(g)) == EntryTally(p.entries[g]);
    var i := CountPositive(p.core.ths, Runs(InGroup(g)));
    assert JobOk(p.core.ths[i]);
    CountMember(p.core.ths, i, Running);
    assert Drift(p.core, Running) == 0;
  }

  /** Setting attributes ensures no service, and need not: what becomes startable was held back by running tasks. */
  lemma SetAttrManned(p: Pool, g: nat, parallel: int, benefits: bool)
    requires Tidy(p) && Covers(p) && Placed(p) && Sound(p.core) && Manned(p.core) && g < |p.entries|
    requires ValidEntry(p.entries[g])
    ensures Manned(SetAttr(p, g, parallel, benefits).core)
  {
    var e := p.entries[g];
    assert EntryTidy(e, g, p.pre.active[g]);
    if p.core.pendings == 0 && !e.paused && e.npendings > 0 {
      ZeroMeansStill(p, false);
      assert Still(e);
      AtLimitRuns(p, g);
    }
  }

  // ---- the thread manager's own steps ----

  lemma FreeManned(c: Core, i: nat)
    requires i < |c.ths| && c.ths[i].status == Wait && c.ths[i].waked && Steady(c) && OnlyQuitters(c)
    requires 1 <= c.maxthreads
    ensures Manned(ToFree(c, i)) && !ExitCallsBack(c, i)
  {
    assert !c.ths[i].rm;
    CountersBalance(c);
  }

  lemma TimedoutManned(c: Core, i: nat, mayQuit: bool)
    requires i < |c.ths| && c.ths[i].status == Wait && Steady(c) && OnlyQuitters(c) && 1 <= c.maxthreads
    ensures Manned(ToTimedout(c, i, mayQuit)) && !ExitCallsBack(c, i)
  {
    assert !c.ths[i].rm;
    CountersBalance(c);
  }

  lemma ResumeCoreManned(c: Core)
    requires Steady(c) && Manned(c) && c.pendings >= 0
    ensures Manned(ResumeCore(c))
  {
    var d := c.(paused := false);
    WorkWrite(c, d);
    if d.pendings != 0 { EnsureManned(d); } else { LessWork(c, d); }
  }

  lemma TryGCManned(c: Core, flushable: bool)
    requires Steady(c) && Manned(c)
    ensures Manned(TryGC(c, flushable))
  {
    var r := TryGC(c, flushable);
    TryGCBounds(c, flushable);
    WakeNSupplies(c, 1);
    assert Drift(c, Dying) == 0;
    AddThreadsExact(c, 1);
    if r != c {
      GrownManned(c, r);
      LessWork(c, r);
    }
  }

  // ---- bounds that mark nobody ----

  /** Where nothing is pending in any unpaused group, new limits leave the count of startable tasks alone. */
  lemma {:induction false} UpdateAllIdle(p: Pool, g: nat, r: Pool)
    requires Shaped(p) && g <= |p.entries| && r == UpdateAllFrom(p, g)
    requires forall h :: 0 <= h < |p.entries| ==> p.entries[h].paused || p.entries[h].npendings == 0
    ensures r.core == p.core
    decreases |p.entries| - g
  {
    if g < |p.entries| {
      var e := p.entries[g];
      UpdateAllIdle(if e.free then p else SetAttr(p, g, e.parallel, e.benefits), g + 1, r);
    }
  }

  /** With nothing startable and nobody running, every group is paused or empty. */
  lemma IdleGroups(p: Pool)
    requires Tidy(p) && Covers(p) && Placed(p) && Sound(p.core) && p.core.pendings == 0 && p.core.running == 0
    ensures forall g :: 0 <= g < |p.entries| ==> p.entries[g].paused || p.entries[g].npendings == 0
  {
    ZeroMeansStill(p, false);
    forall g | 0 <= g < |p.entries| ensures p.entries[g].paused || p.entries[g].npendings == 0 {
      var e := p.entries[g];
      assert Still(e) && EntryTidy(e, g, p.pre.active[g]);
      if !e.paused && e.npendings != 0 { AtLimitRuns(p, g); }
    }
  }

  /** New limits bring no work to a pool in which nobody attends. */
  lemma UpdateBringsNoWork(p: Pool, hi: int, lo: int)
    requires Tidy(p) && Covers(p) && Placed(p) && Sound(p.core) && Manned(p.core) && !Attended(p.core)
    ensures !HasWork(UpdateAllFrom(p.(core := p.core.(maxthreads := hi, minthreads := lo)), 0).core)
  {
    var p0 := p.(core := p.core.(maxthreads := hi, minthreads := lo));
    UpdateAllCore(p0, 0);
    CountersBalance(p.core);
    if !p.core.paused {
      IdleGroups(p);
      UpdateAllIdle(p0, 0, UpdateAllFrom(p0, 0));
    }
  }

  /** Adding or waking threads marks nobody. */
  lemma AdjustAbsManned(c: Core)
    requires Sound(c) && OnlyQuitters(c) && 0 <= c.minthreads <= c.maxthreads && 1 <= c.maxthreads
    requires c.realPool <= c.maxthreads && (HasWork(c) ==> Attended(c) || c.realPool > 0 || c.minthreads > 0)
    ensures Manned(AdjustAbs(c))
  {
    AdjustBounds(c);
    AdjustAttends(c);
    assert Drift(c, Dying) == 0;
    CountersBalance(c);
    if c.minthreads > c.realPool {
      AddThreadsExact(c, c.minthreads - c.realPool);
    } else {
      WakeNSupplies(c, -1);
    }
    GrownManned(c, AdjustAbs(c));
  }

  /** What the recomputation of the limits leaves to the thread manager. */
  lemma Updated(p: Pool, hi: int, lo: int)
    requires Shaped(p) && Sound(p.core)
    ensures var c := UpdateAllFrom(p.(core := p.core.(maxthreads := hi, minthreads := lo)), 0).core;
      Sound(c) && c == p.core.(maxthreads := hi, minthreads := lo, pendings := c.pendings)
  {
    var p0 := p.(core := p.core.(maxthreads := hi, minthreads := lo));
    UpdateAllCore(p0, 0);
    var c := UpdateAllFrom(p0, 0).core;
    forall k | IsCounter(k) ensures Drift(c, k) == 0 { assert Drift(p.core, k) == 0; }
  }

  /** Storing bounds that mark nobody leaves work attended, whatever the new limits make startable. */
  lemma AdjustManned(p: Pool, hi: int, lo: int)
    requires Tidy(p) && Covers(p) && Placed(p) && Steady(p.core) && Manned(p.core)
    requires 0 <= lo <= hi && 1 <= hi && p.core.realPool <= hi
    ensures Manned(Adjust(p, hi, lo).core)
  {
    Updated(p, hi, lo);
    if !Attended(p.core) { UpdateBringsNoWork(p, hi, lo); }
    AdjustAbsManned(UpdateAllFrom(p.(core := p.core.(maxthreads := hi, minthreads := lo)), 0).core);
  }

  /** A maximum below the threads in service leaves somebody to attend under the exact condition of marking. */
  lemma LoweringAttends(p: Pool, hi: int, lo: int)
    requires Shaped(p) && Sound(p.core) && 0 <= lo <= hi < p.core.realPool
    ensures Attended(Adjust(p, hi, lo).core) <==> StaysAttended(p.core, hi)
  {
    Updated(p, hi, lo);
    AdjustAttends(UpdateAllFrom(p.(core := p.core.(maxthreads := hi, minthreads := lo)), 0).core);
  }

  /** A flush that finds no thread above the minimum marks nobody. */
  lemma FlushManned(c: Core)
    requires Manned(c) && c.realPool <= c.minthreads && WaitqInRange(c)
    ensures Manned(Flush(c))
  {
  }
}
