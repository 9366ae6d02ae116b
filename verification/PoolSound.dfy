/**
 The thread counters and bounds over the steps of the group pool.
 */
module PoolSound {
  import opened Types
  import opened ThreadModel
  import opened ThreadCounts
  import opened ThreadSupply
  import opened ThreadStatus
  import opened ThreadBounds
  import opened ThreadJobs
  import opened ActivePrefix
  import opened GroupModel
  import opened GroupCounts
  import opened GroupShape

  /** Every thread counter is right, and the pool is within its bounds. */
  ghost predicate Steady(c: Core) { Sound(c) && Bounded(c) }

  /** The counters do not depend on the pending count, the dispatch queue or the tasks held. */
  lemma WorkWrite(c: Core, r: Core)
    requires Steady(c) && |r.ths| == |c.ths|
    requires r == c.(ths := r.ths, pendings := r.pendings, dispatchs := r.dispatchs, paused := r.paused)
    requires forall j :: 0 <= j < |c.ths| ==>
      r.ths[j] == c.ths[j].(current := r.ths[j].current, batch := r.ths[j].batch)
    ensures Steady(r)
  {
    forall k | IsCounter(k) ensures Drift(r, k) == 0 {
      SameWeights(c.ths, r.ths, k);
      assert Drift(c, k) == 0;
    }
  }

  lemma {:induction false} SameWeights(ths: seq<Thread>, uhs: seq<Thread>, k: Kind)
    requires IsCounter(k) && |ths| == |uhs|
    requires forall j :: 0 <= j < |ths| ==> uhs[j] == ths[j].(current := uhs[j].current, batch := uhs[j].batch)
    ensures Count(ths, k) == Count(uhs, k)
  {
    if ths != [] { SameWeights(ths[..|ths| - 1], uhs[..|ths| - 1], k); }
  }

  lemma ServedSteady(c: Core)
    requires Steady(c)
    ensures Steady(Served(c))
  {
    EnsureSound(c);
  }

  lemma EnsureSteady(c: Core)
    requires Steady(c)
    ensures Steady(Ensure(c))
  {
    EnsureSound(c);
  }

  lemma DeliverSteady(p: Pool, g: nat, t: Task)
    requires Shaped(p) && g < |p.entries| && Steady(p.core)
    ensures Steady(Deliver(p, g, t).core)
  {
    DeliverEffect(p, g, t);
    WorkWrite(p.core, AddCore(p.core, 1));
    ServedSteady(AddCore(p.core, 1));
  }

  // ---- taking ----

  /** What thread `i` is about to run with, before its status changes. */
  function Loaded(p: Pool, i: nat): (r: Core)
    requires Shaped(p) && i < |p.core.ths|
    ensures |r.ths| == |p.core.ths| && (WaitqInRange(p.core) ==> WaitqInRange(r))
  {
    if p.core.dispatchs != [] then CutBatch(p.core, i)
    else if Choose(p).Some? then
      var t := p.entries[Choose(p).value].top;
      SetThread(AddCore(p.core, -1), i, p.core.ths[i].(current := Some(t)))
    else p.core
  }

  lemma GetTaskCore(p: Pool, i: nat)
    requires Shaped(p) && i < |p.core.ths| && GetTask(p, i).Took?
    ensures GetTask(p, i).pool.core == ToRun(Loaded(p, i), i)
  {
  }

  lemma LoadedSteady(p: Pool, i: nat)
    requires Shaped(p) && i < |p.core.ths| && Steady(p.core)
    ensures Steady(Loaded(p, i))
    ensures Loaded(p, i).ths[i] ==
      p.core.ths[i].(current := Loaded(p, i).ths[i].current, batch := Loaded(p, i).ths[i].batch)
  {
    WorkWrite(p.core, Loaded(p, i));
  }

  /** The taker is dying and the service check that follows would call it back. */
  predicate TakeCallsBack(p: Pool, i: nat)
    requires Shaped(p) && i < |p.core.ths|
  {
    Loaded(p, i).pendings != 0 && CallsBack(Loaded(p, i), i)
  }

  /** Taking keeps the counters and the bounds if and only if it does not call the taker back. */
  lemma GetTaskSteady(p: Pool, i: nat)
    requires Shaped(p) && i < |p.core.ths| && Awake(p.core.ths[i]) && Steady(p.core) && GetTask(p, i).Took?
    ensures Steady(GetTask(p, i).pool.core) <==> !TakeCallsBack(p, i)
  {
    GetTaskCore(p, i);
    LoadedSteady(p, i);
    RunSteady(Loaded(p, i), i);
  }

  lemma RunSteady(c: Core, i: nat)
    requires i < |c.ths| && Awake(c.ths[i]) && Steady(c)
    ensures Steady(ToRun(c, i)) <==> !(c.pendings != 0 && CallsBack(c, i))
  {
    RunKeepsCounts(c, i);
    BeforeRunDrift(c, i);
    var b := BeforeRun(c, i);
    assert Drift(b, Dying) == 0;
    EnsureKeeps(b);
  }

  // ---- completing ----

  lemma ReleasedSteady(p: Pool, i: nat, g: nat)
    requires Shaped(p) && i < |p.core.ths| && g < |p.entries| && p.core.ths[i].status == Run && Steady(p.core)
    ensures Steady(CompleteIfIdle(Release(p, i, g), i).core)
  {
    var c := Release(p, i, g).core;
    WorkWrite(p.core, c);
    CompleteKeepsCounts(c, i);
  }

  lemma FinishSteady(p: Pool, i: nat, detached: bool)
    requires Shaped(p) && i < |p.core.ths| && p.core.ths[i].status == Run && Steady(p.core)
    requires Job(p.core.ths[i]).Some? && Job(p.core.ths[i]).value.gid < |p.entries|
    ensures Steady(Finish(p, i, detached).core)
  {
    var t := Job(p.core.ths[i]).value;
    ReleasedSteady(p, i, t.gid);
    if !(detached || !WantsAgain(p, t.id)) {
      DeliverSteady(CompleteIfIdle(Release(p, i, t.gid), i), t.gid, NiceAdjust(t));
    }
  }

  // ---- status changes ----

  lemma FreeSteady(c: Core, i: nat)
    requires i < |c.ths| && c.ths[i].status == Wait && c.ths[i].waked && Steady(c)
    ensures Steady(ToFree(c, i)) <==> !ExitCallsBack(c, i)
  {
    FreeKeepsCounts(c, i);
    if !ExitCallsBack(c, i) { ExitBounded(c, i); }
  }

  /** Leaving the wait changes the number in service only through the service check. */
  lemma ExitBounded(c: Core, i: nat)
    requires i < |c.ths| && Sound(c) && c.ths[i].status == Wait && c.ths[i].waked
    ensures var r := AfterWait(c, i); SameSettings(c, r) && c.realPool <= r.realPool <= Max(c.realPool, c.maxthreads)
  {
    var c1 := c.(qthsWaked := c.qthsWaked - 1);
    assert c1.ths == c.ths && Drift(c, Dying) == 0 && Drift(c1, Dying) == 0;
    EnsureKeeps(c1);
  }

  lemma TimedoutSteady(c: Core, i: nat, mayQuit: bool)
    requires i < |c.ths| && c.ths[i].status == Wait && Steady(c)
    ensures Steady(ToTimedout(c, i, mayQuit)) <==> !ExitCallsBack(c, i)
  {
    TimedoutKeepsCounts(c, i, mayQuit);
    if c.ths[i].rm {
      assert BeforeTimedout(c, i, mayQuit) == c;
      ExitBounded(c, i);
    }
  }

  // ---- the same changes with the status written before the service check ----

  function RunStatusFirst(c: Core, i: nat): (r: Core)
    requires i < |c.ths| && WaitqInRange(c)
    ensures |r.ths| >= |c.ths| && WaitqInRange(r)
  {
    ServiceCheck(SetStatus(BeforeRun(c, i), i, Run))
  }

  function FreeStatusFirst(c: Core, i: nat): (r: Core)
    requires i < |c.ths| && WaitqInRange(c)
    ensures |r.ths| >= |c.ths| && WaitqInRange(r)
  {
    AfterWait(SetStatus(c, i, Free), i)
  }

  function TimedoutStatusFirst(c: Core, i: nat, mayQuit: bool): (r: Core)
    requires i < |c.ths| && WaitqInRange(c)
    ensures |r.ths| >= |c.ths| && WaitqInRange(r)
  {
    AfterWait(SetStatus(BeforeTimedout(c, i, mayQuit), i, Timedout), i)
  }

  lemma RunWeights(c: Core, i: nat)
    requires i < |c.ths| && Awake(c.ths[i])
    ensures var r := SetStatus(BeforeRun(c, i), i, Run);
      forall k :: IsCounter(k) ==> Counter(r, k) - Weight(r.ths[i], k) == Counter(c, k) - Weight(c.ths[i], k)
  {
  }

  /** Written first, the status of a taker never meets the service call: no condition is left. */
  lemma RunFirstSteady(c: Core, i: nat)
    requires i < |c.ths| && Awake(c.ths[i]) && Steady(c)
    ensures Steady(RunStatusFirst(c, i))
  {
    var b := SetStatus(BeforeRun(c, i), i, Run);
    RunWeights(c, i);
    MovedOne(c, b, i);
    EnsureSound(b);
  }

  /** What a dying sleeper's return has done to the counters before the service check. */
  lemma DyingWeights(c: Core, i: nat, s: Status)
    requires i < |c.ths| && c.ths[i].status == Wait && c.ths[i].rm && c.ths[i].waked && (s == Free || s == Timedout)
    ensures var r := SetStatus(c, i, s).(qthsWaked := c.qthsWaked - 1);
      forall k :: IsCounter(k) ==> Counter(r, k) - Weight(r.ths[i], k) == Counter(c, k) - Weight(c.ths[i], k)
  {
  }

  lemma DyingFirstSteady(c: Core, i: nat, s: Status)
    requires i < |c.ths| && c.ths[i].status == Wait && c.ths[i].rm && Steady(c) && (s == Free || s == Timedout)
    ensures Steady(AfterWait(SetStatus(c, i, s), i))
  {
    var b := SetStatus(c, i, s).(qthsWaked := c.qthsWaked - 1);
    DyingWeights(c, i, s);
    MovedOne(c, b, i);
    assert i !in c.waitq && Formed(b);
    EnsureSound(b);
  }

  /** So with a sleeper that returns, woken or by time-out. */
  lemma ExitFirstSteady(c: Core, i: nat, mayQuit: bool)
    requires i < |c.ths| && c.ths[i].status == Wait && Steady(c)
    ensures c.ths[i].waked ==> Steady(FreeStatusFirst(c, i))
    ensures Steady(TimedoutStatusFirst(c, i, mayQuit))
  {
    if c.ths[i].rm {
      DyingFirstSteady(c, i, Free);
      DyingFirstSteady(c, i, Timedout);
    } else {
      TimedoutSteady(c, i, mayQuit);
      assert TimedoutStatusFirst(c, i, mayQuit) == ToTimedout(c, i, mayQuit);
      if c.ths[i].waked {
        FreeSteady(c, i);
        assert FreeStatusFirst(c, i) == ToFree(c, i);
      }
    }
  }

  /** A thread that is not marked quits of its own accord only when enough others sleep. */
  predicate MayQuit(c: Core, i: nat)
    requires i < |c.ths|
  {
    c.ths[i].rm || c.sleeping >= c.minthreads
  }

  lemma ForceQuitSteady(c: Core, i: nat)
    requires i < |c.ths| && Awake(c.ths[i]) && Steady(c) && MayQuit(c, i)
    ensures Steady(ToForceQuit(c, i))
  {
    ForceQuitKeepsCounts(c, i);
    CountersBalance(c);
    if !c.ths[i].rm {
      CountMember(c.ths, i, RealFree);
      assert Drift(c, RealFree) == 0;
    }
  }

  lemma ResumeCoreSteady(c: Core)
    requires Steady(c)
    ensures Steady(ResumeCore(c))
  {
    WorkWrite(c, c.(paused := false));
    EnsureSteady(c.(paused := false));
  }

  lemma AdjustSteady(p: Pool, maxthreads: int, minthreads: int)
    requires Shaped(p) && Steady(p.core) && 0 <= minthreads <= maxthreads
    ensures Steady(Adjust(p, maxthreads, minthreads).core)
  {
    var p0 := p.(core := p.core.(maxthreads := maxthreads, minthreads := minthreads));
    UpdateAllCore(p0, 0);
    var c := UpdateAllFrom(p0, 0).core;
    assert Sound(c) by {
      forall k | IsCounter(k) ensures Drift(c, k) == 0 { assert Drift(p.core, k) == 0; }
    }
    AdjustBounds(c);
  }

  lemma {:induction false} UpdateAllCore(p: Pool, g: nat)
    requires Shaped(p) && g <= |p.entries|
    ensures var r := UpdateAllFrom(p, g); r.core == p.core.(pendings := r.core.pendings)
    decreases |p.entries| - g
  {
    if g < |p.entries| {
      var e := p.entries[g];
      UpdateAllCore(if e.free then p else SetAttr(p, g, e.parallel, e.benefits), g + 1);
    }
  }
}
