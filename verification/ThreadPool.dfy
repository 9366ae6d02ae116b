/**
 The thread manager as the source has it: an object whose fields the operations update in
 place, loop by loop, proved against the functions of ThreadModel.
 */
module ThreadPool {
  import opened Types
  import opened ThreadModel

  class ThreadCore {
    var ths: seq<Thread>
    var waitq: seq<nat>
    var qths: int
    var qthsWait: int
    var qthsWaked: int
    var running: int
    var dying: int
    var dyingRun: int
    var sleeping: int
    var realPool: int
    var realFree: int
    var maxthreads: int
    var minthreads: int
    var perTime: int
    var paused: bool
    var pendings: int
    var dispatchs: seq<Task>

    ghost function View(): Core
      reads this
    {
      Core(ths, waitq, qths, qthsWait, qthsWaked, running, dying, dyingRun, sleeping, realPool, realFree,
           maxthreads, minthreads, perTime, paused, pendings, dispatchs)
    }

    ghost predicate Valid()
      reads this
    {
      WaitqInRange(View())
    }

    /** cpool_core_ctor */
    constructor (maxthreads: int, minthreads: int, perTime: int, paused: bool)
      ensures Valid() && View() == NewCore(maxthreads, minthreads, perTime, paused)
    {
      this.ths, this.waitq := [], [];
      this.qths, this.qthsWait, this.qthsWaked := 0, 0, 0;
      this.running, this.dying, this.dyingRun := 0, 0, 0;
      this.sleeping, this.realPool, this.realFree := 0, 0, 0;
      this.maxthreads := Max(1, maxthreads);
      this.minthreads := Min(Max(0, minthreads), Max(1, maxthreads));
      this.perTime, this.paused, this.pendings, this.dispatchs := perTime, paused, 0, [];
      new;
      AddThreads(this.minthreads);
    }

    method WakeFirst()
      requires Valid() && waitq != []
      modifies this
      ensures Valid() && View() == WakeOne(old(View()))
    {
      var i := waitq[0];
      ths := ths[i := ths[i].(waked := true)];
      waitq := waitq[1..];
      qthsWait := qthsWait - 1;
      qthsWaked := qthsWaked + 1;
    }

    /** cpool_core_wakeup_n_sleeping_threadsl */
    method WakeupSleeping(nwake: int)
      requires Valid()
      modifies this
      ensures Valid() && View() == WakeN(old(View()), nwake)
    {
      var n := nwake;
      while waitq != []
        invariant Valid()
        invariant WakeN(View(), n) == WakeN(old(View()), nwake)
        decreases |waitq|
      {
        WakeFirst();
        n := n - 1;
        if n == 0 { break; }
      }
    }

    method WakeOutOfTurn(i: nat)
      requires Valid() && i < |ths|
      modifies this
      ensures Valid() && View() == Rouse(old(View()), i)
    {
      if !ths[i].waked {
        ths := ths[i := ths[i].(waked := true)];
        qthsWaked := qthsWaked + 1;
        qthsWait := qthsWait - 1;
        waitq := Remove(waitq, i);
      }
    }

    /** The body of the reusing scan of cpool_core_add_threadsl. */
    method TakeBack(i: nat)
      requires Valid() && i < |ths|
      modifies this
      ensures Valid() && View() == ReuseOne(old(View()), i)
    {
      var status := ths[i].status;
      ths := ths[i := ths[i].(run := true, rm := false)];
      realPool, dying := realPool + 1, dying - 1;
      match status {
        case Wait =>
          sleeping := sleeping + 1;
          WakeOutOfTurn(i);
        case Run => dyingRun := dyingRun - 1;
        case ForceQuit =>
          ths, realFree := ths[i := ths[i].(status := Free)], realFree + 1;
        case _ => realFree := realFree + 1;
      }
    }

    /** The first loop of cpool_core_add_threadsl: dying threads are reused. */
    method ReuseDying(nthreads: int) returns (n: int)
      requires Valid()
      modifies this
      ensures Valid() && (View(), n) == Reuse(old(View()), 0, nthreads)
    {
      n := nthreads;
      var i := 0;
      while i < |ths| && n > 0 && dying != 0
        invariant Valid() && i <= |ths|
        invariant Reuse(View(), i, n) == Reuse(old(View()), 0, nthreads)
        decreases |ths| - i
      {
        if ths[i].status != Left && ths[i].rm {
          TakeBack(i);
          n := n - 1;
        }
        i := i + 1;
      }
    }

    /** Its second loop: the rest are created. */
    method CreateThreads(nthreads: int)
      requires Valid()
      modifies this
      ensures Valid() && View() == Create(old(View()), nthreads)
    {
      var n := nthreads;
      while n > 0
        invariant Valid()
        invariant Create(View(), n) == Create(old(View()), nthreads)
      {
        ths := ths + [NEWBORN];
        qths := qths + 1;
        realFree := realFree + 1;
        realPool := realPool + 1;
        n := n - 1;
      }
    }

    /** cpool_core_add_threadsl */
    method AddThreads(nthreads: int)
      requires Valid()
      modifies this
      ensures Valid() && View() == ThreadModel.AddThreads(old(View()), nthreads)
    {
      var n := ReuseDying(nthreads);
      CreateThreads(n);
    }

    /** cpool_core_ensure_servicesl */
    method EnsureServices()
      requires Valid()
      modifies this
      ensures Valid() && View() == Ensure(old(View()))
    {
      var tasks := if paused then 0 else pendings;
      if qthsWaked != 0 || realFree != 0 || (dispatchs == [] && tasks == 0) { return; }
      if waitq != [] {
        WakeupSleeping(Min(2, perTime));
        return;
      }
      if maxthreads > realPool {
        var n := maxthreads - realPool;
        if dispatchs != [] { tasks := tasks + 1; }
        if n > perTime { n := perTime; }
        if n > tasks { n := tasks; }
        AddThreads(n);
      }
    }

    method NeedEnsureServices() returns (need: bool)
      ensures need == NeedEnsure(View())
    {
      need := realFree == 0 && qthsWaked == 0 && (maxthreads != realPool || qthsWait != 0);
    }

    /** The body of the marking scan of cpool_core_dec_threadsl. */
    method MarkDying(i: nat)
      requires Valid() && i < |ths|
      modifies this
      ensures Valid() && View() == MarkOne(old(View()), i)
    {
      var status := ths[i].status;
      ths := ths[i := ths[i].(run := false, rm := true)];
      realPool, dying := realPool - 1, dying + 1;
      match status {
        case Wait =>
          sleeping := sleeping - 1;
          WakeOutOfTurn(i);
        case Run => dyingRun := dyingRun + 1;
        case _ => realFree := realFree - 1;
      }
    }

    /** cpool_core_dec_threadsl */
    method DecThreads(nthreads: int) returns (died: nat)
      requires Valid()
      modifies this
      ensures Valid() && (View(), died) == ThreadModel.DecThreads(old(View()), nthreads)
    {
      died := 0;
      if nthreads <= 0 || realPool == 0 { return; }
      var n := Min(realPool, nthreads);
      var others := realPool - (running - dyingRun);
      var r := if others < n then n - others else 0;
      ghost var want := Mark(View(), 0, n, r, 0);
      var i := 0;
      while i < |ths|
        invariant Valid() && i <= |ths|
        invariant Mark(View(), i, n, r, died) == want
        decreases |ths| - i
      {
        var t := ths[i];
        if t.status != Left && !t.rm {
          if t.status != Run {
            MarkDying(i);
            died := died + 1;
            n := n - 1;
            if n == 0 && r == 0 { break; }
          } else if r != 0 {
            MarkDying(i);
            died := died + 1;
            r := r - 1;
            if n == 0 && r == 0 { break; }
          } else if n == 0 {
            break;
          }
        }
        i := i + 1;
      }
    }

    method EnterWait(i: nat)
      requires Valid() && i < |ths|
      modifies this
      ensures Valid() && View() == BeforeWait(old(View()), i)
    {
      if !ths[i].rm { realFree := realFree - 1; sleeping := sleeping + 1; }
      ths := ths[i := ths[i].(waked := false)];
      waitq := [i] + waitq;
      qthsWait := qthsWait + 1;
    }

    method EnterTimedout(i: nat, mayQuit: bool)
      requires Valid() && i < |ths|
      modifies this
      ensures Valid() && View() == BeforeTimedout(old(View()), i, mayQuit)
    {
      if !ths[i].waked { waitq := Remove(waitq, i); qthsWait := qthsWait - 1; }
      if !ths[i].rm && mayQuit && realPool > minthreads && dispatchs == [] && (pendings == 0 || paused) {
        ths := ths[i := ths[i].(rm := true)];
        dying := dying + 1;
        realPool := realPool - 1;
      }
    }

    method EnterForceQuit(i: nat)
      requires Valid() && i < |ths|
      modifies this
      ensures Valid() && View() == BeforeForceQuit(old(View()), i)
    {
      if !ths[i].rm {
        ths := ths[i := ths[i].(rm := true, run := false)];
        dying := dying + 1;
        realPool := realPool - 1;
        realFree := realFree - 1;
      }
    }

    method EnterRun(i: nat)
      requires Valid() && i < |ths|
      modifies this
      ensures Valid() && View() == ServiceCheck(BeforeRun(old(View()), i))
    {
      running := running + 1;
      if !ths[i].rm { realFree := realFree - 1; } else { dyingRun := dyingRun + 1; }
      if realFree == 0 && qthsWaked == 0 && pendings != 0 { EnsureServices(); }
    }

    method EnterComplete(i: nat)
      requires Valid() && i < |ths|
      modifies this
      ensures Valid() && View() == BeforeComplete(old(View()), i)
    {
      running := running - 1;
      if ths[i].rm { dyingRun := dyingRun - 1; } else { realFree := realFree + 1; }
    }

    method EnterLeave(i: nat)
      requires Valid() && i < |ths|
      modifies this
      ensures Valid() && View() == BeforeLeave(old(View()), i)
    {
      qths := qths - 1;
      if ths[i].rm { dying := dying - 1; }
    }

    /** The switch on the new status. */
    method EnterStatus(i: nat, status: Status, mayQuit: bool)
      requires Valid() && i < |ths|
      modifies this
      ensures Valid() && View() == Entered(old(View()), i, status, mayQuit)
    {
      match status {
        case Wait => EnterWait(i);
        case Timedout => EnterTimedout(i, mayQuit);
        case ForceQuit => EnterForceQuit(i);
        case Run => EnterRun(i);
        case Complete => EnterComplete(i);
        case Left => EnterLeave(i);
        case _ =>
      }
    }

    /** The check of the previous status, for a thread that was waiting. */
    method LeaveWait(i: nat)
      requires Valid() && i < |ths|
      modifies this
      ensures Valid() && View() == AfterWait(old(View()), i)
    {
      if ths[i].waked { qthsWaked := qthsWaked - 1; }
      if ths[i].rm && !ths[i].run {
        if realFree == 0 && qthsWaked == 0 && pendings != 0 { EnsureServices(); }
      } else {
        sleeping := sleeping - 1;
        if ths[i].rm { ths := ths[i := ths[i].(run := false)]; } else { realFree := realFree + 1; }
      }
    }

    /** cpool_core_thread_status_changel */
    method ChangeStatus(i: nat, status: Status, mayQuit: bool)
      requires Valid() && i < |ths|
      modifies this
      ensures Valid() && View() == StatusChanged(old(View()), i, status, mayQuit)
    {
      var was := ths[i].status;
      EnterStatus(i, status, mayQuit);
      if was == Wait { LeaveWait(i); }
      ths := ths[i := ths[i].(status := status)];
    }

    /** cpool_core_adjust_abs_l, once the bounds are stored and the groups told. */
    method AdjustAbs()
      requires Valid()
      modifies this
      ensures Valid() && View() == ThreadModel.AdjustAbs(old(View()))
    {
      if minthreads > realPool {
        AddThreads(minthreads - realPool);
      } else if realPool > maxthreads {
        var _ := DecThreads(realPool - maxthreads);
      } else {
        WakeupSleeping(-1);
      }
    }

    /** cpool_com_flush */
    method Flush() returns (died: nat)
      requires Valid()
      modifies this
      ensures Valid() && View() == ThreadModel.Flush(old(View()))
    {
      died := DecThreads(realPool - minthreads);
    }

    /** cpool_core_try_GC */
    method TryGC(flushable: bool)
      requires Valid()
      modifies this
      ensures Valid() && View() == ThreadModel.TryGC(old(View()), flushable)
    {
      if realFree == 0 && running == dyingRun && flushable {
        if sleeping != 0 { WakeupSleeping(1); } else { AddThreads(1); }
      }
    }

    method Suspend()
      modifies this
      ensures View() == SuspendCore(old(View()))
    {
      if !paused { paused := true; }
    }

    method Resume()
      requires Valid()
      modifies this
      ensures Valid() && View() == ResumeCore(old(View()))
    {
      if paused {
        paused := false;
        if pendings != 0 { EnsureServices(); }
      }
    }
  }

  /** The cases of the switch, by the new status. */
  function Entered(c: Core, i: nat, status: Status, mayQuit: bool): (r: Core)
    requires WaitqInRange(c) && i < |c.ths|
    ensures WaitqInRange(r) && |r.ths| >= |c.ths|
  {
    match status
    case Wait => BeforeWait(c, i)
    case Timedout => BeforeTimedout(c, i, mayQuit)
    case ForceQuit => BeforeForceQuit(c, i)
    case Run => ServiceCheck(BeforeRun(c, i))
    case Complete => BeforeComplete(c, i)
    case Left => BeforeLeave(c, i)
    case _ => c
  }

  /** A status change: the switch, the check of the previous status, the write. */
  function StatusChanged(c: Core, i: nat, status: Status, mayQuit: bool): Core
    requires WaitqInRange(c) && i < |c.ths|
  {
    var c1 := Entered(c, i, status, mayQuit);
    SetStatus(if c.ths[i].status == Wait then AfterWait(c1, i) else c1, i, status)
  }

  /** For the status changes that threads make, it is the function of that change. */
  lemma StatusChangedCases(c: Core, i: nat, mayQuit: bool)
    requires WaitqInRange(c) && i < |c.ths|
    ensures c.ths[i].status == Init ==> StatusChanged(c, i, Join, mayQuit) == ToJoin(c, i)
    ensures Awake(c.ths[i]) ==>
      && StatusChanged(c, i, Wait, mayQuit) == ToWait(c, i)
      && StatusChanged(c, i, Run, mayQuit) == ToRun(c, i)
      && StatusChanged(c, i, ForceQuit, mayQuit) == ToForceQuit(c, i)
    ensures c.ths[i].status == Run ==> StatusChanged(c, i, Complete, mayQuit) == ToComplete(c, i)
    ensures c.ths[i].status == Wait ==>
      && StatusChanged(c, i, Free, mayQuit) == ToFree(c, i)
      && StatusChanged(c, i, Timedout, mayQuit) == ToTimedout(c, i, mayQuit)
    ensures c.ths[i].status != Wait ==> StatusChanged(c, i, Left, mayQuit) == ToLeave(c, i)
  {
    if c.ths[i].status != Wait { ChangedAwake(c, i, mayQuit); } else { ChangedWaiting(c, i, mayQuit); }
  }

  lemma ChangedAwake(c: Core, i: nat, mayQuit: bool)
    requires WaitqInRange(c) && i < |c.ths| && c.ths[i].status != Wait
    ensures StatusChanged(c, i, Join, mayQuit) == ToJoin(c, i) && StatusChanged(c, i, Wait, mayQuit) == ToWait(c, i)
    ensures StatusChanged(c, i, Run, mayQuit) == ToRun(c, i)
    ensures StatusChanged(c, i, ForceQuit, mayQuit) == ToForceQuit(c, i)
    ensures StatusChanged(c, i, Complete, mayQuit) == ToComplete(c, i)
    ensures StatusChanged(c, i, Left, mayQuit) == ToLeave(c, i)
  {
    ChangedPlainly(c, i, Join, mayQuit);
    ChangedPlainly(c, i, Wait, mayQuit);
    ChangedPlainly(c, i, Run, mayQuit);
    ChangedPlainly(c, i, ForceQuit, mayQuit);
    ChangedPlainly(c, i, Complete, mayQuit);
    ChangedPlainly(c, i, Left, mayQuit);
  }

  lemma ChangedPlainly(c: Core, i: nat, status: Status, mayQuit: bool)
    requires WaitqInRange(c) && i < |c.ths| && c.ths[i].status != Wait
    ensures StatusChanged(c, i, status, mayQuit) == SetStatus(Entered(c, i, status, mayQuit), i, status)
  {
  }

  lemma ChangedWaiting(c: Core, i: nat, mayQuit: bool)
    requires WaitqInRange(c) && i < |c.ths| && c.ths[i].status == Wait
    ensures StatusChanged(c, i, Free, mayQuit) == ToFree(c, i)
    ensures StatusChanged(c, i, Timedout, mayQuit) == ToTimedout(c, i, mayQuit)
  {
    var c1 := BeforeTimedout(c, i, mayQuit);
    assert Entered(c, i, Timedout, mayQuit) == c1 && Entered(c, i, Free, mayQuit) == c;
  }
}
