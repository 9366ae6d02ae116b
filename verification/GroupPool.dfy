/**
 The group pool as the source has it: an object that updates its entries, its active table and
 the thread manager in place, proved against the functions of GroupModel.
 */
module GroupPool {
  import opened Types
  import opened PriorityOrder
  import opened PriorityQueue
  import opened ThreadModel
  import opened ThreadPool
  import opened ActivePrefix
  import opened ActiveTable
  import opened GroupModel

  /** What cpool_gp_core_gettask comes to; `Forever` is a scan that repeats with the lock held. */
  datatype Taken = NoTask | ATask | Forever

  class Groups {
    const core: ThreadCore
    const table: Table
    const tailFirst: bool
    var entries: seq<Entry>
    var npendings: int
    var ndispatchings: int
    var ntraces: int
    var seqno: nat
    var throttled: bool
    var stat: map<nat, Stat>
    var removing: seq<Task>

    ghost function View(): Pool
      reads this, core, table, table.act, table.index, table.active
    {
      Pool(core.View(), entries, table.View(), npendings, ndispatchings, ntraces, seqno, throttled, stat, removing,
        tailFirst)
    }

    ghost predicate Valid()
      reads this, core, table, table.act, table.index, table.active
    {
      core.Valid() && table.Valid() && |entries| == table.act.Length
    }

    constructor (core: ThreadCore, tailFirst: bool)
      requires core.Valid()
      ensures Valid() && this.core == core
      ensures View() == Pool(core.View(), [], Prefix([], [], [], 0, 0), 0, 0, 0, 0, false, map[], [], tailFirst)
    {
      this.core := core;
      this.tailFirst := tailFirst;
      table := new Table();
      entries, npendings, ndispatchings, ntraces, seqno, throttled, stat, removing := [], 0, 0, 0, 0, false, map[], [];
    }

    // ---- queueing ----

    /** __cpool_gp_task_pri_queuel */
    method PriQueue(g: nat, t: Task)
      requires Valid() && g < |entries|
      modifies this`seqno, this`stat, this`entries
      ensures Valid() && View() == GroupModel.PriQueue(old(View()), g, t)
    {
      var e := InsertTask(entries[g], t.(seqno := seqno + 1));
      StoreQueued(g, e, t.id);
    }

    method StoreQueued(g: nat, e: Entry, id: nat)
      requires Valid() && g < |entries|
      modifies this`seqno, this`stat, this`entries
      ensures Valid()
      ensures View() == old(View()).(entries := old(entries)[g := e], seqno := old(seqno) + 1,
        stat := old(stat)[id := Stat(Waiting, false)])
    {
      seqno := seqno + 1;
      stat := stat[id := Stat(Waiting, false)];
      entries := entries[g := e];
    }

    /** The insertion into the band of the task; PriorityContainer does it on the queues themselves. */
    method InsertTask(e: Entry, u: Task) returns (f: Entry)
      ensures f == Inserted(e, u, tailFirst)
    {
      var k := Locate(e.avg, u.pri);
      var tasks := Within(e.avg, e.queue, k);
      var band := InsertOne(tasks, u, FirstCompared(tasks, tailFirst));
      var q := Above(e.avg, e.queue, k) + band + Below(e.avg, e.queue, k);
      f := e.(queue := q, top := q[0], npendings := e.npendings + 1);
    }

    /** One more task is startable: see to it that some thread serves it. */
    method CountStartable()
      requires core.Valid()
      modifies core
      ensures core.Valid() && core.View() == Served(AddCore(old(core.View()), 1))
    {
      core.pendings := core.pendings + 1;
      var need := core.NeedEnsureServices();
      if need && !core.paused { core.EnsureServices(); }
    }

    /** __cpool_gp_entry_consumer_notifyl */
    method ConsumerNotify(g: nat)
      requires Valid() && g < |entries|
      modifies this, core, table`activeIdx, table`nactives, table.act, table.index, table.active
      ensures Valid() && View() == Notify(old(View()), g)
    {
      npendings := npendings + 1;
      var e := entries[g];
      if e.benefits || (e.nrunnings + e.eff < e.limit && npendings > e.eff) {
        CountStartable();
        if !e.benefits { entries := entries[g := e.(eff := e.eff + 1)]; }
      }
      if e.npendings == 1 { table.Activate(g); }
    }

    method Deliver(g: nat, t: Task)
      requires Valid() && g < |entries|
      modifies this, core, table`activeIdx, table`nactives, table.act, table.index, table.active
      ensures Valid() && View() == GroupModel.Deliver(old(View()), g, t)
    {
      PriQueue(g, t);
      if !entries[g].paused { ConsumerNotify(g); }
    }

    method TraceTask(g: nat)
      requires Valid() && g < |entries|
      modifies this
      ensures Valid() && View() == Trace(old(View()), g)
    {
      ntraces := ntraces + 1;
      entries := entries[g := entries[g].(ntraces := entries[g].ntraces + 1)];
    }

    /** cpool_gp_task_queue */
    method QueueTask(t: Task) returns (e: Error)
      requires Valid()
      modifies this, core, table`activeIdx, table`nactives, table.act, table.index, table.active
      ensures Valid() && View() == GroupModel.QueueTask(old(View()), t).0 && e == GroupModel.QueueTask(old(View()), t).1
    {
      if t.gid >= |entries| { return GroupNotFound; }
      if t.id in stat && (stat[t.id].place == Waiting || stat[t.id].again) { return Ok; }
      if throttled { return PoolThrottled; }
      var entry := entries[t.gid];
      if entry.free || entry.destroying { return GroupNotFound; }
      if entry.throttled { return GroupThrottled; }
      if t.id !in stat {
        TraceTask(t.gid);
        Deliver(t.gid, t);
      } else {
        stat := stat[t.id := stat[t.id].(again := true)];
      }
      e := Ok;
    }

    // ---- taking ----

    /** One scan of the cached tops of the active prefix. */
    method ScanTops(benefits: bool) returns (best: Option<nat>)
      requires Valid()
      ensures best == Scan(View(), benefits)
    {
      best := None;
      var idx := 0;
      while idx < table.activeIdx && idx < table.act.Length
        invariant 0 <= idx && (best.Some? ==> best.value < |entries|)
        invariant ScanFrom(View(), idx, benefits, best) == Scan(View(), benefits)
        decreases table.act.Length - idx
      {
        var g := table.act[idx];
        var e := entries[g];
        if e.npendings != 0 && (e.nrunnings < e.limit || (benefits && e.benefits)) {
          if best == None {
            best := Some(g);
          } else {
            var x, y := e.top, entries[best.value].top;
            if x.pri == y.pri {
              if x.seqno > y.seqno {
                if x.policy == Top { best := Some(g); }
              } else if y.policy == Back {
                best := Some(g);
              }
            } else if x.pri > y.pri {
              best := Some(g);
            }
          }
        }
        idx := idx + 1;
      }
    }

    /** The rounds of __cpool_gp_get_pending_task: with a free slot first, by benefits if that finds none. */
    method Select() returns (best: Option<nat>)
      requires Valid()
      ensures best == Choose(View())
    {
      best := ScanTops(false);
      if best == None && core.pendings != 0 { best := ScanTops(true); }
    }

    /** Its bookkeeping: the entry, */
    method PopEntry(g: nat) returns (emptied: bool)
      requires Valid() && g < |entries|
      modifies this`entries
      ensures Valid() && entries == old(entries)[g := Popped(old(entries)[g])]
      ensures emptied == (Popped(old(entries)[g]).queue == [])
    {
      var e := entries[g];
      var q := if e.queue == [] then [] else e.queue[1..];
      emptied := q == [];
      if emptied {
        entries := entries[g := e.(queue := q, npendings := 0, eff := if e.benefits then e.eff else 0)];
      } else {
        entries := entries[g := e.(queue := q, top := q[0], npendings := e.npendings - 1,
                                   eff := if e.benefits then e.eff else e.eff - 1)];
      }
    }

    /** then the sums and the active table. */
    method Pop(g: nat)
      requires Valid() && g < |entries|
      modifies this, core, table`activeIdx, table`nactives, table.act, table.index, table.active
      ensures Valid() && View() == PopFrom(old(View()), g)
    {
      var emptied := PopEntry(g);
      core.pendings := core.pendings - 1;
      npendings := npendings - 1;
      if emptied { table.Inactivate(g, entries[g].paused); }
    }

    method Take(g: nat)
      requires Valid() && g < |entries|
      modifies this, core, table`activeIdx, table`nactives, table.act, table.index, table.active
      ensures Valid() && View() == TakeFrom(old(View()), g)
    {
      var t := entries[g].top;
      Pop(g);
      stat := stat[t.id := Stat(Scheduling, false)];
      entries := entries[g := entries[g].(nrunnings := entries[g].nrunnings + 1)];
    }

    /** A thread that holds work changes its status to RUN. */
    method RunThread(i: nat)
      requires Valid() && i < |core.ths| && Awake(core.ths[i])
      modifies core
      ensures Valid() && core.View() == ToRun(old(core.View()), i)
    {
      StatusChangedCases(core.View(), i, false);
      core.ChangeStatus(i, Run, false);
    }

    /** __cpool_com_get_dispatch_taskl3 and what follows it */
    method TakeDispatched(i: nat)
      requires Valid() && i < |core.ths| && Awake(core.ths[i])
      modifies this, core
      ensures Valid() && View() == TakeBatch(old(View()), i)
    {
      var n := Min(BATCH, |core.dispatchs|);
      core.ths := core.ths[i := core.ths[i].(batch := core.dispatchs[..n])];
      core.dispatchs := core.dispatchs[n..];
      ndispatchings := ndispatchings + n;
      RunThread(i);
    }

    method StartTask(i: nat, t: Task)
      requires Valid() && i < |core.ths| && Awake(core.ths[i])
      modifies core
      ensures Valid() && View() == Start(old(View()), i, t)
    {
      core.ths := core.ths[i := core.ths[i].(current := Some(t))];
      RunThread(i);
    }

    /** cpool_gp_core_gettask */
    method GetTask(i: nat) returns (r: Taken)
      requires Valid() && i < |core.ths| && Awake(core.ths[i])
      modifies this, core, table`activeIdx, table`nactives, table.act, table.index, table.active
      ensures Valid()
      ensures match GroupModel.GetTask(old(View()), i)
              case Nothing => r == NoTask && View() == old(View())
              case Took(q) => r == ATask && View() == q
              case Spins => r == Forever && View() == old(View())
    {
      if core.dispatchs != [] {
        TakeDispatched(i);
        return ATask;
      }
      if core.paused || core.pendings == 0 { return NoTask; }
      var g := Select();
      if g == None { return Forever; }
      var t := entries[g.value].top;
      Take(g.value);
      StartTask(i, t);
      r := ATask;
    }

    // ---- completing ----

    /** cpool_gp_core_finished for a task of its own: the slot is given up. */
    method GiveUpSlot(i: nat, g: nat)
      requires Valid() && i < |core.ths| && g < |entries|
      modifies this`entries, core
      ensures Valid() && View() == GiveSlot(old(View()), i, g)
    {
      core.ths := core.ths[i := core.ths[i].(current := None)];
      var e := entries[g].(nrunnings := entries[g].nrunnings - 1);
      if !e.benefits && !e.paused && e.eff + e.nrunnings < e.limit && e.eff < e.npendings {
        core.pendings := core.pendings + 1;
        e := e.(eff := e.eff + 1);
      }
      entries := entries[g := e];
    }

    /** For a dispatched one: its place in the batch. */
    method GiveUpBatch(i: nat, g: nat)
      requires Valid() && i < |core.ths| && g < |entries| && core.ths[i].batch != []
      modifies this`entries, this`ndispatchings, core
      ensures Valid() && View() == GiveBatch(old(View()), i, g)
    {
      core.ths := core.ths[i := core.ths[i].(batch := core.ths[i].batch[1..])];
      entries := entries[g := entries[g].(ndispatchings := entries[g].ndispatchings - 1)];
      ndispatchings := ndispatchings - 1;
    }

    method UntraceTask(g: nat, id: nat)
      requires Valid() && g < |entries|
      modifies this
      ensures Valid() && View() == Untrace(old(View()), g, id)
    {
      ntraces := ntraces - 1;
      var e := entries[g];
      entries := entries[g := e.(ntraces := e.ntraces - 1, nprocessed := e.nprocessed + 1)];
      stat := map k | k in stat && k != id :: stat[k];
    }

    method CompleteThread(i: nat)
      requires Valid() && i < |core.ths| && core.ths[i].status == Run
      modifies core
      ensures Valid() && View() == CompleteIfIdle(old(View()), i)
    {
      if core.ths[i].batch == [] {
        StatusChangedCases(core.View(), i, false);
        core.ChangeStatus(i, Complete, false);
      }
    }

    method ReleaseJob(i: nat, g: nat)
      requires Valid() && i < |core.ths| && g < |entries|
      modifies this`entries, this`ndispatchings, core
      ensures Valid() && View() == Release(old(View()), i, g)
    {
      if core.ths[i].batch == [] { GiveUpSlot(i, g); } else { GiveUpBatch(i, g); }
    }

    /** cpool_gp_core_finished; with `detached`, cpool_gp_task_detach */
    method Finished(i: nat, detached: bool)
      requires Valid() && i < |core.ths| && core.ths[i].status == Run
      requires Job(core.ths[i]).Some? && Job(core.ths[i]).value.gid < |entries|
      modifies this, core, table`activeIdx, table`nactives, table.act, table.index, table.active
      ensures Valid() && View() == Finish(old(View()), i, detached)
    {
      var t := Job(core.ths[i]).value;
      var reschedule := !detached && t.id in stat && stat[t.id].again;
      ReleaseJob(i, t.gid);
      if reschedule { Reschedule(i, t); } else { Retire(i, t); }
    }

    method Reschedule(i: nat, t: Task)
      requires Valid() && i < |core.ths| && core.ths[i].status == Run && t.gid < |entries|
      modifies this, core, table`activeIdx, table`nactives, table.act, table.index, table.active
      ensures Valid() && View() == GroupModel.Deliver(CompleteIfIdle(old(View()), i), t.gid, NiceAdjust(t))
    {
      CompleteThread(i);
      Deliver(t.gid, NiceAdjust(t));
    }

    method Retire(i: nat, t: Task)
      requires Valid() && i < |core.ths| && core.ths[i].status == Run && t.gid < |entries|
      modifies this, core
      ensures Valid() && View() == CompleteIfIdle(Untrace(old(View()), t.gid, t.id), i)
    {
      UntraceTask(t.gid, t.id);
      CompleteThread(i);
    }

    /** One round of __cpool_gp_task_dispatcher, after the handler of `t`. */
    method HandlerDone(t: Task, detached: bool)
      requires Valid() && t.gid < |entries|
      modifies this, core, table`activeIdx, table`nactives, table.act, table.index, table.active
      ensures Valid() && View() == Dispatched(old(View()), t, detached)
    {
      var again := !detached && t.id in stat && stat[t.id].again;
      ndispatchings := ndispatchings - 1;
      entries := entries[t.gid := entries[t.gid].(ndispatchings := entries[t.gid].ndispatchings - 1)];
      removing := Remove(removing, t);
      if again { Deliver(t.gid, t); } else { UntraceTask(t.gid, t.id); }
    }

    // ---- removing ----

    method DisposeTask(t: Task, byPool: bool)
      requires Valid() && t.gid < |entries|
      modifies this, core
      ensures Valid() && View() == Dispose(old(View()), t, byPool)
    {
      if !t.handler {
        UntraceTask(t.gid, t.id);
        return;
      }
      stat := stat[t.id := Stat(Dispatching, false)];
      entries := entries[t.gid := entries[t.gid].(ndispatchings := entries[t.gid].ndispatchings + 1)];
      if byPool {
        core.dispatchs := core.dispatchs + [t];
      } else {
        removing := removing + [t];
        ndispatchings := ndispatchings + 1;
      }
    }

    method UnqueueTask(t: Task)
      requires Valid() && t.gid < |entries|
      modifies this, core, table`activeIdx, table`nactives, table.act, table.index, table.active
      ensures Valid() && View() == Unqueue(old(View()), t)
    {
      var e := entries[t.gid];
      entries := entries[t.gid := Erased(e, t)];
      if !e.paused {
        npendings := npendings - 1;
        if e.benefits || e.eff > e.npendings - 1 { core.pendings := core.pendings - 1; }
        if e.npendings == 1 { table.Inactivate(t.gid, false); }
      }
    }

    /** cpool_gp_task_remove */
    method RemoveTask(t: Task, byPool: bool) returns (done: bool)
      requires Valid() && t.gid < |entries|
      modifies this, core, table`activeIdx, table`nactives, table.act, table.index, table.active
      ensures Valid() && View() == GroupModel.RemoveTask(old(View()), t, byPool).0
      ensures done == GroupModel.RemoveTask(old(View()), t, byPool).1
    {
      if t.id !in stat { return false; }
      if stat[t.id].place != Waiting { return true; }
      DisposeTask(t, byPool);
      UnqueueTask(t);
      var need := core.NeedEnsureServices();
      if byPool && t.handler && need { core.EnsureServices(); }
      done := true;
    }

    /** What __cpool_gp_entry_mark_cbl0 does to a task it removes. */
    method DiscardTask(t: Task, byPool: bool)
      requires Valid() && t.gid < |entries|
      modifies this, core, table`activeIdx, table`nactives, table.act, table.index, table.active
      ensures Valid() && View() == Discard(old(View()), t, byPool)
    {
      if t.id !in stat { return; }
      if stat[t.id].again {
        stat := stat[t.id := stat[t.id].(again := false)];
      } else if stat[t.id].place == Waiting {
        DisposeTask(t, byPool);
        UnqueueTask(t);
      }
    }

    /** __cpool_gp_entry_mark_cbl for the whole pool, with what its callback decided about each task. */
    method MarkTasks(marks: seq<(Task, bool)>, flagged: bool)
      requires Valid() && MarksInRange(View(), marks)
      modifies this, core, table`activeIdx, table`nactives, table.act, table.index, table.active
      ensures Valid() && View() == MarkPool(old(View()), marks, flagged)
    {
      var k := 0;
      while k < |marks|
        invariant Valid() && 0 <= k <= |marks| && MarksInRange(View(), marks[k..])
        invariant DiscardAll(View(), marks[k..]) == DiscardAll(old(View()), marks)
      {
        assert marks[k..][0] == marks[k] && marks[k..][1..] == marks[k + 1..];
        DiscardTask(marks[k].0, marks[k].1);
        k := k + 1;
      }
      var need := core.NeedEnsureServices();
      if (|marks| > 0 || flagged) && need { core.EnsureServices(); }
    }

    // ---- suspending ----

    /** The pending tasks of a group leave the pool's and the core's sums, or join them again. */
    method ShiftSums(pending: int, startable: int)
      modifies this`npendings, core`pendings
      ensures npendings == old(npendings) + pending && core.View() == AddCore(old(core.View()), startable)
    {
      npendings := npendings + pending;
      core.pendings := core.pendings + startable;
    }

    /** cpool_gp_entry_suspend */
    method SuspendGroup(g: nat)
      requires Valid() && g < |entries|
      modifies this, core, table`activeIdx, table`nactives, table.act, table.index, table.active
      ensures Valid() && View() == Suspend(old(View()), g)
    {
      var e := entries[g];
      if !ValidEntry(e) || e.paused { return; }
      if e.npendings != 0 {
        entries := entries[g := e.(paused := true, eff := if e.benefits then e.eff else 0)];
        ShiftSums(-e.npendings, if e.benefits then -e.npendings else -e.eff);
        table.Inactivate(g, true);
      } else {
        entries := entries[g := e.(paused := true)];
        table.Shrink();
      }
    }

    /** What cpool_gp_entry_resume and cpool_gp_entry_resume_all do to one group. */
    method ResumeEntry(g: nat)
      requires Valid() && g < |entries|
      modifies this, core, table`activeIdx, table`nactives, table.act, table.index, table.active
      ensures Valid() && View() == ResumeQuietly(old(View()), g)
    {
      var e := entries[g];
      if !ValidEntry(e) || !e.paused { return; }
      if e.npendings != 0 {
        var f := e.(paused := false, eff := if e.benefits then e.eff else Min(e.npendings, e.limit));
        entries := entries[g := f];
        ShiftSums(e.npendings, if e.benefits then e.npendings else f.eff);
        table.Activate(g);
      } else {
        entries := entries[g := e.(paused := false)];
      }
    }

    /** cpool_gp_entry_resume */
    method ResumeGroup(g: nat)
      requires Valid() && g < |entries|
      modifies this, core, table`activeIdx, table`nactives, table.act, table.index, table.active
      ensures Valid() && View() == Resume(old(View()), g)
    {
      var e := entries[g];
      ResumeEntry(g);
      var need := core.NeedEnsureServices();
      if ValidEntry(e) && e.paused && e.npendings != 0 && need { core.EnsureServices(); }
    }

    /** cpool_gp_entry_suspend_all, up to its wait */
    method SuspendAllGroups()
      requires Valid()
      modifies this, core, table`activeIdx, table`nactives, table.act, table.index, table.active
      ensures Valid() && View() == SuspendAllFrom(old(View()), 0)
    {
      var g := 0;
      while g < |entries|
        invariant Valid() && 0 <= g <= |entries|
        invariant SuspendAllFrom(View(), g) == SuspendAllFrom(old(View()), 0)
        decreases |entries| - g
      {
        SuspendGroup(g);
        g := g + 1;
      }
    }

    /** cpool_gp_entry_resume_all */
    method ResumeAllGroups()
      requires Valid()
      modifies this, core, table`activeIdx, table`nactives, table.act, table.index, table.active
      ensures Valid() && View() == ResumeAll(old(View()))
    {
      var g := 0;
      while g < |entries|
        invariant Valid() && 0 <= g <= |entries|
        invariant ResumeAllFrom(View(), g) == ResumeAllFrom(old(View()), 0)
        decreases |entries| - g
      {
        ResumeEntry(g);
        g := g + 1;
      }
      var need := core.NeedEnsureServices();
      if need { core.EnsureServices(); }
    }

    // ---- attributes ----

    /** __cpool_gp_entry_set_attrl */
    method SetEntryAttr(g: nat, parallel: int, benefits: bool)
      requires Valid() && g < |entries|
      modifies this`entries, core`pendings
      ensures Valid() && View() == SetAttr(old(View()), g, parallel, benefits)
    {
      var was := entries[g];
      var e := NewAttr(was, core.maxthreads, parallel, benefits);
      if !e.paused && e.npendings != 0 {
        core.pendings := core.pendings - if was.benefits then was.npendings else was.eff;
        if !e.benefits { e := e.(eff := Min(e.limit, e.npendings)); }
        core.pendings := core.pendings + if e.benefits then e.npendings else e.eff;
      }
      entries := entries[g := e];
    }

    /** __cpool_gp_entry_update_all_envl */
    method UpdateAll()
      requires Valid()
      modifies this`entries, core`pendings
      ensures Valid() && View() == UpdateAllFrom(old(View()), 0)
    {
      var g := 0;
      while g < |entries|
        invariant Valid() && 0 <= g <= |entries|
        invariant UpdateAllFrom(View(), g) == UpdateAllFrom(old(View()), 0)
        decreases |entries| - g
      {
        if !entries[g].free { SetEntryAttr(g, entries[g].parallel, entries[g].benefits); }
        g := g + 1;
      }
    }

    /** cpool_com_adjust_abs */
    method AdjustBounds(maxthreads: int, minthreads: int)
      requires Valid()
      modifies this, core
      ensures Valid() && View() == Adjust(old(View()), maxthreads, minthreads)
    {
      core.maxthreads := maxthreads;
      core.minthreads := minthreads;
      UpdateAll();
      core.AdjustAbs();
    }

    // ---- groups ----

    /** cpool_gp_entry_create with no slot free: the arrays grow. */
    method GrowSlots()
      requires Valid()
      modifies this`entries, table
      ensures Valid() && View() == GrowPool(old(View()))
      ensures fresh(table.act) && fresh(table.index) && fresh(table.active)
    {
      table.Grow(GROWTH);
      entries := entries + [FREESLOT, FREESLOT, FREESLOT];
    }

    /** cpool_gp_entry_create in the free slot `g` */
    method OccupySlot(g: nat, priqNum: nat, suspend: bool)
      requires Valid() && g < |entries| && 1 <= priqNum <= 99
      modifies this`entries, core`pendings
      ensures Valid() && View() == Occupy(old(View()), g, priqNum, suspend)
    {
      entries := entries[g := entries[g].(free := false, paused := suspend, avg := 100 / priqNum, queue := [],
        nprocessed := 0)];
      SetEntryAttr(g, core.maxthreads, true);
    }
  }
}
