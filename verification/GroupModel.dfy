/**
 The group pool: its entries, their counters, the sums the pool and the core keep, and every
 operation that changes them.  Each function is one critical section, with the source's
 branches in the source's order.
 */
module GroupModel {
  import opened Types
  import opened PriorityOrder
  import opened PriorityQueue
  import opened ThreadModel
  import opened ActivePrefix

  /** The width of a priority band. */
  type Pos = x: nat | x > 0 witness 1

  /** ctask_entry_t.  `queue` is the flat view of the entry's priority container. */
  datatype Entry = Entry(
    free: bool, destroying: bool, throttled: bool, paused: bool,
    avg: Pos, queue: seq<Task>, top: Task,
    limit: int, parallel: int, benefits: bool,
    npendings: int, eff: int, nrunnings: int, ndispatchings: int, ntraces: int, nprocessed: int)

  /** Where a task is (its f_stat), and whether it was queued again meanwhile (WPENDING). */
  datatype Place = Waiting | Scheduling | Dispatching

  datatype Stat = Stat(place: Place, again: bool)

  /** cpool_gp_t.  `removing` holds the removed tasks whose remover calls their handlers itself;
      `tailFirst` is false for insertion as the source has it, true as its comment intends it. */
  datatype Pool = Pool(
    core: Core, entries: seq<Entry>, pre: Prefix,
    npendings: int, ndispatchings: int, ntraces: int,
    seqno: nat, throttled: bool,
    stat: map<nat, Stat>, removing: seq<Task>,
    tailFirst: bool)

  const NOTASK := Task(0, 0, 0, Back, true, false, false, 0)

  /** gpool->n: how many removed tasks one thread takes at a time. */
  const BATCH := 4

  ghost predicate Shaped(p: Pool) { WaitqInRange(p.core) && InRange(p.pre) && |p.pre.act| == |p.entries| }

  predicate ValidEntry(e: Entry) { !e.free && !e.destroying }

  function SetEntry(p: Pool, g: nat, e: Entry): (r: Pool)
    requires g < |p.entries|
    ensures Shaped(p) ==> Shaped(r)
  {
    p.(entries := p.entries[g := e])
  }

  function AddCore(c: Core, d: int): Core { c.(pendings := c.pendings + d) }

  // ---- queueing ----

  /** __cpool_com_task_nice_adjust */
  function NiceAdjust(t: Task): Task
  {
    if t.once then t.(push := true, once := false, pri := 0, policy := Back) else t
  }

  /** The entry once __cpool_gp_task_pri_queuel has inserted `u`. */
  function Inserted(e: Entry, u: Task, tail: bool): Entry
  {
    FlatInsertMultiset(e.avg, e.queue, u, tail);
    var q := FlatInsert(e.avg, e.queue, u, tail);
    e.(queue := q, top := q[0], npendings := e.npendings + 1)
  }

  /** __cpool_gp_task_pri_queuel */
  function PriQueue(p: Pool, g: nat, t: Task): (r: Pool)
    requires Shaped(p) && g < |p.entries|
    ensures Shaped(r) && |r.entries| == |p.entries|
  {
    p.(entries := p.entries[g := Inserted(p.entries[g], t.(seqno := p.seqno + 1), p.tailFirst)],
       seqno := p.seqno + 1, stat := p.stat[t.id := Stat(Waiting, false)])
  }

  /** The condition under which one more pending task is startable now. */
  predicate HasRoom(e: Entry) { e.nrunnings + e.eff < e.limit }

  /** One more task is startable, now that the pool has `npendings` pending. */
  predicate Starts(e: Entry, npendings: int) { e.benefits || (HasRoom(e) && npendings > e.eff) }

  function Served(c: Core): (r: Core)
    requires WaitqInRange(c)
    ensures WaitqInRange(r) && |r.ths| >= |c.ths|
  {
    if NeedEnsure(c) && !c.paused then Ensure(c) else c
  }

  /** __cpool_gp_entry_consumer_notifyl */
  function Notify(p: Pool, g: nat): (r: Pool)
    requires Shaped(p) && g < |p.entries|
    ensures Shaped(r) && |r.entries| == |p.entries|
  {
    var e := p.entries[g];
    var starts := Starts(e, p.npendings + 1);
    p.(npendings := p.npendings + 1,
       core := if starts then Served(AddCore(p.core, 1)) else p.core,
       entries := p.entries[g := if starts && !e.benefits then e.(eff := e.eff + 1) else e],
       pre := if e.npendings == 1 then Activate(p.pre, g) else p.pre)
  }

  /** Requeue or queue in a group that may be paused. */
  function Deliver(p: Pool, g: nat, t: Task): (r: Pool)
    requires Shaped(p) && g < |p.entries|
    ensures Shaped(r) && |r.entries| == |p.entries|
  {
    var p1 := PriQueue(p, g, t);
    if p1.entries[g].paused then p1 else Notify(p1, g)
  }

  /** A new task joins the trace queue of its group. */
  function Trace(p: Pool, g: nat): (r: Pool)
    requires Shaped(p) && g < |p.entries|
    ensures Shaped(r) && |r.entries| == |p.entries|
  {
    p.(entries := p.entries[g := p.entries[g].(ntraces := p.entries[g].ntraces + 1)], ntraces := p.ntraces + 1)
  }

  datatype Error = Ok | GroupNotFound | GroupThrottled | PoolThrottled

  /** cpool_gp_task_queue */
  function QueueTask(p: Pool, t: Task): (r: (Pool, Error))
    requires Shaped(p)
    ensures Shaped(r.0)
  {
    if t.gid >= |p.entries| then (p, GroupNotFound)
    else if t.id in p.stat && (p.stat[t.id].place == Waiting || p.stat[t.id].again) then (p, Ok)
    else if p.throttled then (p, PoolThrottled)
    else
      var e := p.entries[t.gid];
      if e.free || e.destroying then (p, GroupNotFound)
      else if e.throttled then (p, GroupThrottled)
      else if t.id !in p.stat then (Deliver(Trace(p, t.gid), t.gid, t), Ok)
      else (p.(stat := p.stat[t.id := p.stat[t.id].(again := true)]), Ok)
  }

  // ---- taking ----

  predicate Eligible(e: Entry, benefits: bool)
  {
    e.npendings != 0 && (e.nrunnings < e.limit || (benefits && e.benefits))
  }

  /** The pairwise rule by which the scan keeps or replaces its candidate. */
  predicate Replaces(x: Task, best: Task)
  {
    if x.pri == best.pri then (if x.seqno > best.seqno then x.policy == Top else best.policy == Back)
    else x.pri > best.pri
  }

  /** One pass over the active prefix from position `i`: the group whose top is kept. */
  function ScanFrom(p: Pool, i: nat, benefits: bool, best: Option<nat>): (r: Option<nat>)
    requires Shaped(p) && (best.Some? ==> best.value < |p.entries|)
    ensures r.Some? ==> r.value < |p.entries|
    decreases p.pre.activeIdx - i
  {
    if i >= p.pre.activeIdx || i >= |p.pre.act| then best
    else
      var g := p.pre.act[i];
      if Eligible(p.entries[g], benefits) && (best == None || Replaces(p.entries[g].top, p.entries[best.value].top))
      then ScanFrom(p, i + 1, benefits, Some(g))
      else ScanFrom(p, i + 1, benefits, best)
  }

  function Scan(p: Pool, benefits: bool): (r: Option<nat>)
    requires Shaped(p)
    ensures r.Some? ==> r.value < |p.entries|
  {
    ScanFrom(p, 0, benefits, None)
  }

  /** The group the next task is taken from: a group with room, else one that receives benefits. */
  function Choose(p: Pool): (r: Option<nat>)
    requires Shaped(p)
    ensures r.Some? ==> r.value < |p.entries|
  {
    var g := Scan(p, false);
    if g.Some? || p.core.pendings == 0 then g else Scan(p, true)
  }

  /** The chosen entry once its top task is popped. */
  function Popped(e: Entry): Entry
  {
    var q := if e.queue == [] then [] else e.queue[1..];
    if q == [] then e.(queue := q, npendings := 0, eff := if e.benefits then e.eff else 0)
    else e.(queue := q, top := q[0], npendings := e.npendings - 1, eff := if e.benefits then e.eff else e.eff - 1)
  }

  /** The bookkeeping of __cpool_gp_get_pending_task once a group is chosen. */
  function PopFrom(p: Pool, g: nat): (r: Pool)
    requires Shaped(p) && g < |p.entries|
    ensures Shaped(r) && |r.entries| == |p.entries|
  {
    var e := p.entries[g];
    p.(entries := p.entries[g := Popped(e)], core := AddCore(p.core, -1), npendings := p.npendings - 1,
       pre := if Popped(e).queue == [] then Inactivate(p.pre, g, e.paused) else p.pre)
  }

  /** The chosen group's top task moves from its queue to a thread. */
  function TakeFrom(p: Pool, g: nat): (r: Pool)
    requires Shaped(p) && g < |p.entries|
    ensures Shaped(r) && |r.entries| == |p.entries|
  {
    var p1 := PopFrom(p, g);
    p1.(entries := p1.entries[g := p1.entries[g].(nrunnings := p1.entries[g].nrunnings + 1)],
        stat := p.stat[p.entries[g].top.id := Stat(Scheduling, false)])
  }

  /** Thread `i` starts running the task it was given. */
  function Start(p: Pool, i: nat, t: Task): (r: Pool)
    requires Shaped(p) && i < |p.core.ths|
    ensures Shaped(r)
  {
    p.(core := ToRun(SetThread(p.core, i, p.core.ths[i].(current := Some(t))), i))
  }

  /** __cpool_com_get_dispatch_taskl3: a batch is cut off the dispatch queue for thread `i`. */
  function CutBatch(c: Core, i: nat): (r: Core)
    requires WaitqInRange(c) && i < |c.ths|
    ensures WaitqInRange(r) && |r.ths| == |c.ths|
  {
    var n := Min(BATCH, |c.dispatchs|);
    SetThread(c, i, c.ths[i].(batch := c.dispatchs[..n])).(dispatchs := c.dispatchs[n..])
  }

  function TakeBatch(p: Pool, i: nat): (r: Pool)
    requires Shaped(p) && i < |p.core.ths|
    ensures Shaped(r)
  {
    p.(core := ToRun(CutBatch(p.core, i), i), ndispatchings := p.ndispatchings + Min(BATCH, |p.core.dispatchs|))
  }

  /** Nothing to do, a new state, or the scan repeating for ever with the lock held. */
  datatype TakeResult = Nothing | Took(pool: Pool) | Spins

  /** cpool_gp_core_gettask by thread `i` */
  function GetTask(p: Pool, i: nat): (r: TakeResult)
    requires Shaped(p) && i < |p.core.ths|
    ensures r.Took? ==> Shaped(r.pool)
  {
    if p.core.dispatchs != [] then Took(TakeBatch(p, i))
    else if p.core.paused || p.core.pendings == 0 then Nothing
    else
      var g := Choose(p);
      if g == None then Spins else Took(Start(TakeFrom(p, g.value), i, p.entries[g.value].top))
  }

  // ---- completing ----

  /** A finished task makes room: one more pending task of its group may become startable. */
  predicate Refills(e: Entry) { !e.benefits && !e.paused && HasRoom(e) && e.eff < e.npendings }

  /** Drop the trace record of a task that is done. */
  function Untrace(p: Pool, g: nat, id: nat): (r: Pool)
    requires Shaped(p) && g < |p.entries|
    ensures Shaped(r) && |r.entries| == |p.entries|
  {
    var e := p.entries[g];
    p.(entries := p.entries[g := e.(ntraces := e.ntraces - 1, nprocessed := e.nprocessed + 1)],
       ntraces := p.ntraces - 1, stat := map k | k in p.stat && k != id :: p.stat[k])
  }

  predicate WantsAgain(p: Pool, id: nat) { id in p.stat && p.stat[id].again }

  /** The task that thread `i` is working on. */
  function Job(t: Thread): Option<Task> { if t.batch != [] then Some(t.batch[0]) else t.current }

  /** Thread `i` gives up the slot of its group it ran in. */
  function GiveSlot(p: Pool, i: nat, g: nat): (r: Pool)
    requires Shaped(p) && i < |p.core.ths| && g < |p.entries|
    ensures Shaped(r) && |r.entries| == |p.entries| && |r.core.ths| == |p.core.ths|
  {
    var e := p.entries[g].(nrunnings := p.entries[g].nrunnings - 1);
    var n := if Refills(e) then 1 else 0;
    p.(entries := p.entries[g := e.(eff := e.eff + n)],
       core := AddCore(SetThread(p.core, i, p.core.ths[i].(current := None)), n))
  }

  /** Thread `i` has called the handler of the first task of its batch. */
  function GiveBatch(p: Pool, i: nat, g: nat): (r: Pool)
    requires Shaped(p) && i < |p.core.ths| && g < |p.entries| && p.core.ths[i].batch != []
    ensures Shaped(r) && |r.entries| == |p.entries| && |r.core.ths| == |p.core.ths|
  {
    var e := p.entries[g];
    p.(entries := p.entries[g := e.(ndispatchings := e.ndispatchings - 1)],
       core := SetThread(p.core, i, p.core.ths[i].(batch := p.core.ths[i].batch[1..])),
       ndispatchings := p.ndispatchings - 1)
  }

  /** Hand back the slot, or the place in the batch, that thread `i` occupies. */
  function Release(p: Pool, i: nat, g: nat): (r: Pool)
    requires Shaped(p) && i < |p.core.ths| && g < |p.entries|
    ensures Shaped(r) && |r.entries| == |p.entries| && |r.core.ths| == |p.core.ths|
  {
    if p.core.ths[i].batch == [] then GiveSlot(p, i, g) else GiveBatch(p, i, g)
  }

  /** COMPLETE, once the thread's dispatch queue is empty. */
  function CompleteIfIdle(p: Pool, i: nat): (r: Pool)
    requires Shaped(p) && i < |p.core.ths|
    ensures Shaped(r) && |r.entries| == |p.entries|
  {
    if p.core.ths[i].batch == [] then p.(core := ToComplete(p.core, i)) else p
  }

  /** cpool_gp_core_finished by thread `i`; with `detached`, cpool_gp_task_detach. */
  function Finish(p: Pool, i: nat, detached: bool): (r: Pool)
    requires Shaped(p) && i < |p.core.ths| && Job(p.core.ths[i]).Some? && Job(p.core.ths[i]).value.gid < |p.entries|
    ensures Shaped(r)
  {
    var t := Job(p.core.ths[i]).value;
    var g := t.gid;
    var p1 := Release(p, i, g);
    if detached || !WantsAgain(p, t.id) then CompleteIfIdle(Untrace(p1, g, t.id), i)
    else Deliver(CompleteIfIdle(p1, i), g, NiceAdjust(t))
  }

  /** The remover has called the handler of `t`. */
  function Handled(p: Pool, t: Task): (r: Pool)
    requires Shaped(p) && t.gid < |p.entries|
    ensures Shaped(r) && |r.entries| == |p.entries|
  {
    var e := p.entries[t.gid];
    p.(entries := p.entries[t.gid := e.(ndispatchings := e.ndispatchings - 1)],
       ndispatchings := p.ndispatchings - 1, removing := Remove(p.removing, t))
  }

  /** The end of one round of __cpool_gp_task_dispatcher, or a detach within its handler. */
  function Dispatched(p: Pool, t: Task, detached: bool): (r: Pool)
    requires Shaped(p) && t.gid < |p.entries|
    ensures Shaped(r)
  {
    if detached || !WantsAgain(p, t.id) then Untrace(Handled(p, t), t.gid, t.id) else Deliver(Handled(p, t), t.gid, t)
  }

  // ---- removing ----

  /** What __cpool_gp_task_removel does with a removed task; `byPool`: the pool's threads call its handler. */
  function Dispose(p: Pool, t: Task, byPool: bool): (r: Pool)
    requires Shaped(p) && t.gid < |p.entries|
    ensures Shaped(r) && |r.entries| == |p.entries|
  {
    if !t.handler then Untrace(p, t.gid, t.id)
    else
      var e := p.entries[t.gid];
      var p1 := SetEntry(p, t.gid, e.(ndispatchings := e.ndispatchings + 1)).(
        stat := p.stat[t.id := Stat(Dispatching, false)]);
      if byPool then p1.(core := p1.core.(dispatchs := p1.core.dispatchs + [t]))
      else p1.(removing := p1.removing + [t], ndispatchings := p1.ndispatchings + 1)
  }

  /** The entry once the task is erased from its queue. */
  function Erased(e: Entry, t: Task): Entry
  {
    var q := Remove(e.queue, t);
    e.(queue := q, top := if q == [] then e.top else q[0], npendings := e.npendings - 1,
       eff := if !e.paused && !e.benefits && e.eff > e.npendings - 1 then e.eff - 1 else e.eff)
  }

  /** The rest of __cpool_gp_task_removel. */
  function Unqueue(p: Pool, t: Task): (r: Pool)
    requires Shaped(p) && t.gid < |p.entries|
    ensures Shaped(r) && |r.entries| == |p.entries|
  {
    var e := p.entries[t.gid];
    var p1 := SetEntry(p, t.gid, Erased(e, t));
    if e.paused then p1
    else
      p1.(npendings := p.npendings - 1,
          core := if e.benefits || e.eff > e.npendings - 1 then AddCore(p.core, -1) else p.core,
          pre := if e.npendings == 1 then Inactivate(p.pre, t.gid, false) else p.pre)
  }

  /** __cpool_gp_task_removel */
  function RemoveWaiting(p: Pool, t: Task, byPool: bool): (r: Pool)
    requires Shaped(p) && t.gid < |p.entries|
    ensures Shaped(r) && |r.entries| == |p.entries|
  {
    Unqueue(Dispose(p, t, byPool), t)
  }

  /** One step of __cpool_gp_entry_mark_cbl0 for a task to be removed: no service is ensured here. */
  function Discard(p: Pool, t: Task, byPool: bool): (r: Pool)
    requires Shaped(p) && t.gid < |p.entries|
    ensures Shaped(r) && |r.entries| == |p.entries|
  {
    if t.id !in p.stat then p
    else if p.stat[t.id].again then p.(stat := p.stat[t.id := p.stat[t.id].(again := false)])
    else if p.stat[t.id].place == Waiting then RemoveWaiting(p, t, byPool)
    else p
  }

  /** Every mark names the group of its task. */
  predicate MarksInRange(p: Pool, marks: seq<(Task, bool)>)
  {
    forall k :: 0 <= k < |marks| ==> marks[k].0.gid < |p.entries|
  }

  /** The tasks to be removed, in turn; the flag says whether the pool's threads are to call the handler. */
  function DiscardAll(p: Pool, marks: seq<(Task, bool)>): (r: Pool)
    requires Shaped(p) && MarksInRange(p, marks)
    ensures Shaped(r) && |r.entries| == |p.entries|
    decreases |marks|
  {
    if marks == [] then p else DiscardAll(Discard(p, marks[0].0, marks[0].1), marks[1..])
  }

  /** __cpool_gp_entry_mark_cbl for the whole pool; `flagged`: some task was only given a flag. */
  function MarkPool(p: Pool, marks: seq<(Task, bool)>, flagged: bool): (r: Pool)
    requires Shaped(p) && MarksInRange(p, marks)
    ensures Shaped(r) && |r.entries| == |p.entries|
  {
    var p1 := DiscardAll(p, marks);
    if (marks != [] || flagged) && NeedEnsure(p1.core) then p1.(core := Ensure(p1.core)) else p1
  }

  /** cpool_gp_task_remove, and whether the task has been or is being done away with. */
  function RemoveTask(p: Pool, t: Task, byPool: bool): (r: (Pool, bool))
    requires Shaped(p) && t.gid < |p.entries|
    ensures Shaped(r.0) && |r.0.entries| == |p.entries|
  {
    if t.id !in p.stat then (p, false)
    else if p.stat[t.id].place != Waiting then (p, true)
    else
      var p1 := RemoveWaiting(p, t, byPool);
      (if byPool && t.handler && NeedEnsure(p1.core) then p1.(core := Ensure(p1.core)) else p1, true)
  }

  // ---- suspending ----

  /** cpool_gp_entry_suspend */
  function Suspend(p: Pool, g: nat): (r: Pool)
    requires Shaped(p) && g < |p.entries|
    ensures Shaped(r) && |r.entries| == |p.entries|
  {
    var e := p.entries[g].(paused := true);
    if !ValidEntry(e) || p.entries[g].paused then p
    else if e.npendings != 0 then
      SetEntry(p, g, e.(eff := if e.benefits then e.eff else 0)).(
        npendings := p.npendings - e.npendings,
        pre := Inactivate(p.pre, g, true),
        core := AddCore(p.core, if e.benefits then -e.npendings else -e.eff))
    else SetEntry(p, g, e).(pre := Shrink(p.pre))
  }

  /** The part of cpool_gp_entry_resume that the resume-all form repeats for every group. */
  function ResumeQuietly(p: Pool, g: nat): (r: Pool)
    requires Shaped(p) && g < |p.entries|
    ensures Shaped(r) && |r.entries| == |p.entries|
  {
    var e := p.entries[g].(paused := false);
    if !ValidEntry(e) || !p.entries[g].paused then p
    else if e.npendings != 0 then
      var e1 := if e.benefits then e else e.(eff := Min(e.npendings, e.limit));
      SetEntry(p, g, e1).(
        npendings := p.npendings + e.npendings,
        core := AddCore(p.core, if e.benefits then e.npendings else e1.eff),
        pre := Activate(p.pre, g))
    else SetEntry(p, g, e)
  }

  /** cpool_gp_entry_resume */
  function Resume(p: Pool, g: nat): (r: Pool)
    requires Shaped(p) && g < |p.entries|
    ensures Shaped(r)
  {
    var p1 := ResumeQuietly(p, g);
    if ValidEntry(p.entries[g]) && p.entries[g].paused && p.entries[g].npendings != 0 && NeedEnsure(p1.core)
    then p1.(core := Ensure(p1.core)) else p1
  }

  /** cpool_gp_entry_suspend_all, from group `g` */
  function SuspendAllFrom(p: Pool, g: nat): (r: Pool)
    requires Shaped(p) && g <= |p.entries|
    ensures Shaped(r) && |r.entries| == |p.entries|
    decreases |p.entries| - g
  {
    if g == |p.entries| then p else SuspendAllFrom(Suspend(p, g), g + 1)
  }

  function ResumeAllFrom(p: Pool, g: nat): (r: Pool)
    requires Shaped(p) && g <= |p.entries|
    ensures Shaped(r) && |r.entries| == |p.entries|
    decreases |p.entries| - g
  {
    if g == |p.entries| then p else ResumeAllFrom(ResumeQuietly(p, g), g + 1)
  }

  /** cpool_gp_entry_resume_all */
  function ResumeAll(p: Pool): (r: Pool)
    requires Shaped(p)
    ensures Shaped(r)
  {
    var p1 := ResumeAllFrom(p, 0);
    if NeedEnsure(p1.core) then p1.(core := Ensure(p1.core)) else p1
  }

  // ---- attributes, groups ----

  function LimitFor(maxthreads: int, parallel: int): int
  {
    if maxthreads <= parallel then maxthreads else if parallel <= 0 then 0 else parallel
  }

  /** The entry once its attributes are stored. */
  function NewAttr(e: Entry, maxthreads: int, parallel: int, benefits: bool): Entry
  {
    var limit := LimitFor(maxthreads, parallel);
    e.(parallel := parallel, limit := limit, benefits := benefits || limit == 0)
  }

  /** __cpool_gp_entry_set_attrl */
  function SetAttr(p: Pool, g: nat, parallel: int, benefits: bool): (r: Pool)
    requires Shaped(p) && g < |p.entries|
    ensures Shaped(r) && |r.entries| == |p.entries|
  {
    var e := p.entries[g];
    var f := NewAttr(e, p.core.maxthreads, parallel, benefits);
    if f.paused || f.npendings == 0 then p.(entries := p.entries[g := f])
    else
      var c := AddCore(p.core, if e.benefits then -e.npendings else -e.eff);
      var h := if f.benefits then f else f.(eff := Min(f.limit, f.npendings));
      p.(entries := p.entries[g := h], core := AddCore(c, if h.benefits then h.npendings else h.eff))
  }

  /** __cpool_gp_entry_update_all_envl, from group `g` */
  function UpdateAllFrom(p: Pool, g: nat): (r: Pool)
    requires Shaped(p) && g <= |p.entries|
    ensures Shaped(r) && |r.entries| == |p.entries|
    decreases |p.entries| - g
  {
    if g == |p.entries| then p
    else
      var e := p.entries[g];
      UpdateAllFrom(if e.free then p else SetAttr(p, g, e.parallel, e.benefits), g + 1)
  }

  /** cpool_com_adjust_abs: store the bounds, recompute every limit, then add or mark threads. */
  function Adjust(p: Pool, maxthreads: int, minthreads: int): (r: Pool)
    requires Shaped(p)
    ensures Shaped(r)
  {
    var p1 := UpdateAllFrom(p.(core := p.core.(maxthreads := maxthreads, minthreads := minthreads)), 0);
    p1.(core := AdjustAbs(p1.core))
  }

  const FREESLOT := Entry(true, false, false, false, 100, [], NOTASK, 0, 0, false, 0, 0, 0, 0, 0, 0)

  /** How many slots the entry array grows by. */
  const GROWTH := 3

  function GrowPool(p: Pool): (r: Pool)
    requires Shaped(p)
    ensures Shaped(r) && |r.entries| == |p.entries| + GROWTH
  {
    p.(entries := p.entries + [FREESLOT, FREESLOT, FREESLOT], pre := Grow(p.pre, GROWTH))
  }

  /** cpool_gp_entry_create in the free slot `g`, once there is one. */
  function Occupy(p: Pool, g: nat, priqNum: nat, suspend: bool): (r: Pool)
    requires Shaped(p) && g < |p.entries| && 1 <= priqNum <= 99
    ensures Shaped(r) && |r.entries| == |p.entries|
  {
    var e := p.entries[g];
    SetAttr(SetEntry(p, g, e.(free := false, paused := suspend, avg := 100 / priqNum, queue := [], nprocessed := 0)),
            g, p.core.maxthreads, true)
  }

  /** The last step of cpool_gp_entry_delete: the slot is given back. */
  function Vacate(p: Pool, g: nat): (r: Pool)
    requires Shaped(p) && g < |p.entries|
    ensures Shaped(r)
  {
    SetEntry(p, g, p.entries[g].(free := true, destroying := false, throttled := false)).(
      pre := p.pre.(active := p.pre.active[g := false]))
  }

  /** The state cpool_gp_core_ctor and the rest of cpool_core_ctor reach: one group, no tasks. */
  function NewPool(c: Core, priqNum: nat, tailFirst: bool): (r: Pool)
    requires WaitqInRange(c) && 1 <= priqNum <= 99
    ensures Shaped(r)
  {
    var p := Pool(c, [], Prefix([], [], [], 0, 0), 0, 0, 0, 0, false, map[], [], tailFirst);
    Occupy(GrowPool(p), 0, priqNum, false)
  }
}
