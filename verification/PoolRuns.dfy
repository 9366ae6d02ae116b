/**
 Whole runs: every interleaving of the pool's critical sections, by any number of users and
 threads.  The books (shape, places, thread counters, bounds) and the effective numbers are each
 kept by a step if and only if a condition that can be checked before the step holds.
 */
module PoolRuns {
  import opened Types
  import opened ThreadModel
  import opened ThreadCounts
  import opened ThreadSupply
  import opened ThreadStatus
  import opened ThreadBounds
  import opened ThreadJobs
  import opened ActivePrefix
  import opened GroupModel
  import opened GroupCounts
  import opened GroupShape
  import opened GroupExact
  import opened GroupPlaces
  import opened Scheduler
  import opened PoolSound
  import opened NoStranded

  /** The critical sections: of a user on a task, of a remover, on a group, on the pool, and of a service thread. */
  datatype TaskOp = Queue | RemoveOne(byPool: bool) | MarkOneTask(byPool: bool) | HandlerDone(detached: bool)

  datatype GroupOp = SuspendGroup | ResumeGroup | SetGroupAttr(parallel: int, benefits: bool)
                   | CreateGroup(priqNum: nat, suspend: bool) | DeleteGroup | VacateGroup

  datatype PoolOp = GrowGroups | SuspendPool | ResumePool | AdjustPool(maxthreads: int, minthreads: int)
                  | FlushPool | CollectGarbage(flushable: bool)
                  | SuspendGroups | ResumeGroups | MarkTasks(marks: seq<(Task, bool)>, flagged: bool)

  datatype ThreadOp = Take | Done(detached: bool) | Enter | Sleep | Wake | Expire(mayQuit: bool) | Quit | Exit

  datatype Op =
    | OnTask(t: Task, task: TaskOp)
    | OnGroup(g: nat, group: GroupOp)
    | OnPool(pool: PoolOp)
    | ByThread(i: nat, thread: ThreadOp)

  /** A task that is recorded as waiting is the one in its group's queue. */
  ghost predicate Owned(p: Pool, t: Task)
  {
    t.gid < |p.entries| && (t.id in p.stat && p.stat[t.id].place == Waiting ==> t in p.entries[t.gid].queue)
  }

  ghost predicate TaskEnabled(p: Pool, t: Task, op: TaskOp)
  {
    match op
    case Queue => true
    case RemoveOne(byPool) => Owned(p, t)
    case MarkOneTask(byPool) => Owned(p, t)
    case HandlerDone(detached) => t in p.removing && t.gid < |p.entries|
  }

  function ApplyTask(p: Pool, t: Task, op: TaskOp): (r: Pool)
    requires Shaped(p) && TaskEnabled(p, t, op)
    ensures Shaped(r)
  {
    match op
    case Queue => QueueTask(p, t).0
    case RemoveOne(byPool) => RemoveTask(p, t, byPool).0
    case MarkOneTask(byPool) => Discard(p, t, byPool)
    case HandlerDone(detached) => Dispatched(p, t, detached)
  }

  ghost predicate GroupEnabled(p: Pool, g: nat, op: GroupOp)
  {
    g < |p.entries| &&
    match op
    case SuspendGroup => true
    case ResumeGroup => true
    case SetGroupAttr(parallel, benefits) => ValidEntry(p.entries[g])
    case CreateGroup(priqNum, suspend) => p.entries[g].free && 1 <= priqNum <= 99
    case DeleteGroup => ValidEntry(p.entries[g])
    case VacateGroup => p.entries[g].destroying && EntryTally(p.entries[g]) == Tally(0, 0, 0)
  }

  function ApplyGroup(p: Pool, g: nat, op: GroupOp): (r: Pool)
    requires Shaped(p) && GroupEnabled(p, g, op)
    ensures Shaped(r)
  {
    match op
    case SuspendGroup => Suspend(p, g)
    case ResumeGroup => Resume(p, g)
    case SetGroupAttr(parallel, benefits) => SetAttr(p, g, parallel, benefits)
    case CreateGroup(priqNum, suspend) => Occupy(p, g, priqNum, suspend)
    case DeleteGroup => SetEntry(p, g, p.entries[g].(destroying := true))
    case VacateGroup => Vacate(p, g)
  }

  /** The marks are of tasks that can be removed when their turn comes. */
  ghost predicate Markable(p: Pool, marks: seq<(Task, bool)>)
    requires Shaped(p)
    decreases |marks|
  {
    marks == [] ||
    (var t := marks[0].0;
     Owned(p, t) && t.id in p.stat && (p.stat[t.id].again || p.stat[t.id].place == Waiting)
     && Markable(Discard(p, t, marks[0].1), marks[1..]))
  }

  lemma {:induction false} MarkableInRange(p: Pool, marks: seq<(Task, bool)>)
    requires Shaped(p) && Markable(p, marks)
    ensures MarksInRange(p, marks)
    decreases |marks|
  {
    if marks != [] {
      MarkableInRange(Discard(p, marks[0].0, marks[0].1), marks[1..]);
      forall k | 0 < k < |marks| ensures marks[k].0.gid < |p.entries| { assert marks[k] == marks[1..][k - 1]; }
    }
  }

  ghost predicate PoolEnabled(p: Pool, op: PoolOp)
    requires Shaped(p)
  {
    match op
    case GrowGroups => forall g :: 0 <= g < |p.entries| ==> !p.entries[g].free
    case AdjustPool(hi, lo) => 0 <= lo <= hi
    case MarkTasks(marks, flagged) => MarksInRange(p, marks) && Markable(p, marks)
    case _ => true
  }

  function ApplyPool(p: Pool, op: PoolOp): (r: Pool)
    requires Shaped(p) && PoolEnabled(p, op)
    ensures Shaped(r)
  {
    match op
    case GrowGroups => GrowPool(p)
    case SuspendPool => p.(core := SuspendCore(p.core))
    case ResumePool => p.(core := ResumeCore(p.core))
    case AdjustPool(hi, lo) => Adjust(p, hi, lo)
    case FlushPool => p.(core := Flush(p.core))
    case CollectGarbage(flushable) => p.(core := TryGC(p.core, flushable))
    case SuspendGroups => SuspendAllFrom(p, 0)
    case ResumeGroups => ResumeAll(p)
    case MarkTasks(marks, flagged) => MarkPool(p, marks, flagged)
  }

  ghost predicate ThreadEnabled(p: Pool, i: nat, op: ThreadOp)
    requires Shaped(p)
  {
    i < |p.core.ths| &&
    var t := p.core.ths[i];
    match op
    case Take => Awake(t) && GetTask(p, i).Took?
    case Done(detached) => t.status == Run && Job(t).Some? && Job(t).value.gid < |p.entries|
    case Enter => t.status == Init
    case Sleep => Awake(t) && !t.rm && GetTask(p, i).Nothing?
    case Wake => t.status == Wait && t.waked
    case Expire(mayQuit) => t.status == Wait
    case Quit => Awake(t) && GetTask(p, i).Nothing? && MayQuit(p.core, i)
    case Exit => CanLeave(t)
  }

  function ApplyThread(p: Pool, i: nat, op: ThreadOp): (r: Pool)
    requires Shaped(p) && ThreadEnabled(p, i, op)
    ensures Shaped(r)
  {
    match op
    case Take => GetTask(p, i).pool
    case Done(detached) => Finish(p, i, detached)
    case Enter => p.(core := ToJoin(p.core, i))
    case Sleep => p.(core := ToWait(p.core, i))
    case Wake => p.(core := ToFree(p.core, i))
    case Expire(mayQuit) => p.(core := ToTimedout(p.core, i, mayQuit))
    case Quit => p.(core := ToForceQuit(p.core, i))
    case Exit => p.(core := ToLeave(p.core, i))
  }

  ghost predicate Enabled(p: Pool, op: Op)
    requires Shaped(p)
  {
    match op
    case OnTask(t, o) => TaskEnabled(p, t, o)
    case OnGroup(g, o) => GroupEnabled(p, g, o)
    case OnPool(o) => PoolEnabled(p, o)
    case ByThread(i, o) => ThreadEnabled(p, i, o)
  }

  function Apply(p: Pool, op: Op): (r: Pool)
    requires Shaped(p) && Enabled(p, op)
    ensures Shaped(r)
  {
    match op
    case OnTask(t, o) => ApplyTask(p, t, o)
    case OnGroup(g, o) => ApplyGroup(p, g, o)
    case OnPool(o) => ApplyPool(p, o)
    case ByThread(i, o) => ApplyThread(p, i, o)
  }

  // ---- the invariant ----

  /** A slot that is not in use has no tasks. */
  ghost predicate FreeIdle(p: Pool)
  {
    forall g :: 0 <= g < |p.entries| && p.entries[g].free ==> EntryTally(p.entries[g]) == Tally(0, 0, 0)
  }

  /** The pool's books: shape, places, thread counters and bounds. */
  ghost predicate Books(p: Pool) { Tidy(p) && Placed(p) && FreeIdle(p) && Steady(p.core) }

  /** The books are right and the effective numbers exact. */
  ghost predicate Inv(p: Pool) { Books(p) && Exact(p) }

  // ---- what each step must check ----

  /** The exact conditions under which a step keeps the books. */
  predicate ThreadGuard(p: Pool, i: nat, op: ThreadOp)
    requires Shaped(p) && i < |p.core.ths|
  {
    match op
    case Take => !TakeCallsBack(p, i)
    case Wake => !ExitCallsBack(p.core, i)
    case Expire(mayQuit) => !ExitCallsBack(p.core, i)
    case _ => true
  }

  predicate GroupGuard(p: Pool, g: nat, op: GroupOp)
    requires Shaped(p) && g < |p.entries|
  {
    op.CreateGroup? && op.suspend ==> p.pre.index[g] >= p.pre.activeIdx
  }

  predicate PoolGuard(p: Pool, op: PoolOp) { op.CollectGarbage? && op.flushable ==> p.core.maxthreads != 0 }

  ghost predicate Guard(p: Pool, op: Op)
    requires Shaped(p) && Enabled(p, op)
  {
    match op
    case OnTask(t, o) => true
    case OnGroup(g, o) => GroupGuard(p, g, o)
    case OnPool(o) => PoolGuard(p, o)
    case ByThread(i, o) => ThreadGuard(p, i, o)
  }

  /** Resuming would be safe for every paused group in use, from group `g` on. */
  ghost predicate AllRoomy(p: Pool, g: nat, exact: bool)
  {
    forall h :: g <= h < |p.entries| && ValidEntry(p.entries[h]) && p.entries[h].paused ==>
      ResumeSafe(p.entries[h], exact)
  }

  /** The exact conditions under which a step keeps the effective numbers exact, or covering. */
  predicate GroupSafe(p: Pool, g: nat, op: GroupOp, exact: bool)
    requires g < |p.entries|
  {
    var e := p.entries[g];
    match op
    case ResumeGroup => ValidEntry(e) && e.paused ==> ResumeSafe(e, exact)
    case SetGroupAttr(parallel, benefits) => AttrSafe(e, p.core.maxthreads, parallel, benefits, exact)
    case _ => true
  }

  ghost predicate PoolSafe(p: Pool, op: PoolOp, exact: bool)
  {
    match op
    case AdjustPool(hi, lo) => AllAttrSafe(p.(core := p.core.(maxthreads := hi, minthreads := lo)), 0, exact)
    case ResumeGroups => AllRoomy(p, 0, exact)
    case _ => true
  }

  ghost predicate Safe(p: Pool, op: Op, exact: bool)
    requires Shaped(p) && Enabled(p, op)
  {
    match op
    case OnGroup(g, o) => GroupSafe(p, g, o, exact)
    case OnPool(o) => PoolSafe(p, o, exact)
    case _ => true
  }

  /** The tasks that removers and running threads hold belong to groups that exist. */
  lemma HeldGroupsExist(p: Pool)
    requires Placed(p)
    ensures forall t :: t in p.removing ==> t.gid < |p.entries|
    ensures forall i :: 0 <= i < |p.core.ths| && p.core.ths[i].status == Run ==>
      Job(p.core.ths[i]).Some? && Job(p.core.ths[i]).value.gid < |p.entries|
  {
    forall t | t in p.removing ensures t.gid < |p.entries| { RemovedInUse(p, t); }
    forall i | 0 <= i < |p.core.ths| && p.core.ths[i].status == Run
      ensures Job(p.core.ths[i]).Some? && Job(p.core.ths[i]).value.gid < |p.entries|
    {
      HeldInUse(p, i);
    }
  }

  lemma RemovedInUse(p: Pool, t: Task)
    requires Placed(p) && t in p.removing
    ensures t.gid < |p.entries| && EntryTally(p.entries[t.gid]) != Tally(0, 0, 0)
  {
    var k :| 0 <= k < |p.removing| && p.removing[k] == t;
    MatchingMember(p.removing, k, InGroup(t.gid));
    assert TallyOf(p, InGroup(t.gid)).doomed >= 1;
  }

  lemma HeldInUse(p: Pool, i: nat)
    requires Placed(p) && i < |p.core.ths| && p.core.ths[i].status == Run
    ensures Job(p.core.ths[i]).Some?
    ensures var g := Job(p.core.ths[i]).value.gid; g < |p.entries| && EntryTally(p.entries[g]) != Tally(0, 0, 0)
  {
    assert JobOk(p.core.ths[i]);
    var t := p.core.ths[i];
    var g := Job(t).value.gid;
    if t.batch == [] {
      CountMember(p.core.ths, i, Runs(InGroup(g)));
      assert TallyOf(p, InGroup(g)).runs >= 1;
    } else {
      MatchingMember(t.batch, 0, InGroup(g));
      CountMember(p.core.ths, i, Batches(InGroup(g)));
      assert TallyOf(p, InGroup(g)).doomed >= 1;
    }
  }

  lemma OneUntouched(p: Pool, r: Pool, g: nat)
    requires FreeIdle(p) && g < |p.entries| == |r.entries| && r.entries == p.entries[g := r.entries[g]]
    requires !p.entries[g].free && !r.entries[g].free
    ensures FreeIdle(r)
  {
  }

  lemma EntriesCounted(p: Pool, g: nat)
    requires Placed(p) && g < |p.entries|
    ensures p.entries[g].nrunnings >= 0
  {
    assert TallyOf(p, InGroup(g)) == EntryTally(p.entries[g]);
  }

  // ---- the books, step by step ----

  lemma DeliverFree(p: Pool, g: nat, t: Task)
    requires Shaped(p) && g < |p.entries| && FreeIdle(p) && !p.entries[g].free
    ensures FreeIdle(Deliver(p, g, t))
  {
    DeliverEffect(p, g, t);
    OneUntouched(p, Deliver(p, g, t), g);
  }

  lemma TraceFree(p: Pool, g: nat)
    requires Shaped(p) && g < |p.entries| && FreeIdle(p)
    ensures FreeIdle(Trace(p, g)) && Trace(p, g).entries[g].free == p.entries[g].free && Trace(p, g).core == p.core
  {
  }

  lemma QueueBooks(p: Pool, t: Task)
    requires Books(p)
    ensures Books(QueueTask(p, t).0)
  {
    QueueTaskTidy(p, t);
    QueueTaskPlaced(p, t);
    QueueRest(p, t);
  }

  lemma QueueRest(p: Pool, t: Task)
    requires Shaped(p) && FreeIdle(p) && Steady(p.core)
    ensures FreeIdle(QueueTask(p, t).0) && Steady(QueueTask(p, t).0.core)
  {
    if t.gid < |p.entries| && !p.entries[t.gid].free {
      TraceFree(p, t.gid);
      DeliverFree(Trace(p, t.gid), t.gid, t);
      DeliverSteady(Trace(p, t.gid), t.gid, t);
    }
  }

  lemma QueuedInUse(p: Pool, t: Task)
    requires Tidy(p) && t.gid < |p.entries| && t in p.entries[t.gid].queue
    ensures !p.entries[t.gid].free
  {
    assert EntryTidy(p.entries[t.gid], t.gid, p.pre.active[t.gid]);
  }

  lemma RemovedEntry(p: Pool, t: Task, byPool: bool)
    requires Shaped(p) && t.gid < |p.entries|
    ensures var r := RemoveWaiting(p, t, byPool);
      r.entries == p.entries[t.gid := r.entries[t.gid]] && r.entries[t.gid].free == p.entries[t.gid].free
  {
  }

  lemma RemoveWaitingRest(p: Pool, t: Task, byPool: bool)
    requires Shaped(p) && FreeIdle(p) && Steady(p.core) && t.gid < |p.entries| && !p.entries[t.gid].free
    ensures FreeIdle(RemoveWaiting(p, t, byPool)) && Steady(RemoveWaiting(p, t, byPool).core)
  {
    WorkWrite(p.core, RemoveWaiting(p, t, byPool).core);
    RemovedEntry(p, t, byPool);
    OneUntouched(p, RemoveWaiting(p, t, byPool), t.gid);
  }

  lemma RemoveWaitingBooks(p: Pool, t: Task, byPool: bool)
    requires Books(p) && t.gid < |p.entries| && t in p.entries[t.gid].queue
    ensures Books(RemoveWaiting(p, t, byPool))
  {
    DisposeTidy(p, t, byPool);
    UnqueueTidy(Dispose(p, t, byPool), t);
    RemoveWaitingPlaced(p, t, byPool);
    QueuedInUse(p, t);
    RemoveWaitingRest(p, t, byPool);
  }

  lemma EnsuredBooks(p: Pool)
    requires Books(p)
    ensures Books(p.(core := Ensure(p.core)))
  {
    EnsureJobs(p.core);
    EnsureSteady(p.core);
    CoreTidy(p, p.(core := Ensure(p.core)));
    SameJobsPlaced(p, p.(core := Ensure(p.core)));
  }

  lemma RemoveBooks(p: Pool, t: Task, byPool: bool)
    requires Books(p) && Owned(p, t)
    ensures Books(RemoveTask(p, t, byPool).0)
  {
    if t.id in p.stat && p.stat[t.id].place == Waiting {
      RemoveWaitingBooks(p, t, byPool);
      EnsuredBooks(RemoveWaiting(p, t, byPool));
    }
  }

  lemma DiscardBooks(p: Pool, t: Task, byPool: bool)
    requires Books(p) && Owned(p, t)
    ensures Books(Discard(p, t, byPool))
  {
    if t.id in p.stat && p.stat[t.id].again {
      UnmovedKeepsPlaced(p, Discard(p, t, byPool));
    } else if t.id in p.stat && p.stat[t.id].place == Waiting {
      RemoveWaitingBooks(p, t, byPool);
    }
  }

  lemma {:induction false} DiscardAllBooks(p: Pool, marks: seq<(Task, bool)>)
    requires Books(p) && MarksInRange(p, marks) && Markable(p, marks)
    ensures Books(DiscardAll(p, marks))
    decreases |marks|
  {
    if marks != [] {
      DiscardBooks(p, marks[0].0, marks[0].1);
      MarkableInRange(Discard(p, marks[0].0, marks[0].1), marks[1..]);
      DiscardAllBooks(Discard(p, marks[0].0, marks[0].1), marks[1..]);
    }
  }

  lemma MarkPoolBooks(p: Pool, marks: seq<(Task, bool)>, flagged: bool)
    requires Books(p) && MarksInRange(p, marks) && Markable(p, marks)
    ensures Books(MarkPool(p, marks, flagged))
  {
    DiscardAllBooks(p, marks);
    EnsuredBooks(DiscardAll(p, marks));
  }

  lemma HandledFree(p: Pool, t: Task)
    requires Shaped(p) && t.gid < |p.entries| && FreeIdle(p) && !p.entries[t.gid].free
    ensures FreeIdle(Handled(p, t)) && !Handled(p, t).entries[t.gid].free && Handled(p, t).core == p.core
  {
  }

  lemma UntraceFree(p: Pool, g: nat, id: nat)
    requires Shaped(p) && g < |p.entries| && FreeIdle(p)
    ensures FreeIdle(Untrace(p, g, id)) && Untrace(p, g, id).core == p.core
  {
  }

  lemma HandlerBooks(p: Pool, t: Task, detached: bool)
    requires Books(p) && t in p.removing && t.gid < |p.entries|
    ensures Books(Dispatched(p, t, detached))
  {
    RemovedInUse(p, t);
    DispatchedTidy(p, t, detached);
    DispatchedPlaced(p, t, detached);
    HandledFree(p, t);
    if detached || !WantsAgain(p, t.id) {
      UntraceFree(Handled(p, t), t.gid, t.id);
    } else {
      DeliverSteady(Handled(p, t), t.gid, t);
      DeliverFree(Handled(p, t), t.gid, t);
    }
  }

  lemma SuspendBooks(p: Pool, g: nat)
    requires Books(p) && g < |p.entries|
    ensures Books(Suspend(p, g))
  {
    SuspendTidy(p, g);
    SuspendPlaced(p, g);
    SuspendRest(p, g);
  }

  lemma SuspendRest(p: Pool, g: nat)
    requires Shaped(p) && FreeIdle(p) && Steady(p.core) && g < |p.entries|
    ensures FreeIdle(Suspend(p, g)) && Steady(Suspend(p, g).core)
  {
    WorkWrite(p.core, Suspend(p, g).core);
  }

  lemma QuietPlaced(p: Pool, g: nat)
    requires Shaped(p) && Placed(p) && g < |p.entries|
    ensures Placed(ResumeQuietly(p, g))
  {
    EntryUnmoved(p, ResumeQuietly(p, g), g);
    UnmovedKeepsPlaced(p, ResumeQuietly(p, g));
  }

  lemma QuietBooks(p: Pool, g: nat)
    requires Books(p) && g < |p.entries|
    ensures Books(ResumeQuietly(p, g))
  {
    ResumeQuietlyTidy(p, g);
    QuietPlaced(p, g);
    QuietRest(p, g);
  }

  lemma QuietRest(p: Pool, g: nat)
    requires Shaped(p) && FreeIdle(p) && Steady(p.core) && g < |p.entries|
    ensures FreeIdle(ResumeQuietly(p, g)) && Steady(ResumeQuietly(p, g).core)
  {
    WorkWrite(p.core, ResumeQuietly(p, g).core);
  }

  lemma ResumeBooks(p: Pool, g: nat)
    requires Books(p) && g < |p.entries|
    ensures Books(Resume(p, g))
  {
    QuietBooks(p, g);
    EnsuredBooks(ResumeQuietly(p, g));
  }

  lemma SetAttrBooks(p: Pool, g: nat, parallel: int, benefits: bool)
    requires Books(p) && g < |p.entries| && ValidEntry(p.entries[g])
    ensures Books(SetAttr(p, g, parallel, benefits))
  {
    SetAttrTidy(p, g, parallel, benefits);
    SetAttrPlaced(p, g, parallel, benefits);
    WorkWrite(p.core, SetAttr(p, g, parallel, benefits).core);
    OneUntouched(p, SetAttr(p, g, parallel, benefits), g);
  }

  lemma GrowBooks(p: Pool)
    requires Books(p)
    ensures Books(GrowPool(p))
  {
    GrowPoolTidy(p);
    GrowPoolPlaced(p);
  }

  lemma CreateBooks(p: Pool, g: nat, priqNum: nat, suspend: bool)
    requires Books(p) && g < |p.entries| && p.entries[g].free && 1 <= priqNum <= 99
    ensures Books(Occupy(p, g, priqNum, suspend)) <==> (suspend ==> p.pre.index[g] >= p.pre.activeIdx)
  {
    OccupyTidy(p, g, priqNum, suspend);
    OccupyPlaced(p, g, priqNum, suspend);
    var r := Occupy(p, g, priqNum, suspend);
    assert EntryTidy(p.entries[g], g, p.pre.active[g]);
    assert r.core == p.core && r.entries == p.entries[g := r.entries[g]] && !r.entries[g].free;
  }

  lemma DeleteBooks(p: Pool, g: nat)
    requires Books(p) && g < |p.entries| && ValidEntry(p.entries[g])
    ensures Books(SetEntry(p, g, p.entries[g].(destroying := true)))
  {
    var r := SetEntry(p, g, p.entries[g].(destroying := true));
    assert EntryTidy(p.entries[g], g, p.pre.active[g]);
    NeutralTidy(p, r, g);
    EntryUnmoved(p, r, g);
    UnmovedKeepsPlaced(p, r);
    OneUntouched(p, r, g);
  }

  lemma VacateBooks(p: Pool, g: nat)
    requires Books(p) && g < |p.entries| && EntryTally(p.entries[g]) == Tally(0, 0, 0)
    ensures Books(Vacate(p, g))
  {
    VacateTidy(p, g);
    VacatePlaced(p, g);
  }

  /** A step of the thread manager alone. */
  lemma CoreBooks(p: Pool, r: Pool)
    requires Books(p) && r == p.(core := r.core) && r.core.pendings == p.core.pendings
    requires r.core.maxthreads == p.core.maxthreads
    requires SameJobs(p.core, r.core.(paused := p.core.paused)) && WaitqInRange(r.core)
    ensures Books(r) <==> Steady(r.core)
  {
    CoreTidy(p, r);
    assert r.core.(paused := p.core.paused, maxthreads := p.core.maxthreads, minthreads := p.core.minthreads,
      pendings := p.core.pendings)
        == r.core.(paused := p.core.paused);
    SameJobsPlaced(p, r);
  }

  lemma AdjustBooks(p: Pool, hi: int, lo: int)
    requires Books(p) && 0 <= lo <= hi
    ensures Books(Adjust(p, hi, lo))
  {
    var p0 := p.(core := p.core.(maxthreads := hi, minthreads := lo));
    var p1 := UpdateAllFrom(p0, 0);
    CoreTidy(p, p0);
    SameJobsPlaced(p, p0);
    UpdateAllTidy(p0, 0);
    UpdateAllPlaced(p0, 0);
    UpdateAllFree(p0, 0);
    AdjustSteady(p, hi, lo);
    AdjustLast(p1);
  }

  lemma AdjustLast(p1: Pool)
    requires Tidy(p1) && Placed(p1)
    ensures var r := p1.(core := AdjustAbs(p1.core)); Tidy(r) && Placed(r) && r.core.pendings == p1.core.pendings
  {
    var r := p1.(core := AdjustAbs(p1.core));
    AdjustAbsJobs(p1.core);
    CoreTidy(p1, r);
    SameJobsPlaced(p1, r);
  }

  lemma {:induction false} UpdateAllFree(p: Pool, g: nat)
    requires Shaped(p) && FreeIdle(p) && g <= |p.entries|
    ensures FreeIdle(UpdateAllFrom(p, g))
    decreases |p.entries| - g
  {
    if g < |p.entries| {
      var e := p.entries[g];
      UpdateAllFree(if e.free then p else SetAttr(p, g, e.parallel, e.benefits), g + 1);
    }
  }

  lemma TakeBooks(p: Pool, i: nat)
    requires Books(p) && i < |p.core.ths| && Awake(p.core.ths[i]) && GetTask(p, i).Took?
    ensures Books(GetTask(p, i).pool) <==> !TakeCallsBack(p, i)
  {
    GetTaskTidy(p, i);
    GetTaskPlaced(p, i);
    GetTaskSteady(p, i);
    TakeFree(p, i);
  }

  lemma TakeFree(p: Pool, i: nat)
    requires Tidy(p) && FreeIdle(p) && i < |p.core.ths| && GetTask(p, i).Took?
    ensures FreeIdle(GetTask(p, i).pool)
  {
    if p.core.dispatchs == [] {
      ChooseFinds(p);
      var g := Choose(p).value;
      assert EntryTidy(p.entries[g], g, p.pre.active[g]);
      TakeFromFree(p, g);
    }
  }

  lemma TakeFromFree(p: Pool, g: nat)
    requires Shaped(p) && FreeIdle(p) && g < |p.entries| && !p.entries[g].free
    ensures FreeIdle(TakeFrom(p, g))
  {
  }

  lemma ReleaseFree(p: Pool, i: nat, g: nat)
    requires Shaped(p) && FreeIdle(p) && i < |p.core.ths| && g < |p.entries| && !p.entries[g].free
    ensures FreeIdle(Release(p, i, g)) && !Release(p, i, g).entries[g].free
  {
  }

  lemma FinishFree(p: Pool, i: nat, detached: bool)
    requires Shaped(p) && FreeIdle(p) && i < |p.core.ths| && Job(p.core.ths[i]).Some?
    requires var g := Job(p.core.ths[i]).value.gid; g < |p.entries| && !p.entries[g].free
    ensures FreeIdle(Finish(p, i, detached))
  {
    var t := Job(p.core.ths[i]).value;
    ReleaseFree(p, i, t.gid);
    if detached || !WantsAgain(p, t.id) {
      UntraceFree(Release(p, i, t.gid), t.gid, t.id);
    } else {
      DeliverFree(CompleteIfIdle(Release(p, i, t.gid), i), t.gid, NiceAdjust(t));
    }
  }

  lemma DoneBooks(p: Pool, i: nat, detached: bool)
    requires Books(p) && i < |p.core.ths| && p.core.ths[i].status == Run
    requires Job(p.core.ths[i]).Some? && Job(p.core.ths[i]).value.gid < |p.entries|
    ensures Books(Finish(p, i, detached))
  {
    HeldInUse(p, i);
    FinishTidy(p, i, detached);
    FinishPlaced(p, i, detached);
    FinishSteady(p, i, detached);
    FinishFree(p, i, detached);
  }

  // ---- suspending and resuming every group ----

  /** What suspending a group does to its entry. */
  predicate Stopped(e: Entry, f: Entry)
  {
    f.npendings == e.npendings && f.free == e.free && f.destroying == e.destroying
    && f.paused == (e.paused || ValidEntry(e))
  }

  lemma SuspendEntry(p: Pool, g: nat)
    requires Shaped(p) && g < |p.entries|
    ensures var r := Suspend(p, g);
      && |r.entries| == |p.entries| && Stopped(p.entries[g], r.entries[g])
      && (forall h :: 0 <= h < |p.entries| && h != g ==> r.entries[h] == p.entries[h])
  {
  }

  ghost predicate AllStopped(p: Pool, r: Pool, g: nat)
  {
    && |r.entries| == |p.entries|
    && (forall h :: 0 <= h < g && h < |p.entries| ==> r.entries[h] == p.entries[h])
    && (forall h :: g <= h < |p.entries| ==> Stopped(p.entries[h], r.entries[h]))
  }

  lemma {:induction false} SuspendAllStopped(p: Pool, g: nat)
    requires Shaped(p) && g <= |p.entries|
    ensures AllStopped(p, SuspendAllFrom(p, g), g)
    decreases |p.entries| - g
  {
    if g < |p.entries| {
      SuspendEntry(p, g);
      SuspendAllStopped(Suspend(p, g), g + 1);
      AllStoppedStep(p, Suspend(p, g), SuspendAllFrom(Suspend(p, g), g + 1), g);
    }
  }

  lemma AllStoppedStep(p: Pool, q: Pool, r: Pool, g: nat)
    requires g < |p.entries| == |q.entries| && Stopped(p.entries[g], q.entries[g]) && AllStopped(q, r, g + 1)
    requires forall h :: 0 <= h < |p.entries| && h != g ==> q.entries[h] == p.entries[h]
    ensures AllStopped(p, r, g)
  {
  }

  lemma {:induction false} SuspendAllTidy(p: Pool, g: nat, r: Pool)
    requires Tidy(p) && g <= |p.entries| && r == SuspendAllFrom(p, g)
    ensures Tidy(r)
    decreases |p.entries| - g
  {
    if g < |p.entries| {
      SuspendTidy(p, g);
      SuspendAllTidy(Suspend(p, g), g + 1, r);
    }
  }

  lemma {:induction false} SuspendAllPlaced(p: Pool, g: nat, r: Pool)
    requires Shaped(p) && Placed(p) && g <= |p.entries| && r == SuspendAllFrom(p, g)
    ensures Placed(r)
    decreases |p.entries| - g
  {
    if g < |p.entries| {
      SuspendPlaced(p, g);
      SuspendAllPlaced(Suspend(p, g), g + 1, r);
    }
  }

  lemma {:induction false} SuspendAllRest(p: Pool, g: nat, r: Pool)
    requires Shaped(p) && FreeIdle(p) && Steady(p.core) && g <= |p.entries| && r == SuspendAllFrom(p, g)
    ensures FreeIdle(r) && Steady(r.core)
    decreases |p.entries| - g
  {
    if g < |p.entries| {
      SuspendRest(p, g);
      SuspendAllRest(Suspend(p, g), g + 1, r);
    }
  }

  lemma SuspendAllBooks(p: Pool, g: nat, r: Pool)
    requires Books(p) && g <= |p.entries| && r == SuspendAllFrom(p, g)
    ensures Books(r)
  {
    SuspendAllTidy(p, g, r);
    SuspendAllPlaced(p, g, r);
    SuspendAllRest(p, g, r);
  }

  lemma {:induction false} QuietAllTidy(p: Pool, g: nat, r: Pool)
    requires Tidy(p) && g <= |p.entries| && r == ResumeAllFrom(p, g)
    ensures Tidy(r)
    decreases |p.entries| - g
  {
    if g < |p.entries| {
      ResumeQuietlyTidy(p, g);
      QuietAllTidy(ResumeQuietly(p, g), g + 1, r);
    }
  }

  lemma {:induction false} QuietAllPlaced(p: Pool, g: nat, r: Pool)
    requires Shaped(p) && Placed(p) && g <= |p.entries| && r == ResumeAllFrom(p, g)
    ensures Placed(r)
    decreases |p.entries| - g
  {
    if g < |p.entries| {
      QuietPlaced(p, g);
      QuietAllPlaced(ResumeQuietly(p, g), g + 1, r);
    }
  }

  lemma {:induction false} QuietAllRest(p: Pool, g: nat, r: Pool)
    requires Shaped(p) && FreeIdle(p) && Steady(p.core) && g <= |p.entries| && r == ResumeAllFrom(p, g)
    ensures FreeIdle(r) && Steady(r.core)
    decreases |p.entries| - g
  {
    if g < |p.entries| {
      QuietRest(p, g);
      QuietAllRest(ResumeQuietly(p, g), g + 1, r);
    }
  }

  lemma QuietAllBooks(p: Pool, g: nat, r: Pool)
    requires Books(p) && g <= |p.entries| && r == ResumeAllFrom(p, g)
    ensures Books(r)
  {
    QuietAllTidy(p, g, r);
    QuietAllPlaced(p, g, r);
    QuietAllRest(p, g, r);
  }

  lemma ResumeAllBooks(p: Pool)
    requires Books(p)
    ensures Books(ResumeAll(p))
  {
    QuietAllBooks(p, 0, ResumeAllFrom(p, 0));
    EnsuredBooks(ResumeAllFrom(p, 0));
  }

  // ---- the effective numbers of the steps not treated before ----

  lemma DiscardNumbers(p: Pool, t: Task, byPool: bool, exact: bool)
    requires Tidy(p) && Numbers(p, exact) && Owned(p, t)
    ensures Numbers(Discard(p, t, byPool), exact)
  {
    if t.id in p.stat && p.stat[t.id].again {
      CoreExact(p, Discard(p, t, byPool), exact);
    } else if t.id in p.stat && p.stat[t.id].place == Waiting {
      RemoveWaitingExact(p, t, byPool, exact);
    }
  }

  lemma {:induction false} DiscardAllNumbers(p: Pool, marks: seq<(Task, bool)>, exact: bool)
    requires Books(p) && Numbers(p, exact) && MarksInRange(p, marks) && Markable(p, marks)
    ensures Numbers(DiscardAll(p, marks), exact)
    decreases |marks|
  {
    if marks != [] {
      DiscardBooks(p, marks[0].0, marks[0].1);
      DiscardNumbers(p, marks[0].0, marks[0].1, exact);
      MarkableInRange(Discard(p, marks[0].0, marks[0].1), marks[1..]);
      DiscardAllNumbers(Discard(p, marks[0].0, marks[0].1), marks[1..], exact);
    }
  }

  lemma EnsuredNumbers(p: Pool, exact: bool)
    requires Shaped(p) && Numbers(p, exact)
    ensures Numbers(p.(core := Ensure(p.core)), exact)
  {
    EnsureJobs(p.core);
    CoreExact(p, p.(core := Ensure(p.core)), exact);
  }

  lemma MarkPoolNumbers(p: Pool, marks: seq<(Task, bool)>, flagged: bool, exact: bool)
    requires Books(p) && Numbers(p, exact) && MarksInRange(p, marks) && Markable(p, marks)
    ensures Numbers(MarkPool(p, marks, flagged), exact)
  {
    DiscardAllNumbers(p, marks, exact);
    EnsuredNumbers(DiscardAll(p, marks), exact);
  }

  lemma {:induction false} SuspendAllNumbers(p: Pool, g: nat, r: Pool, exact: bool)
    requires Tidy(p) && Numbers(p, exact) && g <= |p.entries| && r == SuspendAllFrom(p, g)
    ensures Numbers(r, exact)
    decreases |p.entries| - g
  {
    if g < |p.entries| {
      SuspendTidy(p, g);
      SuspendExact(p, g, exact);
      SuspendAllNumbers(Suspend(p, g), g + 1, r, exact);
    }
  }

  /** Resuming one group depends on that group alone, and changes no other. */
  lemma QuietLocal(p: Pool, q: Pool, g: nat)
    requires Shaped(p) && Shaped(q) && g < |p.entries| == |q.entries|
    ensures var r := ResumeQuietly(p, g);
      && (forall h :: 0 <= h < |p.entries| && h != g ==> r.entries[h] == p.entries[h])
      && (q.entries[g] == p.entries[g] ==> r.entries[g] == ResumeQuietly(q, g).entries[g])
  {
  }

  /** The entry `h` once every group from `g` on has been resumed. */
  lemma {:induction false} ResumeAllEntry(p: Pool, g: nat, h: nat)
    requires Shaped(p) && g <= |p.entries| && h < |p.entries|
    ensures ResumeAllFrom(p, g).entries[h] == (if h < g then p.entries[h] else ResumeQuietly(p, h).entries[h])
    decreases |p.entries| - g
  {
    if g < |p.entries| {
      var q := ResumeQuietly(p, g);
      QuietLocal(p, p, g);
      ResumeAllEntry(q, g + 1, h);
      if h != g { QuietLocal(q, p, h); }
    }
  }

  lemma {:induction false} QuietAllNumbers(p: Pool, g: nat, exact: bool)
    requires Books(p) && Numbers(p, exact) && g <= |p.entries| && AllRoomy(p, g, exact)
    ensures Numbers(ResumeAllFrom(p, g), exact)
    decreases |p.entries| - g, 1
  {
    if g < |p.entries| {
      QuietBooks(p, g);
      QuietNumbers(p, g, exact);
      QuietLocal(p, p, g);
      QuietAllOn(p, ResumeQuietly(p, g), g, exact);
    }
  }

  lemma {:induction false} QuietAllOn(p: Pool, q: Pool, g: nat, exact: bool)
    requires Books(q) && Numbers(q, exact) && g < |p.entries| == |q.entries| && AllRoomy(p, g, exact)
    requires forall h :: 0 <= h < |p.entries| && h != g ==> q.entries[h] == p.entries[h]
    ensures Numbers(ResumeAllFrom(q, g + 1), exact)
    decreases |p.entries| - g, 0
  {
    AllRoomyStep(p, q, g, exact);
    QuietAllNumbers(q, g + 1, exact);
  }

  lemma AllRoomyStep(p: Pool, q: Pool, g: nat, exact: bool)
    requires g < |p.entries| == |q.entries| && AllRoomy(p, g, exact)
    requires forall h :: 0 <= h < |p.entries| && h != g ==> q.entries[h] == p.entries[h]
    ensures AllRoomy(q, g + 1, exact)
  {
  }

  /** Resuming one group keeps the numbers if and only if it is safe, or there is nothing to resume. */
  lemma QuietNumbers(p: Pool, g: nat, exact: bool)
    requires Books(p) && Numbers(p, exact) && g < |p.entries|
    ensures var e := p.entries[g];
      Numbers(ResumeQuietly(p, g), exact) <==> (ValidEntry(e) && e.paused ==> ResumeSafe(e, exact))
  {
    EntriesCounted(p, g);
    if ValidEntry(p.entries[g]) && p.entries[g].paused {
      QuietExact(p, g, exact);
    } else {
      assert ResumeQuietly(p, g) == p;
    }
  }

  lemma ResumeNumbers(p: Pool, g: nat, exact: bool)
    requires Books(p) && Numbers(p, exact) && g < |p.entries|
    ensures Numbers(Resume(p, g), exact) <==> GroupSafe(p, g, ResumeGroup, exact)
  {
    QuietNumbers(p, g, exact);
    EnsureJobs(ResumeQuietly(p, g).core);
    SameNumbers(ResumeQuietly(p, g), Resume(p, g), exact);
  }

  lemma SameNumbers(p: Pool, r: Pool, exact: bool)
    requires r.entries == p.entries && r.core.pendings == p.core.pendings
    ensures Numbers(p, exact) <==> Numbers(r, exact)
  {
  }

  /** Resuming every group, and the service call that closes it, keep the numbers if and only if it is safe for each. */
  lemma ResumeAllNumbers(p: Pool, exact: bool)
    requires Books(p) && Numbers(p, exact)
    ensures Numbers(ResumeAll(p), exact) <==> AllRoomy(p, 0, exact)
  {
    var q := ResumeAllFrom(p, 0);
    EnsureJobs(q.core);
    SameNumbers(q, ResumeAll(p), exact);
    if AllRoomy(p, 0, exact) {
      QuietAllNumbers(p, 0, exact);
    } else {
      var h :| 0 <= h < |p.entries| && ValidEntry(p.entries[h]) && p.entries[h].paused
               && !ResumeSafe(p.entries[h], exact);
      EntriesCounted(p, h);
      QuietExact(p, h, exact);
      ResumeAllEntry(p, 0, h);
      assert !EffOk(q.entries[h], exact);
    }
  }

  lemma AdjustNumbers(p: Pool, hi: int, lo: int, exact: bool)
    requires Books(p) && Numbers(p, exact) && 0 <= lo <= hi
    ensures Numbers(Adjust(p, hi, lo), exact) <==> PoolSafe(p, AdjustPool(hi, lo), exact)
  {
    var p0 := p.(core := p.core.(maxthreads := hi, minthreads := lo));
    CoreTidy(p, p0);
    SameNumbers(p, p0, exact);
    forall h | 0 <= h < |p0.entries| ensures p0.entries[h].nrunnings >= 0 { EntriesCounted(p, h); }
    UpdateAllExactly(p0, exact);
    AdjustAbsJobs(UpdateAllFrom(p0, 0).core);
    SameNumbers(UpdateAllFrom(p0, 0), Adjust(p, hi, lo), exact);
  }

  /** Bounds with at least one thread give benefits to no group that had none: the numbers go on covering. */
  lemma AdjustCovers(p: Pool, hi: int, lo: int)
    requires Tidy(p) && Covers(p) && 1 <= hi
    ensures PoolSafe(p, AdjustPool(hi, lo), false)
  {
    forall g | 0 <= g < |p.entries| && !p.entries[g].free
      ensures var e := p.entries[g]; AttrSafe(e, hi, e.parallel, e.benefits, false)
    {
      assert EntryTidy(p.entries[g], g, p.pre.active[g]) && EffOk(p.entries[g], false);
    }
  }
}
