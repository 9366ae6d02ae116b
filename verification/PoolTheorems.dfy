/**
 The theorems over whole runs.
 */
module PoolTheorems {
  import opened Types
  import opened ThreadModel
  import opened ThreadCounts
  import opened ThreadSupply
  import opened ThreadStatus
  import opened ThreadBounds
  import opened ThreadJobs
  import opened PriorityOrder
  import opened PriorityQueue
  import opened ActivePrefix
  import opened GroupModel
  import opened GroupCounts
  import opened GroupShape
  import opened GroupExact
  import opened GroupPlaces
  import opened Scheduler
  import opened PoolSound
  import opened NoStranded
  import opened PoolRuns

  // ---- the thread manager's own steps ----

  lemma JobsMovedSame(c: Core, r: Core, i: nat)
    requires JobsMoved(c, r, i, false) && c.ths[i].status != Run
    ensures SameJobs(c, r)
  {
  }

  lemma EnterBooks(p: Pool, i: nat)
    requires Books(p) && i < |p.core.ths| && p.core.ths[i].status == Init
    ensures Books(p.(core := ToJoin(p.core, i)))
  {
    JoinKeepsCounts(p.core, i);
    CoreBooks(p, p.(core := ToJoin(p.core, i)));
  }

  lemma SleepBooks(p: Pool, i: nat)
    requires Books(p) && i < |p.core.ths| && Awake(p.core.ths[i]) && !p.core.ths[i].rm
    ensures Books(p.(core := ToWait(p.core, i)))
  {
    WaitKeepsCounts(p.core, i);
    CoreBooks(p, p.(core := ToWait(p.core, i)));
  }

  lemma WakeBooks(p: Pool, i: nat)
    requires Books(p) && i < |p.core.ths| && p.core.ths[i].status == Wait && p.core.ths[i].waked
    ensures Books(p.(core := ToFree(p.core, i))) <==> !ExitCallsBack(p.core, i)
  {
    FreeSteady(p.core, i);
    ToFreeJobs(p.core, i);
    JobsMovedSame(p.core, ToFree(p.core, i), i);
    CoreBooks(p, p.(core := ToFree(p.core, i)));
  }

  lemma ExpireBooks(p: Pool, i: nat, mayQuit: bool)
    requires Books(p) && i < |p.core.ths| && p.core.ths[i].status == Wait
    ensures Books(p.(core := ToTimedout(p.core, i, mayQuit))) <==> !ExitCallsBack(p.core, i)
  {
    TimedoutSteady(p.core, i, mayQuit);
    ToTimedoutJobs(p.core, i, mayQuit);
    JobsMovedSame(p.core, ToTimedout(p.core, i, mayQuit), i);
    CoreBooks(p, p.(core := ToTimedout(p.core, i, mayQuit)));
  }

  lemma QuitBooks(p: Pool, i: nat)
    requires Books(p) && i < |p.core.ths| && Awake(p.core.ths[i]) && MayQuit(p.core, i)
    ensures Books(p.(core := ToForceQuit(p.core, i)))
  {
    ForceQuitSteady(p.core, i);
    CoreBooks(p, p.(core := ToForceQuit(p.core, i)));
  }

  lemma ExitBooks(p: Pool, i: nat)
    requires Books(p) && i < |p.core.ths| && CanLeave(p.core.ths[i])
    ensures Books(p.(core := ToLeave(p.core, i)))
  {
    LeaveKeepsCounts(p.core, i);
    CoreBooks(p, p.(core := ToLeave(p.core, i)));
  }

  lemma PauseBooks(p: Pool)
    requires Books(p)
    ensures Books(p.(core := SuspendCore(p.core))) && Books(p.(core := ResumeCore(p.core)))
  {
    WorkWrite(p.core, SuspendCore(p.core));
    CoreBooks(p, p.(core := SuspendCore(p.core)));
    ResumeCoreSteady(p.core);
    EnsureJobs(p.core.(paused := false));
    CoreBooks(p, p.(core := ResumeCore(p.core)));
  }

  lemma FlushBooks(p: Pool)
    requires Books(p)
    ensures Books(p.(core := Flush(p.core)))
  {
    FlushBounds(p.core);
    FlushJobs(p.core);
    CoreBooks(p, p.(core := Flush(p.core)));
  }

  lemma CollectBooks(p: Pool, flushable: bool)
    requires Books(p)
    ensures Books(p.(core := TryGC(p.core, flushable))) <==> PoolGuard(p, CollectGarbage(flushable))
  {
    TryGCBounds(p.core, flushable);
    TryGCJobs(p.core, flushable);
    CoreBooks(p, p.(core := TryGC(p.core, flushable)));
  }

  // ---- any step ----

  lemma TaskStepBooks(p: Pool, t: Task, op: TaskOp)
    requires Books(p) && TaskEnabled(p, t, op)
    ensures Books(ApplyTask(p, t, op))
  {
    match op
    case Queue => QueueBooks(p, t);
    case RemoveOne(byPool) => RemoveBooks(p, t, byPool);
    case MarkOneTask(byPool) => DiscardBooks(p, t, byPool);
    case HandlerDone(detached) => HandlerBooks(p, t, detached);
  }

  lemma GroupStepBooks(p: Pool, g: nat, op: GroupOp)
    requires Books(p) && GroupEnabled(p, g, op)
    ensures Books(ApplyGroup(p, g, op)) <==> GroupGuard(p, g, op)
  {
    match op
    case SuspendGroup => SuspendBooks(p, g);
    case ResumeGroup => ResumeBooks(p, g);
    case SetGroupAttr(parallel, benefits) => SetAttrBooks(p, g, parallel, benefits);
    case CreateGroup(priqNum, suspend) => CreateBooks(p, g, priqNum, suspend);
    case DeleteGroup => DeleteBooks(p, g);
    case VacateGroup => VacateBooks(p, g);
  }

  lemma PoolStepBooks(p: Pool, op: PoolOp)
    requires Books(p) && PoolEnabled(p, op)
    ensures Books(ApplyPool(p, op)) <==> PoolGuard(p, op)
  {
    match op
    case GrowGroups => GrowBooks(p);
    case SuspendPool => PauseBooks(p);
    case ResumePool => PauseBooks(p);
    case AdjustPool(hi, lo) => AdjustBooks(p, hi, lo);
    case FlushPool => FlushBooks(p);
    case CollectGarbage(flushable) => CollectBooks(p, flushable);
    case SuspendGroups => SuspendAllBooks(p, 0, SuspendAllFrom(p, 0));
    case ResumeGroups => ResumeAllBooks(p);
    case MarkTasks(marks, flagged) => MarkPoolBooks(p, marks, flagged);
  }

  lemma ThreadStepBooks(p: Pool, i: nat, op: ThreadOp)
    requires Books(p) && ThreadEnabled(p, i, op)
    ensures Books(ApplyThread(p, i, op)) <==> ThreadGuard(p, i, op)
  {
    match op
    case Take => TakeBooks(p, i);
    case Done(detached) => DoneBooks(p, i, detached);
    case Enter => EnterBooks(p, i);
    case Sleep => SleepBooks(p, i);
    case Wake => WakeBooks(p, i);
    case Expire(mayQuit) => ExpireBooks(p, i, mayQuit);
    case Quit => QuitBooks(p, i);
    case Exit => ExitBooks(p, i);
  }

  /** The books of the pool, one step: a step keeps them if and only if its guard holds. */
  lemma StepBooks(p: Pool, op: Op)
    requires Books(p) && Enabled(p, op)
    ensures Books(Apply(p, op)) <==> Guard(p, op)
  {
    match op
    case OnTask(t, o) => TaskStepBooks(p, t, o);
    case OnGroup(g, o) => GroupStepBooks(p, g, o);
    case OnPool(o) => PoolStepBooks(p, o);
    case ByThread(i, o) => ThreadStepBooks(p, i, o);
  }

  lemma TaskStepNumbers(p: Pool, t: Task, op: TaskOp, exact: bool)
    requires Books(p) && Numbers(p, exact) && TaskEnabled(p, t, op)
    ensures Numbers(ApplyTask(p, t, op), exact)
  {
    match op
    case Queue => QueueTaskExact(p, t, exact);
    case RemoveOne(byPool) => RemoveTaskExact(p, t, byPool, exact);
    case MarkOneTask(byPool) => DiscardNumbers(p, t, byPool, exact);
    case HandlerDone(detached) => DispatchedExact(p, t, detached, exact);
  }

  lemma GroupStepNumbers(p: Pool, g: nat, op: GroupOp, exact: bool)
    requires Books(p) && Numbers(p, exact) && GroupEnabled(p, g, op)
    ensures Numbers(ApplyGroup(p, g, op), exact) <==> GroupSafe(p, g, op, exact)
  {
    match op
    case SuspendGroup => SuspendExact(p, g, exact);
    case ResumeGroup => ResumeNumbers(p, g, exact);
    case SetGroupAttr(parallel, benefits) =>
      EntriesCounted(p, g);
      SetAttrExact(p, g, parallel, benefits, exact);
    case CreateGroup(priqNum, suspend) => OccupyExact(p, g, priqNum, suspend, exact);
    case DeleteGroup => NeutralExact(p, SetEntry(p, g, p.entries[g].(destroying := true)), g, exact);
    case VacateGroup => VacateExact(p, g, exact);
  }

  /** The steps of the pool that leave its groups alone. */
  lemma CoreStepNumbers(p: Pool, op: PoolOp, exact: bool)
    requires Shaped(p) && Numbers(p, exact)
    requires op.SuspendPool? || op.ResumePool? || op.FlushPool? || op.CollectGarbage?
    ensures Numbers(ApplyPool(p, op), exact)
  {
    EnsureJobs(p.core.(paused := false));
    FlushJobs(p.core);
    if op.CollectGarbage? { TryGCJobs(p.core, op.flushable); }
    SameNumbers(p, ApplyPool(p, op), exact);
  }

  lemma PoolStepNumbers(p: Pool, op: PoolOp, exact: bool)
    requires Books(p) && Numbers(p, exact) && PoolEnabled(p, op)
    ensures Numbers(ApplyPool(p, op), exact) <==> PoolSafe(p, op, exact)
  {
    match op
    case GrowGroups => GrowPoolExact(p, exact);
    case SuspendPool => CoreStepNumbers(p, op, exact);
    case ResumePool => CoreStepNumbers(p, op, exact);
    case AdjustPool(hi, lo) => AdjustNumbers(p, hi, lo, exact);
    case FlushPool => CoreStepNumbers(p, op, exact);
    case CollectGarbage(flushable) => CoreStepNumbers(p, op, exact);
    case SuspendGroups => SuspendAllNumbers(p, 0, SuspendAllFrom(p, 0), exact);
    case ResumeGroups => ResumeAllNumbers(p, exact);
    case MarkTasks(marks, flagged) => MarkPoolNumbers(p, marks, flagged, exact);
  }

  lemma ThreadStepNumbers(p: Pool, i: nat, op: ThreadOp, exact: bool)
    requires Books(p) && Numbers(p, exact) && ThreadEnabled(p, i, op)
    ensures Numbers(ApplyThread(p, i, op), exact)
  {
    match op
    case Take => GetTaskExact(p, i, exact);
    case Done(detached) => DoneNumbers(p, i, detached, exact);
    case Wake => ToFreeJobs(p.core, i); SameNumbers(p, ApplyThread(p, i, op), exact);
    case Expire(mayQuit) => ToTimedoutJobs(p.core, i, mayQuit); SameNumbers(p, ApplyThread(p, i, op), exact);
    case Enter => SameNumbers(p, ApplyThread(p, i, op), exact);
    case Sleep => SameNumbers(p, ApplyThread(p, i, op), exact);
    case Quit => SameNumbers(p, ApplyThread(p, i, op), exact);
    case Exit => SameNumbers(p, ApplyThread(p, i, op), exact);
  }

  lemma DoneNumbers(p: Pool, i: nat, detached: bool, exact: bool)
    requires Books(p) && Numbers(p, exact) && ThreadEnabled(p, i, Done(detached))
    ensures Numbers(Finish(p, i, detached), exact)
  {
    HeldInUse(p, i);
    FinishExact(p, i, detached, exact);
  }

  /** The effective numbers, one step: it keeps them exact, or covering, if and only if it is safe. */
  lemma StepNumbers(p: Pool, op: Op, exact: bool)
    requires Books(p) && Numbers(p, exact) && Enabled(p, op)
    ensures Numbers(Apply(p, op), exact) <==> Safe(p, op, exact)
  {
    match op
    case OnTask(t, o) => TaskStepNumbers(p, t, o, exact);
    case OnGroup(g, o) => GroupStepNumbers(p, g, o, exact);
    case OnPool(o) => PoolStepNumbers(p, o, exact);
    case ByThread(i, o) => ThreadStepNumbers(p, i, o, exact);
  }

  /**
   The main theorem, one step.  From a state with the invariant, a step keeps it if and only if
   its guard holds and it is safe: the places where the source may leave its counters wrong, exactly.
   */
  lemma StepExactly(p: Pool, op: Op)
    requires Inv(p) && Enabled(p, op)
    ensures Inv(Apply(p, op)) <==> Guard(p, op) && Safe(p, op, true)
  {
    StepBooks(p, op);
    StepNumbers(p, op, true);
  }

  /** Resuming every group, with its closing service call, keeps the invariant exactly when it is safe for each. */
  lemma ResumeAllExactly(p: Pool)
    requires Inv(p)
    ensures Inv(ResumeAll(p)) <==> AllRoomy(p, 0, true)
  {
    ResumeAllBooks(p);
    ResumeAllNumbers(p, true);
  }

  // ---- any run ----

  /** The run takes only steps that are enabled and guarded where they are taken. */
  ghost predicate Follows(p: Pool, ops: seq<Op>)
    requires Shaped(p)
    decreases |ops|
  {
    ops == [] || (Enabled(p, ops[0]) && Guard(p, ops[0]) && Follows(Apply(p, ops[0]), ops[1..]))
  }

  ghost function After(p: Pool, ops: seq<Op>): (r: Pool)
    requires Shaped(p) && Follows(p, ops)
    ensures Shaped(r)
    decreases |ops|
  {
    if ops == [] then p else After(Apply(p, ops[0]), ops[1..])
  }

  /** Every step of the run is safe for the effective numbers where it is taken. */
  ghost predicate Careful(p: Pool, ops: seq<Op>, exact: bool)
    requires Shaped(p) && Follows(p, ops)
    decreases |ops|
  {
    ops == [] || (Safe(p, ops[0], exact) && Careful(Apply(p, ops[0]), ops[1..], exact))
  }

  /** Over every run the books stay right, whatever is resumed, and whatever the attributes and bounds become. */
  lemma {:induction false} RunKeepsBooks(p: Pool, ops: seq<Op>)
    requires Books(p) && Follows(p, ops)
    ensures Books(After(p, ops))
    decreases |ops|
  {
    if ops != [] {
      StepBooks(p, ops[0]);
      RunKeepsBooks(Apply(p, ops[0]), ops[1..]);
    }
  }

  /** A run of safe steps keeps the effective numbers exact, or covering. */
  lemma {:induction false} RunKeepsNumbers(p: Pool, ops: seq<Op>, exact: bool)
    requires Books(p) && Numbers(p, exact) && Follows(p, ops) && Careful(p, ops, exact)
    ensures Books(After(p, ops)) && Numbers(After(p, ops), exact)
    decreases |ops|
  {
    if ops != [] {
      StepBooks(p, ops[0]);
      StepNumbers(p, ops[0], exact);
      RunKeepsNumbers(Apply(p, ops[0]), ops[1..], exact);
    }
  }

  lemma RunKeepsInv(p: Pool, ops: seq<Op>)
    requires Inv(p) && Follows(p, ops) && Careful(p, ops, true)
    ensures Inv(After(p, ops))
  {
    RunKeepsNumbers(p, ops, true);
  }

  /** A newly made pool has the invariant. */
  lemma NewPoolInv(maxthreads: int, minthreads: int, perTime: int, paused: bool, priqNum: nat, tailFirst: bool)
    requires perTime >= 1 && 1 <= priqNum <= 99
    ensures Inv(NewPool(NewCore(maxthreads, minthreads, perTime, paused), priqNum, tailFirst))
  {
    var c := NewCore(maxthreads, minthreads, perTime, paused);
    NewCoreBounds(maxthreads, minthreads, perTime, paused);
    NewCoreIdle(maxthreads, minthreads, perTime, paused);
    NewPoolTidy(c, priqNum, tailFirst);
    NewPoolExact(c, priqNum, tailFirst, true);
    var p := Pool(c, [], Prefix([], [], [], 0, 0), 0, 0, 0, 0, false, map[], [], tailFirst);
    NothingPlaced(p);
    assert Tidy(p) && FreeIdle(p);
    GrowPoolTidy(p);
    GrowPoolPlaced(p);
    OccupyPlaced(GrowPool(p), 0, priqNum, false);
  }

  lemma NewCoreIdle(maxthreads: int, minthreads: int, perTime: int, paused: bool)
    ensures var c := NewCore(maxthreads, minthreads, perTime, paused);
      c.pendings == 0 && c.dispatchs == [] && c.maxthreads >= 1 && forall i :: 0 <= i < |c.ths| ==> c.ths[i] == NEWBORN
  {
    var hi := Max(1, maxthreads);
    var lo := Min(Max(0, minthreads), hi);
    AddThreadsJobs(Core([], [], 0, 0, 0, 0, 0, 0, 0, 0, 0, hi, lo, perTime, paused, 0, []), lo);
  }

  lemma NothingPlaced(p: Pool)
    requires p.entries == [] && p.core.dispatchs == [] && p.removing == [] && p.stat == map[]
    requires p.ndispatchings == 0 && p.ntraces == 0 && forall i :: 0 <= i < |p.core.ths| ==> p.core.ths[i] == NEWBORN
    ensures Placed(p)
  {
    forall s ensures TallyOf(p, s) == Tally(0, 0, 0) {
      SameLoad([], p.core.ths, Runs(s));
      SameLoad([], p.core.ths, Batches(s));
    }
  }

  // ---- what the books and the invariant say of every reachable state ----

  /** The equations of VERIFY, the bounds and the conservation laws hold whenever the books are right. */
  lemma BooksConsequences(p: Pool)
    requires Books(p)
    ensures var c := p.core;
      && c.realPool == c.sleeping + c.realFree + (c.running - c.dyingRun)
      && c.qths <= c.qthsWait + c.qthsWaked + c.running + (c.dying - c.dyingRun) + c.realFree
      && 0 <= c.minthreads <= c.realPool <= c.maxthreads && c.realFree >= 0
      && c.running == Sum(p.entries, InRun) + Count(c.ths, HoldsBatch)
    ensures Sum(p.entries, InDispatch) == p.ndispatchings + |p.core.dispatchs|
    ensures p.npendings == Sum(p.entries, Pending)
    ensures p.pre.nactives == |set g: nat | g < |p.pre.act| && p.pre.active[g]|
  {
    CountersBalance(p.core);
    assert Drift(p.core, Running) == 0;
    Conserved(p);
    NactivesCounts(p.pre);
  }

  /** What the group adds to the count: all its pending tasks with benefits, else those that have a slot. */
  predicate StartableExact(e: Entry)
  {
    Of(e, Startable) == if e.benefits && !e.paused then e.npendings else Effective(e)
  }

  /** With the invariant the count of startable tasks is right too, and a take ends. */
  lemma InvConsequences(p: Pool, i: nat)
    requires Inv(p)
    ensures p.core.pendings == Sum(p.entries, Startable) >= 0
    ensures forall g :: 0 <= g < |p.entries| ==> StartableExact(p.entries[g])
    ensures i < |p.core.ths| ==> !GetTask(p, i).Spins?
  {
    PendingsNonNegative(p, true);
    forall g | 0 <= g < |p.entries| ensures StartableExact(p.entries[g]) { assert EffOk(p.entries[g], true); }
    if i < |p.core.ths| { TakeTerminates(p, i); }
  }

  // ---- the limit over runs ----

  lemma RemoveWithin(p: Pool, t: Task, byPool: bool)
    requires Shaped(p) && WithinLimits(p) && t.gid < |p.entries|
    ensures WithinLimits(RemoveTask(p, t, byPool).0) && WithinLimits(Discard(p, t, byPool))
  {
    RemoveRunsNoMore(p, t, byPool);
    RunsNoMoreWithin(p, RemoveWaiting(p, t, byPool));
  }

  lemma TaskStepWithin(p: Pool, t: Task, op: TaskOp)
    requires Books(p) && WithinLimits(p) && TaskEnabled(p, t, op)
    ensures WithinLimits(ApplyTask(p, t, op))
  {
    match op
    case Queue => QueueRunsNoMore(p, t); RunsNoMoreWithin(p, QueueTask(p, t).0);
    case RemoveOne(byPool) => RemoveWithin(p, t, byPool);
    case MarkOneTask(byPool) => RemoveWithin(p, t, byPool);
    case HandlerDone(detached) => DispatchedRunsNoMore(p, t, detached); RunsNoMoreWithin(p, Dispatched(p, t, detached));
  }

  lemma PauseWithin(p: Pool, g: nat)
    requires Shaped(p) && WithinLimits(p) && g < |p.entries|
    ensures WithinLimits(Suspend(p, g)) && WithinLimits(Resume(p, g))
  {
    assert RunsNoMore(p, Suspend(p, g));
    assert RunsNoMore(p, ResumeQuietly(p, g));
  }

  /** A new group receives benefits. */
  lemma CreateWithin(p: Pool, g: nat, priqNum: nat, suspend: bool)
    requires Shaped(p) && WithinLimits(p) && g < |p.entries| && 1 <= priqNum <= 99
    ensures WithinLimits(Occupy(p, g, priqNum, suspend))
  {
    var r := Occupy(p, g, priqNum, suspend);
    assert r.entries == p.entries[g := r.entries[g]] && r.entries[g].benefits;
  }

  lemma GroupStepWithin(p: Pool, g: nat, op: GroupOp)
    requires Books(p) && WithinLimits(p) && GroupEnabled(p, g, op) && !op.SetGroupAttr?
    ensures WithinLimits(ApplyGroup(p, g, op))
  {
    match op
    case SuspendGroup => PauseWithin(p, g);
    case ResumeGroup => PauseWithin(p, g);
    case CreateGroup(priqNum, suspend) => CreateWithin(p, g, priqNum, suspend);
    case DeleteGroup => assert RunsNoMore(p, SetEntry(p, g, p.entries[g].(destroying := true)));
    case VacateGroup => assert RunsNoMore(p, Vacate(p, g));
  }

  lemma {:induction false} SuspendAllRunsNoMore(p: Pool, q: Pool, g: nat)
    requires Shaped(q) && g <= |q.entries| && RunsNoMore(p, q)
    ensures RunsNoMore(p, SuspendAllFrom(q, g))
    decreases |q.entries| - g
  {
    if g < |q.entries| {
      assert RunsNoMore(p, Suspend(q, g));
      SuspendAllRunsNoMore(p, Suspend(q, g), g + 1);
    }
  }

  lemma {:induction false} ResumeAllRunsNoMore(p: Pool, q: Pool, g: nat)
    requires Shaped(q) && g <= |q.entries| && RunsNoMore(p, q)
    ensures RunsNoMore(p, ResumeAllFrom(q, g))
    decreases |q.entries| - g
  {
    if g < |q.entries| {
      assert RunsNoMore(p, ResumeQuietly(q, g));
      ResumeAllRunsNoMore(p, ResumeQuietly(q, g), g + 1);
    }
  }

  lemma {:induction false} DiscardAllRunsNoMore(p: Pool, q: Pool, marks: seq<(Task, bool)>)
    requires Shaped(q) && MarksInRange(q, marks) && RunsNoMore(p, q)
    ensures RunsNoMore(p, DiscardAll(q, marks))
    decreases |marks|
  {
    if marks != [] {
      RemoveRunsNoMore(q, marks[0].0, marks[0].1);
      DiscardAllRunsNoMore(p, Discard(q, marks[0].0, marks[0].1), marks[1..]);
    }
  }

  lemma PauseAllWithin(p: Pool)
    requires Shaped(p) && WithinLimits(p)
    ensures WithinLimits(SuspendAllFrom(p, 0)) && WithinLimits(ResumeAll(p))
  {
    SuspendAllRunsNoMore(p, p, 0);
    RunsNoMoreWithin(p, SuspendAllFrom(p, 0));
    ResumeAllRunsNoMore(p, p, 0);
    RunsNoMoreWithin(p, ResumeAllFrom(p, 0));
  }

  lemma MarkPoolWithin(p: Pool, marks: seq<(Task, bool)>, flagged: bool)
    requires Shaped(p) && WithinLimits(p) && MarksInRange(p, marks)
    ensures WithinLimits(MarkPool(p, marks, flagged))
  {
    DiscardAllRunsNoMore(p, p, marks);
    RunsNoMoreWithin(p, DiscardAll(p, marks));
  }

  lemma CoreStepWithin(p: Pool, op: PoolOp)
    requires Shaped(p) && WithinLimits(p)
    requires op.SuspendPool? || op.ResumePool? || op.FlushPool? || op.CollectGarbage?
    ensures WithinLimits(ApplyPool(p, op))
  {
    RunsNoMoreWithin(p, ApplyPool(p, op));
  }

  lemma PoolStepWithin(p: Pool, op: PoolOp)
    requires Books(p) && WithinLimits(p) && PoolEnabled(p, op) && !op.AdjustPool?
    ensures WithinLimits(ApplyPool(p, op))
  {
    if op.SuspendGroups? || op.ResumeGroups? {
      PauseAllWithin(p);
    } else if op.MarkTasks? {
      MarkPoolWithin(p, op.marks, op.flagged);
    } else if !op.GrowGroups? {
      CoreStepWithin(p, op);
    }
  }

  lemma ThreadStepWithin(p: Pool, i: nat, op: ThreadOp)
    requires Books(p) && WithinLimits(p) && ThreadEnabled(p, i, op)
    ensures WithinLimits(ApplyThread(p, i, op))
  {
    if op.Take? { GetTaskWithinLimits(p, i); }
    if op.Done? { FinishRunsNoMore(p, i, op.detached); RunsNoMoreWithin(p, Finish(p, i, op.detached)); }
  }

  /** Limits are kept by every step that does not change them. */
  lemma StepWithinLimits(p: Pool, op: Op)
    requires Books(p) && WithinLimits(p) && Enabled(p, op)
    requires !(op.OnGroup? && op.group.SetGroupAttr?) && !(op.OnPool? && op.pool.AdjustPool?)
    ensures WithinLimits(Apply(p, op))
  {
    match op
    case OnTask(t, o) => TaskStepWithin(p, t, o);
    case OnGroup(g, o) => GroupStepWithin(p, g, o);
    case OnPool(o) => PoolStepWithin(p, o);
    case ByThread(i, o) => ThreadStepWithin(p, i, o);
  }

  ghost predicate FixedLimits(ops: seq<Op>)
  {
    forall k :: 0 <= k < |ops| ==>
      !(ops[k].OnGroup? && ops[k].group.SetGroupAttr?) && !(ops[k].OnPool? && ops[k].pool.AdjustPool?)
  }

  lemma FixedLimitsTail(ops: seq<Op>)
    requires FixedLimits(ops) && ops != []
    ensures FixedLimits(ops[1..])
    ensures !(ops[0].OnGroup? && ops[0].group.SetGroupAttr?) && !(ops[0].OnPool? && ops[0].pool.AdjustPool?)
  {
  }

  /** In a run with fixed limits no group without benefits ever runs more tasks than its limit. */
  lemma {:induction false} RunWithinLimits(p: Pool, ops: seq<Op>)
    requires Books(p) && WithinLimits(p) && Follows(p, ops) && FixedLimits(ops)
    ensures WithinLimits(After(p, ops))
    decreases |ops|
  {
    if ops != [] {
      FixedLimitsTail(ops);
      StepBooks(p, ops[0]);
      StepWithinLimits(p, ops[0]);
      RunWithinLimits(Apply(p, ops[0]), ops[1..]);
    }
  }

  // ---- suspending every group ----

  /** Nothing is pending any more, unless a group that is being destroyed still has tasks. */
  lemma SuspendAllStops(p: Pool)
    requires Books(p)
    ensures var r := SuspendAllFrom(p, 0);
      r.npendings == 0 <==> forall g :: 0 <= g < |p.entries| ==>
        p.entries[g].destroying && !p.entries[g].paused ==> p.entries[g].npendings == 0
  {
    SuspendAllBooks(p, 0, SuspendAllFrom(p, 0));
    SuspendAllStopped(p, 0);
    StoppedSum(p, SuspendAllFrom(p, 0));
  }

  lemma StoppedSum(p: Pool, r: Pool)
    requires Tidy(r) && AllStopped(p, r, 0)
    ensures r.npendings == 0 <==> forall g :: 0 <= g < |p.entries| ==>
      p.entries[g].destroying && !p.entries[g].paused ==> p.entries[g].npendings == 0
  {
    PendingNonNegative(r);
    forall g | 0 <= g < |r.entries|
      ensures Of(r.entries[g], Pending) == 0 <==>
              (p.entries[g].destroying && !p.entries[g].paused ==> p.entries[g].npendings == 0)
    {
      assert Stopped(p.entries[g], r.entries[g]) && EntryTidy(r.entries[g], g, r.pre.active[g]);
    }
    if r.npendings == 0 {
      forall g | 0 <= g < |r.entries| ensures Of(r.entries[g], Pending) == 0 { SumMember(r.entries, g, Pending); }
    } else if forall g :: 0 <= g < |r.entries| ==> Of(r.entries[g], Pending) == 0 {
      SumZero(r.entries, Pending);
    }
  }

  // ---- no stranded work ----

  /**
   The steps of the no-stranded-work property: no flush and no bounds that take threads out of service,
   takers that are not marked, and no handing of a group's tasks to the pool's threads by marking while
   nobody attends.
   */
  predicate Staffed(p: Pool, op: Op)
  {
    match op
    case OnTask(t, o) => o.MarkOneTask? && o.byPool && t.handler ==> Attended(p.core)
    case OnGroup(g, o) => true
    case OnPool(o) =>
      && (o.AdjustPool? ==> 1 <= o.maxthreads && p.core.realPool <= o.maxthreads)
      && (o.FlushPool? ==> p.core.realPool <= p.core.minthreads)
    case ByThread(i, o) => o.Take? && i < |p.core.ths| ==> !p.core.ths[i].rm
  }

  /** The steps of a thread that finds nothing to do. */
  lemma RestManned(c: Core, i: nat)
    requires i < |c.ths| && Manned(c)
    ensures c.ths[i].status == Init ==> Manned(ToJoin(c, i))
    ensures Awake(c.ths[i]) && !c.ths[i].rm && !HasWork(c) ==> Manned(ToWait(c, i))
    ensures Awake(c.ths[i]) && !HasWork(c) ==> Manned(ToForceQuit(c, i))
    ensures CanLeave(c.ths[i]) ==> Manned(ToLeave(c, i))
  {
  }

  lemma ThreadStepManned(p: Pool, i: nat, op: ThreadOp)
    requires Books(p) && Covers(p) && Manned(p.core) && ThreadEnabled(p, i, op) && Staffed(p, ByThread(i, op))
    ensures Manned(ApplyThread(p, i, op).core)
  {
    match op
    case Take => GetTaskManned(p, i);
    case Done(detached) => FinishManned(p, i, detached);
    case Wake => FreeManned(p.core, i);
    case Expire(mayQuit) => TimedoutManned(p.core, i, mayQuit);
    case Enter => RestManned(p.core, i);
    case Sleep => RestManned(p.core, i);
    case Quit => RestManned(p.core, i);
    case Exit => RestManned(p.core, i);
  }

  lemma QueueManned(p: Pool, t: Task)
    requires Shaped(p) && Steady(p.core) && Manned(p.core) && p.core.pendings >= 0
    ensures Manned(QueueTask(p, t).0.core)
  {
    if t.gid < |p.entries| { DeliverManned(Trace(p, t.gid), t.gid, t); }
  }

  lemma DispatchedManned(p: Pool, t: Task, detached: bool)
    requires Shaped(p) && t.gid < |p.entries| && Steady(p.core) && Manned(p.core) && p.core.pendings >= 0
    ensures Manned(Dispatched(p, t, detached).core)
  {
    if !(detached || !WantsAgain(p, t.id)) { DeliverManned(Handled(p, t), t.gid, t); }
  }

  lemma TaskStepManned(p: Pool, t: Task, op: TaskOp)
    requires Books(p) && Covers(p) && Manned(p.core) && TaskEnabled(p, t, op) && Staffed(p, OnTask(t, op))
    ensures Manned(ApplyTask(p, t, op).core)
  {
    PendingsNonNegative(p, false);
    match op
    case Queue => QueueManned(p, t);
    case RemoveOne(byPool) => RemoveTaskManned(p, t, byPool);
    case MarkOneTask(byPool) =>
      if t.id in p.stat && p.stat[t.id] == Stat(Waiting, false) { DiscardManned(p, t, byPool); }
    case HandlerDone(detached) => DispatchedManned(p, t, detached);
  }

  lemma GroupStepManned(p: Pool, g: nat, op: GroupOp)
    requires Books(p) && Covers(p) && Manned(p.core) && GroupEnabled(p, g, op)
    ensures Manned(ApplyGroup(p, g, op).core)
  {
    PendingsNonNegative(p, false);
    match op
    case SuspendGroup => SuspendManned(p, g);
    case ResumeGroup => ResumeManned(p, g);
    case SetGroupAttr(parallel, benefits) => SetAttrManned(p, g, parallel, benefits);
    case CreateGroup(priqNum, suspend) => assert EntryTidy(p.entries[g], g, p.pre.active[g]);
    case DeleteGroup =>
    case VacateGroup =>
  }

  /** Only the count of startable tasks changes, and not upwards. */
  predicate FewerPending(c: Core, r: Core) { r == c.(pendings := r.pendings) && r.pendings <= c.pendings }

  predicate Signed(e: Entry) { e.npendings >= 0 && e.eff >= 0 }

  lemma SuspendFewer(p: Pool, g: nat)
    requires Shaped(p) && g < |p.entries| && Signed(p.entries[g])
    ensures var r := Suspend(p, g);
      r.entries == p.entries[g := r.entries[g]] && Signed(r.entries[g]) && FewerPending(p.core, r.core)
  {
  }

  lemma {:induction false} SuspendAllFewer(p: Pool, g: nat, r: Pool)
    requires Shaped(p) && g <= |p.entries| && r == SuspendAllFrom(p, g)
    requires forall h :: 0 <= h < |p.entries| ==> Signed(p.entries[h])
    ensures FewerPending(p.core, r.core)
    decreases |p.entries| - g
  {
    if g < |p.entries| {
      SuspendFewer(p, g);
      SuspendAllFewer(Suspend(p, g), g + 1, r);
    }
  }

  lemma EntriesSigned(p: Pool)
    requires Tidy(p) && Covers(p)
    ensures forall h :: 0 <= h < |p.entries| ==> Signed(p.entries[h])
  {
    forall h | 0 <= h < |p.entries| ensures Signed(p.entries[h]) {
      assert EntryTidy(p.entries[h], h, p.pre.active[h]) && EffOk(p.entries[h], false);
    }
  }

  lemma SuspendAllCounted(p: Pool, r: Pool)
    requires Books(p) && Covers(p) && r == SuspendAllFrom(p, 0)
    ensures r.core.pendings >= 0
  {
    SuspendAllBooks(p, 0, r);
    SuspendAllNumbers(p, 0, r, false);
    PendingsNonNegative(r, false);
  }

  lemma SuspendAllManned(p: Pool)
    requires Books(p) && Covers(p) && Manned(p.core)
    ensures Manned(SuspendAllFrom(p, 0).core)
  {
    var r := SuspendAllFrom(p, 0);
    EntriesSigned(p);
    SuspendAllFewer(p, 0, r);
    SuspendAllCounted(p, r);
    FewerManned(p.core, r.core);
  }

  lemma FewerManned(c: Core, r: Core)
    requires Manned(c) && FewerPending(c, r) && r.pendings >= 0
    ensures Manned(r)
  {
  }

  lemma QuietCore(p: Pool, g: nat)
    requires Shaped(p) && g < |p.entries|
    ensures ResumeQuietly(p, g).core == p.core.(pendings := ResumeQuietly(p, g).core.pendings)
  {
  }

  lemma {:induction false} ResumeAllCore(p: Pool, g: nat, r: Pool)
    requires Shaped(p) && g <= |p.entries| && r == ResumeAllFrom(p, g)
    ensures r.core == p.core.(pendings := r.core.pendings)
    decreases |p.entries| - g
  {
    if g < |p.entries| {
      QuietCore(p, g);
      ResumeAllCore(ResumeQuietly(p, g), g + 1, r);
    }
  }

  lemma ResumeAllManned(p: Pool)
    requires Books(p) && Covers(p) && Manned(p.core)
    ensures Manned(ResumeAll(p).core)
  {
    var q := ResumeAllFrom(p, 0);
    QuietAllBooks(p, 0, q);
    QuietAllNumbers(p, 0, false);
    PendingsNonNegative(q, false);
    ResumeAllCore(p, 0, q);
    GuardedEnsureManned(q.core);
  }

  lemma DiscardCore(p: Pool, t: Task, byPool: bool)
    requires Shaped(p) && t.gid < |p.entries|
    ensures var c := Discard(p, t, byPool).core; c == p.core.(pendings := c.pendings, dispatchs := c.dispatchs)
  {
    var q := Dispose(p, t, byPool);
    assert q.core == p.core.(dispatchs := q.core.dispatchs);
    UnqueueCore(q, t);
  }

  lemma UnqueueCore(p: Pool, t: Task)
    requires Shaped(p) && t.gid < |p.entries|
    ensures Unqueue(p, t).core == p.core.(pendings := Unqueue(p, t).core.pendings)
  {
  }

  lemma {:induction false} DiscardAllCore(p: Pool, marks: seq<(Task, bool)>, r: Pool)
    requires Shaped(p) && MarksInRange(p, marks) && r == DiscardAll(p, marks)
    ensures r.core == p.core.(pendings := r.core.pendings, dispatchs := r.core.dispatchs)
    decreases |marks|
  {
    if marks != [] {
      DiscardCore(p, marks[0].0, marks[0].1);
      DiscardAllCore(Discard(p, marks[0].0, marks[0].1), marks[1..], r);
    }
  }

  /** Marking over the whole pool ensures service at its end, so it needs nobody to attend before. */
  lemma MarkPoolManned(p: Pool, marks: seq<(Task, bool)>, flagged: bool)
    requires Books(p) && Covers(p) && Manned(p.core) && MarksInRange(p, marks) && Markable(p, marks)
    ensures Manned(MarkPool(p, marks, flagged).core)
  {
    if marks != [] || flagged {
      var q := DiscardAll(p, marks);
      DiscardAllBooks(p, marks);
      DiscardAllNumbers(p, marks, false);
      PendingsNonNegative(q, false);
      DiscardAllCore(p, marks, q);
      GuardedEnsureManned(q.core);
    }
  }

  lemma PoolStepManned(p: Pool, op: PoolOp)
    requires Books(p) && Covers(p) && Manned(p.core) && PoolEnabled(p, op) && Staffed(p, OnPool(op))
    ensures Manned(ApplyPool(p, op).core)
  {
    PendingsNonNegative(p, false);
    match op
    case GrowGroups =>
    case AdjustPool(hi, lo) => AdjustManned(p, hi, lo);
    case FlushPool => FlushManned(p.core);
    case ResumePool => ResumeCoreManned(p.core);
    case SuspendPool => LessWork(p.core, SuspendCore(p.core));
    case CollectGarbage(flushable) => TryGCManned(p.core, flushable);
    case SuspendGroups => SuspendAllManned(p);
    case ResumeGroups => ResumeAllManned(p);
    case MarkTasks(marks, flagged) => MarkPoolManned(p, marks, flagged);
  }

  lemma StepManned(p: Pool, op: Op)
    requires Books(p) && Covers(p) && Manned(p.core) && Enabled(p, op) && Staffed(p, op)
    ensures Manned(Apply(p, op).core)
  {
    match op
    case OnTask(t, o) => TaskStepManned(p, t, o);
    case OnGroup(g, o) => GroupStepManned(p, g, o);
    case OnPool(o) => PoolStepManned(p, o);
    case ByThread(i, o) => ThreadStepManned(p, i, o);
  }

  /** In such runs no thread is called back under its old status. */
  lemma ThreadGuardsHold(p: Pool, i: nat, op: ThreadOp)
    requires Books(p) && Manned(p.core) && ThreadEnabled(p, i, op) && Staffed(p, ByThread(i, op))
    ensures ThreadGuard(p, i, op)
  {
    if op.Take? { LoadedSteady(p, i); }
  }

  /** What a step on a group must check: a suspended creation, and benefits gained with effective tasks left. */
  ghost predicate Covering(p: Pool, op: Op)
    requires Shaped(p) && Enabled(p, op)
  {
    op.OnGroup? ==> Guard(p, op) && Safe(p, op, false)
  }

  ghost predicate StaffedRun(p: Pool, ops: seq<Op>)
    requires Shaped(p)
    decreases |ops|
  {
    ops == [] ||
    (Enabled(p, ops[0]) && Staffed(p, ops[0]) && Covering(p, ops[0]) && StaffedRun(Apply(p, ops[0]), ops[1..]))
  }

  /** The other guards of such a run hold by themselves. */
  lemma StaffedGuard(p: Pool, op: Op)
    requires Books(p) && Covers(p) && Manned(p.core) && Enabled(p, op) && Staffed(p, op) && Covering(p, op)
    ensures Guard(p, op) && Safe(p, op, false)
  {
    if op.ByThread? { ThreadGuardsHold(p, op.i, op.thread); }
    if op.OnPool? && op.pool.AdjustPool? { AdjustCovers(p, op.pool.maxthreads, op.pool.minthreads); }
  }

  /** A step of such a run keeps everything the theorem needs. */
  lemma StaffedStep(p: Pool, op: Op)
    requires Books(p) && Covers(p) && Manned(p.core) && Enabled(p, op) && Staffed(p, op) && Covering(p, op)
    ensures var r := Apply(p, op); Guard(p, op) && Books(r) && Covers(r) && Manned(r.core)
  {
    StepManned(p, op);
    StaffedGuard(p, op);
    StepBooks(p, op);
    StepNumbers(p, op, false);
  }

  /** Removed tasks in the queue, or a group of a running pool that could start a task, find a thread to attend. */
  ghost predicate NothingStranded(p: Pool)
  {
    p.core.dispatchs != [] || (!p.core.paused && SomeCanStart(p, true)) ==> Attended(p.core)
  }

  lemma MannedStrandsNothing(p: Pool)
    requires Tidy(p) && Covers(p) && Manned(p.core)
    ensures NothingStranded(p)
  {
    if SomeCanStart(p, true) { CanStartIsCounted(p); }
  }

  /**
   In every such run, whenever the thread manager has work, or some group of a running pool could
   start a task, a thread is free, woken or running.
   */
  lemma {:induction false} RunNeverStrands(p: Pool, ops: seq<Op>)
    requires Books(p) && Covers(p) && Manned(p.core) && StaffedRun(p, ops)
    ensures Follows(p, ops) && Books(After(p, ops)) && Covers(After(p, ops)) && Manned(After(p, ops).core)
    ensures NothingStranded(After(p, ops))
    decreases |ops|
  {
    if ops == [] {
      MannedStrandsNothing(p);
    } else {
      StaffedStep(p, ops[0]);
      RunNeverStrands(Apply(p, ops[0]), ops[1..]);
    }
  }

  /** A task that could start is counted. */
  lemma CanStartIsCounted(p: Pool)
    requires Tidy(p) && Covers(p) && SomeCanStart(p, true)
    ensures p.core.pendings > 0
  {
    PendingsNonNegative(p, false);
    if p.core.pendings == 0 { ZeroMeansStill(p, false); }
  }
}
