/**
 What users are promised over whole runs: a suspended pool or group starts nothing, a limit asked for is kept,
 and a task that was accepted is not lost.
 */
module PoolPromises {
  import opened Types
  import opened PriorityOrder
  import opened PriorityQueue
  import opened ThreadModel
  import opened ThreadCounts
  import opened ThreadSupply
  import opened ThreadStatus
  import opened ThreadBounds
  import opened ThreadJobs
  import opened ThreadEffects
  import opened ActivePrefix
  import opened GroupModel
  import opened GroupCounts
  import opened GroupShape
  import opened GroupExact
  import opened GroupPlaces
  import opened GroupEffects
  import opened Scheduler
  import opened PoolSound
  import opened NoStranded
  import opened PoolRuns
  import opened PoolTheorems
  import opened PoolLoop

  // ---- what steps leave alone ----

  /** A group's attributes, use and pausing are as they were. */
  predicate SameUse(e: Entry, f: Entry)
  {
    && f.limit == e.limit && f.parallel == e.parallel && f.benefits == e.benefits && f.avg == e.avg
    && f.free == e.free && f.destroying == e.destroying && f.throttled == e.throttled && f.paused == e.paused
  }

  /** No group runs more, and the use of each is as it was; so are the settings of the pool. */
  ghost predicate Quiet(p: Pool, r: Pool)
  {
    && |r.entries| == |p.entries|
    && (forall g :: 0 <= g < |p.entries| ==>
          SameUse(p.entries[g], r.entries[g]) && r.entries[g].nrunnings <= p.entries[g].nrunnings)
    && SameBounds(p.core, r.core)
  }

  predicate SameBounds(c: Core, d: Core)
  {
    d.maxthreads == c.maxthreads && d.minthreads == c.minthreads && d.perTime == c.perTime && d.paused == c.paused
  }

  lemma QuietTwice(p: Pool, q: Pool, r: Pool)
    requires Quiet(p, q) && Quiet(q, r)
    ensures Quiet(p, r)
  {
    forall g | 0 <= g < |p.entries| ensures SameUse(p.entries[g], r.entries[g]) {
      assert SameUse(p.entries[g], q.entries[g]) && SameUse(q.entries[g], r.entries[g]);
    }
  }

  lemma DeliverQuiet(p: Pool, g: nat, t: Task)
    requires Shaped(p) && g < |p.entries|
    ensures Quiet(p, Deliver(p, g, t))
  {
    DeliverEffect(p, g, t);
    ServedJobs(AddCore(p.core, 1));
  }

  lemma QueueQuiet(p: Pool, t: Task)
    requires Shaped(p)
    ensures Quiet(p, QueueTask(p, t).0)
  {
    if t.gid < |p.entries| {
      assert Quiet(p, Trace(p, t.gid));
      DeliverQuiet(Trace(p, t.gid), t.gid, t);
      QuietTwice(p, Trace(p, t.gid), Deliver(Trace(p, t.gid), t.gid, t));
    }
  }

  lemma DiscardQuiet(p: Pool, t: Task, byPool: bool)
    requires Shaped(p) && t.gid < |p.entries|
    ensures Quiet(p, Discard(p, t, byPool)) && Quiet(p, RemoveWaiting(p, t, byPool))
  {
    var q := Dispose(p, t, byPool);
    DisposeQuiet(p, t, byPool);
    UnqueueQuiet(q, t);
    QuietTwice(p, q, Unqueue(q, t));
    assert Quiet(p, p);
  }

  lemma DisposeQuiet(p: Pool, t: Task, byPool: bool)
    requires Shaped(p) && t.gid < |p.entries|
    ensures Quiet(p, Dispose(p, t, byPool))
  {
  }

  lemma UnqueueQuiet(p: Pool, t: Task)
    requires Shaped(p) && t.gid < |p.entries|
    ensures Quiet(p, Unqueue(p, t))
  {
  }

  lemma RemoveQuiet(p: Pool, t: Task, byPool: bool)
    requires Shaped(p) && t.gid < |p.entries|
    ensures Quiet(p, RemoveTask(p, t, byPool).0)
  {
    DiscardQuiet(p, t, byPool);
    EnsureJobs(RemoveWaiting(p, t, byPool).core);
  }

  lemma HandlerQuiet(p: Pool, t: Task, detached: bool)
    requires Shaped(p) && t.gid < |p.entries|
    ensures Quiet(p, Dispatched(p, t, detached))
  {
    assert Quiet(p, Handled(p, t));
    if WantsAgain(p, t.id) && !detached {
      DeliverQuiet(Handled(p, t), t.gid, t);
      QuietTwice(p, Handled(p, t), Dispatched(p, t, detached));
    } else {
      assert Quiet(Handled(p, t), Dispatched(p, t, detached));
      QuietTwice(p, Handled(p, t), Dispatched(p, t, detached));
    }
  }

  lemma ReleaseQuiet(p: Pool, i: nat, g: nat)
    requires Shaped(p) && i < |p.core.ths| && g < |p.entries|
    ensures Quiet(p, CompleteIfIdle(Release(p, i, g), i))
  {
    var q := Release(p, i, g);
    assert Quiet(p, q) by { if p.core.ths[i].batch == [] { GiveSlotQuiet(p, i, g); } else { GiveBatchQuiet(p, i, g); } }
    CompleteLeaves(q, i);
    assert Quiet(q, CompleteIfIdle(q, i));
    QuietTwice(p, q, CompleteIfIdle(q, i));
  }

  lemma GiveSlotQuiet(p: Pool, i: nat, g: nat)
    requires Shaped(p) && i < |p.core.ths| && g < |p.entries|
    ensures Quiet(p, GiveSlot(p, i, g))
  {
  }

  lemma GiveBatchQuiet(p: Pool, i: nat, g: nat)
    requires Shaped(p) && i < |p.core.ths| && g < |p.entries| && p.core.ths[i].batch != []
    ensures Quiet(p, GiveBatch(p, i, g))
  {
  }

  lemma DoneQuiet(p: Pool, i: nat, detached: bool)
    requires Shaped(p) && i < |p.core.ths| && Job(p.core.ths[i]).Some? && Job(p.core.ths[i]).value.gid < |p.entries|
    ensures Quiet(p, Finish(p, i, detached))
  {
    var t := Job(p.core.ths[i]).value;
    var p1 := CompleteIfIdle(Release(p, i, t.gid), i);
    ReleaseQuiet(p, i, t.gid);
    if WantsAgain(p, t.id) && !detached {
      DeliverQuiet(p1, t.gid, NiceAdjust(t));
    } else {
      UntraceCompletes(Release(p, i, t.gid), i, t.gid, t.id);
      assert Quiet(p1, Untrace(p1, t.gid, t.id));
    }
    QuietTwice(p, p1, Finish(p, i, detached));
  }

  lemma {:induction false} DiscardAllQuiet(p: Pool, marks: seq<(Task, bool)>, r: Pool)
    requires Shaped(p) && MarksInRange(p, marks) && r == DiscardAll(p, marks)
    ensures Quiet(p, r)
    decreases |marks|
  {
    if marks != [] {
      DiscardQuiet(p, marks[0].0, marks[0].1);
      DiscardAllQuiet(Discard(p, marks[0].0, marks[0].1), marks[1..], r);
      QuietTwice(p, Discard(p, marks[0].0, marks[0].1), r);
    }
  }

  lemma MarkQuiet(p: Pool, marks: seq<(Task, bool)>, flagged: bool)
    requires Shaped(p) && MarksInRange(p, marks)
    ensures Quiet(p, MarkPool(p, marks, flagged))
  {
    DiscardAllQuiet(p, marks, DiscardAll(p, marks));
    EnsureJobs(DiscardAll(p, marks).core);
  }

  lemma TaskQuiet(p: Pool, t: Task, op: TaskOp)
    requires Shaped(p) && TaskEnabled(p, t, op)
    ensures Quiet(p, ApplyTask(p, t, op))
  {
    match op
    case Queue => QueueQuiet(p, t);
    case RemoveOne(byPool) => RemoveQuiet(p, t, byPool);
    case MarkOneTask(byPool) => DiscardQuiet(p, t, byPool);
    case HandlerDone(detached) => HandlerQuiet(p, t, detached);
  }

  lemma ThreadQuiet(p: Pool, i: nat, op: ThreadOp)
    requires Shaped(p) && ThreadEnabled(p, i, op) && !op.Take?
    ensures Quiet(p, ApplyThread(p, i, op))
  {
    match op
    case Done(detached) => DoneQuiet(p, i, detached);
    case Wake => ToFreeJobs(p.core, i);
    case Expire(mayQuit) => ToTimedoutJobs(p.core, i, mayQuit);
    case Enter =>
    case Sleep =>
    case Quit =>
    case Exit =>
  }

  /** A take starts one task, of the group it chose, or none of any group. */
  lemma TakeStartsOne(p: Pool, i: nat)
    requires Tidy(p) && ThreadEnabled(p, i, Take)
    ensures var r := GetTask(p, i).pool;
      && |r.entries| == |p.entries| && SameBounds(p.core, r.core)
      && (forall g :: 0 <= g < |p.entries| ==> SameUse(p.entries[g], r.entries[g]))
      && (forall g :: 0 <= g < |p.entries| && r.entries[g].nrunnings > p.entries[g].nrunnings ==>
            && p.core.dispatchs == [] && !p.core.paused && !p.entries[g].paused
            && r.entries[g].nrunnings == p.entries[g].nrunnings + 1
            && (p.entries[g].benefits || p.entries[g].nrunnings < p.entries[g].limit))
  {
    if p.core.dispatchs == [] {
      ChooseFinds(p);
      var g := Choose(p).value;
      assert EntryTidy(p.entries[g], g, p.pre.active[g]);
      ToRunJobs(SetThread(TakeFrom(p, g).core, i, p.core.ths[i].(current := Some(p.entries[g].top))), i);
    } else {
      ToRunJobs(CutBatch(p.core, i), i);
    }
  }

  // ---- the status of a thread ----

  /** The status a thread has after its step. */
  function StatusAfter(t: Thread, op: ThreadOp): Status
  {
    match op
    case Take => Run
    case Done(detached) => if |t.batch| > 1 then Run else Complete
    case Enter => Join
    case Sleep => Wait
    case Wake => Free
    case Expire(mayQuit) => Timedout
    case Quit => ForceQuit
    case Exit => Status.Left
  }

  /** The thread that takes a step has the status of its name after it, and is not skipped or taken for another. */
  lemma ActorStatus(p: Pool, i: nat, op: ThreadOp)
    requires Tidy(p) && ThreadEnabled(p, i, op)
    ensures var c := ApplyThread(p, i, op).core;
      i < |c.ths| && c.ths[i].status == StatusAfter(p.core.ths[i], op)
  {
    match op
    case Take => GetTaskCore(p, i);
    case Done(detached) => DoneStatus(p, i, detached);
    case Wake => ToFreeJobs(p.core, i);
    case Expire(mayQuit) => ToTimedoutJobs(p.core, i, mayQuit);
    case _ =>
  }

  lemma DoneStatus(p: Pool, i: nat, detached: bool)
    requires Shaped(p) && ThreadEnabled(p, i, Done(detached))
    ensures var c := Finish(p, i, detached).core;
      i < |c.ths| && c.ths[i].status == StatusAfter(p.core.ths[i], Done(detached))
  {
    var t := Job(p.core.ths[i]).value;
    var p1 := CompleteIfIdle(Release(p, i, t.gid), i);
    ReleasedStatus(p, i, t.gid);
    if WantsAgain(p, t.id) && !detached {
      DeliverStatus(p1, t.gid, NiceAdjust(t), i);
    } else {
      UntraceCompletes(Release(p, i, t.gid), i, t.gid, t.id);
    }
  }

  lemma ReleasedStatus(p: Pool, i: nat, g: nat)
    requires Shaped(p) && i < |p.core.ths| && g < |p.entries| && p.core.ths[i].status == Run
    ensures var c := CompleteIfIdle(Release(p, i, g), i).core;
      i < |c.ths| && c.ths[i].status == if |p.core.ths[i].batch| > 1 then Run else Complete
  {
    ReleaseRuns(p, i, g);
    CompletedStatus(Release(p, i, g), i);
  }

  lemma ReleaseRuns(p: Pool, i: nat, g: nat)
    requires Shaped(p) && i < |p.core.ths| && g < |p.entries|
    ensures var t := Release(p, i, g).core.ths[i];
      t.status == p.core.ths[i].status && (t.batch == [] <==> |p.core.ths[i].batch| <= 1)
  {
  }

  lemma CompletedStatus(p: Pool, i: nat)
    requires Shaped(p) && i < |p.core.ths|
    ensures var t := CompleteIfIdle(p, i).core.ths[i];
      t.status == if p.core.ths[i].batch == [] then Complete else p.core.ths[i].status
  {
  }

  /** A service call leaves the status of a thread that is not quitting alone. */
  lemma DeliverStatus(p: Pool, g: nat, t: Task, i: nat)
    requires Shaped(p) && g < |p.entries| && i < |p.core.ths| && p.core.ths[i].status != ForceQuit
    ensures var c := Deliver(p, g, t).core; i < |c.ths| && c.ths[i].status == p.core.ths[i].status
  {
    DeliverEffect(p, g, t);
    EnsureStatus(AddCore(p.core, 1), i);
  }

  lemma EnsureStatus(c: Core, i: nat)
    requires WaitqInRange(c) && i < |c.ths| && c.ths[i].status != ForceQuit
    ensures i < |Ensure(c).ths| && Ensure(c).ths[i].status == c.ths[i].status
  {
    WakeNStatus(c, Min(2, c.perTime), i);
    ReuseStatus(c, 0, WantedThreads(c), i);
    var (d, m) := Reuse(c, 0, WantedThreads(c));
    CreateJobs(d, m);
  }

  lemma {:induction false} WakeNStatus(c: Core, n: int, i: nat)
    requires WaitqInRange(c) && i < |c.ths|
    ensures WakeN(c, n).ths[i].status == c.ths[i].status
    decreases |c.waitq|
  {
    if c.waitq != [] && n != 1 { WakeNStatus(WakeOne(c), n - 1, i); }
  }

  lemma {:induction false} ReuseStatus(c: Core, j: nat, n: int, i: nat)
    requires j <= |c.ths| && WaitqInRange(c) && i < |c.ths| && c.ths[i].status != ForceQuit
    ensures Reuse(c, j, n).0.ths[i].status == c.ths[i].status
    decreases |c.ths| - j
  {
    if j < |c.ths| && n > 0 && c.dying != 0 {
      if c.ths[j].status == Status.Left || !c.ths[j].rm {
        ReuseStatus(c, j + 1, n, i);
      } else {
        ReuseStatus(ReuseOne(c, j), j + 1, n - 1, i);
      }
    }
  }

  // ---- a suspended pool ----

  lemma {:induction false} SuspendAllUse(p: Pool, g: nat, r: Pool)
    requires Shaped(p) && g <= |p.entries| && r == SuspendAllFrom(p, g)
    ensures |r.entries| == |p.entries|
    ensures forall h :: 0 <= h < |p.entries| ==>
      SameAttrs(p.entries[h], r.entries[h]) && (p.entries[h].paused ==> r.entries[h].paused)
    decreases |p.entries| - g
  {
    if g < |p.entries| {
      SuspendUse(p, g);
      SuspendAllUse(Suspend(p, g), g + 1, r);
    }
  }

  /** Attributes, use and running tasks are as they were. */
  predicate SameAttrs(e: Entry, f: Entry)
  {
    && f.limit == e.limit && f.parallel == e.parallel && f.benefits == e.benefits
    && f.free == e.free && f.destroying == e.destroying && f.nrunnings == e.nrunnings
  }

  lemma SuspendUse(p: Pool, g: nat)
    requires Shaped(p) && g < |p.entries|
    ensures var r := Suspend(p, g);
      && |r.entries| == |p.entries|
      && forall h :: 0 <= h < |p.entries| ==>
           SameAttrs(p.entries[h], r.entries[h]) && (p.entries[h].paused ==> r.entries[h].paused)
  {
  }

  lemma QuietUse(p: Pool, g: nat)
    requires Shaped(p) && g < |p.entries|
    ensures var r := ResumeQuietly(p, g);
      |r.entries| == |p.entries| && forall h :: 0 <= h < |p.entries| ==> SameAttrs(p.entries[h], r.entries[h])
    ensures forall h :: 0 <= h < |p.entries| && h != g ==> ResumeQuietly(p, g).entries[h] == p.entries[h]
  {
  }

  lemma {:induction false} ResumeAllUse(p: Pool, g: nat, r: Pool)
    requires Shaped(p) && g <= |p.entries| && r == ResumeAllFrom(p, g)
    ensures |r.entries| == |p.entries|
    ensures forall h :: 0 <= h < |p.entries| ==> SameAttrs(p.entries[h], r.entries[h])
    decreases |p.entries| - g
  {
    if g < |p.entries| {
      QuietUse(p, g);
      ResumeAllUse(ResumeQuietly(p, g), g + 1, r);
    }
  }

  /** No group runs more than before; new groups run nothing. */
  ghost predicate StartsNothing(p: Pool, r: Pool)
  {
    && |p.entries| <= |r.entries|
    && (forall g :: 0 <= g < |p.entries| ==> r.entries[g].nrunnings <= p.entries[g].nrunnings)
    && (forall g :: |p.entries| <= g < |r.entries| ==> r.entries[g].nrunnings <= 0)
  }

  lemma GroupStartsNothing(p: Pool, g: nat, op: GroupOp)
    requires Shaped(p) && GroupEnabled(p, g, op)
    ensures StartsNothing(p, ApplyGroup(p, g, op))
  {
    if op.ResumeGroup? { QuietUse(p, g); }
    if op.SuspendGroup? { SuspendUse(p, g); }
  }

  lemma {:induction false} UpdateAllRuns(p: Pool, g: nat, r: Pool)
    requires Shaped(p) && g <= |p.entries| && r == UpdateAllFrom(p, g)
    ensures |r.entries| == |p.entries|
    ensures forall h :: 0 <= h < |p.entries| ==>
      r.entries[h].nrunnings == p.entries[h].nrunnings && r.entries[h].paused == p.entries[h].paused
      && r.entries[h].free == p.entries[h].free
    decreases |p.entries| - g
  {
    if g < |p.entries| {
      var e := p.entries[g];
      UpdateAllRuns(if e.free then p else SetAttr(p, g, e.parallel, e.benefits), g + 1, r);
    }
  }

  lemma PoolStartsNothing(p: Pool, op: PoolOp)
    requires Shaped(p) && PoolEnabled(p, op)
    ensures StartsNothing(p, ApplyPool(p, op))
  {
    match op
    case SuspendGroups => SuspendAllUse(p, 0, SuspendAllFrom(p, 0));
    case ResumeGroups => ResumeAllUse(p, 0, ResumeAllFrom(p, 0));
    case MarkTasks(marks, flagged) => MarkQuiet(p, marks, flagged);
    case AdjustPool(hi, lo) =>
      var p0 := p.(core := p.core.(maxthreads := hi, minthreads := lo));
      UpdateAllRuns(p0, 0, UpdateAllFrom(p0, 0));
    case GrowGroups =>
    case SuspendPool =>
    case ResumePool =>
    case FlushPool =>
    case CollectGarbage(flushable) =>
  }

  /** Only a take starts tasks, and none does while the pool is suspended. */
  lemma StepStartsNothing(p: Pool, op: Op)
    requires Tidy(p) && Enabled(p, op)
    requires op.ByThread? && op.thread.Take? ==> p.core.paused || p.core.dispatchs != []
    ensures StartsNothing(p, Apply(p, op))
  {
    match op
    case OnTask(t, o) => TaskQuiet(p, t, o);
    case OnGroup(g, o) => GroupStartsNothing(p, g, o);
    case OnPool(o) => PoolStartsNothing(p, o);
    case ByThread(i, o) => if o.Take? { TakeStartsOne(p, i); } else { ThreadQuiet(p, i, o); }
  }

  lemma PoolPausedStays(p: Pool, op: PoolOp)
    requires Shaped(p) && PoolEnabled(p, op) && p.core.paused && !op.ResumePool?
    ensures ApplyPool(p, op).core.paused
  {
    match op
    case SuspendGroups => SuspendAllCore(p, 0, SuspendAllFrom(p, 0));
    case ResumeGroups => ResumeAllCore(p, 0, ResumeAllFrom(p, 0)); EnsureJobs(ResumeAllFrom(p, 0).core);
    case MarkTasks(marks, flagged) => MarkQuiet(p, marks, flagged);
    case AdjustPool(hi, lo) =>
      var p0 := p.(core := p.core.(maxthreads := hi, minthreads := lo));
      UpdateAllCore(p0, 0);
      AdjustAbsJobs(UpdateAllFrom(p0, 0).core);
    case GrowGroups =>
    case SuspendPool =>
    case FlushPool => FlushJobs(p.core);
    case CollectGarbage(flushable) => TryGCJobs(p.core, flushable);
  }

  lemma GroupPausedStays(p: Pool, g: nat, op: GroupOp)
    requires Shaped(p) && GroupEnabled(p, g, op) && p.core.paused
    ensures ApplyGroup(p, g, op).core.paused
  {
    if op.ResumeGroup? { EnsureJobs(ResumeQuietly(p, g).core); }
  }

  lemma PausedStays(p: Pool, op: Op)
    requires Tidy(p) && Enabled(p, op) && p.core.paused && op != OnPool(ResumePool)
    ensures Apply(p, op).core.paused
  {
    match op
    case OnTask(t, o) => TaskQuiet(p, t, o);
    case OnGroup(g, o) => GroupPausedStays(p, g, o);
    case OnPool(o) => PoolPausedStays(p, o);
    case ByThread(i, o) => if o.Take? { TakeStartsOne(p, i); } else { ThreadQuiet(p, i, o); }
  }

  /** Suspending the pool changes the flag alone, and then a thread finds nothing but removed tasks. */
  lemma SuspendPoolStops(p: Pool, i: nat)
    requires Shaped(p) && i < |p.core.ths|
    ensures var r := Apply(p, OnPool(SuspendPool));
      r == p.(core := p.core.(paused := true)) && (p.core.dispatchs == [] ==> GetTask(r, i) == Nothing)
  {
    SuspendSuspends(p.core);
  }

  lemma StartsNothingTwice(p: Pool, q: Pool, r: Pool)
    requires StartsNothing(p, q) && StartsNothing(q, r)
    ensures StartsNothing(p, r)
  {
  }

  predicate NeverResumed(ops: seq<Op>) { forall k :: 0 <= k < |ops| ==> ops[k] != OnPool(ResumePool) }

  lemma SuspendedPoolStep(p: Pool, op: Op)
    requires Books(p) && Enabled(p, op) && Guard(p, op) && p.core.paused && op != OnPool(ResumePool)
    ensures var q := Apply(p, op); Books(q) && q.core.paused && StartsNothing(p, q)
  {
    StepBooks(p, op);
    StepStartsNothing(p, op);
    PausedStays(p, op);
  }

  /** While the pool is suspended no task of any group is started, whatever else happens. */
  lemma {:induction false} SuspendedPoolRuns(p: Pool, ops: seq<Op>)
    requires Books(p) && Follows(p, ops) && p.core.paused && NeverResumed(ops)
    ensures After(p, ops).core.paused && StartsNothing(p, After(p, ops))
    decreases |ops|
  {
    if ops != [] {
      var q := Apply(p, ops[0]);
      SuspendedPoolStep(p, ops[0]);
      assert NeverResumed(ops[1..]);
      SuspendedPoolRuns(q, ops[1..]);
      StartsNothingTwice(p, q, After(q, ops[1..]));
    }
  }

  /** Once it is resumed, a thread takes a task exactly when some group can start one. */
  lemma ResumePoolTakes(p: Pool, i: nat)
    requires Inv(p) && i < |p.core.ths| && p.core.dispatchs == [] && p.core.paused
    ensures var r := Apply(p, OnPool(ResumePool));
      && Inv(r) && !r.core.paused && i < |r.core.ths|
      && (GetTask(r, i).Took? <==> SomeCanStart(r, true)) && (SomeCanStart(r, true) <==> SomeCanStart(p, true))
  {
    var r := Apply(p, OnPool(ResumePool));
    StepExactly(p, OnPool(ResumePool));
    EnsureJobs(p.core.(paused := false));
    assert r.entries == p.entries && r.core.dispatchs == [] && !r.core.paused;
    TakeTerminates(r, i);
    ExactCovers(r);
    if SomeCanStart(r, true) { CanStartIsCounted(r); }
    if r.core.pendings > 0 { StartableExists(r); }
  }

  // ---- a suspended group ----

  /** The step may start tasks of group `g` again, or gives its slot to another group. */
  predicate Reopens(op: Op, g: nat)
  {
    match op
    case OnGroup(h, o) => h == g && (o.ResumeGroup? || o.CreateGroup?)
    case OnPool(o) => o.ResumeGroups?
    case _ => false
  }

  lemma GroupStaysPaused(p: Pool, h: nat, op: GroupOp, g: nat)
    requires Shaped(p) && GroupEnabled(p, h, op) && g < |p.entries| && p.entries[g].paused
    requires !Reopens(OnGroup(h, op), g)
    ensures ApplyGroup(p, h, op).entries[g].paused
  {
    if op.ResumeGroup? { QuietUse(p, h); }
    if op.SuspendGroup? { SuspendUse(p, h); }
  }

  lemma PoolStaysPaused(p: Pool, op: PoolOp, g: nat)
    requires Shaped(p) && PoolEnabled(p, op) && g < |p.entries| && p.entries[g].paused && !op.ResumeGroups?
    ensures ApplyPool(p, op).entries[g].paused
  {
    match op
    case SuspendGroups => SuspendAllUse(p, 0, SuspendAllFrom(p, 0));
    case MarkTasks(marks, flagged) => MarkQuiet(p, marks, flagged);
    case AdjustPool(hi, lo) =>
      var p0 := p.(core := p.core.(maxthreads := hi, minthreads := lo));
      UpdateAllRuns(p0, 0, UpdateAllFrom(p0, 0));
    case GrowGroups =>
    case SuspendPool =>
    case ResumePool =>
    case FlushPool =>
    case CollectGarbage(flushable) =>
  }

  /** A suspended group starts nothing, and stays suspended. */
  lemma SuspendedStep(p: Pool, op: Op, g: nat)
    requires Tidy(p) && Enabled(p, op) && g < |p.entries| && p.entries[g].paused && !Reopens(op, g)
    ensures var r := Apply(p, op);
      g < |r.entries| && r.entries[g].paused && r.entries[g].nrunnings <= p.entries[g].nrunnings
  {
    match op
    case OnTask(t, o) => TaskQuiet(p, t, o); assert SameUse(p.entries[g], Apply(p, op).entries[g]);
    case OnGroup(h, o) => GroupStartsNothing(p, h, o); GroupStaysPaused(p, h, o, g);
    case OnPool(o) => PoolStartsNothing(p, o); PoolStaysPaused(p, o, g);
    case ByThread(i, o) =>
      if o.Take? { TakeStartsOne(p, i); } else { ThreadQuiet(p, i, o); }
      assert SameUse(p.entries[g], Apply(p, op).entries[g]);
  }

  predicate NeverReopened(ops: seq<Op>, g: nat) { forall k :: 0 <= k < |ops| ==> !Reopens(ops[k], g) }

  /** While a group is suspended none of its tasks is started. */
  lemma {:induction false} SuspendedGroupRuns(p: Pool, ops: seq<Op>, g: nat)
    requires Books(p) && Follows(p, ops) && g < |p.entries| && p.entries[g].paused && NeverReopened(ops, g)
    ensures var q := After(p, ops);
      g < |q.entries| && q.entries[g].paused && q.entries[g].nrunnings <= p.entries[g].nrunnings
    decreases |ops|
  {
    if ops != [] {
      StepBooks(p, ops[0]);
      SuspendedStep(p, ops[0], g);
      assert NeverReopened(ops[1..], g);
      SuspendedGroupRuns(Apply(p, ops[0]), ops[1..], g);
    }
  }

  // ---- the limit that was asked for ----

  /** Group `g` has the attributes, and runs no more than they allow or than it already did. */
  ghost predicate Bound(p: Pool, g: nat, parallel: int, limit: int, ceiling: int)
  {
    && g < |p.entries| && p.entries[g].parallel == parallel && p.entries[g].limit == limit
    && !p.entries[g].benefits && limit <= ceiling && p.entries[g].nrunnings <= ceiling
  }

  /** The step asks for other attributes of group `g`, or for other bounds. */
  predicate Rebinds(op: Op, g: nat)
  {
    match op
    case OnGroup(h, o) => h == g && (o.SetGroupAttr? || o.CreateGroup?)
    case OnPool(o) => o.AdjustPool?
    case _ => false
  }

  lemma GroupStepBound(p: Pool, h: nat, op: GroupOp, g: nat, parallel: int, limit: int, ceiling: int)
    requires Shaped(p) && GroupEnabled(p, h, op) && !Rebinds(OnGroup(h, op), g) && Bound(p, g, parallel, limit, ceiling)
    ensures Bound(ApplyGroup(p, h, op), g, parallel, limit, ceiling)
  {
    if op.ResumeGroup? { QuietUse(p, h); assert SameAttrs(p.entries[g], ResumeQuietly(p, h).entries[g]); }
    if op.SuspendGroup? { SuspendUse(p, h); assert SameAttrs(p.entries[g], Suspend(p, h).entries[g]); }
  }

  lemma PoolStepBound(p: Pool, op: PoolOp, g: nat, parallel: int, limit: int, ceiling: int)
    requires Shaped(p) && PoolEnabled(p, op) && !op.AdjustPool? && Bound(p, g, parallel, limit, ceiling)
    ensures Bound(ApplyPool(p, op), g, parallel, limit, ceiling)
  {
    match op
    case SuspendGroups =>
      SuspendAllUse(p, 0, SuspendAllFrom(p, 0));
      assert SameAttrs(p.entries[g], SuspendAllFrom(p, 0).entries[g]);
    case ResumeGroups =>
      ResumeAllUse(p, 0, ResumeAllFrom(p, 0));
      assert SameAttrs(p.entries[g], ResumeAllFrom(p, 0).entries[g]);
    case MarkTasks(marks, flagged) =>
      MarkQuiet(p, marks, flagged);
      assert SameUse(p.entries[g], MarkPool(p, marks, flagged).entries[g]);
    case GrowGroups =>
    case SuspendPool =>
    case ResumePool =>
    case FlushPool =>
    case CollectGarbage(flushable) =>
  }

  lemma StepBound(p: Pool, op: Op, g: nat, parallel: int, limit: int, ceiling: int)
    requires Tidy(p) && Enabled(p, op) && !Rebinds(op, g) && Bound(p, g, parallel, limit, ceiling)
    ensures Bound(Apply(p, op), g, parallel, limit, ceiling)
  {
    match op
    case OnTask(t, o) => TaskQuiet(p, t, o); assert SameUse(p.entries[g], Apply(p, op).entries[g]);
    case OnGroup(h, o) => GroupStepBound(p, h, o, g, parallel, limit, ceiling);
    case OnPool(o) => PoolStepBound(p, o, g, parallel, limit, ceiling);
    case ByThread(i, o) =>
      if o.Take? { TakeStartsOne(p, i); } else { ThreadQuiet(p, i, o); }
      assert SameUse(p.entries[g], Apply(p, op).entries[g]);
  }

  predicate NeverRebound(ops: seq<Op>, g: nat) { forall k :: 0 <= k < |ops| ==> !Rebinds(ops[k], g) }

  lemma {:induction false} BoundRun(p: Pool, ops: seq<Op>, g: nat, parallel: int, limit: int, ceiling: int)
    requires Books(p) && Follows(p, ops) && Bound(p, g, parallel, limit, ceiling) && NeverRebound(ops, g)
    ensures Bound(After(p, ops), g, parallel, limit, ceiling)
    decreases |ops|
  {
    if ops != [] {
      StepBooks(p, ops[0]);
      StepBound(p, ops[0], g, parallel, limit, ceiling);
      assert NeverRebound(ops[1..], g);
      BoundRun(Apply(p, ops[0]), ops[1..], g, parallel, limit, ceiling);
    }
  }

  /**
   A user who asks that at most `parallel` tasks of a group run at a time is obeyed: over every run in which
   nobody asks for something else, the group runs no more than that, nor than the maximum of threads, unless
   it was already running more when asked.
   */
  lemma RunWithinAsked(p: Pool, g: nat, parallel: int, q: Pool, ops: seq<Op>)
    requires Books(p) && g < |p.entries| && ValidEntry(p.entries[g]) && parallel >= 1 && p.core.maxthreads >= 1
    requires q == Apply(p, OnGroup(g, SetGroupAttr(parallel, false))) && Follows(q, ops) && NeverRebound(ops, g)
    ensures var r := After(q, ops);
      && g < |r.entries| && r.entries[g].parallel == parallel && !r.entries[g].benefits
      && r.entries[g].nrunnings <= Max(p.entries[g].nrunnings, Min(parallel, p.core.maxthreads))
  {
    var limit := Min(p.core.maxthreads, parallel);
    StepBooks(p, OnGroup(g, SetGroupAttr(parallel, false)));
    SetAttrStores(p, g, parallel, false);
    BoundRun(q, ops, g, parallel, limit, Max(p.entries[g].nrunnings, limit));
  }

  // ---- every limit is the one that was asked for ----

  lemma MaximumStays(p: Pool, op: Op)
    requires Tidy(p) && Enabled(p, op) && !(op.OnPool? && op.pool.AdjustPool?)
    ensures Apply(p, op).core.maxthreads == p.core.maxthreads
  {
    match op
    case OnTask(t, o) => TaskQuiet(p, t, o);
    case OnGroup(g, o) => GroupMaximumStays(p, g, o);
    case OnPool(o) => PoolMaximumStays(p, o);
    case ByThread(i, o) => if o.Take? { TakeStartsOne(p, i); } else { ThreadQuiet(p, i, o); }
  }

  lemma GroupMaximumStays(p: Pool, g: nat, op: GroupOp)
    requires Shaped(p) && GroupEnabled(p, g, op)
    ensures ApplyGroup(p, g, op).core.maxthreads == p.core.maxthreads
  {
    if op.ResumeGroup? { EnsureJobs(ResumeQuietly(p, g).core); }
  }

  lemma PoolMaximumStays(p: Pool, op: PoolOp)
    requires Shaped(p) && PoolEnabled(p, op) && !op.AdjustPool?
    ensures ApplyPool(p, op).core.maxthreads == p.core.maxthreads
  {
    match op
    case SuspendGroups => SuspendAllCore(p, 0, SuspendAllFrom(p, 0));
    case ResumeGroups => ResumeAllCore(p, 0, ResumeAllFrom(p, 0)); EnsureJobs(ResumeAllFrom(p, 0).core);
    case MarkTasks(marks, flagged) => MarkQuiet(p, marks, flagged);
    case GrowGroups =>
    case SuspendPool =>
    case ResumePool => EnsureJobs(p.core.(paused := false));
    case FlushPool => FlushJobs(p.core);
    case CollectGarbage(flushable) => TryGCJobs(p.core, flushable);
  }

  lemma GroupLimitsStored(p: Pool, g: nat, op: GroupOp)
    requires Shaped(p) && LimitsStored(p) && GroupEnabled(p, g, op)
    ensures LimitsStored(ApplyGroup(p, g, op))
  {
    GroupMaximumStays(p, g, op);
    match op
    case SuspendGroup => SuspendUse(p, g);
    case ResumeGroup => QuietUse(p, g);
    case SetGroupAttr(parallel, benefits) => SetAttrStores(p, g, parallel, benefits);
    case CreateGroup(priqNum, suspend) =>
    case DeleteGroup =>
    case VacateGroup =>
  }

  lemma PoolLimitsStored(p: Pool, op: PoolOp)
    requires Shaped(p) && LimitsStored(p) && PoolEnabled(p, op)
    ensures LimitsStored(ApplyPool(p, op))
  {
    if op.AdjustPool? {
      AdjustStores(p, op.maxthreads, op.minthreads);
    } else {
      PoolMaximumStays(p, op);
      if op.SuspendGroups? { SuspendAllUse(p, 0, SuspendAllFrom(p, 0)); }
      if op.ResumeGroups? { ResumeAllUse(p, 0, ResumeAllFrom(p, 0)); }
      if op.MarkTasks? { MarkQuiet(p, op.marks, op.flagged); }
    }
  }

  /** Whatever the step, the limit of every group in use is the one its attributes and the maximum give. */
  lemma StepLimitsStored(p: Pool, op: Op)
    requires Tidy(p) && LimitsStored(p) && Enabled(p, op)
    ensures LimitsStored(Apply(p, op))
  {
    match op
    case OnTask(t, o) => TaskQuiet(p, t, o);
    case OnGroup(g, o) => GroupLimitsStored(p, g, o);
    case OnPool(o) => PoolLimitsStored(p, o);
    case ByThread(i, o) => if o.Take? { TakeStartsOne(p, i); } else { ThreadQuiet(p, i, o); }
  }

  lemma {:induction false} RunLimitsStored(p: Pool, ops: seq<Op>)
    requires Books(p) && LimitsStored(p) && Follows(p, ops)
    ensures LimitsStored(After(p, ops))
    decreases |ops|
  {
    if ops != [] {
      StepBooks(p, ops[0]);
      StepLimitsStored(p, ops[0]);
      RunLimitsStored(Apply(p, ops[0]), ops[1..]);
    }
  }

  lemma NewLimitsStored(c: Core, priqNum: nat, tailFirst: bool)
    requires WaitqInRange(c) && c.maxthreads >= 0 && 1 <= priqNum <= 99
    ensures LimitsStored(NewPool(c, priqNum, tailFirst))
  {
  }

  // ---- accepted tasks are not lost ----

  /** The step gives the task to a thread, or is a request not to run it (again). */
  ghost predicate Settles(p: Pool, op: Op, id: nat)
    requires Shaped(p) && Enabled(p, op)
  {
    match op
    case OnTask(t, o) => t.id == id && (o.RemoveOne? || o.MarkOneTask? || (o.HandlerDone? && o.detached))
    case OnPool(o) => o.MarkTasks? && exists k :: 0 <= k < |o.marks| && o.marks[k].0.id == id
    case ByThread(i, o) =>
      || (o.Take? && p.core.dispatchs == [] && Choose(p).Some? && p.entries[Choose(p).value].top.id == id)
      || (o.Done? && o.detached && Job(p.core.ths[i]).value.id == id)
    case _ => false
  }

  lemma {:induction false} MarksKeepExpected(p: Pool, marks: seq<(Task, bool)>, id: nat, r: Pool)
    requires Shaped(p) && MarksInRange(p, marks) && Expected(p, id) && r == DiscardAll(p, marks)
    requires forall k :: 0 <= k < |marks| ==> marks[k].0.id != id
    ensures Expected(r, id)
    decreases |marks|
  {
    if marks != [] {
      DiscardWithdraws(p, marks[0].0, marks[0].1);
      assert forall k :: 0 <= k < |marks| - 1 ==> marks[1..][k] == marks[k + 1];
      MarksKeepExpected(Discard(p, marks[0].0, marks[0].1), marks[1..], id, r);
    }
  }

  lemma TaskKeepsExpected(p: Pool, t: Task, op: TaskOp, id: nat)
    requires Shaped(p) && TaskEnabled(p, t, op) && Expected(p, id)
    requires !(t.id == id && (op.RemoveOne? || op.MarkOneTask? || (op.HandlerDone? && op.detached)))
    ensures Expected(ApplyTask(p, t, op), id) || (t.id == id && op.HandlerDone? && !WantsAgain(p, id))
  {
    match op
    case Queue => QueueAnswers(p, t); QueueChanges(p, t);
    case RemoveOne(byPool) => RemoveAnswers(p, t, byPool); RemovedOthers(p, t, byPool);
    case MarkOneTask(byPool) => DiscardWithdraws(p, t, byPool);
    case HandlerDone(detached) => DispatchedStat(p, t, detached);
  }

  lemma QueueChanges(p: Pool, t: Task)
    requires Shaped(p)
    ensures forall id :: id != t.id ==>
      var r := QueueTask(p, t).0; (id in r.stat <==> id in p.stat) && (id in p.stat ==> r.stat[id] == p.stat[id])
  {
    if t.gid < |p.entries| { DeliverEffect(Trace(p, t.gid), t.gid, t); }
  }

  lemma RemovedOthers(p: Pool, t: Task, byPool: bool)
    requires Shaped(p) && t.gid < |p.entries|
    ensures forall id :: id != t.id ==>
      var r := RemoveTask(p, t, byPool).0;
      (id in r.stat <==> id in p.stat) && (id in p.stat ==> r.stat[id] == p.stat[id])
  {
    DisposedWhere(p, t, byPool);
  }

  lemma DispatchedStat(p: Pool, t: Task, detached: bool)
    requires Shaped(p) && t.gid < |p.entries|
    ensures var r := Dispatched(p, t, detached);
      && (WantsAgain(p, t.id) && !detached ==> r.stat == p.stat[t.id := Stat(Waiting, false)])
      && forall id :: id != t.id ==> (id in r.stat <==> id in p.stat) && (id in p.stat ==> r.stat[id] == p.stat[id])
  {
    if WantsAgain(p, t.id) && !detached { DeliverEffect(Handled(p, t), t.gid, t); }
  }

  lemma FinishStat(p: Pool, i: nat, detached: bool)
    requires Shaped(p) && i < |p.core.ths| && Job(p.core.ths[i]).Some? && Job(p.core.ths[i]).value.gid < |p.entries|
    ensures var t := Job(p.core.ths[i]).value; var r := Finish(p, i, detached);
      && (WantsAgain(p, t.id) && !detached ==> r.stat == p.stat[t.id := Stat(Waiting, false)])
      && forall id :: id != t.id ==> (id in r.stat <==> id in p.stat) && (id in p.stat ==> r.stat[id] == p.stat[id])
  {
    var t := Job(p.core.ths[i]).value;
    var p1 := CompleteIfIdle(Release(p, i, t.gid), i);
    ReleaseKeepsQueues(p, i, t.gid);
    if WantsAgain(p, t.id) && !detached { DeliverEffect(p1, t.gid, NiceAdjust(t)); } else { ReleaseDrops(p, i, t); }
  }

  lemma ReleaseDrops(p: Pool, i: nat, t: Task)
    requires Shaped(p) && i < |p.core.ths| && t.gid < |p.entries|
    ensures var r := CompleteIfIdle(Untrace(Release(p, i, t.gid), t.gid, t.id), i);
      forall id :: id != t.id ==> (id in r.stat <==> id in p.stat) && (id in p.stat ==> r.stat[id] == p.stat[id])
  {
  }

  lemma ThreadKeepsExpected(p: Pool, i: nat, op: ThreadOp, id: nat)
    requires Tidy(p) && Placed(p) && ThreadEnabled(p, i, op) && Expected(p, id) && !Settles(p, ByThread(i, op), id)
    ensures Expected(ApplyThread(p, i, op), id)
  {
    if op.Take? {
      if p.core.dispatchs == [] { TakeStarts(p, i); } else { TakeBatchTakes(p, i); }
    } else if op.Done? {
      HeldIsRecorded(p, i);
      FinishStat(p, i, op.detached);
    }
  }

  lemma GroupKeepsStat(p: Pool, g: nat, op: GroupOp)
    requires Shaped(p) && GroupEnabled(p, g, op)
    ensures ApplyGroup(p, g, op).stat == p.stat
  {
  }

  lemma {:induction false} SuspendAllStat(p: Pool, g: nat, r: Pool)
    requires Shaped(p) && g <= |p.entries| && r == SuspendAllFrom(p, g)
    ensures r.stat == p.stat
    decreases |p.entries| - g
  {
    if g < |p.entries| {
      SuspendPauses(p, g);
      SuspendAllStat(Suspend(p, g), g + 1, r);
    }
  }

  lemma {:induction false} ResumeAllStat(p: Pool, g: nat, r: Pool)
    requires Shaped(p) && g <= |p.entries| && r == ResumeAllFrom(p, g)
    ensures r.stat == p.stat
    decreases |p.entries| - g
  {
    if g < |p.entries| {
      QuietStat(p, g);
      ResumeAllStat(ResumeQuietly(p, g), g + 1, r);
    }
  }

  lemma QuietStat(p: Pool, g: nat)
    requires Shaped(p) && g < |p.entries|
    ensures ResumeQuietly(p, g).stat == p.stat
  {
  }

  lemma {:induction false} UpdateAllStat(p: Pool, g: nat, r: Pool)
    requires Shaped(p) && g <= |p.entries| && r == UpdateAllFrom(p, g)
    ensures r.stat == p.stat
    decreases |p.entries| - g
  {
    if g < |p.entries| {
      var e := p.entries[g];
      UpdateAllStat(if e.free then p else SetAttr(p, g, e.parallel, e.benefits), g + 1, r);
    }
  }

  lemma PoolKeepsStat(p: Pool, op: PoolOp)
    requires Shaped(p) && PoolEnabled(p, op) && !op.MarkTasks?
    ensures ApplyPool(p, op).stat == p.stat
  {
    if op.SuspendGroups? { SuspendAllStat(p, 0, SuspendAllFrom(p, 0)); }
    if op.ResumeGroups? { ResumeAllStat(p, 0, ResumeAllFrom(p, 0)); }
    if op.AdjustPool? {
      var p0 := p.(core := p.core.(maxthreads := op.maxthreads, minthreads := op.minthreads));
      UpdateAllStat(p0, 0, UpdateAllFrom(p0, 0));
    }
  }

  lemma HandledTaskIsRecorded(p: Pool, t: Task, op: TaskOp)
    requires Placed(p) && Shaped(p) && TaskEnabled(p, t, op) && op.HandlerDone? && Expected(p, t.id)
    ensures WantsAgain(p, t.id)
  {
    RemovedIsRecorded(p, t);
  }

  lemma PoolKeepsExpected(p: Pool, op: PoolOp, id: nat)
    requires Shaped(p) && PoolEnabled(p, op) && Expected(p, id)
    requires !(op.MarkTasks? && exists k :: 0 <= k < |op.marks| && op.marks[k].0.id == id)
    ensures Expected(ApplyPool(p, op), id)
  {
    if op.MarkTasks? { MarksKeepExpected(p, op.marks, id, DiscardAll(p, op.marks)); } else { PoolKeepsStat(p, op); }
  }

  /** An expected task stays expected until a thread takes it, or somebody asks that it shall not run. */
  lemma StepKeepsExpected(p: Pool, op: Op, id: nat)
    requires Tidy(p) && Placed(p) && Enabled(p, op) && Expected(p, id) && !Settles(p, op, id)
    ensures Expected(Apply(p, op), id)
  {
    match op
    case OnTask(t, o) =>
      TaskKeepsExpected(p, t, o, id);
      if t.id == id && o.HandlerDone? { HandledTaskIsRecorded(p, t, o); }
    case OnGroup(g, o) => GroupKeepsStat(p, g, o);
    case OnPool(o) => PoolKeepsExpected(p, o, id);
    case ByThread(i, o) => ThreadKeepsExpected(p, i, o, id);
  }

  lemma RemovedIsRecorded(p: Pool, t: Task)
    requires Placed(p) && t in p.removing
    ensures t.id in p.stat && p.stat[t.id].place == Dispatching
  {
    var k :| 0 <= k < |p.removing| && p.removing[k] == t;
    MatchingMember(p.removing, k, WithId(t.id));
    assert TallyOf(p, WithId(t.id)) == PlaceTally(p.stat, t.id);
  }

  /** No step of the run settles the task. */
  ghost predicate Unsettled(p: Pool, ops: seq<Op>, id: nat)
    requires Shaped(p) && Follows(p, ops)
    decreases |ops|
  {
    ops == [] || (!Settles(p, ops[0], id) && Unsettled(Apply(p, ops[0]), ops[1..], id))
  }

  lemma {:induction false} ExpectedOverRuns(p: Pool, ops: seq<Op>, id: nat)
    requires Books(p) && Follows(p, ops) && Expected(p, id) && Unsettled(p, ops, id)
    ensures Books(After(p, ops)) && Expected(After(p, ops), id)
    decreases |ops|
  {
    if ops != [] {
      StepBooks(p, ops[0]);
      StepKeepsExpected(p, ops[0], id);
      ExpectedOverRuns(Apply(p, ops[0]), ops[1..], id);
    }
  }

  /**
   A task that queueing accepts is not lost: at the end of every run in which no thread has taken it and nobody
   has asked that it shall not run, it is in the queue of some group, or marked to be queued again when its
   present run or handler is over.
   */
  lemma AcceptedIsNotLost(p: Pool, t: Task, q: Pool, ops: seq<Op>)
    requires Books(p) && QueueTask(p, t) == (q, Ok) && Follows(q, ops) && Unsettled(q, ops, t.id)
    ensures var r := After(q, ops); InSomeQueue(r, t.id) || WantsAgain(r, t.id)
  {
    QueueBooks(p, t);
    QueueAnswers(p, t);
    ExpectedOverRuns(q, ops, t.id);
    WaitingIsQueued(After(q, ops), t.id);
  }

  // ---- marked tasks are withdrawn ----

  /** A task that waits is not marked to be queued again as well. */
  ghost predicate WaitsOnce(p: Pool) { forall id :: id in p.stat && p.stat[id].place == Waiting ==> !p.stat[id].again }

  lemma DiscardWaitsOnce(p: Pool, t: Task, byPool: bool)
    requires Shaped(p) && t.gid < |p.entries| && WaitsOnce(p)
    ensures WaitsOnce(Discard(p, t, byPool)) && WaitsOnce(RemoveTask(p, t, byPool).0)
  {
    DisposedWhere(p, t, byPool);
  }

  lemma {:induction false} DiscardAllWaitsOnce(p: Pool, marks: seq<(Task, bool)>, r: Pool)
    requires Shaped(p) && MarksInRange(p, marks) && WaitsOnce(p) && r == DiscardAll(p, marks)
    ensures WaitsOnce(r)
    decreases |marks|
  {
    if marks != [] {
      DiscardWaitsOnce(p, marks[0].0, marks[0].1);
      DiscardAllWaitsOnce(Discard(p, marks[0].0, marks[0].1), marks[1..], r);
    }
  }

  lemma TaskWaitsOnce(p: Pool, t: Task, op: TaskOp)
    requires Shaped(p) && TaskEnabled(p, t, op) && WaitsOnce(p)
    ensures WaitsOnce(ApplyTask(p, t, op))
  {
    match op
    case Queue => if QueueTask(p, t).1 == Ok && !Expected(p, t.id) { QueueRecords(p, t); } else { QueueAnswers(p, t); }
    case RemoveOne(byPool) => DiscardWaitsOnce(p, t, byPool);
    case MarkOneTask(byPool) => DiscardWaitsOnce(p, t, byPool);
    case HandlerDone(detached) => DispatchedRequeues(p, t, detached); DispatchedStat(p, t, detached);
  }

  lemma ThreadWaitsOnce(p: Pool, i: nat, op: ThreadOp)
    requires Tidy(p) && ThreadEnabled(p, i, op) && WaitsOnce(p)
    ensures WaitsOnce(ApplyThread(p, i, op))
  {
    if op.Take? {
      if p.core.dispatchs == [] { TakeStarts(p, i); } else { TakeBatchTakes(p, i); }
    } else if op.Done? {
      FinishRequeues(p, i, op.detached);
      FinishStat(p, i, op.detached);
    }
  }

  lemma StepWaitsOnce(p: Pool, op: Op)
    requires Tidy(p) && Enabled(p, op) && WaitsOnce(p)
    ensures WaitsOnce(Apply(p, op))
  {
    match op
    case OnTask(t, o) => TaskWaitsOnce(p, t, o);
    case OnGroup(g, o) => GroupKeepsStat(p, g, o);
    case OnPool(o) =>
      if o.MarkTasks? { DiscardAllWaitsOnce(p, o.marks, DiscardAll(p, o.marks)); } else { PoolKeepsStat(p, o); }
    case ByThread(i, o) => ThreadWaitsOnce(p, i, o);
  }

  lemma {:induction false} RunWaitsOnce(p: Pool, ops: seq<Op>)
    requires Books(p) && Follows(p, ops) && WaitsOnce(p)
    ensures Books(After(p, ops)) && WaitsOnce(After(p, ops))
    decreases |ops|
  {
    if ops != [] {
      StepBooks(p, ops[0]);
      StepWaitsOnce(p, ops[0]);
      RunWaitsOnce(Apply(p, ops[0]), ops[1..]);
    }
  }

  /** Marking over the pool withdraws every task that it names. */
  lemma {:induction false} MarkedAreWithdrawn(p: Pool, marks: seq<(Task, bool)>, k: nat, r: Pool)
    requires Shaped(p) && WaitsOnce(p) && MarksInRange(p, marks) && Markable(p, marks) && k < |marks|
    requires r == DiscardAll(p, marks)
    ensures !Expected(r, marks[k].0.id)
    decreases |marks|
  {
    var t, q := marks[0].0, Discard(p, marks[0].0, marks[0].1);
    DiscardWithdraws(p, t, marks[0].1);
    DiscardWaitsOnce(p, t, marks[0].1);
    MarkableInRange(q, marks[1..]);
    if k > 0 {
      MarkedAreWithdrawn(q, marks[1..], k - 1, r);
    } else {
      StaysWithdrawn(q, marks[1..], t.id, r);
    }
  }

  /** Over runs: once the marking is done, none of the tasks it named waits, or will be queued again. */
  lemma MarkPoolWithdraws(p: Pool, ops: seq<Op>, q: Pool, marks: seq<(Task, bool)>, flagged: bool, k: nat)
    requires Books(p) && WaitsOnce(p) && Follows(p, ops) && q == After(p, ops)
    requires PoolEnabled(q, MarkTasks(marks, flagged)) && k < |marks|
    ensures !Expected(Apply(q, OnPool(MarkTasks(marks, flagged))), marks[k].0.id)
  {
    RunWaitsOnce(p, ops);
    MarkedAreWithdrawn(q, marks, k, DiscardAll(q, marks));
    MarkPoolStat(q, marks, flagged);
  }

  lemma MarkPoolStat(p: Pool, marks: seq<(Task, bool)>, flagged: bool)
    requires Shaped(p) && MarksInRange(p, marks)
    ensures MarkPool(p, marks, flagged).stat == DiscardAll(p, marks).stat
  {
  }

  lemma {:induction false} StaysWithdrawn(p: Pool, marks: seq<(Task, bool)>, id: nat, r: Pool)
    requires Shaped(p) && MarksInRange(p, marks) && !Expected(p, id) && r == DiscardAll(p, marks)
    ensures !Expected(r, id)
    decreases |marks|
  {
    if marks != [] {
      DiscardWithdraws(p, marks[0].0, marks[0].1);
      StaysWithdrawn(Discard(p, marks[0].0, marks[0].1), marks[1..], id, r);
    }
  }

  // ---- what the remaining steps do ----

  /** A remover that has called a handler holds one task fewer. */
  lemma HandlerIsDone(p: Pool, t: Task, detached: bool)
    requires Placed(p) && Shaped(p) && TaskEnabled(p, t, HandlerDone(detached))
    ensures var r := ApplyTask(p, t, HandlerDone(detached));
      r.removing == Remove(p.removing, t) && |r.removing| == |p.removing| - 1 && r.ndispatchings == p.ndispatchings - 1
  {
    RemoveOneShorter(p.removing, t);
    if WantsAgain(p, t.id) && !detached { DeliverEffect(Handled(p, t), t.gid, t); }
  }

  lemma {:induction false} RemoveOneShorter(q: seq<Task>, t: Task)
    requires t in q
    ensures |Remove(q, t)| == |q| - 1
  {
    if q[0] != t { RemoveOneShorter(q[1..], t); }
  }

  /** Marking one task for removal withdraws it, and removing it does if it was waiting. */
  lemma MarkOneWithdraws(p: Pool, t: Task, byPool: bool)
    requires Shaped(p) && WaitsOnce(p) && TaskEnabled(p, t, MarkOneTask(byPool)) && t.id in p.stat
    ensures !Expected(ApplyTask(p, t, MarkOneTask(byPool)), t.id)
    ensures p.stat[t.id].place == Waiting ==> !Expected(ApplyTask(p, t, RemoveOne(byPool)), t.id)
  {
    DiscardWithdraws(p, t, byPool);
    RemoveAnswers(p, t, byPool);
  }

  /** Where every slot was taken, growing leaves one in which a group can be created. */
  lemma GrowingMakesRoom(p: Pool, priqNum: nat, suspend: bool)
    requires Shaped(p) && PoolEnabled(p, GrowGroups) && 1 <= priqNum <= 99
    ensures GroupEnabled(ApplyPool(p, GrowGroups), |p.entries|, CreateGroup(priqNum, suspend))
  {
    GrowAdds(p);
  }

  /** Suspending every group leaves none in use that is not paused, */
  lemma AllGroupsPaused(p: Pool, g: nat)
    requires Shaped(p) && g < |p.entries| && ValidEntry(p.entries[g])
    ensures var r := ApplyPool(p, SuspendGroups); g < |r.entries| && r.entries[g].paused
  {
    SuspendAllStopped(p, 0);
    assert Stopped(p.entries[g], SuspendAllFrom(p, 0).entries[g]);
  }

  /** and resuming every group none that is. */
  lemma NoGroupPaused(p: Pool, g: nat)
    requires Shaped(p) && g < |p.entries| && ValidEntry(p.entries[g])
    ensures var r := ApplyPool(p, ResumeGroups); g < |r.entries| && !r.entries[g].paused
  {
    ResumeAllEntry(p, 0, g);
    QuietUnpauses(p, g);
  }

  lemma QuietUnpauses(p: Pool, g: nat)
    requires Shaped(p) && g < |p.entries| && ValidEntry(p.entries[g])
    ensures !ResumeQuietly(p, g).entries[g].paused
  {
  }

  /** A created group accepts tasks, one that is being deleted does not, and a slot given back can be created anew. */
  lemma GroupSteps(p: Pool, g: nat, t: Task, priqNum: nat, suspend: bool)
    requires Tidy(p) && g < |p.entries| && 1 <= priqNum <= 99 && t.gid == g && t.id !in p.stat && !p.throttled
    requires !p.entries[g].throttled
    ensures GroupEnabled(p, g, CreateGroup(priqNum, suspend)) && !p.entries[g].destroying ==>
      QueueTask(ApplyGroup(p, g, CreateGroup(priqNum, suspend)), t).1 == Ok
    ensures GroupEnabled(p, g, DeleteGroup) ==> QueueTask(ApplyGroup(p, g, DeleteGroup), t).1 == GroupNotFound
    ensures GroupEnabled(p, g, VacateGroup) ==>
      GroupEnabled(ApplyGroup(p, g, VacateGroup), g, CreateGroup(priqNum, suspend))
  {
    if GroupEnabled(p, g, CreateGroup(priqNum, suspend)) && !p.entries[g].destroying {
      CreatedAccepts(p, g, t, priqNum, suspend);
    }
    if GroupEnabled(p, g, DeleteGroup) { DeletedIsClosed(p, g, t); }
  }

  lemma CreatedAccepts(p: Pool, g: nat, t: Task, priqNum: nat, suspend: bool)
    requires Tidy(p) && GroupEnabled(p, g, CreateGroup(priqNum, suspend)) && !p.entries[g].destroying
    requires t.gid == g && t.id !in p.stat && !p.throttled && !p.entries[g].throttled
    ensures QueueTask(Occupy(p, g, priqNum, suspend), t).1 == Ok
  {
    OccupyOpens(p, g, priqNum, suspend);
    assert Occupy(p, g, priqNum, suspend).entries[g].throttled == p.entries[g].throttled;
    QueueAnswers(Occupy(p, g, priqNum, suspend), t);
  }
}
