/**
 The order of scheduling over runs: queues stay sorted exactly as long as every insertion is safe,
 and as long as they are sorted the task taken is the first of all that could start.
 */
module PoolOrder {
  import opened Types
  import opened ThreadModel
  import opened PriorityOrder
  import opened PriorityQueue
  import opened ActivePrefix
  import opened GroupModel
  import opened GroupCounts
  import opened GroupShape
  import opened GroupExact
  import opened GroupPlaces
  import opened Scheduler
  import opened PoolSound
  import opened PoolRuns
  import opened PoolTheorems

  /** Queueing `t` in its group now would be safe within its band. */
  predicate QueuesSafely(p: Pool, t: Task)
    requires t.gid < |p.entries|
  {
    var e := p.entries[t.gid];
    BandSafe(e.avg, e.queue, t.(seqno := p.seqno + 1), p.tailFirst)
  }

  predicate TaskSortGuard(p: Pool, t: Task, op: TaskOp)
  {
    t.gid < |p.entries| ==>
    match op
    case Queue =>
      var e := p.entries[t.gid];
      t.id !in p.stat && !p.throttled && !e.free && !e.destroying && !e.throttled ==> QueuesSafely(p, t)
    case HandlerDone(detached) => !detached && WantsAgain(p, t.id) ==> QueuesSafely(p, t)
    case _ => true
  }

  predicate ThreadSortGuard(p: Pool, i: nat, op: ThreadOp)
    requires i < |p.core.ths|
  {
    op.Done? && Job(p.core.ths[i]).Some? ==>
      var t := Job(p.core.ths[i]).value;
      t.gid < |p.entries| && !op.detached && WantsAgain(p, t.id) ==> QueuesSafely(p, NiceAdjust(t))
  }

  /** The queues are what they were. */
  ghost predicate SameQueues(p: Pool, r: Pool)
  {
    && |p.entries| == |r.entries| && r.seqno == p.seqno && r.tailFirst == p.tailFirst
    && (forall g :: 0 <= g < |p.entries| ==>
      r.entries[g].queue == p.entries[g].queue && r.entries[g].avg == p.entries[g].avg)
  }

  lemma {:induction false} SameQueuesSum(es: seq<Entry>, fs: seq<Entry>, s: Sel)
    requires |es| == |fs| && forall g :: 0 <= g < |es| ==> fs[g].queue == es[g].queue
    ensures Sum(es, Queued(s)) == Sum(fs, Queued(s))
  {
    if es != [] { SameQueuesSum(es[..|es| - 1], fs[..|es| - 1], s); }
  }

  /** Queueing after a step that left the queues alone. */
  lemma DeliverAfterSorted(p: Pool, p1: Pool, t: Task)
    requires Shaped(p1) && SeqsDistinct(p) && QueuesSorted(p) && SameQueues(p, p1) && t.gid < |p.entries|
    ensures QueuesSorted(Deliver(p1, t.gid, t)) <==> QueuesSafely(p, t)
  {
    forall n: nat ensures TallyOf(p1, WithSeq(n)).waits <= Bit(n <= p1.seqno) {
      SameQueuesSum(p.entries, p1.entries, WithSeq(n));
      assert TallyOf(p, WithSeq(n)).waits <= Bit(n <= p.seqno);
    }
    forall g | 0 <= g < |p1.entries| ensures Sorted(p1.entries[g].queue) { assert Sorted(p.entries[g].queue); }
    DeliverSorted(p1, t.gid, t);
  }

  lemma QueueSorted(p: Pool, t: Task)
    requires Shaped(p) && SeqsDistinct(p) && QueuesSorted(p)
    ensures QueuesSorted(QueueTask(p, t).0) <==> TaskSortGuard(p, t, Queue)
  {
    if t.gid < |p.entries| {
      assert SameQueues(p, Trace(p, t.gid));
      DeliverAfterSorted(p, Trace(p, t.gid), t);
    }
  }

  lemma DispatchedSorted(p: Pool, t: Task, detached: bool)
    requires Shaped(p) && SeqsDistinct(p) && QueuesSorted(p) && t.gid < |p.entries|
    ensures QueuesSorted(Dispatched(p, t, detached)) <==> TaskSortGuard(p, t, HandlerDone(detached))
  {
    assert SameQueues(p, Handled(p, t));
    if detached || !WantsAgain(p, t.id) {
      assert SameQueues(p, Untrace(Handled(p, t), t.gid, t.id));
    } else {
      DeliverAfterSorted(p, Handled(p, t), t);
    }
  }

  lemma ReleaseQueues(p: Pool, i: nat, g: nat)
    requires Shaped(p) && i < |p.core.ths| && g < |p.entries|
    ensures SameQueues(p, CompleteIfIdle(Release(p, i, g), i))
  {
  }

  lemma FinishSorted(p: Pool, i: nat, detached: bool)
    requires Shaped(p) && SeqsDistinct(p) && QueuesSorted(p) && i < |p.core.ths|
    requires Job(p.core.ths[i]).Some? && Job(p.core.ths[i]).value.gid < |p.entries|
    ensures QueuesSorted(Finish(p, i, detached)) <==> ThreadSortGuard(p, i, Done(detached))
  {
    var t := Job(p.core.ths[i]).value;
    ReleaseQueues(p, i, t.gid);
    if detached || !WantsAgain(p, t.id) {
      UntraceCompletes(Release(p, i, t.gid), i, t.gid, t.id);
      assert SameQueues(p, Finish(p, i, detached));
    } else {
      DeliverAfterSorted(p, CompleteIfIdle(Release(p, i, t.gid), i), NiceAdjust(t));
    }
  }

  /** One queue may have lost tasks. */
  lemma OneQueueSorted(p: Pool, r: Pool, g: nat)
    requires QueuesSorted(p) && g < |p.entries| == |r.entries| && r.entries == p.entries[g := r.entries[g]]
    requires Sorted(r.entries[g].queue)
    ensures QueuesSorted(r)
  {
  }

  lemma TakeSorted(p: Pool, i: nat)
    requires Tidy(p) && QueuesSorted(p) && i < |p.core.ths| && GetTask(p, i).Took?
    ensures QueuesSorted(GetTask(p, i).pool)
  {
    if p.core.dispatchs == [] {
      ChooseFinds(p);
      var g := Choose(p).value;
      assert Sorted(p.entries[g].queue);
      PoppedSorted(p, g);
    }
  }

  lemma PoppedSorted(p: Pool, g: nat)
    requires Shaped(p) && QueuesSorted(p) && g < |p.entries|
    ensures QueuesSorted(TakeFrom(p, g))
  {
    var r := TakeFrom(p, g);
    assert r.entries == p.entries[g := r.entries[g]];
    assert Sorted(p.entries[g].queue);
    OneQueueSorted(p, r, g);
  }

  lemma RemoveSorted(p: Pool, t: Task, byPool: bool)
    requires Shaped(p) && QueuesSorted(p) && t.gid < |p.entries|
    ensures QueuesSorted(RemoveWaiting(p, t, byPool))
  {
    var r := RemoveWaiting(p, t, byPool);
    RemovedEntry(p, t, byPool);
    assert Sorted(p.entries[t.gid].queue);
    SortedRemove(p.entries[t.gid].queue, t);
    OneQueueSorted(p, r, t.gid);
  }

  lemma {:induction false} UpdateAllQueues(p: Pool, g: nat)
    requires Shaped(p) && g <= |p.entries|
    ensures SameQueues(p, UpdateAllFrom(p, g))
    decreases |p.entries| - g
  {
    if g < |p.entries| {
      var e := p.entries[g];
      UpdateAllQueues(if e.free then p else SetAttr(p, g, e.parallel, e.benefits), g + 1);
    }
  }

  predicate SortGuard(p: Pool, op: Op)
  {
    match op
    case OnTask(t, o) => TaskSortGuard(p, t, o)
    case ByThread(i, o) => i < |p.core.ths| ==> ThreadSortGuard(p, i, o)
    case _ => true
  }

  lemma TaskStepSorted(p: Pool, t: Task, op: TaskOp)
    requires Books(p) && QueuesSorted(p) && TaskEnabled(p, t, op)
    ensures QueuesSorted(ApplyTask(p, t, op)) <==> TaskSortGuard(p, t, op)
  {
    match op
    case Queue => QueueSorted(p, t);
    case RemoveOne(byPool) => RemoveSorted(p, t, byPool);
    case MarkOneTask(byPool) => RemoveSorted(p, t, byPool);
    case HandlerDone(detached) => DispatchedSorted(p, t, detached);
  }

  lemma SameQueuesSorted(p: Pool, r: Pool)
    requires QueuesSorted(p) && SameQueues(p, r)
    ensures QueuesSorted(r)
  {
    forall g | 0 <= g < |r.entries| ensures Sorted(r.entries[g].queue) { assert Sorted(p.entries[g].queue); }
  }

  lemma SuspendQueues(p: Pool, g: nat)
    requires Shaped(p) && g < |p.entries|
    ensures SameQueues(p, Suspend(p, g))
  {
  }

  lemma ResumeQueues(p: Pool, g: nat)
    requires Shaped(p) && g < |p.entries|
    ensures SameQueues(p, Resume(p, g))
  {
  }

  lemma AttrQueues(p: Pool, g: nat, parallel: int, benefits: bool)
    requires Shaped(p) && g < |p.entries|
    ensures SameQueues(p, SetAttr(p, g, parallel, benefits))
  {
  }

  lemma DeleteQueues(p: Pool, g: nat)
    requires Shaped(p) && g < |p.entries|
    ensures SameQueues(p, Vacate(p, g)) && SameQueues(p, SetEntry(p, g, p.entries[g].(destroying := true)))
  {
  }

  lemma CreateQueues(p: Pool, g: nat, priqNum: nat, suspend: bool)
    requires Shaped(p) && g < |p.entries| && 1 <= priqNum <= 99 && QueuesSorted(p)
    ensures QueuesSorted(Occupy(p, g, priqNum, suspend))
  {
    var r := Occupy(p, g, priqNum, suspend);
    assert r.entries[g].queue == [];
    OneQueueSorted(p, r, g);
  }

  lemma GroupStepSorted(p: Pool, g: nat, op: GroupOp)
    requires Books(p) && QueuesSorted(p) && GroupEnabled(p, g, op)
    ensures QueuesSorted(ApplyGroup(p, g, op))
  {
    match op
    case SuspendGroup => SuspendQueues(p, g); SameQueuesSorted(p, Suspend(p, g));
    case ResumeGroup => ResumeQueues(p, g); SameQueuesSorted(p, Resume(p, g));
    case SetGroupAttr(parallel, benefits) =>
      AttrQueues(p, g, parallel, benefits);
      SameQueuesSorted(p, SetAttr(p, g, parallel, benefits));
    case CreateGroup(priqNum, suspend) => CreateQueues(p, g, priqNum, suspend);
    case DeleteGroup => DeleteQueues(p, g); SameQueuesSorted(p, SetEntry(p, g, p.entries[g].(destroying := true)));
    case VacateGroup => DeleteQueues(p, g); SameQueuesSorted(p, Vacate(p, g));
  }

  lemma SameQueuesTwice(p: Pool, q: Pool, r: Pool)
    requires SameQueues(p, q) && SameQueues(q, r)
    ensures SameQueues(p, r)
  {
  }

  lemma {:induction false} SuspendAllQueues(p: Pool, g: nat)
    requires Shaped(p) && g <= |p.entries|
    ensures SameQueues(p, SuspendAllFrom(p, g))
    decreases |p.entries| - g
  {
    if g < |p.entries| {
      SuspendQueues(p, g);
      SuspendAllQueues(Suspend(p, g), g + 1);
      SameQueuesTwice(p, Suspend(p, g), SuspendAllFrom(p, g));
    }
  }

  lemma QuietQueues(p: Pool, g: nat)
    requires Shaped(p) && g < |p.entries|
    ensures SameQueues(p, ResumeQuietly(p, g))
  {
  }

  lemma {:induction false} ResumeAllQueues(p: Pool, g: nat)
    requires Shaped(p) && g <= |p.entries|
    ensures SameQueues(p, ResumeAllFrom(p, g))
    decreases |p.entries| - g
  {
    if g < |p.entries| {
      QuietQueues(p, g);
      ResumeAllQueues(ResumeQuietly(p, g), g + 1);
      SameQueuesTwice(p, ResumeQuietly(p, g), ResumeAllFrom(p, g));
    }
  }

  lemma DiscardSorted(p: Pool, t: Task, byPool: bool)
    requires Shaped(p) && QueuesSorted(p) && t.gid < |p.entries|
    ensures QueuesSorted(Discard(p, t, byPool))
  {
    RemoveSorted(p, t, byPool);
  }

  lemma {:induction false} DiscardAllSorted(p: Pool, marks: seq<(Task, bool)>)
    requires Shaped(p) && QueuesSorted(p) && MarksInRange(p, marks)
    ensures QueuesSorted(DiscardAll(p, marks))
    decreases |marks|
  {
    if marks != [] {
      DiscardSorted(p, marks[0].0, marks[0].1);
      DiscardAllSorted(Discard(p, marks[0].0, marks[0].1), marks[1..]);
    }
  }

  lemma GrowSorted(p: Pool)
    requires Shaped(p) && QueuesSorted(p)
    ensures QueuesSorted(GrowPool(p))
  {
    assert Sorted(FREESLOT.queue);
  }

  /** Over all groups: what suspends, resumes, adjusts or marks leaves the queues sorted. */
  lemma AllStepsSorted(p: Pool, op: PoolOp)
    requires Shaped(p) && QueuesSorted(p) && PoolEnabled(p, op)
    requires op.AdjustPool? || op.SuspendGroups? || op.ResumeGroups? || op.MarkTasks?
    ensures QueuesSorted(ApplyPool(p, op))
  {
    match op
    case AdjustPool(hi, lo) =>
      UpdateAllQueues(p.(core := p.core.(maxthreads := hi, minthreads := lo)), 0);
      SameQueuesSorted(p, Adjust(p, hi, lo));
    case SuspendGroups => SuspendAllQueues(p, 0); SameQueuesSorted(p, SuspendAllFrom(p, 0));
    case ResumeGroups => ResumeAllQueues(p, 0); SameQueuesSorted(p, ResumeAll(p));
    case MarkTasks(marks, flagged) =>
      DiscardAllSorted(p, marks);
      SameQueuesSorted(DiscardAll(p, marks), MarkPool(p, marks, flagged));
  }

  lemma PoolStepSorted(p: Pool, op: PoolOp)
    requires Books(p) && QueuesSorted(p) && PoolEnabled(p, op)
    ensures QueuesSorted(ApplyPool(p, op))
  {
    if op.GrowGroups? {
      GrowSorted(p);
    } else if op.AdjustPool? || op.SuspendGroups? || op.ResumeGroups? || op.MarkTasks? {
      AllStepsSorted(p, op);
    } else {
      SameQueuesSorted(p, ApplyPool(p, op));
    }
  }

  lemma ThreadStepSorted(p: Pool, i: nat, op: ThreadOp)
    requires Books(p) && QueuesSorted(p) && ThreadEnabled(p, i, op)
    ensures QueuesSorted(ApplyThread(p, i, op)) <==> ThreadSortGuard(p, i, op)
  {
    match op
    case Take => TakeSorted(p, i);
    case Done(detached) => FinishSorted(p, i, detached);
    case _ =>
  }

  /** A step keeps all queues sorted if and only if what it queues is safe where it goes. */
  lemma StepSorted(p: Pool, op: Op)
    requires Books(p) && QueuesSorted(p) && Enabled(p, op)
    ensures QueuesSorted(Apply(p, op)) <==> SortGuard(p, op)
  {
    match op
    case OnTask(t, o) => TaskStepSorted(p, t, o);
    case OnGroup(g, o) => GroupStepSorted(p, g, o);
    case OnPool(o) => PoolStepSorted(p, o);
    case ByThread(i, o) => ThreadStepSorted(p, i, o);
  }

  ghost predicate SafeRun(p: Pool, ops: seq<Op>)
    requires Shaped(p) && Follows(p, ops)
    decreases |ops|
  {
    ops == [] || (SortGuard(p, ops[0]) && SafeRun(Apply(p, ops[0]), ops[1..]))
  }

  lemma {:induction false} RunKeepsSorted(p: Pool, ops: seq<Op>)
    requires Books(p) && QueuesSorted(p) && Follows(p, ops) && SafeRun(p, ops)
    ensures QueuesSorted(After(p, ops)) && Books(After(p, ops))
    decreases |ops|
  {
    if ops != [] {
      StepBooks(p, ops[0]);
      StepSorted(p, ops[0]);
      RunKeepsSorted(Apply(p, ops[0]), ops[1..]);
    }
  }

  /** The task precedes every other pending task of every group that could start one in this round. */
  ghost predicate FirstOfAll(p: Pool, t: Task, benefits: bool)
  {
    forall h, k :: 0 <= h < |p.entries| && CanStart(p.entries[h], benefits) && 0 <= k < |p.entries[h].queue| ==>
      t == p.entries[h].queue[k] || Precedes(t, p.entries[h].queue[k])
  }

  /** The first in the intended order among all pending tasks that could start is the one chosen. */
  lemma ChoosesTheFirst(p: Pool)
    requires Tidy(p) && Placed(p) && QueuesSorted(p) && p.core.pendings != 0 && SomeCanStart(p, true)
    ensures Choose(p).Some?
    ensures var e := p.entries[Choose(p).value]; var benefits := !SomeCanStart(p, false);
      CanStart(e, benefits) && e.top in e.queue && FirstOfAll(p, e.top, benefits)
  {
    ChooseIsBest(p);
    var g := Choose(p).value;
    assert EntryTidy(p.entries[g], g, p.pre.active[g]);
    var benefits := !SomeCanStart(p, false);
    forall h, k | 0 <= h < |p.entries| && CanStart(p.entries[h], benefits) && 0 <= k < |p.entries[h].queue|
      ensures p.entries[g].top == p.entries[h].queue[k] || Precedes(p.entries[g].top, p.entries[h].queue[k])
    {
      TakenIsBestOfAll(p, h, k);
    }
  }

  /** Thread `i` takes, of all pending tasks of the groups that could start one, the first in the intended order. */
  ghost predicate TakesFirst(q: Pool, i: nat)
    requires Shaped(q) && i < |q.core.ths|
  {
    Choose(q).Some? &&
    var g := Choose(q).value; var t := q.entries[g].top;
    && GetTask(q, i) == Took(Start(TakeFrom(q, g), i, t))
    && t in q.entries[g].queue && FirstOfAll(q, t, !SomeCanStart(q, false))
  }

  /**
   The scheduler refines its specification: at the end of such a run, a thread that finds no removed
   tasks takes the first, in the intended order, of all pending tasks of the groups that have a free
   slot or, if there are none, of the groups that receive benefits.
   */
  lemma TakesTheFirst(p: Pool, ops: seq<Op>, q: Pool, i: nat)
    requires Books(p) && QueuesSorted(p) && Follows(p, ops) && SafeRun(p, ops) && q == After(p, ops)
    requires i < |q.core.ths| && q.core.dispatchs == [] && !q.core.paused && q.core.pendings != 0
    ensures TakesFirst(q, i) <==> SomeCanStart(q, true)
  {
    RunKeepsSorted(p, ops);
    if SomeCanStart(q, true) { ChoosesTheFirst(q); } else { ChooseIsBest(q); }
  }

  // ---- insertion as its comment intends it ----

  lemma DiscardTail(p: Pool, t: Task, byPool: bool)
    requires Shaped(p) && t.gid < |p.entries|
    ensures Discard(p, t, byPool).tailFirst == p.tailFirst
  {
  }

  lemma {:induction false} DiscardAllTail(p: Pool, marks: seq<(Task, bool)>, r: Pool)
    requires Shaped(p) && MarksInRange(p, marks) && r == DiscardAll(p, marks)
    ensures r.tailFirst == p.tailFirst
    decreases |marks|
  {
    if marks != [] {
      DiscardTail(p, marks[0].0, marks[0].1);
      DiscardAllTail(Discard(p, marks[0].0, marks[0].1), marks[1..], r);
    }
  }

  lemma DeliverTail(p: Pool, g: nat, t: Task)
    requires Shaped(p) && g < |p.entries|
    ensures Deliver(p, g, t).tailFirst == p.tailFirst
  {
  }

  lemma TaskTail(p: Pool, t: Task, op: TaskOp)
    requires Shaped(p) && TaskEnabled(p, t, op)
    ensures ApplyTask(p, t, op).tailFirst == p.tailFirst
  {
    match op
    case Queue => if t.gid < |p.entries| { DeliverTail(Trace(p, t.gid), t.gid, t); }
    case RemoveOne(byPool) => DiscardTail(p, t, byPool);
    case MarkOneTask(byPool) => DiscardTail(p, t, byPool);
    case HandlerDone(detached) => DeliverTail(Handled(p, t), t.gid, t);
  }

  lemma GroupTail(p: Pool, g: nat, op: GroupOp)
    requires Shaped(p) && GroupEnabled(p, g, op)
    ensures ApplyGroup(p, g, op).tailFirst == p.tailFirst
  {
    match op
    case SuspendGroup => SuspendQueues(p, g);
    case ResumeGroup => ResumeQueues(p, g);
    case SetGroupAttr(parallel, benefits) => AttrQueues(p, g, parallel, benefits);
    case CreateGroup(priqNum, suspend) =>
    case DeleteGroup => DeleteQueues(p, g);
    case VacateGroup => DeleteQueues(p, g);
  }

  lemma PoolTail(p: Pool, op: PoolOp)
    requires Shaped(p) && PoolEnabled(p, op)
    ensures ApplyPool(p, op).tailFirst == p.tailFirst
  {
    if op.MarkTasks? { DiscardAllTail(p, op.marks, DiscardAll(p, op.marks)); }
    if op.AdjustPool? {
      UpdateAllQueues(p.(core := p.core.(maxthreads := op.maxthreads, minthreads := op.minthreads)), 0);
    }
    if op.SuspendGroups? { SuspendAllQueues(p, 0); }
    if op.ResumeGroups? { ResumeAllQueues(p, 0); }
  }

  lemma ThreadTail(p: Pool, i: nat, op: ThreadOp)
    requires Shaped(p) && ThreadEnabled(p, i, op)
    ensures ApplyThread(p, i, op).tailFirst == p.tailFirst
  {
    if op.Done? {
      var t := Job(p.core.ths[i]).value;
      ReleaseQueues(p, i, t.gid);
      DeliverTail(CompleteIfIdle(Release(p, i, t.gid), i), t.gid, NiceAdjust(t));
    }
  }

  lemma TailStays(p: Pool, op: Op)
    requires Shaped(p) && Enabled(p, op)
    ensures Apply(p, op).tailFirst == p.tailFirst
  {
    match op
    case OnTask(t, o) => TaskTail(p, t, o);
    case OnGroup(g, o) => GroupTail(p, g, o);
    case OnPool(o) => PoolTail(p, o);
    case ByThread(i, o) => ThreadTail(p, i, o);
  }

  /** The task the step may queue; the library sets the PUSH flag only together with the lowest rank. */
  predicate PushesLowest(p: Pool, op: Op)
  {
    match op
    case OnTask(t, o) => PushIsLowest(t)
    case ByThread(i, o) => i < |p.core.ths| && Job(p.core.ths[i]).Some? ==> PushIsLowest(Job(p.core.ths[i]).value)
    case _ => true
  }

  ghost predicate PushedRun(p: Pool, ops: seq<Op>)
    requires Shaped(p) && Follows(p, ops)
    decreases |ops|
  {
    ops == [] || (PushesLowest(p, ops[0]) && PushedRun(Apply(p, ops[0]), ops[1..]))
  }

  lemma {:induction false} TailRunIsSafe(p: Pool, ops: seq<Op>)
    requires Shaped(p) && p.tailFirst && Follows(p, ops) && PushedRun(p, ops)
    ensures SafeRun(p, ops)
    decreases |ops|
  {
    if ops != [] {
      TailStepIsSafe(p, ops[0]);
      TailStays(p, ops[0]);
      TailRunIsSafe(Apply(p, ops[0]), ops[1..]);
    }
  }

  lemma TailQueuesSafely(p: Pool, t: Task)
    requires p.tailFirst && t.gid < |p.entries| && PushIsLowest(t)
    ensures QueuesSafely(p, t)
  {
    var e := p.entries[t.gid];
    TailIsSafe(Within(e.avg, e.queue, Locate(e.avg, t.pri)), t.(seqno := p.seqno + 1));
  }

  lemma TailStepIsSafe(p: Pool, op: Op)
    requires Shaped(p) && p.tailFirst && Enabled(p, op) && PushesLowest(p, op)
    ensures SortGuard(p, op)
  {
    match op
    case OnTask(t, o) => if t.gid < |p.entries| { TailQueuesSafely(p, t); }
    case ByThread(i, o) =>
      if o.Done? { TailQueuesSafely(p, NiceAdjust(Job(p.core.ths[i]).value)); }
    case _ =>
  }

  /** With insertion as intended, every run refines the specification: no condition on priorities is left. */
  lemma IntendedTakesTheFirst(p: Pool, ops: seq<Op>, q: Pool, i: nat)
    requires Books(p) && QueuesSorted(p) && p.tailFirst && Follows(p, ops) && PushedRun(p, ops) && q == After(p, ops)
    requires i < |q.core.ths| && q.core.dispatchs == [] && !q.core.paused && q.core.pendings != 0
    ensures QueuesSorted(q) && (TakesFirst(q, i) <==> SomeCanStart(q, true))
  {
    TailRunIsSafe(p, ops);
    RunKeepsSorted(p, ops);
    TakesTheFirst(p, ops, q, i);
  }
}
