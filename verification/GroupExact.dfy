/**
 The effective pending number: core->npendings is the number of tasks that could start now.
 Queueing, taking, completing, removing and suspending keep it; resuming and changing the
 attributes of a group keep it exactly under a condition on the running tasks they ignore.
 */
module GroupExact {
  import opened Types
  import opened ThreadModel
  import opened ThreadSupply
  import opened ThreadJobs
  import opened PriorityOrder
  import opened PriorityQueue
  import opened ActivePrefix
  import opened GroupModel
  import opened GroupCounts
  import opened GroupShape

  /** How many pending tasks of the group have a slot. */
  function Effective(e: Entry): int
  {
    if e.paused || e.benefits then 0 else Min(e.npendings, Max(0, e.limit - e.nrunnings))
  }

  /**
   The effective number of one group: exactly what has a slot or, in the weaker form that every resume
   and every change of limits keeps, at least that and no more than what is pending.
   */
  predicate EffOk(e: Entry, exact: bool)
  {
    if e.paused || e.benefits then e.eff == 0
    else if exact then e.eff == Effective(e) else Effective(e) <= e.eff <= e.npendings
  }

  ghost predicate Numbers(p: Pool, exact: bool)
  {
    && (forall g :: 0 <= g < |p.entries| ==> EffOk(p.entries[g], exact))
    && p.core.pendings == Sum(p.entries, Startable)
  }

  /** core->npendings is exactly the number of tasks that could start now. */
  ghost predicate Exact(p: Pool) { Numbers(p, true) }

  /** It is the sum over the groups, and counts no fewer. */
  ghost predicate Covers(p: Pool) { Numbers(p, false) }

  lemma ExactCovers(p: Pool)
    requires Shaped(p) && EntriesTidy(p) && Exact(p)
    ensures Covers(p)
  {
    forall g | 0 <= g < |p.entries| ensures EffOk(p.entries[g], false) {
      assert EntryTidy(p.entries[g], g, p.pre.active[g]) && EffOk(p.entries[g], true);
    }
  }

  lemma OneExact(p: Pool, r: Pool, g: nat, exact: bool)
    requires Numbers(p, exact) && g < |p.entries| == |r.entries| && r.entries == p.entries[g := r.entries[g]]
    requires r.core.pendings - p.core.pendings == Of(r.entries[g], Startable) - Of(p.entries[g], Startable)
    ensures Numbers(r, exact) <==> EffOk(r.entries[g], exact)
  {
    SumUpdate(p.entries, g, r.entries[g], Startable);
  }

  lemma CoreExact(p: Pool, r: Pool, exact: bool)
    requires Numbers(p, exact) && r.entries == p.entries && r.core.pendings == p.core.pendings
    ensures Numbers(r, exact)
  {
  }

  lemma StartableNonNegative(p: Pool, exact: bool)
    requires Tidy(p) && Numbers(p, exact)
    ensures NonNegative(p.entries, Startable)
  {
    forall g | 0 <= g < |p.entries| ensures Of(p.entries[g], Startable) >= 0 {
      assert EntryTidy(p.entries[g], g, p.pre.active[g]);
    }
  }

  lemma PendingsNonNegative(p: Pool, exact: bool)
    requires Tidy(p) && Numbers(p, exact)
    ensures p.core.pendings >= 0
  {
    StartableNonNegative(p, exact);
    SumNonNegative(p.entries, Startable);
  }

  /** The group has nothing to start: it is paused, empty, or without benefits at its limit. */
  predicate Still(e: Entry) { e.paused || e.npendings == 0 || (!e.benefits && e.nrunnings >= e.limit) }

  /** A count of zero means that no group has anything to start, whether the numbers are exact or only cover. */
  lemma ZeroMeansStill(p: Pool, exact: bool)
    requires Tidy(p) && Numbers(p, exact) && p.core.pendings == 0
    ensures forall g :: 0 <= g < |p.entries| ==> Still(p.entries[g])
  {
    StartableNonNegative(p, exact);
    forall g | 0 <= g < |p.entries| ensures Still(p.entries[g]) {
      SumMember(p.entries, g, Startable);
      assert EntryTidy(p.entries[g], g, p.pre.active[g]) && EffOk(p.entries[g], exact);
    }
  }

  // ---- queueing ----

  /** The pool has at least as many pending tasks as any of its running groups. */
  lemma PendingBound(p: Pool, g: nat)
    requires Tidy(p) && g < |p.entries| && !p.entries[g].paused
    ensures p.npendings >= p.entries[g].npendings
  {
    PendingNonNegative(p);
    SumMember(p.entries, g, Pending);
  }

  lemma DeliverExact(p: Pool, g: nat, t: Task, exact: bool)
    requires Tidy(p) && Numbers(p, exact) && g < |p.entries|
    ensures Numbers(Deliver(p, g, t), exact)
  {
    var e := p.entries[g];
    DeliverEffect(p, g, t);
    if !e.paused { PendingBound(p, g); }
    assert EntryTidy(e, g, p.pre.active[g]);
    ServedJobs(AddCore(p.core, 1));
    DeliveredExact(p, Deliver(p, g, t), g, Delivered(p, g, t), exact);
  }

  lemma DeliveredExact(p: Pool, r: Pool, g: nat, f: Entry, exact: bool)
    requires Numbers(p, exact) && g < |p.entries| && r.entries == p.entries[g := f]
    requires var e := p.entries[g];
      && e.npendings >= 0 && (e.paused || p.npendings >= e.npendings)
      && f.npendings == e.npendings + 1 && f.paused == e.paused && f.benefits == e.benefits
      && f.limit == e.limit && f.nrunnings == e.nrunnings
      && f.eff == e.eff + Bit(DeliverStarts(p, g) && !e.benefits)
    requires r.core.pendings == p.core.pendings + Bit(DeliverStarts(p, g))
    ensures Numbers(r, exact)
  {
    OneExact(p, r, g, exact);
  }

  lemma QueueTaskExact(p: Pool, t: Task, exact: bool)
    requires Tidy(p) && Numbers(p, exact)
    ensures Numbers(QueueTask(p, t).0, exact)
  {
    if t.gid < |p.entries| {
      OneExact(p, Trace(p, t.gid), t.gid, exact);
      assert EntryTidy(p.entries[t.gid], t.gid, p.pre.active[t.gid]);
      NeutralTidy(p, Trace(p, t.gid), t.gid);
      DeliverExact(Trace(p, t.gid), t.gid, t, exact);
    }
  }

  // ---- taking ----

  /** Taking from a group that has room, or that needs none. */
  lemma TakeFromExact(p: Pool, g: nat, exact: bool)
    requires Tidy(p) && Numbers(p, exact) && g < |p.entries| && p.pre.active[g]
    requires p.entries[g].benefits || p.entries[g].nrunnings < p.entries[g].limit
    ensures Numbers(TakeFrom(p, g), exact) && TakeFrom(p, g).core == AddCore(p.core, -1)
  {
    assert EntryTidy(p.entries[g], g, p.pre.active[g]);
    var r := TakeFrom(p, g);
    assert r.entries == p.entries[g := r.entries[g]];
    OneExact(p, r, g, exact);
  }

  lemma StartExact(p: Pool, i: nat, t: Task, exact: bool)
    requires Tidy(p) && Numbers(p, exact) && i < |p.core.ths|
    ensures Numbers(Start(p, i, t), exact)
  {
    ToRunJobs(SetThread(p.core, i, p.core.ths[i].(current := Some(t))), i);
    CoreExact(p, Start(p, i, t), exact);
  }

  lemma TakeBatchExact(p: Pool, i: nat, exact: bool)
    requires Tidy(p) && Numbers(p, exact) && i < |p.core.ths|
    ensures Numbers(TakeBatch(p, i), exact)
  {
    ToRunJobs(CutBatch(p.core, i), i);
    CoreExact(p, TakeBatch(p, i), exact);
  }

  lemma GetTaskExact(p: Pool, i: nat, exact: bool)
    requires Tidy(p) && Numbers(p, exact) && i < |p.core.ths|
    ensures GetTask(p, i).Took? ==> Numbers(GetTask(p, i).pool, exact)
  {
    if p.core.dispatchs != [] {
      TakeBatchExact(p, i, exact);
    } else if !(p.core.paused || p.core.pendings == 0) {
      var g := Choose(p);
      ChooseFinds(p);
      if g.Some? {
        TakeFromTidy(p, g.value);
        TakeFromExact(p, g.value, exact);
        StartExact(TakeFrom(p, g.value), i, p.entries[g.value].top, exact);
      }
    }
  }

  // ---- completing ----

  lemma NeutralExact(p: Pool, r: Pool, g: nat, exact: bool)
    requires Numbers(p, exact) && g < |p.entries| == |r.entries| && r.entries == p.entries[g := r.entries[g]]
    requires r.core.pendings == p.core.pendings
    requires var e, f := p.entries[g], r.entries[g];
      && e.paused == f.paused && e.benefits == f.benefits && e.npendings == f.npendings
      && e.eff == f.eff && e.limit == f.limit && e.nrunnings == f.nrunnings
    ensures Numbers(r, exact)
  {
    OneExact(p, r, g, exact);
  }

  lemma ReleaseExact(p: Pool, i: nat, g: nat, exact: bool)
    requires Numbers(p, exact) && Shaped(p) && i < |p.core.ths| && g < |p.entries|
    ensures Numbers(Release(p, i, g), exact)
  {
    OneExact(p, Release(p, i, g), g, exact);
  }

  lemma FinishExact(p: Pool, i: nat, detached: bool, exact: bool)
    requires Tidy(p) && Numbers(p, exact) && i < |p.core.ths| && Job(p.core.ths[i]).Some?
    requires var g := Job(p.core.ths[i]).value.gid; g < |p.entries| && !p.entries[g].free
    ensures Numbers(Finish(p, i, detached), exact)
  {
    var t := Job(p.core.ths[i]).value;
    ReleaseTidy(p, i, t.gid);
    ReleaseExact(p, i, t.gid, exact);
    FinishRestExact(p, Release(p, i, t.gid), i, t, detached, exact);
  }

  lemma FinishRestExact(p: Pool, p1: Pool, i: nat, t: Task, detached: bool, exact: bool)
    requires Tidy(p1) && Numbers(p1, exact) && i < |p1.core.ths| && t.gid < |p1.entries|
    ensures Numbers(if detached || !WantsAgain(p, t.id) then CompleteIfIdle(Untrace(p1, t.gid, t.id), i)
                  else Deliver(CompleteIfIdle(p1, i), t.gid, NiceAdjust(t)), exact)
  {
    if detached || !WantsAgain(p, t.id) {
      NeutralExact(p1, Untrace(p1, t.gid, t.id), t.gid, exact);
      CoreExact(Untrace(p1, t.gid, t.id), CompleteIfIdle(Untrace(p1, t.gid, t.id), i), exact);
    } else {
      CompleteTidy(p1, i);
      CoreExact(p1, CompleteIfIdle(p1, i), exact);
      DeliverExact(CompleteIfIdle(p1, i), t.gid, NiceAdjust(t), exact);
    }
  }

  lemma HandledExact(p: Pool, t: Task, exact: bool)
    requires Tidy(p) && Numbers(p, exact) && t.gid < |p.entries|
    ensures Tidy(Handled(p, t)) && Numbers(Handled(p, t), exact)
  {
    assert EntryTidy(p.entries[t.gid], t.gid, p.pre.active[t.gid]);
    NeutralTidy(p, Handled(p, t), t.gid);
    NeutralExact(p, Handled(p, t), t.gid, exact);
  }

  lemma DispatchedExact(p: Pool, t: Task, detached: bool, exact: bool)
    requires Tidy(p) && Numbers(p, exact) && t.gid < |p.entries|
    ensures Numbers(Dispatched(p, t, detached), exact)
  {
    HandledExact(p, t, exact);
    if detached || !WantsAgain(p, t.id) {
      NeutralExact(Handled(p, t), Untrace(Handled(p, t), t.gid, t.id), t.gid, exact);
    } else {
      DeliverExact(Handled(p, t), t.gid, t, exact);
    }
  }

  // ---- removing ----

  lemma DisposeExact(p: Pool, t: Task, byPool: bool, exact: bool)
    requires Numbers(p, exact) && Shaped(p) && t.gid < |p.entries|
    ensures Numbers(Dispose(p, t, byPool), exact)
  {
    NeutralExact(p, Dispose(p, t, byPool), t.gid, exact);
  }

  lemma UnqueueExact(p: Pool, t: Task, exact: bool)
    requires Tidy(p) && Numbers(p, exact) && t.gid < |p.entries| && t in p.entries[t.gid].queue
    ensures Numbers(Unqueue(p, t), exact)
  {
    assert EntryTidy(p.entries[t.gid], t.gid, p.pre.active[t.gid]);
    OneExact(p, Unqueue(p, t), t.gid, exact);
  }

  lemma RemoveTaskExact(p: Pool, t: Task, byPool: bool, exact: bool)
    requires Tidy(p) && Numbers(p, exact) && t.gid < |p.entries|
    requires t.id in p.stat && p.stat[t.id].place == Waiting ==> t in p.entries[t.gid].queue
    ensures Numbers(RemoveTask(p, t, byPool).0, exact)
  {
    if t.id in p.stat && p.stat[t.id].place == Waiting {
      DisposeTidy(p, t, byPool);
      DisposeExact(p, t, byPool, exact);
      UnqueueExact(Dispose(p, t, byPool), t, exact);
      var p1 := RemoveWaiting(p, t, byPool);
      EnsureJobs(p1.core);
      CoreExact(p1, RemoveTask(p, t, byPool).0, exact);
    }
  }

  lemma RemoveWaitingExact(p: Pool, t: Task, byPool: bool, exact: bool)
    requires Tidy(p) && Numbers(p, exact) && t.gid < |p.entries| && t in p.entries[t.gid].queue
    ensures var r := RemoveWaiting(p, t, byPool); Tidy(r) && Numbers(r, exact)
  {
    DisposeTidy(p, t, byPool);
    DisposeExact(p, t, byPool, exact);
    UnqueueTidy(Dispose(p, t, byPool), t);
    UnqueueExact(Dispose(p, t, byPool), t, exact);
  }

  // ---- suspending and resuming ----

  lemma SuspendExact(p: Pool, g: nat, exact: bool)
    requires Tidy(p) && Numbers(p, exact) && g < |p.entries|
    ensures Numbers(Suspend(p, g), exact)
  {
    assert EntryTidy(p.entries[g], g, p.pre.active[g]);
    OneExact(p, Suspend(p, g), g, exact);
  }

  /** The running tasks, which the recomputation ignores, leave room for all pending ones. */
  predicate RoomForAll(e: Entry) { e.npendings == 0 || e.nrunnings == 0 || e.npendings + e.nrunnings <= e.limit }

  /** Resuming the group is safe; what it leaves always covers. */
  predicate ResumeSafe(e: Entry, exact: bool) { exact ==> e.benefits || RoomForAll(e) }

  /**
   Resuming keeps the effective numbers right if and only if the group receives benefits, or its
   pending and running tasks together fit its limit, or one of the two kinds is missing.
   */
  lemma ResumeExact(p: Pool, g: nat, exact: bool)
    requires Tidy(p) && Numbers(p, exact) && g < |p.entries| && p.entries[g].nrunnings >= 0
    requires ValidEntry(p.entries[g]) && p.entries[g].paused
    ensures Numbers(Resume(p, g), exact) <==> ResumeSafe(p.entries[g], exact)
  {
    var p1 := ResumeQuietly(p, g);
    QuietExact(p, g, exact);
    EnsureJobs(p1.core);
    var r := Resume(p, g);
    assert r.entries == p1.entries && r.core.pendings == p1.core.pendings;
    assert Numbers(p1, exact) <==> Numbers(r, exact);
  }

  lemma QuietExact(p: Pool, g: nat, exact: bool)
    requires Tidy(p) && Numbers(p, exact) && g < |p.entries| && p.entries[g].nrunnings >= 0
    requires ValidEntry(p.entries[g]) && p.entries[g].paused
    ensures Numbers(ResumeQuietly(p, g), exact) <==> ResumeSafe(p.entries[g], exact)
    ensures EffOk(ResumeQuietly(p, g).entries[g], exact) <==> ResumeSafe(p.entries[g], exact)
  {
    assert EntryTidy(p.entries[g], g, p.pre.active[g]);
    OneExact(p, ResumeQuietly(p, g), g, exact);
  }

  /** Suspending and then resuming a group restores all three numbers, under the same condition. */
  lemma SuspendResume(p: Pool, g: nat)
    requires Tidy(p) && Exact(p) && g < |p.entries| && p.entries[g].nrunnings >= 0
    requires ValidEntry(p.entries[g]) && !p.entries[g].paused
    ensures var r := ResumeQuietly(Suspend(p, g), g);
      && r.npendings == p.npendings
      && (r.entries == p.entries && r.core.pendings == p.core.pendings <==>
        p.entries[g].benefits || RoomForAll(p.entries[g]))
  {
    assert EntryTidy(p.entries[g], g, p.pre.active[g]);
    var r := ResumeQuietly(Suspend(p, g), g);
    assert r.entries == p.entries[g := r.entries[g]];
    assert p.entries == p.entries[g := p.entries[g]];
    assert r.entries == p.entries <==> r.entries[g] == p.entries[g];
  }

  // ---- attributes ----

  /** A group that gains benefits must have none effective; one without them needs room for all to be exact. */
  predicate AttrSafe(e: Entry, maxthreads: int, parallel: int, benefits: bool, exact: bool)
  {
    var f := NewAttr(e, maxthreads, parallel, benefits);
    e.paused || (if f.benefits then e.eff == 0 else exact ==> RoomForAll(f))
  }

  /** Setting attributes keeps the effective numbers right if and only if it is safe. */
  lemma SetAttrExact(p: Pool, g: nat, parallel: int, benefits: bool, exact: bool)
    requires Tidy(p) && Numbers(p, exact) && g < |p.entries| && p.entries[g].nrunnings >= 0
    ensures Numbers(SetAttr(p, g, parallel, benefits), exact) <==>
      AttrSafe(p.entries[g], p.core.maxthreads, parallel, benefits, exact)
  {
    AttrEntryExact(p, g, parallel, benefits, exact);
    OneExact(p, SetAttr(p, g, parallel, benefits), g, exact);
  }

  lemma AttrEntryExact(p: Pool, g: nat, parallel: int, benefits: bool, exact: bool)
    requires Shaped(p) && EntriesTidy(p) && p.core.maxthreads >= 0 && g < |p.entries|
    requires EffOk(p.entries[g], exact) && p.entries[g].nrunnings >= 0
    ensures var f := SetAttr(p, g, parallel, benefits).entries[g];
      EffOk(f, exact) <==> AttrSafe(p.entries[g], p.core.maxthreads, parallel, benefits, exact)
  {
    assert EntryTidy(p.entries[g], g, p.pre.active[g]);
  }

  /** A change of maxthreads is safe when it is for every group in use. */
  ghost predicate AllAttrSafe(p: Pool, from: nat, exact: bool)
  {
    forall g :: from <= g < |p.entries| && !p.entries[g].free ==>
      AttrSafe(p.entries[g], p.core.maxthreads, p.entries[g].parallel, p.entries[g].benefits, exact)
  }

  lemma {:induction false} UpdateAllExact(p: Pool, g: nat, r: Pool, exact: bool)
    requires Tidy(p) && Numbers(p, exact) && g <= |p.entries| && AllAttrSafe(p, g, exact) && r == UpdateAllFrom(p, g)
    requires forall h :: 0 <= h < |p.entries| ==> p.entries[h].nrunnings >= 0
    ensures Numbers(r, exact)
    decreases |p.entries| - g
  {
    if g < |p.entries| {
      var q := UpdateOne(p, g, exact);
      UpdateAllExact(q, g + 1, r, exact);
    }
  }

  lemma UpdateOne(p: Pool, g: nat, exact: bool) returns (q: Pool)
    requires Tidy(p) && Numbers(p, exact) && g < |p.entries| && AllAttrSafe(p, g, exact)
    requires forall h :: 0 <= h < |p.entries| ==> p.entries[h].nrunnings >= 0
    ensures Tidy(q) && Numbers(q, exact) && |q.entries| == |p.entries| && AllAttrSafe(q, g + 1, exact)
    ensures forall h :: 0 <= h < |q.entries| ==> q.entries[h].nrunnings >= 0
    ensures UpdateAllFrom(p, g) == UpdateAllFrom(q, g + 1)
  {
    var e := p.entries[g];
    q := if e.free then p else SetAttr(p, g, e.parallel, e.benefits);
    SetAttrTidy(p, g, e.parallel, e.benefits);
    SetAttrExact(p, g, e.parallel, e.benefits, exact);
    SetAttrLocal(p, p, g, e.parallel, e.benefits);
    StillSafe(p, q, g, exact);
  }

  lemma StillSafe(p: Pool, q: Pool, g: nat, exact: bool)
    requires g < |p.entries| == |q.entries| && q.core.maxthreads == p.core.maxthreads && AllAttrSafe(p, g, exact)
    requires forall h :: 0 <= h < |p.entries| && h != g ==> q.entries[h] == p.entries[h]
    ensures AllAttrSafe(q, g + 1, exact)
  {
  }

  /** Setting the attributes of one group depends on that group alone, and changes no other. */
  lemma SetAttrLocal(p: Pool, q: Pool, g: nat, parallel: int, benefits: bool)
    requires Shaped(p) && Shaped(q) && g < |p.entries| == |q.entries| && q.core.maxthreads == p.core.maxthreads
    ensures var r := SetAttr(p, g, parallel, benefits);
      && r.core.maxthreads == p.core.maxthreads
      && (forall h :: 0 <= h < |p.entries| && h != g ==> r.entries[h] == p.entries[h])
      && (q.entries[g] == p.entries[g] ==> r.entries[g] == SetAttr(q, g, parallel, benefits).entries[g])
  {
  }

  /** The entry `h` once every group has been updated. */
  lemma {:induction false} UpdateAllEntry(p: Pool, g: nat, h: nat)
    requires Shaped(p) && g <= |p.entries| && h < |p.entries|
    ensures var e := p.entries[h];
      UpdateAllFrom(p, g).entries[h] ==
        (if h < g || e.free then e else SetAttr(p, h, e.parallel, e.benefits).entries[h])
    decreases |p.entries| - g
  {
    if g < |p.entries| {
      var e := p.entries[g];
      var q := if e.free then p else SetAttr(p, g, e.parallel, e.benefits);
      SetAttrLocal(p, p, g, e.parallel, e.benefits);
      UpdateAllEntry(q, g + 1, h);
      if h != g { SetAttrLocal(q, p, h, p.entries[h].parallel, p.entries[h].benefits); }
    }
  }

  /** A change of maxthreads keeps the effective numbers right if and only if it is safe for every group in use. */
  lemma UpdateAllExactly(p: Pool, exact: bool)
    requires Tidy(p) && Numbers(p, exact)
    requires forall h :: 0 <= h < |p.entries| ==> p.entries[h].nrunnings >= 0
    ensures Numbers(UpdateAllFrom(p, 0), exact) <==> AllAttrSafe(p, 0, exact)
  {
    if AllAttrSafe(p, 0, exact) {
      UpdateAllExact(p, 0, UpdateAllFrom(p, 0), exact);
    } else {
      var h :| 0 <= h < |p.entries| && !p.entries[h].free
               && !AttrSafe(p.entries[h], p.core.maxthreads, p.entries[h].parallel, p.entries[h].benefits, exact);
      UpdateAllEntry(p, 0, h);
      AttrEntryExact(p, h, p.entries[h].parallel, p.entries[h].benefits, exact);
      assert !EffOk(UpdateAllFrom(p, 0).entries[h], exact);
    }
  }

  // ---- groups ----

  lemma GrowPoolExact(p: Pool, exact: bool)
    requires Tidy(p) && Numbers(p, exact)
    ensures Numbers(GrowPool(p), exact)
  {
    var slots := [FREESLOT, FREESLOT, FREESLOT];
    SumAppend(p.entries, slots, Startable);
    SumZero(slots, Startable);
  }

  lemma OccupyExact(p: Pool, g: nat, priqNum: nat, suspend: bool, exact: bool)
    requires Tidy(p) && Numbers(p, exact) && g < |p.entries| && p.entries[g].free && 1 <= priqNum <= 99
    ensures Numbers(Occupy(p, g, priqNum, suspend), exact)
  {
    assert EntryTidy(p.entries[g], g, p.pre.active[g]);
    OneExact(p, Occupy(p, g, priqNum, suspend), g, exact);
  }

  lemma VacateExact(p: Pool, g: nat, exact: bool)
    requires Tidy(p) && Numbers(p, exact) && g < |p.entries|
    ensures Numbers(Vacate(p, g), exact)
  {
    NeutralExact(p, Vacate(p, g), g, exact);
  }

  lemma NewPoolExact(c: Core, priqNum: nat, tailFirst: bool, exact: bool)
    requires WaitqInRange(c) && c.maxthreads >= 0 && c.pendings == 0 && 1 <= priqNum <= 99
    ensures Numbers(NewPool(c, priqNum, tailFirst), exact)
  {
    var p := Pool(c, [], Prefix([], [], [], 0, 0), 0, 0, 0, 0, false, map[], [], tailFirst);
    assert Tidy(p) && Numbers(p, exact);
    GrowPoolTidy(p);
    GrowPoolExact(p, exact);
    OccupyExact(GrowPool(p), 0, priqNum, false, exact);
  }
}
