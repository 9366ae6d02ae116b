/**
 What the operations on tasks and groups are for: a task that is accepted will run, one that is removed will
 not, attributes are those asked for, and a group goes through its life.
 */
module GroupEffects {
  import opened Types
  import opened PriorityOrder
  import opened PriorityQueue
  import opened ThreadModel
  import opened ThreadCounts
  import opened ThreadSupply
  import opened ThreadJobs
  import opened ActivePrefix
  import opened GroupModel
  import opened GroupCounts
  import opened GroupShape
  import opened GroupExact
  import opened GroupPlaces
  import opened Scheduler
  import opened PoolSound
  import opened PoolRuns

  // ---- queueing ----

  /** Waiting for a thread, or to be queued again when its present run or handler is over. */
  predicate Expected(p: Pool, id: nat) { id in p.stat && (p.stat[id].place == Waiting || p.stat[id].again) }

  /** Some group has the task in its queue. */
  ghost predicate InSomeQueue(p: Pool, id: nat)
  {
    exists g, k :: 0 <= g < |p.entries| && 0 <= k < |p.entries[g].queue| && p.entries[g].queue[k].id == id
  }

  lemma {:induction false} MatchingFinds(q: seq<Task>, s: Sel) returns (k: nat)
    requires Matching(q, s) > 0
    ensures k < |q| && Selects(s, q[k])
  {
    if Selects(s, q[0]) {
      k := 0;
    } else {
      k := MatchingFinds(q[1..], s);
      k := k + 1;
    }
  }

  /** What is recorded as waiting is in a queue, and the other way round. */
  lemma WaitingIsQueued(p: Pool, id: nat)
    requires Placed(p)
    ensures InSomeQueue(p, id) <==> id in p.stat && p.stat[id].place == Waiting
  {
    assert TallyOf(p, WithId(id)) == PlaceTally(p.stat, id);
    if id in p.stat && p.stat[id].place == Waiting {
      var g := SumPositive(p.entries, Queued(WithId(id)));
      var k := MatchingFinds(p.entries[g].queue, WithId(id));
      assert p.entries[g].queue[k].id == id;
    } else if InSomeQueue(p, id) {
      var g, k :| 0 <= g < |p.entries| && 0 <= k < |p.entries[g].queue| && p.entries[g].queue[k].id == id;
      QueuedIsWaiting(p, g, k);
    }
  }

  /** The group does not take new tasks. */
  predicate Closed(p: Pool, g: nat) { g >= |p.entries| || p.entries[g].free || p.entries[g].destroying }

  predicate Admitted(p: Pool, g: nat) { !p.throttled && !Closed(p, g) && !p.entries[g].throttled }

  /**
   The answers of queueing.  A refusal has one cause, in the source's order of tests, and changes nothing;
   a task that is already expected is accepted and nothing changes; any other accepted task is expected then.
   */
  lemma QueueAnswers(p: Pool, t: Task)
    requires Shaped(p)
    ensures var (r, e) := QueueTask(p, t);
      && (e == Ok <==> t.gid < |p.entries| && (Expected(p, t.id) || Admitted(p, t.gid)))
      && (e == PoolThrottled <==> t.gid < |p.entries| && !Expected(p, t.id) && p.throttled)
      && (e == GroupNotFound <==>
            t.gid >= |p.entries| || (!Expected(p, t.id) && !p.throttled && Closed(p, t.gid)))
      && (e != Ok || Expected(p, t.id) ==> r == p)
      && (e == Ok ==> Expected(r, t.id))
  {
    if t.gid < |p.entries| { DeliverEffect(Trace(p, t.gid), t.gid, t); }
  }

  lemma QueueRecords(p: Pool, t: Task)
    requires Shaped(p) && QueueTask(p, t).1 == Ok && !Expected(p, t.id)
    ensures var r := QueueTask(p, t).0;
      && (t.id !in p.stat ==> r.stat == p.stat[t.id := Stat(Waiting, false)])
      && (t.id in p.stat ==> r == p.(stat := p.stat[t.id := p.stat[t.id].(again := true)]))
  {
    DeliverEffect(Trace(p, t.gid), t.gid, t);
  }

  // ---- queueing again ----

  /** Insertion adds exactly the task, and puts a pushed task of priority 0 last. */
  lemma InsertedWaits(e: Entry, u: Task, tail: bool)
    ensures var q := Inserted(e, u, tail).queue;
      multiset(q) == multiset(e.queue) + multiset{u} && |q| > 0 && (u.push && u.pri == 0 ==> q[|q| - 1] == u)
  {
    FlatInsertMultiset(e.avg, e.queue, u, tail);
    if u.push && u.pri == 0 { NothingBelow(e.avg, e.queue); }
  }

  lemma {:induction false} NothingBelow(avg: Pos, q: seq<Task>)
    ensures Below(avg, q, 0) == []
  {
    if q != [] { NothingBelow(avg, q[1..]); }
  }

  /** After the delivery the task waits in its group's queue, at the end of it if it is pushed. */
  lemma DeliveredWaits(p: Pool, g: nat, t: Task)
    requires Shaped(p) && g < |p.entries|
    ensures var r := Deliver(p, g, t); var q := r.entries[g].queue;
      && multiset(q) == multiset(p.entries[g].queue) + multiset{t.(seqno := p.seqno + 1)}
      && r.stat == p.stat[t.id := Stat(Waiting, false)]
      && (t.push && t.pri == 0 ==> q[|q| - 1] == t.(seqno := p.seqno + 1))
  {
    var u := t.(seqno := p.seqno + 1);
    DeliverEffect(p, g, t);
    assert Deliver(p, g, t).entries[g].queue == Inserted(p.entries[g], u, p.tailFirst).queue;
    InsertedWaits(p.entries[g], u, p.tailFirst);
  }

  /** What a task that was to run once with its priority is when it is queued again: of the lowest rank. */
  lemma OnceIsReset(t: Task)
    ensures var u := NiceAdjust(t);
      && u.id == t.id && u.gid == t.gid && u.handler == t.handler && !u.once
      && (t.once ==> u.pri == 0 && u.policy == Back && u.push) && (!t.once ==> u == t)
  {
  }

  /** Task `u` waits in the queue of its group, beside the tasks that did before. */
  ghost predicate QueuedAgain(p: Pool, r: Pool, u: Task)
  {
    && u.gid < |p.entries| == |r.entries|
    && r.stat == p.stat[u.id := Stat(Waiting, false)]
    && multiset(r.entries[u.gid].queue) == multiset(p.entries[u.gid].queue) + multiset{u}
    && (u.push && u.pri == 0 ==> u == r.entries[u.gid].queue[|r.entries[u.gid].queue| - 1])
  }

  /** The task is known no more, and the queue of its group is as it was. */
  ghost predicate Forgotten(p: Pool, r: Pool, t: Task)
  {
    t.gid < |p.entries| == |r.entries| && t.id !in r.stat && r.entries[t.gid].queue == p.entries[t.gid].queue
  }

  lemma RequeuedAfter(p: Pool, p1: Pool, t: Task)
    requires Shaped(p1) && t.gid < |p.entries| == |p1.entries| && p1.stat == p.stat && p1.seqno == p.seqno
    requires p1.entries[t.gid].queue == p.entries[t.gid].queue
    ensures QueuedAgain(p, Deliver(p1, t.gid, t), t.(seqno := p.seqno + 1))
  {
    DeliveredWaits(p1, t.gid, t);
  }

  /** A new task goes into the queue of its group, as it is but for its number; the others stay in theirs. */
  lemma NewTaskIsQueued(p: Pool, t: Task)
    requires Shaped(p) && QueueTask(p, t).1 == Ok && t.id !in p.stat
    ensures var r := QueueTask(p, t).0;
      && QueuedAgain(p, r, t.(seqno := p.seqno + 1))
      && (forall g :: 0 <= g < |p.entries| && g != t.gid ==> r.entries[g] == p.entries[g])
  {
    var q := Trace(p, t.gid);
    RequeuedAfter(p, q, t);
    DeliverEffect(q, t.gid, t);
  }

  /**
   The end of a task's run: with a requeueing requested, and not detached, it waits in its group's queue
   again, with its priority or, if that was for one run, as the last of all; otherwise its record is gone.
   */
  lemma FinishRequeues(p: Pool, i: nat, detached: bool)
    requires Shaped(p) && i < |p.core.ths| && Job(p.core.ths[i]).Some? && Job(p.core.ths[i]).value.gid < |p.entries|
    ensures var t := Job(p.core.ths[i]).value; var r := Finish(p, i, detached);
      if WantsAgain(p, t.id) && !detached then QueuedAgain(p, r, NiceAdjust(t).(seqno := p.seqno + 1))
      else Forgotten(p, r, t)
  {
    var t := Job(p.core.ths[i]).value;
    ReleaseKeepsQueues(p, i, t.gid);
    if WantsAgain(p, t.id) && !detached {
      OnceIsReset(t);
      RequeuedAfter(p, CompleteIfIdle(Release(p, i, t.gid), i), NiceAdjust(t));
    } else {
      ReleaseForgets(p, i, t);
    }
  }

  lemma ReleaseForgets(p: Pool, i: nat, t: Task)
    requires Shaped(p) && i < |p.core.ths| && t.gid < |p.entries|
    ensures Forgotten(p, CompleteIfIdle(Untrace(Release(p, i, t.gid), t.gid, t.id), i), t)
  {
  }

  lemma ReleaseKeepsQueues(p: Pool, i: nat, g: nat)
    requires Shaped(p) && i < |p.core.ths| && g < |p.entries|
    ensures var r := CompleteIfIdle(Release(p, i, g), i);
      && r.stat == p.stat && r.seqno == p.seqno && r.tailFirst == p.tailFirst && |r.entries| == |p.entries|
      && r.entries[g].queue == p.entries[g].queue && r.entries[g].avg == p.entries[g].avg
  {
  }

  /** The end of a remover's handler: the same, but that the task keeps its priority. */
  lemma DispatchedRequeues(p: Pool, t: Task, detached: bool)
    requires Shaped(p) && t.gid < |p.entries|
    ensures var r := Dispatched(p, t, detached);
      if WantsAgain(p, t.id) && !detached then QueuedAgain(p, r, t.(seqno := p.seqno + 1)) else Forgotten(p, r, t)
  {
    HandledKeepsQueues(p, t);
    if WantsAgain(p, t.id) && !detached {
      RequeuedAfter(p, Handled(p, t), t);
    } else {
      assert Forgotten(p, Untrace(Handled(p, t), t.gid, t.id), t);
    }
  }

  lemma HandledKeepsQueues(p: Pool, t: Task)
    requires Shaped(p) && t.gid < |p.entries|
    ensures var r := Handled(p, t);
      r.stat == p.stat && r.seqno == p.seqno && r.entries[t.gid].queue == p.entries[t.gid].queue
  {
  }

  /** Every task whose record is dropped counts as processed in its group, and no other. */
  lemma ProcessedCounts(p: Pool, i: nat, detached: bool)
    requires Shaped(p) && i < |p.core.ths| && Job(p.core.ths[i]).Some? && Job(p.core.ths[i]).value.gid < |p.entries|
    ensures var t := Job(p.core.ths[i]).value;
      Finish(p, i, detached).entries[t.gid].nprocessed ==
        p.entries[t.gid].nprocessed + Bit(detached || !WantsAgain(p, t.id))
  {
    var t := Job(p.core.ths[i]).value;
    var p1 := CompleteIfIdle(Release(p, i, t.gid), i);
    assert p1.entries[t.gid].nprocessed == p.entries[t.gid].nprocessed;
    if WantsAgain(p, t.id) && !detached { DeliverEffect(p1, t.gid, NiceAdjust(t)); }
  }

  // ---- removing ----

  /** Where a task removed from its queue goes. */
  lemma DisposedWhere(p: Pool, t: Task, byPool: bool)
    requires Shaped(p) && t.gid < |p.entries|
    ensures var r := RemoveWaiting(p, t, byPool);
      && (!t.handler ==> t.id !in r.stat && r.core.dispatchs == p.core.dispatchs && r.removing == p.removing)
      && (t.handler ==> r.stat == p.stat[t.id := Stat(Dispatching, false)])
      && (t.handler && byPool ==> r.core.dispatchs == p.core.dispatchs + [t] && r.removing == p.removing)
      && (t.handler && !byPool ==> r.core.dispatchs == p.core.dispatchs && r.removing == p.removing + [t])
      && r.entries[t.gid].queue == Remove(p.entries[t.gid].queue, t)
      && r.entries[t.gid].nprocessed == p.entries[t.gid].nprocessed + Bit(!t.handler)
  {
  }

  /** Marking for removal withdraws the task: it waits no more and is not queued again; nobody else's record changes. */
  lemma DiscardWithdraws(p: Pool, t: Task, byPool: bool)
    requires Shaped(p) && t.gid < |p.entries|
    ensures var r := Discard(p, t, byPool);
      && (t.id in p.stat && !(p.stat[t.id].place == Waiting && p.stat[t.id].again) ==> !Expected(r, t.id))
      && forall id :: id != t.id ==> (id in r.stat <==> id in p.stat) && (id in p.stat ==> r.stat[id] == p.stat[id])
  {
    DisposedWhere(p, t, byPool);
    DiscardOthers(p, t, byPool);
  }

  lemma DiscardOthers(p: Pool, t: Task, byPool: bool)
    requires Shaped(p) && t.gid < |p.entries|
    ensures var r := Discard(p, t, byPool);
      forall id :: id != t.id ==> (id in r.stat <==> id in p.stat) && (id in p.stat ==> r.stat[id] == p.stat[id])
  {
  }

  /** Removing answers whether the task was known, and withdraws it if it was waiting. */
  lemma RemoveAnswers(p: Pool, t: Task, byPool: bool)
    requires Shaped(p) && t.gid < |p.entries|
    ensures var (r, done) := RemoveTask(p, t, byPool);
      && (done <==> t.id in p.stat)
      && (t.id in p.stat && p.stat[t.id].place == Waiting ==>
            !Expected(r, t.id) && r.stat == RemoveWaiting(p, t, byPool).stat)
      && (!(t.id in p.stat && p.stat[t.id].place == Waiting) ==> r == p)
  {
    DisposedWhere(p, t, byPool);
  }

  // ---- attributes ----

  /** The limit of a group is what was asked for, cut to the threads there may be; with none it needs benefits. */
  predicate StoredAs(e: Entry, maxthreads: int, parallel: int, benefits: bool)
  {
    && e.parallel == parallel && e.limit == Min(maxthreads, Max(0, parallel))
    && (e.benefits <==> benefits || e.limit == 0)
  }

  lemma SetAttrStores(p: Pool, g: nat, parallel: int, benefits: bool)
    requires Shaped(p) && g < |p.entries| && p.core.maxthreads >= 0
    ensures var r := SetAttr(p, g, parallel, benefits);
      && StoredAs(r.entries[g], p.core.maxthreads, parallel, benefits)
      && r.entries == p.entries[g := r.entries[g]]
      && r.entries[g].queue == p.entries[g].queue && r.entries[g].nrunnings == p.entries[g].nrunnings
      && r.entries[g].npendings == p.entries[g].npendings && r.entries[g].paused == p.entries[g].paused
  {
  }

  /** Every group in use has the limit that its attributes and the present maximum give. */
  ghost predicate LimitsStored(p: Pool)
  {
    p.core.maxthreads >= 0 &&
    forall g :: 0 <= g < |p.entries| && !p.entries[g].free ==> LimitStored(p.entries[g], p.core.maxthreads)
  }

  predicate LimitStored(e: Entry, maxthreads: int)
  {
    e.limit == Min(maxthreads, Max(0, e.parallel)) && (e.limit == 0 ==> e.benefits)
  }

  /** After a change of bounds every group in use has its limit recomputed from the attributes it had. */
  lemma AdjustStores(p: Pool, hi: int, lo: int)
    requires Shaped(p) && hi >= 0
    ensures var r := Adjust(p, hi, lo);
      && |r.entries| == |p.entries| && r.core.maxthreads == hi && r.core.minthreads == lo && LimitsStored(r)
      && forall g :: 0 <= g < |p.entries| ==>
           if p.entries[g].free then r.entries[g] == p.entries[g]
           else StoredAs(r.entries[g], hi, p.entries[g].parallel, p.entries[g].benefits)
  {
    var p0 := p.(core := p.core.(maxthreads := hi, minthreads := lo));
    UpdateAllCore(p0, 0);
    AdjustAbsJobs(UpdateAllFrom(p0, 0).core);
    forall g | 0 <= g < |p.entries|
      ensures var e := UpdateAllFrom(p0, 0).entries[g];
        if p.entries[g].free then e == p.entries[g]
        else StoredAs(e, hi, p.entries[g].parallel, p.entries[g].benefits)
    {
      UpdateAllEntry(p0, 0, g);
      if !p.entries[g].free { SetAttrStores(p0, g, p.entries[g].parallel, p.entries[g].benefits); }
    }
  }

  // ---- suspending and resuming ----

  /** A group in use that is suspended is paused, and loses nothing that it has queued or running; what it counted for
      in core->npendings is taken off. */
  lemma SuspendPauses(p: Pool, g: nat)
    requires Shaped(p) && g < |p.entries|
    ensures var r := Suspend(p, g); var e, f := p.entries[g], r.entries[g];
      && r.entries == p.entries[g := f] && f.paused == (e.paused || ValidEntry(e))
      && f.queue == e.queue && f.npendings == e.npendings && f.nrunnings == e.nrunnings && r.stat == p.stat
      && (e.benefits ==> f.eff == e.eff)
      && p.core.pendings - r.core.pendings ==
           (if e.npendings == 0 || e.paused || !ValidEntry(e) then 0 else if e.benefits then e.npendings else e.eff)
  {
  }

  /** Resumed, it is not paused, and each of its tasks counts as pending again. */
  lemma ResumeUnpauses(p: Pool, g: nat)
    requires Tidy(p) && g < |p.entries| && ValidEntry(p.entries[g])
    ensures var r := Resume(p, g); var e, f := p.entries[g], r.entries[g];
      && r.entries == p.entries[g := f] && !f.paused
      && f.queue == e.queue && f.npendings == e.npendings && f.nrunnings == e.nrunnings && r.stat == p.stat
      && r.npendings == p.npendings + (if e.paused then e.npendings else 0)
      && (e.npendings > 0 ==> r.pre.active[g])
  {
    assert EntryTidy(p.entries[g], g, p.pre.active[g]);
  }

  // ---- the life of a group ----

  /** A group created in a free slot is in use and empty, paused as told, with benefits and the pool's own limit. */
  lemma OccupyOpens(p: Pool, g: nat, priqNum: nat, suspend: bool)
    requires Tidy(p) && g < |p.entries| && p.entries[g].free && 1 <= priqNum <= 99
    ensures var r := Occupy(p, g, priqNum, suspend); var f := r.entries[g];
      && r == p.(entries := p.entries[g := f])
      && !f.free && f.destroying == p.entries[g].destroying && f.paused == suspend
      && f.queue == [] && f.npendings == 0 && f.nprocessed == 0
      && StoredAs(f, p.core.maxthreads, p.core.maxthreads, true)
  {
    assert EntryTidy(p.entries[g], g, p.pre.active[g]);
    var r := Occupy(p, g, priqNum, suspend);
    assert r.entries == p.entries[g := r.entries[g]];
  }

  /** Its queues cover all priorities if and only if their number divides 100. */
  lemma OccupyBands(p: Pool, g: nat, priqNum: nat, suspend: bool)
    requires Shaped(p) && g < |p.entries| && 1 <= priqNum <= 99
    ensures (forall pri: nat :: pri <= 99 ==> Locate(Occupy(p, g, priqNum, suspend).entries[g].avg, pri) < priqNum)
            <==> 100 % priqNum == 0
  {
    LocateInRange(priqNum);
    assert Occupy(p, g, priqNum, suspend).entries[g].avg == 100 / priqNum;
  }

  /** A group whose deletion has begun takes no task that is not expected already. */
  lemma DeletedIsClosed(p: Pool, g: nat, t: Task)
    requires Shaped(p) && g < |p.entries| && t.gid == g && !Expected(p, t.id) && !p.throttled
    ensures QueueTask(SetEntry(p, g, p.entries[g].(destroying := true)), t).1 == GroupNotFound
  {
  }

  /** The slot given back is free, without flags, and the rest of the pool as it was. */
  lemma VacateFrees(p: Pool, g: nat)
    requires Shaped(p) && g < |p.entries|
    ensures var r := Vacate(p, g); var f := r.entries[g];
      && r.entries == p.entries[g := f] && f.free && !f.destroying && !f.throttled && !r.pre.active[g]
      && r.core == p.core && r.stat == p.stat && r.npendings == p.npendings
  {
  }

  /** New slots are free; those there were, and their tasks, are as they were. */
  lemma GrowAdds(p: Pool)
    requires Shaped(p)
    ensures var r := GrowPool(p);
      && |r.entries| > |p.entries| && r.entries[..|p.entries|] == p.entries && r.stat == p.stat && r.core == p.core
      && forall g :: |p.entries| <= g < |r.entries| ==> r.entries[g].free && r.entries[g].queue == []
  {
  }

  // ---- taking ----

  /** The take moves the task it chose to the thread, which runs it, and off its group's queue. */
  lemma TakeStarts(p: Pool, i: nat)
    requires Tidy(p) && i < |p.core.ths| && GetTask(p, i).Took? && p.core.dispatchs == []
    ensures Choose(p).Some?
    ensures var g := Choose(p).value; var t := p.entries[g].top; var r := GetTask(p, i).pool;
      && i < |r.core.ths| && r.core.ths[i].current == Some(t) && r.core.ths[i].status == Run
      && p.entries[g].queue == [t] + r.entries[g].queue && r.entries[g].nrunnings == p.entries[g].nrunnings + 1
      && r.stat == p.stat[t.id := Stat(Scheduling, false)] && !p.entries[g].paused
      && (forall h :: 0 <= h < |p.entries| && h != g ==> r.entries[h] == p.entries[h])
      && (p.entries[g].benefits ==> r.entries[g].eff == p.entries[g].eff)
      && (!p.entries[g].benefits && r.entries[g].queue != [] ==> r.entries[g].eff == p.entries[g].eff - 1)
      && r.core.pendings == p.core.pendings - 1 && r.npendings == p.npendings - 1
  {
    ChooseFinds(p);
    var g := Choose(p).value;
    assert EntryTidy(p.entries[g], g, p.pre.active[g]);
    ToRunJobs(SetThread(TakeFrom(p, g).core, i, p.core.ths[i].(current := Some(p.entries[g].top))), i);
  }

  /** Removed tasks go first: a thread takes the four oldest, or all, in their order. */
  lemma TakeBatchTakes(p: Pool, i: nat)
    requires Shaped(p) && i < |p.core.ths| && p.core.dispatchs != []
    ensures GetTask(p, i).Took?
    ensures var r := GetTask(p, i).pool;
      && i < |r.core.ths| && r.core.ths[i].status == Run && |r.core.ths[i].batch| == Min(4, |p.core.dispatchs|)
      && r.core.ths[i].batch + r.core.dispatchs == p.core.dispatchs
      && r.entries == p.entries && r.stat == p.stat
  {
    ToRunJobs(CutBatch(p.core, i), i);
  }
}
