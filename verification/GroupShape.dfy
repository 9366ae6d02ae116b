/**
 What every group operation keeps unconditionally: queue lengths, cached tops, the active
 prefix and the pool's pending sum.  The one exception is a group created suspended.
 */
module GroupShape {
  import opened Types
  import opened ThreadModel
  import opened ThreadSupply
  import opened ThreadJobs
  import opened PriorityOrder
  import opened PriorityQueue
  import opened ActivePrefix
  import opened GroupModel
  import opened GroupCounts

  ghost predicate EntryTidy(e: Entry, g: nat, active: bool)
  {
    && e.npendings == |e.queue|
    && (e.queue != [] ==> e.top == e.queue[0])
    && (forall i :: 0 <= i < |e.queue| ==> e.queue[i].gid == g)
    && (active <==> !e.paused && e.npendings > 0)
    && (e.free ==> e.npendings == 0)
    && e.limit >= 0 && (!e.free && (e.limit == 0 || e.parallel <= 0) ==> e.benefits)
  }

  function PausedTags(es: seq<Entry>): (tag: seq<bool>)
    ensures |tag| == |es| && forall g :: 0 <= g < |es| ==> tag[g] == es[g].paused
  {
    seq(|es|, g requires 0 <= g < |es| => es[g].paused)
  }

  ghost predicate EntriesTidy(p: Pool)
    requires Shaped(p)
  {
    forall g :: 0 <= g < |p.entries| ==> EntryTidy(p.entries[g], g, p.pre.active[g])
  }

  ghost predicate PrefixTidy(p: Pool)
    requires Shaped(p)
  {
    PrefixOk(p.pre) && Clear(p.pre, PausedTags(p.entries))
  }

  ghost predicate Tidy(p: Pool)
  {
    && Shaped(p) && EntriesTidy(p) && PrefixTidy(p)
    && p.npendings == Sum(p.entries, Pending) && p.core.maxthreads >= 0
  }

  lemma PendingNonNegative(p: Pool)
    requires Shaped(p) && EntriesTidy(p)
    ensures NonNegative(p.entries, Pending)
  {
    forall g | 0 <= g < |p.entries| ensures Of(p.entries[g], Pending) >= 0 {
      assert EntryTidy(p.entries[g], g, p.pre.active[g]);
    }
  }

  /** A step that rewrites one entry is judged by that entry, the prefix and the change of the sum. */
  lemma OneEntry(p: Pool, r: Pool, g: nat, e: Entry)
    requires Tidy(p) && Shaped(r) && g < |p.entries| && r.entries == p.entries[g := e]
    requires PrefixTidy(r) && r.pre.active == p.pre.active[g := r.pre.active[g]]
    requires EntryTidy(e, g, r.pre.active[g])
    requires r.npendings - p.npendings == Of(e, Pending) - Of(p.entries[g], Pending)
    requires r.core.maxthreads == p.core.maxthreads
    ensures Tidy(r)
  {
    SumUpdate(p.entries, g, e, Pending);
    forall h | 0 <= h < |r.entries| ensures EntryTidy(r.entries[h], h, r.pre.active[h]) {
      assert h != g ==> EntryTidy(p.entries[h], h, p.pre.active[h]);
    }
  }

  // ---- the prefix follows the entry ----

  lemma PrefixSame(p: Pool, r: Pool, g: nat)
    requires Tidy(p) && Shaped(r) && g < |p.entries| == |r.entries| && r.pre == p.pre
    requires forall h :: 0 <= h < |p.entries| ==> r.entries[h].paused ==> p.entries[h].paused
    ensures PrefixTidy(r)
  {
  }

  lemma PrefixActivated(p: Pool, r: Pool, g: nat)
    requires Tidy(p) && Shaped(r) && g < |p.entries| == |r.entries|
    requires !p.pre.active[g] && r.pre == Activate(p.pre, g) && !r.entries[g].paused
    requires forall h :: 0 <= h < |p.entries| && h != g ==> r.entries[h].paused == p.entries[h].paused
    ensures PrefixTidy(r) && r.pre.active == p.pre.active[g := true]
  {
    ActivateOk(p.pre, g, PausedTags(r.entries));
  }

  lemma PrefixInactivated(p: Pool, r: Pool, g: nat)
    requires Tidy(p) && Shaped(r) && g < |p.entries| == |r.entries|
    requires p.pre.active[g] && r.pre == Inactivate(p.pre, g, r.entries[g].paused)
    requires forall h :: 0 <= h < |p.entries| && h != g ==> r.entries[h].paused == p.entries[h].paused
    ensures PrefixTidy(r) && r.pre.active == p.pre.active[g := false]
  {
    var tag := PausedTags(r.entries);
    forall h | 0 <= h < |p.entries| && h != g && p.pre.active[h] ensures !tag[h] {
      assert EntryTidy(p.entries[h], h, p.pre.active[h]);
    }
    InactivateOk(p.pre, g, r.entries[g].paused, tag);
  }

  // ---- queueing ----

  lemma InsertedTidy(e: Entry, g: nat, active: bool, u: Task, tail: bool)
    requires EntryTidy(e, g, active) && u.gid == g && !e.free
    ensures EntryTidy(Inserted(e, u, tail), g, !e.paused)
  {
    var q := Inserted(e, u, tail).queue;
    FlatInsertMultiset(e.avg, e.queue, u, tail);
    forall i | 0 <= i < |q| ensures q[i].gid == g {
      assert q[i] in multiset(q);
      assert q[i] == u || q[i] in e.queue;
    }
  }

  /** The entry a task was queued in. */
  function Delivered(p: Pool, g: nat, t: Task): Entry
    requires g < |p.entries|
  {
    var e := Inserted(p.entries[g], t.(seqno := p.seqno + 1), p.tailFirst);
    if !e.paused && Starts(e, p.npendings + 1) && !e.benefits then e.(eff := e.eff + 1) else e
  }

  predicate DeliverStarts(p: Pool, g: nat)
    requires g < |p.entries|
  {
    !p.entries[g].paused && Starts(p.entries[g], p.npendings + 1)
  }

  /** What queueing a task in group `g` makes of the pool. */
  lemma DeliverEffect(p: Pool, g: nat, t: Task)
    requires Shaped(p) && g < |p.entries|
    ensures var r := Deliver(p, g, t); var e := p.entries[g];
      && r.entries == p.entries[g := Delivered(p, g, t)]
      && r.npendings == p.npendings + Bit(!e.paused)
      && r.pre == (if !e.paused && e.npendings == 0 then Activate(p.pre, g) else p.pre)
      && r.core == (if DeliverStarts(p, g) then Served(AddCore(p.core, 1)) else p.core)
      && r.ntraces == p.ntraces && r.ndispatchings == p.ndispatchings && r.removing == p.removing
      && r.seqno == p.seqno + 1 && r.stat == p.stat[t.id := Stat(Waiting, false)]
      && r.throttled == p.throttled && r.tailFirst == p.tailFirst
  {
    var e := Inserted(p.entries[g], t.(seqno := p.seqno + 1), p.tailFirst);
    QueuedEffect(p, g, t, e);
    NotifyEffect(p, PriQueue(p, g, t), g, e);
  }

  lemma QueuedEffect(p: Pool, g: nat, t: Task, e: Entry)
    requires Shaped(p) && g < |p.entries| && e == Inserted(p.entries[g], t.(seqno := p.seqno + 1), p.tailFirst)
    ensures PriQueue(p, g, t) ==
      p.(entries := p.entries[g := e], seqno := p.seqno + 1, stat := p.stat[t.id := Stat(Waiting, false)])
    ensures e.npendings == p.entries[g].npendings + 1 && e.paused == p.entries[g].paused && e.eff == p.entries[g].eff
    ensures e.benefits == p.entries[g].benefits && e.limit == p.entries[g].limit
    ensures e.nrunnings == p.entries[g].nrunnings
  {
    InsertedKeeps(p.entries[g], t.(seqno := p.seqno + 1), p.tailFirst);
  }

  lemma InsertedKeeps(e: Entry, u: Task, tail: bool)
    ensures var f := Inserted(e, u, tail);
      && f.npendings == e.npendings + 1 && f.paused == e.paused && f.eff == e.eff
      && f.benefits == e.benefits && f.limit == e.limit && f.nrunnings == e.nrunnings
  {
  }

  /** The entry that a delivered task was inserted in, after the notification. */
  lemma NotifyEffect(p: Pool, p1: Pool, g: nat, e: Entry)
    requires Shaped(p) && Shaped(p1) && g < |p.entries| == |p1.entries| && p1.entries == p.entries[g := e]
    requires p1.npendings == p.npendings && e.npendings == p.entries[g].npendings + 1 && e.paused == p.entries[g].paused
    requires e.benefits == p.entries[g].benefits && e.limit == p.entries[g].limit
    requires e.nrunnings == p.entries[g].nrunnings && e.eff == p.entries[g].eff
    ensures var r := if e.paused then p1 else Notify(p1, g); var starts := DeliverStarts(p, g);
      && r.entries == p.entries[g := if starts && !e.benefits then e.(eff := e.eff + 1) else e]
      && r == p1.(entries := r.entries,
                  npendings := p.npendings + Bit(!e.paused),
                  pre := if !e.paused && p.entries[g].npendings == 0 then Activate(p1.pre, g) else p1.pre,
                  core := if starts then Served(AddCore(p1.core, 1)) else p1.core)
  {
  }

  lemma ServedJobs(c: Core)
    requires WaitqInRange(c)
    ensures SameJobs(c, Served(c))
  {
    EnsureJobs(c);
  }

  lemma DeliverTidy(p: Pool, g: nat, t: Task)
    requires Tidy(p) && g < |p.entries| && t.gid == g && !p.entries[g].free
    ensures Tidy(Deliver(p, g, t))
  {
    var e := p.entries[g];
    DeliverEffect(p, g, t);
    assert EntryTidy(e, g, p.pre.active[g]);
    InsertedTidy(e, g, p.pre.active[g], t.(seqno := p.seqno + 1), p.tailFirst);
    ServedJobs(AddCore(p.core, 1));
    DeliveredTidy(p, Deliver(p, g, t), g, Delivered(p, g, t));
  }

  lemma DeliveredTidy(p: Pool, r: Pool, g: nat, e: Entry)
    requires Tidy(p) && Shaped(r) && g < |p.entries| && r.entries == p.entries[g := e]
    requires EntryTidy(e, g, !e.paused) && e.paused == p.entries[g].paused && e.npendings == p.entries[g].npendings + 1
    requires r.npendings == p.npendings + Bit(!e.paused) && r.core.maxthreads == p.core.maxthreads
    requires r.pre == (if !e.paused && e.npendings == 1 then Activate(p.pre, g) else p.pre)
    ensures Tidy(r)
  {
    assert EntryTidy(p.entries[g], g, p.pre.active[g]);
    if !e.paused && e.npendings == 1 { PrefixActivated(p, r, g); } else { PrefixSame(p, r, g); }
    OneEntry(p, r, g, e);
  }

  // ---- steps that leave queues, pausing and the prefix alone ----

  predicate SameShape(e: Entry, f: Entry)
  {
    e.npendings == f.npendings && e.queue == f.queue && e.top == f.top && e.paused == f.paused && e.free == f.free
  }

  lemma NeutralTidy(p: Pool, r: Pool, g: nat)
    requires Tidy(p) && Shaped(r) && g < |p.entries| == |r.entries| && r.entries == p.entries[g := r.entries[g]]
    requires r.pre == p.pre && r.npendings == p.npendings && r.core.maxthreads == p.core.maxthreads
    requires SameShape(p.entries[g], r.entries[g])
    requires var f := r.entries[g];
      f.limit >= 0 && (!f.free && (f.limit == 0 || f.parallel <= 0) ==> f.benefits)
    ensures Tidy(r)
  {
    PrefixSame(p, r, g);
    assert EntryTidy(p.entries[g], g, p.pre.active[g]);
    OneEntry(p, r, g, r.entries[g]);
  }

  lemma CoreTidy(p: Pool, r: Pool)
    requires Tidy(p) && Shaped(r) && r.core.maxthreads >= 0
    requires r.entries == p.entries && r.pre == p.pre && r.npendings == p.npendings
    ensures Tidy(r)
  {
  }

  lemma QueueTaskTidy(p: Pool, t: Task)
    requires Tidy(p)
    ensures Tidy(QueueTask(p, t).0)
  {
    if t.gid < |p.entries| {
      var e := p.entries[t.gid];
      assert EntryTidy(e, t.gid, p.pre.active[t.gid]);
      NeutralTidy(p, Trace(p, t.gid), t.gid);
      if !e.free { DeliverTidy(Trace(p, t.gid), t.gid, t); }
    }
  }

  // ---- taking ----

  /** The group a scan keeps lies in the prefix and is eligible. */
  lemma {:induction false} ScanFinds(p: Pool, i: nat, benefits: bool, best: Option<nat>)
    requires Tidy(p)
    requires best.Some? ==>
      best.value < |p.entries| && Eligible(p.entries[best.value], benefits) && p.pre.active[best.value]
    ensures var r := ScanFrom(p, i, benefits, best);
      r.Some? ==> r.value < |p.entries| && Eligible(p.entries[r.value], benefits) && p.pre.active[r.value]
    decreases p.pre.activeIdx - i
  {
    if i < p.pre.activeIdx && i < |p.pre.act| {
      var g := p.pre.act[i];
      assert EntryTidy(p.entries[g], g, p.pre.active[g]);
      assert !PausedTags(p.entries)[g];
      if Eligible(p.entries[g], benefits) && (best == None || Replaces(p.entries[g].top, p.entries[best.value].top)) {
        ScanFinds(p, i + 1, benefits, Some(g));
      } else {
        ScanFinds(p, i + 1, benefits, best);
      }
    }
  }

  lemma ChooseFinds(p: Pool)
    requires Tidy(p)
    ensures var r := Choose(p); r.Some? ==> p.pre.active[r.value] && Eligible(p.entries[r.value], true)
  {
    ScanFinds(p, 0, false, None);
    ScanFinds(p, 0, true, None);
  }

  lemma PopFromTidy(p: Pool, g: nat)
    requires Tidy(p) && g < |p.entries| && p.pre.active[g]
    ensures Tidy(PopFrom(p, g))
  {
    var r := PopFrom(p, g);
    var e := p.entries[g];
    assert EntryTidy(e, g, p.pre.active[g]);
    if e.npendings == 1 { PrefixInactivated(p, r, g); } else { PrefixSame(p, r, g); }
    OneEntry(p, r, g, Popped(e));
  }

  lemma TakeFromTidy(p: Pool, g: nat)
    requires Tidy(p) && g < |p.entries| && p.pre.active[g]
    ensures Tidy(TakeFrom(p, g))
  {
    PopFromTidy(p, g);
    var p1 := PopFrom(p, g);
    assert EntryTidy(p1.entries[g], g, p1.pre.active[g]);
    NeutralTidy(p1, TakeFrom(p, g), g);
  }

  lemma StartTidy(p: Pool, i: nat, t: Task)
    requires Tidy(p) && i < |p.core.ths|
    ensures Tidy(Start(p, i, t))
  {
    var c := SetThread(p.core, i, p.core.ths[i].(current := Some(t)));
    ToRunJobs(c, i);
    CoreTidy(p, Start(p, i, t));
  }

  lemma TakeBatchTidy(p: Pool, i: nat)
    requires Tidy(p) && i < |p.core.ths|
    ensures Tidy(TakeBatch(p, i))
  {
    ToRunJobs(CutBatch(p.core, i), i);
    CoreTidy(p, TakeBatch(p, i));
  }

  lemma GetTaskTidy(p: Pool, i: nat)
    requires Tidy(p) && i < |p.core.ths|
    ensures GetTask(p, i).Took? ==> Tidy(GetTask(p, i).pool)
  {
    if p.core.dispatchs != [] {
      TakeBatchTidy(p, i);
    } else if !(p.core.paused || p.core.pendings == 0) {
      var g := Choose(p);
      ChooseFinds(p);
      if g.Some? {
        TakeFromTidy(p, g.value);
        StartTidy(TakeFrom(p, g.value), i, p.entries[g.value].top);
      }
    }
  }

  // ---- completing ----

  lemma UntraceTidy(p: Pool, g: nat, id: nat)
    requires Tidy(p) && g < |p.entries|
    ensures Tidy(Untrace(p, g, id))
  {
    assert EntryTidy(p.entries[g], g, p.pre.active[g]);
    NeutralTidy(p, Untrace(p, g, id), g);
  }

  lemma ReleaseTidy(p: Pool, i: nat, g: nat)
    requires Tidy(p) && i < |p.core.ths| && g < |p.entries|
    ensures Tidy(Release(p, i, g)) && Release(p, i, g).entries[g].free == p.entries[g].free
  {
    assert EntryTidy(p.entries[g], g, p.pre.active[g]);
    NeutralTidy(p, Release(p, i, g), g);
  }

  lemma CompleteTidy(p: Pool, i: nat)
    requires Tidy(p) && i < |p.core.ths|
    ensures Tidy(CompleteIfIdle(p, i))
  {
    CoreTidy(p, CompleteIfIdle(p, i));
  }

  lemma FinishTidy(p: Pool, i: nat, detached: bool)
    requires Tidy(p) && i < |p.core.ths| && Job(p.core.ths[i]).Some?
    requires var g := Job(p.core.ths[i]).value.gid; g < |p.entries| && !p.entries[g].free
    ensures Tidy(Finish(p, i, detached))
  {
    var t := Job(p.core.ths[i]).value;
    ReleaseTidy(p, i, t.gid);
    FinishRestTidy(p, Release(p, i, t.gid), i, t, detached);
  }

  lemma FinishRestTidy(p: Pool, p1: Pool, i: nat, t: Task, detached: bool)
    requires Tidy(p1) && i < |p1.core.ths| && t.gid < |p1.entries| && !p1.entries[t.gid].free
    ensures Tidy(if detached || !WantsAgain(p, t.id) then CompleteIfIdle(Untrace(p1, t.gid, t.id), i)
                 else Deliver(CompleteIfIdle(p1, i), t.gid, NiceAdjust(t)))
  {
    if detached || !WantsAgain(p, t.id) {
      UntraceTidy(p1, t.gid, t.id);
      CompleteTidy(Untrace(p1, t.gid, t.id), i);
    } else {
      CompleteTidy(p1, i);
      DeliverTidy(CompleteIfIdle(p1, i), t.gid, NiceAdjust(t));
    }
  }

  lemma DispatchedTidy(p: Pool, t: Task, detached: bool)
    requires Tidy(p) && t.gid < |p.entries| && !p.entries[t.gid].free
    ensures Tidy(Dispatched(p, t, detached))
  {
    var g := t.gid;
    var e := p.entries[g];
    assert EntryTidy(e, g, p.pre.active[g]);
    NeutralTidy(p, Handled(p, t), g);
    if detached || !WantsAgain(p, t.id) {
      UntraceTidy(Handled(p, t), g, t.id);
    } else {
      DeliverTidy(Handled(p, t), g, t);
    }
  }

  // ---- removing ----

  lemma DisposeTidy(p: Pool, t: Task, byPool: bool)
    requires Tidy(p) && t.gid < |p.entries|
    ensures Tidy(Dispose(p, t, byPool)) && Dispose(p, t, byPool).entries[t.gid].queue == p.entries[t.gid].queue
  {
    assert EntryTidy(p.entries[t.gid], t.gid, p.pre.active[t.gid]);
    if !t.handler { UntraceTidy(p, t.gid, t.id); } else { NeutralTidy(p, Dispose(p, t, byPool), t.gid); }
  }

  lemma {:induction false} RemoveLength(q: seq<Task>, t: Task)
    requires t in q
    ensures |Remove(q, t)| == |q| - 1
  {
    if q[0] != t { RemoveLength(q[1..], t); }
  }

  lemma UnqueueTidy(p: Pool, t: Task)
    requires Tidy(p) && t.gid < |p.entries| && t in p.entries[t.gid].queue
    ensures Tidy(Unqueue(p, t))
  {
    var g := t.gid;
    var e := p.entries[g];
    var r := Unqueue(p, t);
    assert EntryTidy(e, g, p.pre.active[g]);
    RemoveLength(e.queue, t);
    var q := Remove(e.queue, t);
    forall i | 0 <= i < |q| ensures q[i].gid == g { assert q[i] in e.queue; }
    if !e.paused && e.npendings == 1 { PrefixInactivated(p, r, g); } else { PrefixSame(p, r, g); }
    OneEntry(p, r, g, Erased(e, t));
  }

  lemma RemoveTaskTidy(p: Pool, t: Task, byPool: bool)
    requires Tidy(p) && t.gid < |p.entries|
    requires t.id in p.stat && p.stat[t.id].place == Waiting ==> t in p.entries[t.gid].queue
    ensures Tidy(RemoveTask(p, t, byPool).0)
  {
    if t.id in p.stat && p.stat[t.id].place == Waiting {
      DisposeTidy(p, t, byPool);
      UnqueueTidy(Dispose(p, t, byPool), t);
      var p1 := RemoveWaiting(p, t, byPool);
      EnsureJobs(p1.core);
      CoreTidy(p1, RemoveTask(p, t, byPool).0);
    }
  }

  // ---- suspending ----

  lemma SuspendTidy(p: Pool, g: nat)
    requires Tidy(p) && g < |p.entries|
    ensures Tidy(Suspend(p, g))
  {
    var r := Suspend(p, g);
    var e := p.entries[g];
    assert EntryTidy(e, g, p.pre.active[g]);
    if ValidEntry(e) && !e.paused {
      if e.npendings != 0 { PrefixInactivated(p, r, g); } else { PrefixShrunk(p, r, g); }
      OneEntry(p, r, g, r.entries[g]);
    }
  }

  /** Suspending a group without tasks compacts the prefix, which drops the group from it. */
  lemma PrefixShrunk(p: Pool, r: Pool, g: nat)
    requires Tidy(p) && Shaped(r) && g < |p.entries| == |r.entries|
    requires !p.pre.active[g] && r.pre == Shrink(p.pre)
    requires forall h :: 0 <= h < |p.entries| && h != g ==> r.entries[h].paused == p.entries[h].paused
    ensures PrefixTidy(r) && r.pre.active == p.pre.active
  {
    ShrinkOk(p.pre);
    forall i | 0 <= i < r.pre.activeIdx && i < |r.pre.act| ensures !PausedTags(r.entries)[r.pre.act[i]] {
      var h := r.pre.act[i];
      assert r.pre.active[h];
      assert EntryTidy(p.entries[h], h, p.pre.active[h]);
    }
  }

  lemma ResumeQuietlyTidy(p: Pool, g: nat)
    requires Tidy(p) && g < |p.entries|
    ensures Tidy(ResumeQuietly(p, g))
  {
    var r := ResumeQuietly(p, g);
    var e := p.entries[g];
    assert EntryTidy(e, g, p.pre.active[g]);
    if ValidEntry(e) && e.paused {
      if e.npendings != 0 { PrefixActivated(p, r, g); } else { PrefixSame(p, r, g); }
      OneEntry(p, r, g, r.entries[g]);
    }
  }

  lemma ResumeTidy(p: Pool, g: nat)
    requires Tidy(p) && g < |p.entries|
    ensures Tidy(Resume(p, g))
  {
    ResumeQuietlyTidy(p, g);
    var p1 := ResumeQuietly(p, g);
    EnsureJobs(p1.core);
    CoreTidy(p1, Resume(p, g));
  }

  // ---- attributes, groups ----

  lemma SetAttrTidy(p: Pool, g: nat, parallel: int, benefits: bool)
    requires Tidy(p) && g < |p.entries|
    ensures Tidy(SetAttr(p, g, parallel, benefits))
  {
    assert EntryTidy(p.entries[g], g, p.pre.active[g]);
    NeutralTidy(p, SetAttr(p, g, parallel, benefits), g);
  }

  lemma {:induction false} UpdateAllTidy(p: Pool, g: nat)
    requires Tidy(p) && g <= |p.entries|
    ensures Tidy(UpdateAllFrom(p, g))
    decreases |p.entries| - g
  {
    if g < |p.entries| {
      var e := p.entries[g];
      SetAttrTidy(p, g, e.parallel, e.benefits);
      UpdateAllTidy(if e.free then p else SetAttr(p, g, e.parallel, e.benefits), g + 1);
    }
  }

  lemma GrowPoolTidy(p: Pool)
    requires Tidy(p)
    ensures Tidy(GrowPool(p))
  {
    GrowOk(p.pre, GROWTH);
    GrowPoolParts(p, GrowPool(p));
  }

  lemma GrowPoolParts(p: Pool, r: Pool)
    requires Tidy(p) && Shaped(r) && r.entries == p.entries + [FREESLOT, FREESLOT, FREESLOT]
    requires PrefixOk(r.pre) && r.npendings == p.npendings && r.core == p.core
    requires r.pre.active[..|p.entries|] == p.pre.active
    requires forall g :: |p.entries| <= g < |r.entries| ==> !r.pre.active[g]
    requires r.pre.activeIdx == p.pre.activeIdx && forall i :: 0 <= i < |p.pre.act| ==> r.pre.act[i] == p.pre.act[i]
    ensures Tidy(r)
  {
    var slots := [FREESLOT, FREESLOT, FREESLOT];
    SumAppend(p.entries, slots, Pending);
    SumZero(slots, Pending);
    GrowPoolEntries(p, r);
    GrowPoolClear(p, r);
  }

  lemma GrowPoolEntries(p: Pool, r: Pool)
    requires Tidy(p) && Shaped(r) && r.entries == p.entries + [FREESLOT, FREESLOT, FREESLOT]
    requires r.pre.active[..|p.entries|] == p.pre.active
    requires forall g :: |p.entries| <= g < |r.entries| ==> !r.pre.active[g]
    ensures EntriesTidy(r)
  {
    forall g | 0 <= g < |r.entries| ensures EntryTidy(r.entries[g], g, r.pre.active[g]) {
      if g < |p.entries| {
        assert EntryTidy(p.entries[g], g, p.pre.active[g]);
        assert r.pre.active[g] == r.pre.active[..|p.entries|][g];
      }
    }
  }

  lemma GrowPoolClear(p: Pool, r: Pool)
    requires Tidy(p) && Shaped(r) && r.entries == p.entries + [FREESLOT, FREESLOT, FREESLOT]
    requires r.pre.activeIdx == p.pre.activeIdx && forall i :: 0 <= i < |p.pre.act| ==> r.pre.act[i] == p.pre.act[i]
    ensures Clear(r.pre, PausedTags(r.entries))
  {
    assert p.pre.activeIdx <= |p.pre.act|;
    forall i | 0 <= i < r.pre.activeIdx && i < |r.pre.act| ensures !PausedTags(r.entries)[r.pre.act[i]] {
      assert !PausedTags(p.entries)[p.pre.act[i]];
    }
  }

  /**
   Creating a group keeps the shape if and only if it does not put a suspended group in a slot
   that still lingers in the active prefix.
   */
  lemma OccupyTidy(p: Pool, g: nat, priqNum: nat, suspend: bool)
    requires Tidy(p) && g < |p.entries| && p.entries[g].free && 1 <= priqNum <= 99
    ensures Tidy(Occupy(p, g, priqNum, suspend)) <==> !(suspend && p.pre.index[g] < p.pre.activeIdx)
  {
    var r := Occupy(p, g, priqNum, suspend);
    var e := p.entries[g];
    assert EntryTidy(e, g, p.pre.active[g]);
    assert r.pre == p.pre && r.entries == p.entries[g := r.entries[g]];
    assert r.entries[g].paused == suspend && r.entries[g].queue == [];
    var k := p.pre.index[g];
    assert p.pre.act[k] == g;
    if suspend && k < p.pre.activeIdx {
      assert PausedTags(r.entries)[p.pre.act[k]];
    } else {
      forall i | 0 <= i < r.pre.activeIdx && i < |r.pre.act| ensures !PausedTags(r.entries)[r.pre.act[i]] {
        assert !PausedTags(p.entries)[p.pre.act[i]];
        assert p.pre.act[i] == g ==> i == k;
      }
      OneEntry(p, r, g, r.entries[g]);
    }
  }

  /**
   Such a group runs although it is suspended: a task queued in it is eligible, by its benefits if there
   may be no threads at all, and the scan meets it.
   */
  lemma SuspendedSlotIsScanned(p: Pool, g: nat, priqNum: nat, t: Task)
    requires Tidy(p) && g < |p.entries| && p.entries[g].free && p.entries[g].nrunnings == 0 && 1 <= priqNum <= 99
    requires p.pre.index[g] < p.pre.activeIdx
    ensures var r := Deliver(Occupy(p, g, priqNum, true), g, t); var i := p.pre.index[g];
      i < r.pre.activeIdx && r.pre.act[i] == g && r.entries[g].paused && Eligible(r.entries[g], p.core.maxthreads == 0)
  {
    assert EntryTidy(p.entries[g], g, p.pre.active[g]);
    var q := Occupy(p, g, priqNum, true);
    assert q.pre == p.pre && q.entries[g].limit == p.core.maxthreads && q.entries[g].benefits;
    DeliverEffect(q, g, t);
  }

  lemma VacateTidy(p: Pool, g: nat)
    requires Tidy(p) && g < |p.entries| && p.entries[g].npendings == 0
    ensures Tidy(Vacate(p, g))
  {
    var r := Vacate(p, g);
    var e := p.entries[g];
    assert EntryTidy(e, g, p.pre.active[g]);
    assert p.pre.active[g := false] == p.pre.active;
    assert r.pre == p.pre;
    PrefixSame(p, r, g);
    OneEntry(p, r, g, r.entries[g]);
  }

  lemma NewPoolTidy(c: Core, priqNum: nat, tailFirst: bool)
    requires WaitqInRange(c) && c.maxthreads >= 0 && 1 <= priqNum <= 99
    ensures Tidy(NewPool(c, priqNum, tailFirst))
  {
    var p := Pool(c, [], Prefix([], [], [], 0, 0), 0, 0, 0, 0, false, map[], [], tailFirst);
    assert Tidy(p);
    GrowPoolTidy(p);
    OccupyTidy(GrowPool(p), 0, priqNum, false);
  }
}
