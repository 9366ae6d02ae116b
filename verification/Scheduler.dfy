/**
 The incremental scheduler against the simple one: of all the pending tasks that may start now,
 take the first in the intended order.
 */
module Scheduler {
  import opened Types
  import opened ThreadModel
  import opened ThreadCounts
  import opened ThreadSupply
  import opened ThreadJobs
  import opened PriorityOrder
  import opened PriorityQueue
  import opened ActivePrefix
  import opened GroupModel
  import opened GroupCounts
  import opened GroupShape
  import opened GroupExact
  import opened GroupPlaces

  // ---- the pairwise rule ----

  /** Between tasks with different numbers, the rule the scan folds with is the intended order. */
  lemma ReplacesIsPrecedes(x: Task, y: Task)
    ensures x.seqno != y.seqno ==> (Replaces(x, y) <==> Precedes(x, y))
  {
  }

  lemma TopsDiffer(p: Pool, g: nat, h: nat)
    requires Tidy(p) && SeqsDistinct(p) && g < |p.entries| && h < |p.entries| && g != h
    requires p.entries[g].queue != [] && p.entries[h].queue != []
    ensures p.entries[g].top.seqno != p.entries[h].top.seqno
  {
    assert EntryTidy(p.entries[g], g, p.pre.active[g]) && EntryTidy(p.entries[h], h, p.pre.active[h]);
    var n := p.entries[g].top.seqno;
    if n == p.entries[h].top.seqno {
      assert TallyOf(p, WithSeq(n)).waits <= 1;
      MatchingMember(p.entries[g].queue, 0, WithSeq(n));
      MatchingMember(p.entries[h].queue, 0, WithSeq(n));
      SumTwo(p.entries, g, h, Queued(WithSeq(n)));
    }
  }

  // ---- scanning the cached tops of the active prefix ----

  /** The group may start a pending task now; in the second round, by its benefits alone. */
  predicate CanStart(e: Entry, benefits: bool)
  {
    !e.paused && e.npendings > 0 && (e.nrunnings < e.limit || (benefits && e.benefits))
  }

  /** Group `g`'s top goes first among the tops of `g` and `h`. */
  predicate Beats(p: Pool, g: nat, h: nat)
    requires g < |p.entries| && h < |p.entries|
  {
    g == h || Precedes(p.entries[g].top, p.entries[h].top)
  }

  /** The kept group beats every eligible one met from position `i` on, and the one kept before. */
  ghost predicate KeepsBest(p: Pool, i: nat, benefits: bool, best: Option<nat>, r: Option<nat>)
    requires Shaped(p) && (best.Some? ==> best.value < |p.entries|) && (r.Some? ==> r.value < |p.entries|)
  {
    && (best.Some? ==> r.Some? && Beats(p, r.value, best.value))
    && (forall j :: i <= j < p.pre.activeIdx && j < |p.pre.act| && Eligible(p.entries[p.pre.act[j]], benefits) ==>
          r.Some? && Beats(p, r.value, p.pre.act[j]))
  }

  lemma {:induction false} ScanBest(p: Pool, i: nat, benefits: bool, best: Option<nat>)
    requires Tidy(p) && SeqsDistinct(p)
    requires best.Some? ==> best.value < |p.entries| && p.entries[best.value].queue != []
    ensures KeepsBest(p, i, benefits, best, ScanFrom(p, i, benefits, best))
    decreases p.pre.activeIdx - i
  {
    if i < p.pre.activeIdx && i < |p.pre.act| {
      var g := p.pre.act[i];
      assert EntryTidy(p.entries[g], g, p.pre.active[g]);
      var kept := best == None || Replaces(p.entries[g].top, p.entries[best.value].top);
      var next := if Eligible(p.entries[g], benefits) && kept then Some(g) else best;
      ScanBest(p, i + 1, benefits, next);
      ScanStep(p, i, benefits, best, next, ScanFrom(p, i + 1, benefits, next));
    }
  }

  lemma ScanStep(p: Pool, i: nat, benefits: bool, best: Option<nat>, next: Option<nat>, r: Option<nat>)
    requires Tidy(p) && SeqsDistinct(p) && i < p.pre.activeIdx && i < |p.pre.act|
    requires best.Some? ==> best.value < |p.entries| && p.entries[best.value].queue != []
    requires r.Some? ==> r.value < |p.entries|
    requires var g := p.pre.act[i];
      var kept := best == None || Replaces(p.entries[g].top, p.entries[best.value].top);
      next == if Eligible(p.entries[g], benefits) && kept then Some(g) else best
    requires KeepsBest(p, i + 1, benefits, next, r)
    ensures KeepsBest(p, i, benefits, best, r)
  {
    var g := p.pre.act[i];
    assert EntryTidy(p.entries[g], g, p.pre.active[g]);
    if best.Some? && Eligible(p.entries[g], benefits) {
      var x, y := p.entries[g].top, p.entries[best.value].top;
      if best.value != g { TopsDiffer(p, g, best.value); }
      ReplacesIsPrecedes(x, y);
      assert Beats(p, g, best.value) || Beats(p, best.value, g);
      BeatsTransitive(p, r.value, next.value, best.value);
      BeatsTransitive(p, r.value, next.value, g);
    }
  }

  lemma BeatsTransitive(p: Pool, f: nat, g: nat, h: nat)
    requires f < |p.entries| && g < |p.entries| && h < |p.entries|
    ensures Beats(p, f, g) && Beats(p, g, h) ==> Beats(p, f, h)
  {
    PrecedesIsStrictTotal(p.entries[f].top, p.entries[g].top, p.entries[h].top);
  }

  /** The groups that can start are exactly the eligible ones that the scan meets. */
  lemma CanStartIsScanned(p: Pool, h: nat, benefits: bool)
    requires Tidy(p) && h < |p.entries|
    ensures CanStart(p.entries[h], benefits) <==>
            exists j :: 0 <= j < p.pre.activeIdx && j < |p.pre.act| && p.pre.act[j] == h
                        && Eligible(p.entries[h], benefits)
  {
    assert EntryTidy(p.entries[h], h, p.pre.active[h]);
    if CanStart(p.entries[h], benefits) {
      ActiveIsScanned(p.pre, h);
      assert p.pre.act[p.pre.index[h]] == h;
    }
    forall j | 0 <= j < p.pre.activeIdx && j < |p.pre.act| && p.pre.act[j] == h ensures !p.entries[h].paused {
      assert !PausedTags(p.entries)[p.pre.act[j]];
    }
  }

  ghost predicate IsBest(p: Pool, g: nat, benefits: bool)
    requires g < |p.entries|
  {
    && CanStart(p.entries[g], benefits)
    && forall h :: 0 <= h < |p.entries| && CanStart(p.entries[h], benefits) ==> Beats(p, g, h)
  }

  ghost predicate SomeCanStart(p: Pool, benefits: bool)
  {
    exists h :: 0 <= h < |p.entries| && CanStart(p.entries[h], benefits)
  }

  /** One scan finds a group exactly when some group can start, and then the best one. */
  lemma ScanIsBest(p: Pool, benefits: bool)
    requires Tidy(p) && SeqsDistinct(p)
    ensures var r := Scan(p, benefits);
      (r.Some? <==> SomeCanStart(p, benefits)) && (r.Some? ==> IsBest(p, r.value, benefits))
  {
    ScanBest(p, 0, benefits, None);
    ScanFinds(p, 0, benefits, None);
    var r := Scan(p, benefits);
    forall h | 0 <= h < |p.entries| && CanStart(p.entries[h], benefits) ensures r.Some? && Beats(p, r.value, h) {
      CanStartIsScanned(p, h, benefits);
    }
    if r.Some? { assert EntryTidy(p.entries[r.value], r.value, p.pre.active[r.value]); }
  }

  /**
   The group chosen is the best of those with a free slot or, if there is none, the best of those
   that receive benefits.  Nothing is chosen exactly when no group can start.
   */
  lemma ChooseIsBest(p: Pool)
    requires Tidy(p) && SeqsDistinct(p) && p.core.pendings != 0
    ensures Choose(p).Some? <==> SomeCanStart(p, true)
    ensures Choose(p).Some? ==> IsBest(p, Choose(p).value, !SomeCanStart(p, false))
  {
    ScanIsBest(p, false);
    ScanIsBest(p, true);
  }

  // ---- over all pending tasks ----

  ghost predicate QueuesSorted(p: Pool) { forall g :: 0 <= g < |p.entries| ==> Sorted(p.entries[g].queue) }

  /** With sorted queues the task taken precedes every other pending task of every group that can start. */
  lemma TakenIsBestOfAll(p: Pool, h: nat, k: nat)
    requires Tidy(p) && SeqsDistinct(p) && QueuesSorted(p) && p.core.pendings != 0 && Choose(p).Some?
    requires h < |p.entries| && CanStart(p.entries[h], !SomeCanStart(p, false)) && k < |p.entries[h].queue|
    ensures var t := p.entries[Choose(p).value].top; t == p.entries[h].queue[k] || Precedes(t, p.entries[h].queue[k])
  {
    ChooseIsBest(p);
    var g := Choose(p).value;
    assert Beats(p, g, h) && EntryTidy(p.entries[h], h, p.pre.active[h]) && Sorted(p.entries[h].queue);
    if k > 0 {
      assert Precedes(p.entries[h].queue[0], p.entries[h].queue[k]);
      PrecedesIsStrictTotal(p.entries[g].top, p.entries[h].top, p.entries[h].queue[k]);
    }
  }

  // ---- queues stay sorted exactly when insertion is safe ----

  lemma {:induction false} SortedUnique(a: seq<Task>, b: seq<Task>)
    requires Sorted(a) && Sorted(b) && multiset(a) == multiset(b)
    ensures a == b
  {
    if a == [] || b == [] {
      assert |multiset(a)| == |a| && |multiset(b)| == |b|;
    } else {
      SortedHead(a, b);
      assert a == [a[0]] + a[1..] && b == [b[0]] + b[1..];
      assert multiset(a[1..]) == multiset(a) - multiset{a[0]} == multiset(b[1..]);
      SortedUnique(a[1..], b[1..]);
    }
  }

  lemma SortedHead(a: seq<Task>, b: seq<Task>)
    requires Sorted(a) && Sorted(b) && multiset(a) == multiset(b) && a != [] && b != []
    ensures a[0] == b[0]
  {
    assert a[0] in multiset(b) && b[0] in multiset(a);
    SortedTail(a);
    SortedTail(b);
  }

  /** Numbers from the past: the next task queued is newer than everything in every queue. */
  lemma NextIsNewest(p: Pool, g: nat, t: Task)
    requires SeqsDistinct(p) && g < |p.entries|
    ensures Newest(p.entries[g].queue, t.(seqno := p.seqno + 1))
  {
    var q := p.entries[g].queue;
    forall u | u in q ensures u.seqno <= p.seqno {
      var k :| 0 <= k < |q| && q[k] == u;
      MatchingMember(q, k, WithSeq(u.seqno));
      SumMember(p.entries, g, Queued(WithSeq(u.seqno)));
      assert TallyOf(p, WithSeq(u.seqno)).waits <= Bit(u.seqno <= p.seqno);
    }
  }

  /** Queueing a task keeps its group's queue sorted if and only if it is safe within its band. */
  lemma DeliverSorted(p: Pool, g: nat, t: Task)
    requires Shaped(p) && SeqsDistinct(p) && QueuesSorted(p) && g < |p.entries|
    ensures QueuesSorted(Deliver(p, g, t)) <==>
      BandSafe(p.entries[g].avg, p.entries[g].queue, t.(seqno := p.seqno + 1), p.tailFirst)
  {
    var e := p.entries[g];
    var u := t.(seqno := p.seqno + 1);
    var r := Deliver(p, g, t);
    DeliverEffect(p, g, t);
    NextIsNewest(p, g, t);
    assert Sorted(e.queue) && u !in e.queue;
    InsertedSorted(e, u, p.tailFirst);
    assert r.entries[g].queue == Inserted(e, u, p.tailFirst).queue;
    if Sorted(r.entries[g].queue) {
      forall h | 0 <= h < |r.entries| ensures Sorted(r.entries[h].queue) { assert Sorted(p.entries[h].queue); }
    }
  }

  lemma InsertedSorted(e: Entry, u: Task, tail: bool)
    requires Sorted(e.queue) && Newest(e.queue, u)
    ensures Sorted(Inserted(e, u, tail).queue) <==> BandSafe(e.avg, e.queue, u, tail)
  {
    FlatInsertExact(e.avg, e.queue, u, tail);
    FlatInsertMultiset(e.avg, e.queue, u, tail);
    StableInsertSorted(e.queue, u);
    if Sorted(Inserted(e, u, tail).queue) { SortedUnique(Inserted(e, u, tail).queue, StableInsert(e.queue, u)); }
  }

  // ---- taking always ends ----

  /** The scan repeats for ever exactly when tasks are counted as startable and no group can start one. */
  lemma SpinsExactly(p: Pool, i: nat)
    requires Tidy(p) && SeqsDistinct(p) && i < |p.core.ths|
    ensures GetTask(p, i).Spins? <==>
            p.core.dispatchs == [] && !p.core.paused && p.core.pendings != 0 && !SomeCanStart(p, true)
  {
    if p.core.pendings != 0 { ChooseIsBest(p); }
  }

  /** With exact effective numbers a positive count means that a group can start. */
  lemma StartableExists(p: Pool)
    requires Tidy(p) && Exact(p) && p.core.pendings != 0
    ensures p.core.pendings > 0 && SomeCanStart(p, true)
  {
    StartableNonNegative(p, true);
    SumNonNegative(p.entries, Startable);
    var g := SumPositive(p.entries, Startable);
    assert EntryTidy(p.entries[g], g, p.pre.active[g]);
    assert CanStart(p.entries[g], true);
  }

  /** Taking ends with a task whenever the pool is not paused and counts one as startable. */
  lemma TakeTerminates(p: Pool, i: nat)
    requires Tidy(p) && SeqsDistinct(p) && Exact(p) && i < |p.core.ths|
    ensures !GetTask(p, i).Spins?
    ensures p.core.dispatchs != [] || (!p.core.paused && p.core.pendings > 0) <==> GetTask(p, i).Took?
  {
    if p.core.pendings != 0 {
      StartableExists(p);
      ChooseIsBest(p);
    } else {
      StartableNonNegative(p, true);
    }
  }

  /** Suspending and resuming a group at its limit, with nothing else startable, makes the next take spin. */
  lemma ResumeMakesTakeSpin(p: Pool, g: nat, i: nat)
    requires Tidy(p) && SeqsDistinct(p) && Exact(p) && g < |p.entries| && i < |p.core.ths|
    requires ValidEntry(p.entries[g]) && !p.entries[g].paused && p.entries[g].npendings > 0
    requires p.core.pendings == 0 && !p.core.paused && p.core.dispatchs == []
    requires !NeedEnsure(p.core)
    ensures GetTask(Resume(Suspend(p, g), g), i).Spins?
  {
    var r := Resume(Suspend(p, g), g);
    SuspendTidy(p, g);
    ResumeTidy(Suspend(p, g), g);
    NoneStartable(p);
    SuspendResumeEntry(p, g);
    SameWaitsSeqs(p, r, g);
    assert !CanStart(p.entries[g], true);
    forall h | 0 <= h < |r.entries| ensures !CanStart(r.entries[h], true) { assert !CanStart(p.entries[h], true); }
    SpinsExactly(r, i);
  }

  /** What the pair of operations leaves of a group without benefits: the limit is counted as startable. */
  lemma SuspendResumeEntry(p: Pool, g: nat)
    requires Tidy(p) && g < |p.entries| && ValidEntry(p.entries[g]) && !p.entries[g].paused
    requires p.entries[g].npendings > 0 && !p.entries[g].benefits && p.core.pendings == p.entries[g].eff
    requires !NeedEnsure(p.core)
    ensures var r := Resume(Suspend(p, g), g); var e := p.entries[g];
      && r.entries == p.entries[g := e.(eff := Min(e.npendings, e.limit))]
      && r.core == p.core.(pendings := Min(e.npendings, e.limit)) && r.core.pendings > 0 && r.seqno == p.seqno
  {
    assert EntryTidy(p.entries[g], g, p.pre.active[g]);
    var q := Suspend(p, g);
    assert q.entries == p.entries[g := p.entries[g].(paused := true, eff := 0)];
    assert ResumeQuietly(q, g).entries ==
      p.entries[g := p.entries[g].(eff := Min(p.entries[g].npendings, p.entries[g].limit))];
  }

  lemma SameWaitsSeqs(p: Pool, r: Pool, g: nat)
    requires SeqsDistinct(p) && r.seqno == p.seqno && g < |p.entries| == |r.entries|
    requires r.entries == p.entries[g := r.entries[g]] && r.entries[g].queue == p.entries[g].queue
    ensures SeqsDistinct(r)
  {
    forall n: nat ensures TallyOf(r, WithSeq(n)).waits <= Bit(n <= r.seqno) {
      SumUpdate(p.entries, g, r.entries[g], Queued(WithSeq(n)));
      assert TallyOf(p, WithSeq(n)).waits <= Bit(n <= p.seqno);
    }
  }

  // ---- draining ----

  /** With exact numbers, a count of zero and nothing to start are the same. */
  lemma NoneStartable(p: Pool)
    requires Tidy(p) && Exact(p)
    ensures p.core.pendings == 0 <==> forall g :: 0 <= g < |p.entries| ==> Still(p.entries[g])
  {
    if p.core.pendings == 0 {
      ZeroMeansStill(p, true);
    } else {
      StartableExists(p);
      var g :| 0 <= g < |p.entries| && CanStart(p.entries[g], true);
      assert !Still(p.entries[g]);
    }
  }

  /** One take, as far as the groups are concerned. */
  function TakeNext(p: Pool): (r: Option<Pool>)
    requires Shaped(p)
    ensures r.Some? ==> Shaped(r.value)
  {
    if p.core.pendings != 0 && Choose(p).Some? then Some(TakeFrom(p, Choose(p).value)) else None
  }

  /** `n` successive takes with no completion in between, if all of them find a task. */
  function TakeMany(p: Pool, n: nat): (r: Option<Pool>)
    requires Shaped(p)
    ensures r.Some? ==> Shaped(r.value)
  {
    if n == 0 then Some(p)
    else
      var q := TakeMany(p, n - 1);
      if q == None then None else TakeNext(q.value)
  }

  lemma TakeFromSeqs(p: Pool, g: nat)
    requires Tidy(p) && SeqsDistinct(p) && g < |p.entries| && p.pre.active[g]
    ensures SeqsDistinct(TakeFrom(p, g))
  {
    var r := TakeFrom(p, g);
    assert EntryTidy(p.entries[g], g, p.pre.active[g]);
    forall n: nat ensures TallyOf(r, WithSeq(n)).waits <= Bit(n <= r.seqno) {
      PoppedWaits(p, g, WithSeq(n));
      assert TallyOf(p, WithSeq(n)).waits <= Bit(n <= p.seqno);
    }
  }

  /** The scheduler's numbers are right. */
  ghost predicate Schedulable(p: Pool) { Tidy(p) && SeqsDistinct(p) && Exact(p) }

  /** One take moves one startable task into the running ones. */
  lemma TakeOne(p: Pool)
    requires Schedulable(p)
    ensures p.core.pendings >= 0
    ensures TakeNext(p).Some? <==> p.core.pendings > 0
    ensures TakeNext(p).Some? ==> Schedulable(TakeNext(p).value) && Drained(p, TakeNext(p).value, 1)
  {
    if p.core.pendings != 0 {
      StartableExists(p);
      ChooseIsBest(p);
      ChooseFinds(p);
      var g := Choose(p).value;
      TakeFromTidy(p, g);
      TakeFromSeqs(p, g);
      TakeFromExact(p, g, true);
      TakeFromRuns(p, g);
    }
  }

  lemma TakeFromRuns(p: Pool, g: nat)
    requires Shaped(p) && g < |p.entries|
    ensures Sum(TakeFrom(p, g).entries, InRun) == Sum(p.entries, InRun) + 1
  {
    var q := TakeFrom(p, g);
    assert q.entries == p.entries[g := q.entries[g]];
    SumUpdate(p.entries, g, q.entries[g], InRun);
  }

  /** `n` startable tasks have become running ones. */
  ghost predicate Drained(p: Pool, r: Pool, n: nat)
  {
    r.core.pendings == p.core.pendings - n && Sum(r.entries, InRun) == Sum(p.entries, InRun) + n
  }

  /**
   From any state with exact numbers, exactly core->npendings successive takes find a task; the
   numbers are exact all along.
   */
  lemma {:induction false} DrainExactly(p: Pool, n: nat)
    requires Schedulable(p)
    ensures TakeMany(p, n).Some? <==> n <= p.core.pendings
    ensures TakeMany(p, n).Some? ==> Schedulable(TakeMany(p, n).value) && Drained(p, TakeMany(p, n).value, n)
  {
    if n == 0 {
      StartableNonNegative(p, true);
      SumNonNegative(p.entries, Startable);
    } else {
      DrainExactly(p, n - 1);
      var q := TakeMany(p, n - 1);
      if q.Some? { DrainOneMore(p, q.value, n); }
    }
  }

  lemma DrainOneMore(p: Pool, q: Pool, n: nat)
    requires n > 0 && Schedulable(q) && Drained(p, q, n - 1)
    ensures TakeNext(q).Some? <==> n <= p.core.pendings
    ensures TakeNext(q).Some? ==> Schedulable(TakeNext(q).value) && Drained(p, TakeNext(q).value, n)
  {
    TakeOne(q);
  }

  // ---- the limit ----

  /** No group without benefits runs more tasks than its limit. */
  ghost predicate WithinLimits(p: Pool)
  {
    forall g :: 0 <= g < |p.entries| && !p.entries[g].benefits ==> p.entries[g].nrunnings <= p.entries[g].limit
  }

  lemma GetTaskWithinLimits(p: Pool, i: nat)
    requires Tidy(p) && WithinLimits(p) && i < |p.core.ths| && GetTask(p, i).Took?
    ensures WithinLimits(GetTask(p, i).pool)
  {
    if p.core.dispatchs == [] { ChooseFinds(p); }
  }

  /** Limits and benefits are as they were, and no group runs more. */
  ghost predicate RunsNoMore(p: Pool, r: Pool)
  {
    && |r.entries| == |p.entries|
    && forall g :: 0 <= g < |p.entries| ==>
         r.entries[g].benefits == p.entries[g].benefits && r.entries[g].limit == p.entries[g].limit
         && r.entries[g].nrunnings <= p.entries[g].nrunnings
  }

  lemma DeliverRunsNoMore(p: Pool, p1: Pool, g: nat, t: Task)
    requires Shaped(p1) && g < |p1.entries| && RunsNoMore(p, p1)
    ensures RunsNoMore(p, Deliver(p1, g, t))
  {
    DeliverEffect(p1, g, t);
  }

  lemma FinishRunsNoMore(p: Pool, i: nat, detached: bool)
    requires Shaped(p) && i < |p.core.ths| && Job(p.core.ths[i]).Some? && Job(p.core.ths[i]).value.gid < |p.entries|
    ensures RunsNoMore(p, Finish(p, i, detached))
  {
    var t := Job(p.core.ths[i]).value;
    assert RunsNoMore(p, Release(p, i, t.gid));
    if detached || !WantsAgain(p, t.id) {
      UntraceRunsNoMore(p, Release(p, i, t.gid), t.gid, t.id);
    } else {
      DeliverRunsNoMore(p, CompleteIfIdle(Release(p, i, t.gid), i), t.gid, NiceAdjust(t));
    }
  }

  lemma UntraceRunsNoMore(p: Pool, p1: Pool, g: nat, id: nat)
    requires Shaped(p1) && g < |p1.entries| && RunsNoMore(p, p1)
    ensures RunsNoMore(p, Untrace(p1, g, id))
  {
  }

  lemma DispatchedRunsNoMore(p: Pool, t: Task, detached: bool)
    requires Shaped(p) && t.gid < |p.entries|
    ensures RunsNoMore(p, Dispatched(p, t, detached))
  {
    assert RunsNoMore(p, Handled(p, t));
    if detached || !WantsAgain(p, t.id) { UntraceRunsNoMore(p, Handled(p, t), t.gid, t.id); }
    else { DeliverRunsNoMore(p, Handled(p, t), t.gid, t); }
  }

  lemma QueueRunsNoMore(p: Pool, t: Task)
    requires Shaped(p)
    ensures RunsNoMore(p, QueueTask(p, t).0)
  {
    if t.gid < |p.entries| {
      assert RunsNoMore(p, Trace(p, t.gid));
      DeliverRunsNoMore(p, Trace(p, t.gid), t.gid, t);
    }
  }

  lemma RemoveRunsNoMore(p: Pool, t: Task, byPool: bool)
    requires Shaped(p) && t.gid < |p.entries|
    ensures RunsNoMore(p, RemoveWaiting(p, t, byPool))
  {
  }

  lemma RunsNoMoreWithin(p: Pool, r: Pool)
    requires WithinLimits(p) && RunsNoMore(p, r)
    ensures WithinLimits(r)
  {
  }
}
