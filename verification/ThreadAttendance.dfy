/**
 Whether some thread still attends after threads are added, woken or taken out of service.
 Marking takes threads out in the order of the list, the ones asleep with the ones that are free, and a
 sleeper that is marked is woken; so a flush leaves nobody only when it happens to mark exactly the free.
 */
module ThreadAttendance {
  import opened Types
  import opened ThreadModel
  import opened ThreadCounts
  import opened ThreadSupply
  import opened ThreadStatus
  import opened ThreadBounds

  // ---- adding and waking ----

  /** Supply puts nobody to sleep. */
  lemma {:induction false} FewerSleepers(ths: seq<Thread>, uhs: seq<Thread>)
    requires |ths| <= |uhs| && forall j :: 0 <= j < |ths| ==> Weight(uhs[j], Sleepers) <= Weight(ths[j], Sleepers)
    requires forall j :: |ths| <= j < |uhs| ==> uhs[j] == NEWBORN
    ensures Count(uhs, Sleepers) <= Count(ths, Sleepers)
    decreases |uhs|
  {
    if uhs != [] {
      var n := |uhs| - 1;
      if n < |ths| { FewerSleepers(ths[..n], uhs[..n]); } else { FewerSleepers(ths, uhs[..n]); }
    }
  }

  /** Whoever sleeps unwoken is in service. */
  lemma SleepersServe(c: Core)
    requires Sound(c)
    ensures c.qthsWait <= c.sleeping
  {
    forall j | 0 <= j < |c.ths| ensures Weight(c.ths[j], Sleepers) <= Weight(c.ths[j], RealSleeping) {}
    SleepersCount(c.ths);
    assert Drift(c, Sleepers) == 0 && Drift(c, RealSleeping) == 0;
  }

  lemma {:induction false} SleepersCount(ths: seq<Thread>)
    requires forall j :: 0 <= j < |ths| ==> Weight(ths[j], Sleepers) <= Weight(ths[j], RealSleeping)
    ensures Count(ths, Sleepers) <= Count(ths, RealSleeping)
  {
    if ths != [] { SleepersCount(ths[..|ths| - 1]); }
  }

  /** Adding at least one thread leaves one that attends: a new one, or one that was dying and is not asleep. */
  lemma AddingAttends(c: Core, n: int)
    requires Sound(c) && n > 0
    ensures Attended(AddThreads(c, n))
  {
    var r := AddThreads(c, n);
    SupplySound(c, n);
    assert Drift(c, Dying) == 0;
    AddThreadsExact(c, n);
    forall j | 0 <= j < |c.ths| ensures Weight(r.ths[j], Sleepers) <= Weight(c.ths[j], Sleepers) {
      assert KeepsJob(c.ths[j], r.ths[j]);
    }
    FewerSleepers(c.ths, r.ths);
    assert Drift(c, Sleepers) == 0 && Drift(r, Sleepers) == 0;
    SleepersServe(c);
    CountersBalance(c);
    CountersBalance(r);
  }

  /** Waking every sleeper leaves somebody to attend exactly when anybody is in service, or was attending. */
  lemma WakingAttends(c: Core)
    requires Sound(c)
    ensures Attended(WakeN(c, -1)) <==> Attended(c) || c.realPool > 0
  {
    var r := WakeN(c, -1);
    WakeNSupplies(c, -1);
    WakeNShortens(c, -1);
    CountedBySameDrift(c, r);
    CountersBalance(c);
    CountersBalance(r);
    SleepersServe(c);
    if c.realPool == 0 { assert c.waitq == []; }
  }

  // ---- marking ----

  /** The idle threads from position `i` on are marked in the order of the list. */
  ghost predicate InOrder(c: Core, d: Core, i: nat)
    requires |c.ths| == |d.ths|
  {
    forall j, k :: i <= j < k < |c.ths| && Idle(c.ths[j]) && Idle(c.ths[k]) && d.ths[k].rm ==> d.ths[j].rm
  }

  lemma {:induction false} MarksInOrder(c: Core, i: nat, n: int, died: nat)
    requires Formed(c) && i <= |c.ths| && 1 <= n <= IdleFrom(c.ths, i)
    ensures InOrder(c, Mark(c, i, n, 0, died).0, i)
    decreases |c.ths| - i, 1
  {
    if Idle(c.ths[i]) {
      MarkOneSheds(c, i);
      FromSame(c.ths, MarkOne(c, i).ths, i + 1);
      if n > 1 { MarksOnInOrder(c, MarkOne(c, i), i, n - 1, died + 1); }
    } else {
      MarksInOrder(c, i + 1, n, died);
    }
  }

  lemma {:induction false} MarksOnInOrder(c: Core, d: Core, i: nat, n: int, died: nat)
    requires Formed(d) && i < |c.ths| == |d.ths| && d.ths == c.ths[i := d.ths[i]] && d.ths[i].rm
    requires 1 <= n <= IdleFrom(d.ths, i + 1)
    ensures InOrder(c, Mark(d, i + 1, n, 0, died).0, i)
    decreases |c.ths| - i, 0
  {
    MarksInOrder(d, i + 1, n, died);
    MarkExact(d, i + 1, n, 0, died);
    OrderAfterFirst(c, d, Mark(d, i + 1, n, 0, died).0, i);
  }

  lemma OrderAfterFirst(c: Core, d: Core, r: Core, i: nat)
    requires i < |c.ths| == |d.ths| == |r.ths| && d.ths == c.ths[i := d.ths[i]]
    requires InOrder(d, r, i + 1) && r.ths[i].rm
    ensures InOrder(c, r, i)
  {
    forall j, k | i <= j < k < |c.ths| && Idle(c.ths[j]) && Idle(c.ths[k]) && r.ths[k].rm ensures r.ths[j].rm {
      if j > i { assert d.ths[j] == c.ths[j] && d.ths[k] == c.ths[k]; }
    }
  }

  /** A sleeper in service stands in the list before a thread in service that is free. */
  predicate SleeperAhead(c: Core)
  {
    exists i, j :: 0 <= i < j < |c.ths| && Idle(c.ths[i]) && c.ths[i].status == Wait
                   && Idle(c.ths[j]) && c.ths[j].status != Wait
  }

  /** Somebody attends once all but `m` threads are out of service. */
  predicate StaysAttended(c: Core, m: nat)
  {
    || c.running > 0 || c.qthsWaked > 0
    || m < c.sleeping || (c.sleeping < m && c.realFree > 0)
    || SleeperAhead(c)
  }

  /** The outcome of the marking scan when nobody runs and nobody is woken: every claim is about sleepers and free. */
  ghost predicate Reduced(c: Core, r: Core, m: nat)
  {
    && Sound(c) && Sound(r) && |r.ths| == |c.ths| && c.running == 0 == r.running && c.qthsWaked == 0
    && r.realPool == m <= c.realPool && InOrder(c, r, 0)
    && (forall j :: 0 <= j < |c.ths| ==>
          || r.ths[j] == c.ths[j]
          || (Idle(c.ths[j]) && r.ths[j].rm && MarksOnly(c.ths[j], r.ths[j])))
  }

  lemma ReducedIsReached(c: Core, m: nat)
    requires Sound(c) && c.running == 0 && c.qthsWaked == 0 && m < c.realPool
    ensures Reduced(c, DecThreads(c, c.realPool - m).0, m)
  {
    var n := c.realPool - m;
    CountersBalance(c);
    FromCounters(c);
    DecThreadsExact(c, n);
    MarksInOrder(c, 0, n, 0);
    forall j | 0 <= j < |c.ths| ensures c.ths[j].status != Run { NobodyRuns(c, j); }
  }

  lemma NobodyRuns(c: Core, j: nat)
    requires Counted(c) && c.running == 0 && j < |c.ths|
    ensures c.ths[j].status != Run
  {
    CountMember(c.ths, j, Running);
    assert Drift(c, Running) == 0;
  }

  /** If no sleeper is marked, exactly the sleepers that were there sleep on, unwoken. */
  lemma SleepersSpared(c: Core, r: Core, m: nat)
    requires Reduced(c, r, m)
    requires forall i :: 0 <= i < |c.ths| && Idle(c.ths[i]) && c.ths[i].status == Wait ==> !r.ths[i].rm
    ensures r.sleeping == c.sleeping && r.qthsWaked == 0
  {
    forall j | 0 <= j < |c.ths|
      ensures Weight(r.ths[j], RealSleeping) == Weight(c.ths[j], RealSleeping)
      ensures Weight(r.ths[j], Waked) == Weight(c.ths[j], Waked)
    {
    }
    CountMonotone(c.ths, r.ths, RealSleeping);
    CountMonotone(r.ths, c.ths, RealSleeping);
    CountMonotone(r.ths, c.ths, Waked);
    CountersBalance(r);
    assert Drift(c, RealSleeping) == 0 && Drift(r, RealSleeping) == 0 && Drift(c, Waked) == 0 && Drift(r, Waked) == 0;
  }

  /** A marked sleeper is woken, and there is one fewer in service. */
  lemma SleeperMarked(c: Core, r: Core, m: nat, i: nat)
    requires Reduced(c, r, m) && i < |c.ths| && Idle(c.ths[i]) && c.ths[i].status == Wait && r.ths[i].rm
    ensures r.qthsWaked > 0 && r.sleeping < c.sleeping
  {
    CountMember(r.ths, i, Waked);
    CountStrict(r.ths, c.ths, RealSleeping, i);
    assert Drift(c, RealSleeping) == 0 && Drift(r, RealSleeping) == 0 && Drift(r, Waked) == 0;
  }

  /** All that are left sleep: then nobody of them was marked, or a free one stood behind a sleeper. */
  lemma ReducedAttends(c: Core, r: Core, m: nat)
    requires Reduced(c, r, m) && m < c.realPool
    ensures Attended(r) <==> StaysAttended(c, m)
  {
    CountersBalance(c);
    CountersBalance(r);
    if i: nat :| i < |c.ths| && Idle(c.ths[i]) && c.ths[i].status == Wait && r.ths[i].rm {
      SleeperMarked(c, r, m, i);
      if !StaysAttended(c, m) { FreeBefore(c, r, m, i); }
    } else {
      SleepersSpared(c, r, m);
      if i, j :| 0 <= i < j < |c.ths| && Idle(c.ths[i]) && c.ths[i].status == Wait
                 && Idle(c.ths[j]) && c.ths[j].status != Wait {
        assert !r.ths[j].rm && r.ths[j] == c.ths[j];
        CountMember(r.ths, j, RealFree);
        assert Drift(r, RealFree) == 0;
      }
    }
  }

  /** When a sleeper is marked and no free thread stands behind one, every free thread is marked before it. */
  lemma FreeBefore(c: Core, r: Core, m: nat, i: nat)
    requires Reduced(c, r, m) && m < c.realPool && !SleeperAhead(c)
    requires i < |c.ths| && Idle(c.ths[i]) && c.ths[i].status == Wait && r.ths[i].rm
    ensures m < c.sleeping
  {
    CountersBalance(r);
    SleeperMarked(c, r, m, i);
    if r.realFree > 0 {
      assert Drift(r, RealFree) == 0;
      var j := CountPositive(r.ths, RealFree);
      assert false;
    }
  }

  /**
   Taking all but `m` threads out of service leaves somebody to attend if and only if a thread is running
   or woken already, or fewer than the sleepers stay, or more of them and a free one, or a sleeper stands
   before a free thread in the list: only marking exactly the free threads leaves nobody.
   */
  lemma MarkingAttends(c: Core, m: nat)
    requires Sound(c)
    ensures Attended(DecThreads(c, c.realPool - m).0) <==> StaysAttended(c, m)
  {
    var r := DecThreads(c, c.realPool - m).0;
    CountersBalance(c);
    if m >= c.realPool {
      assert r == c;
      if SleeperAhead(c) { FreeIsCounted(c); }
    } else if c.running > 0 || c.qthsWaked > 0 {
      DecThreadsExact(c, c.realPool - m);
      WokenStays(c, r);
    } else {
      ReducedIsReached(c, m);
      ReducedAttends(c, r, m);
    }
  }

  lemma FreeIsCounted(c: Core)
    requires Sound(c) && SleeperAhead(c)
    ensures c.realFree > 0
  {
    var i, j :| 0 <= i < j < |c.ths| && Idle(c.ths[i]) && c.ths[i].status == Wait
                && Idle(c.ths[j]) && c.ths[j].status != Wait;
    CountMember(c.ths, j, RealFree);
    assert Drift(c, RealFree) == 0;
  }

  lemma WokenStays(c: Core, r: Core)
    requires Sound(c) && Sound(r) && |r.ths| == |c.ths|
    requires forall j :: 0 <= j < |c.ths| ==> r.ths[j] == c.ths[j] || MarksOnly(c.ths[j], r.ths[j])
    ensures r.qthsWaked >= c.qthsWaked
  {
    CountMonotone(c.ths, r.ths, Waked);
    assert Drift(c, Waked) == 0 && Drift(r, Waked) == 0;
  }

  /** cpool_com_flush strands work if and only if there is work and the flush leaves nobody. */
  lemma FlushAttends(c: Core)
    requires Sound(c) && 0 <= c.minthreads
    ensures Attended(Flush(c)) <==> StaysAttended(c, c.minthreads)
    ensures (HasWork(Flush(c)) ==> Attended(Flush(c))) <==> (HasWork(c) ==> StaysAttended(c, c.minthreads))
  {
    MarkingAttends(c, c.minthreads);
    DecThreadsExact(c, c.realPool - c.minthreads);
  }

  /** Whom cpool_core_adjust_abs_l leaves to attend, in each of its three cases. */
  lemma AdjustAttends(c: Core)
    requires Sound(c) && 0 <= c.minthreads <= c.maxthreads
    ensures Attended(AdjustAbs(c)) <==>
      if c.realPool < c.minthreads then true
      else if c.realPool > c.maxthreads then StaysAttended(c, c.maxthreads)
      else Attended(c) || c.realPool > 0
  {
    if c.minthreads > c.realPool {
      AddingAttends(c, c.minthreads - c.realPool);
    } else if c.realPool > c.maxthreads {
      MarkingAttends(c, c.maxthreads);
    } else {
      WakingAttends(c);
    }
  }
}
