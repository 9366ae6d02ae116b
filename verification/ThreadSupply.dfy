/**
 Adding, reusing, waking and marking threads: they move exactly as many threads as asked,
 prefer the ones they should, keep every counter, and leave a pool with work served.
 */
module ThreadSupply {
  import opened Types
  import opened ThreadModel
  import opened ThreadCounts

  /** Everything but the threads, the sleepers' queue and the counters is unchanged. */
  predicate SameSettings(c: Core, d: Core)
  {
    && c.maxthreads == d.maxthreads && c.minthreads == d.minthreads && c.perTime == d.perTime
    && c.paused == d.paused && c.pendings == d.pendings && c.dispatchs == d.dispatchs
  }

  /** Supply leaves a thread's job and status alone, save that a quitting thread may be called back;
      nobody is put to sleep or marked. */
  predicate KeepsJob(t: Thread, u: Thread)
  {
    && u.current == t.current && u.batch == t.batch
    && (u.status == t.status || (t.status == ForceQuit && u.status == Free && t.rm && !u.rm))
    && (u.rm ==> t.rm) && (t.waked ==> u.waked)
  }

  ghost predicate Grown(c: Core, r: Core)
  {
    && |c.ths| <= |r.ths|
    && (forall j :: 0 <= j < |c.ths| ==> KeepsJob(c.ths[j], r.ths[j]))
    && (forall j :: |c.ths| <= j < |r.ths| ==> r.ths[j] == NEWBORN)
  }

  predicate IsDying(t: Thread) { t.rm && t.status != Left }

  lemma CountPrefixStep(ths: seq<Thread>, i: nat, k: Kind)
    requires i < |ths|
    ensures Count(ths[..i + 1], k) == Count(ths[..i], k) + Weight(ths[i], k)
  {
    assert ths[..i + 1][..i] == ths[..i];
  }

  /** Position `j` holds a dying thread that a scan from `i` for `n` threads gets to. */
  predicate Reached(ths: seq<Thread>, i: nat, n: int, j: nat)
    requires i <= |ths| && j < |ths|
  {
    i <= j && IsDying(ths[j]) && Count(ths[..j], Dying) - Count(ths[..i], Dying) < n
  }

  /** The scan takes back exactly the threads it reaches. */
  ghost predicate ReusedBy(c: Core, r: Core, i: nat, n: int)
    requires i <= |c.ths| == |r.ths|
  {
    forall j :: 0 <= j < |c.ths| ==>
      if Reached(c.ths, i, n, j) then TakenOn(c.ths[j], r.ths[j]) else r.ths[j] == c.ths[j]
  }

  /** Back in service; a thread that was about to quit is free again. */
  predicate TakenOn(t: Thread, u: Thread)
  {
    u.run && !u.rm && u.status == (if t.status == ForceQuit then Free else t.status)
  }

  lemma ReuseOneFacts(c: Core, i: nat)
    requires i < |c.ths| && (c.ths[i].status == Wait ==> c.ths[i].waked)
    ensures var r := ReuseOne(c, i);
      && SameSettings(c, r) && r.qths == c.qths && r.running == c.running && r.waitq == c.waitq
      && r.realPool == c.realPool + 1 && r.dying == c.dying - 1
      && r.ths == c.ths[i := r.ths[i]] && TakenOn(c.ths[i], r.ths[i])
      && (c.ths[i].rm ==> KeepsJob(c.ths[i], r.ths[i]))
  {
  }

  /** `r` is `c` with `reused` dying threads back in service and `made` new ones. */
  ghost predicate Supplied(c: Core, r: Core, reused: int, made: int)
  {
    && Formed(r) && SameDrift(c, r) && SameSettings(c, r) && Grown(c, r)
    && r.realPool == c.realPool + reused + made
    && r.dying == c.dying - reused
    && r.qths == c.qths + made && |r.ths| == |c.ths| + made
    && r.running == c.running && |r.waitq| <= |c.waitq|
  }

  lemma SuppliedTransitive(c: Core, d: Core, r: Core, reused: int, made: int, reused': int, made': int)
    requires Supplied(c, d, reused, made) && Supplied(d, r, reused', made') && (made == 0 || d.ths <= r.ths)
    ensures Supplied(c, r, reused + reused', made + made')
  {
    forall k ensures Drift(c, k) == Drift(r, k) { assert Drift(c, k) == Drift(d, k); }
    forall j | 0 <= j < |c.ths| ensures KeepsJob(c.ths[j], r.ths[j]) {
      assert KeepsJob(c.ths[j], d.ths[j]) && KeepsJob(d.ths[j], r.ths[j]);
    }
  }

  /** Of `n` wanted, as many as are dying have been taken back; the rest are still wanted. */
  ghost predicate TakenBack(c: Core, res: (Core, int), n: int)
  {
    res.1 == n - Min(n, c.dying) && Supplied(c, res.0, n - res.1, 0)
  }

  lemma {:induction false} ReuseKeeps(c: Core, i: nat, n: int)
    requires Formed(c) && i <= |c.ths| && n >= 0
    requires Drift(c, Dying) == 0 && Count(c.ths[..i], Dying) == 0
    ensures TakenBack(c, Reuse(c, i, n), n)
    decreases |c.ths| - i
  {
    if i == |c.ths| {
      assert c.ths[..i] == c.ths;
    } else if n > 0 && c.dying != 0 {
      CountPrefixStep(c.ths, i, Dying);
      if !IsDying(c.ths[i]) {
        ReuseKeeps(c, i + 1, n);
      } else {
        ReuseOneKeeps(c, i);
        ReuseOneFacts(c, i);
        var d := ReuseOne(c, i);
        assert Drift(d, Dying) == Drift(c, Dying);
        ReuseKeepsStep(c, d, i, n);
      }
    }
  }

  lemma NoDyingThrough(c: Core, d: Core, i: nat)
    requires i < |c.ths| == |d.ths| && d.ths == c.ths[i := d.ths[i]] && !d.ths[i].rm
    requires Count(c.ths[..i], Dying) == 0
    ensures Count(d.ths[..i + 1], Dying) == 0
  {
    assert d.ths[..i] == c.ths[..i];
    CountPrefixStep(d.ths, i, Dying);
  }

  lemma {:induction false} ReuseKeepsStep(c: Core, d: Core, i: nat, n: int)
    requires i < |c.ths| == |d.ths| && n > 0 && d.ths == c.ths[i := d.ths[i]] && !d.ths[i].rm
    requires Supplied(c, d, 1, 0) && Formed(d) && d.dying == c.dying - 1
    requires Drift(d, Dying) == 0 && Count(c.ths[..i], Dying) == 0
    ensures TakenBack(c, Reuse(d, i + 1, n - 1), n)
    decreases |c.ths| - i, 0
  {
    NoDyingThrough(c, d, i);
    ReuseKeeps(d, i + 1, n - 1);
    TakenBackAfter(c, d, Reuse(d, i + 1, n - 1), n);
  }

  lemma TakenBackAfter(c: Core, d: Core, res: (Core, int), n: int)
    requires n > 0 && Supplied(c, d, 1, 0) && TakenBack(d, res, n - 1)
    ensures TakenBack(c, res, n)
  {
    SuppliedTransitive(c, d, res.0, 1, 0, n - 1 - res.1, 0);
  }

  lemma {:induction false} ReuseEffect(c: Core, i: nat, n: int)
    requires Formed(c) && i <= |c.ths| && n >= 0
    requires Drift(c, Dying) == 0 && Count(c.ths[..i], Dying) == 0
    ensures ReusedBy(c, Reuse(c, i, n).0, i, n)
    decreases |c.ths| - i, 1
  {
    if i < |c.ths| && n > 0 && c.dying != 0 {
      CountPrefixStep(c.ths, i, Dying);
      if !IsDying(c.ths[i]) {
        ReuseEffect(c, i + 1, n);
        ReuseEffectSkip(c, Reuse(c, i + 1, n).0, i, n);
      } else {
        ReuseOneKeeps(c, i);
        ReuseOneFacts(c, i);
        ReuseEffectTaken(c, ReuseOne(c, i), i, n);
      }
    } else {
      ReuseEffectNone(c, i, n);
    }
  }

  lemma {:induction false} ReuseEffectTaken(c: Core, d: Core, i: nat, n: int)
    requires i < |c.ths| == |d.ths| && n > 0 && d.ths == c.ths[i := d.ths[i]] && TakenOn(c.ths[i], d.ths[i])
    requires Formed(d) && SameDrift(c, d) && Drift(c, Dying) == 0 && Count(c.ths[..i], Dying) == 0 && IsDying(c.ths[i])
    ensures ReusedBy(c, Reuse(d, i + 1, n - 1).0, i, n)
    decreases |c.ths| - i, 0
  {
    DyingAfterReuse(c, d, i);
    ReuseEffect(d, i + 1, n - 1);
    ReuseEffectStep(c, d, Reuse(d, i + 1, n - 1).0, i, n);
  }

  lemma ReuseEffectNone(c: Core, i: nat, n: int)
    requires i <= |c.ths| && Count(c.ths[..i], Dying) == 0 && Drift(c, Dying) == 0
    requires i == |c.ths| || n <= 0 || c.dying == 0
    ensures ReusedBy(c, c, i, n)
  {
    forall j | 0 <= j < |c.ths| ensures !Reached(c.ths, i, n, j) {
      if i <= j && IsDying(c.ths[j]) { CountMember(c.ths, j, Dying); }
    }
  }

  lemma ReuseEffectSkip(c: Core, r: Core, i: nat, n: int)
    requires i < |c.ths| == |r.ths| && !IsDying(c.ths[i]) && Count(c.ths[..i + 1], Dying) == Count(c.ths[..i], Dying)
    requires ReusedBy(c, r, i + 1, n)
    ensures ReusedBy(c, r, i, n)
  {
    assert forall j :: 0 <= j < |c.ths| ==> Reached(c.ths, i, n, j) == Reached(c.ths, i + 1, n, j);
  }

  lemma DyingAfterReuse(c: Core, d: Core, i: nat)
    requires i < |c.ths| == |d.ths| && d.ths == c.ths[i := d.ths[i]] && !d.ths[i].rm
    requires IsDying(c.ths[i]) && Count(c.ths[..i], Dying) == 0 && SameDrift(c, d) && Drift(c, Dying) == 0
    ensures Count(d.ths[..i + 1], Dying) == 0 && Count(c.ths[..i + 1], Dying) == 1 && Drift(d, Dying) == 0
  {
    assert d.ths[..i] == c.ths[..i];
    CountPrefixStep(c.ths, i, Dying);
    CountPrefixStep(d.ths, i, Dying);
    assert Drift(c, Dying) == Drift(d, Dying);
  }

  lemma ReuseEffectStep(c: Core, d: Core, r: Core, i: nat, n: int)
    requires i < |c.ths| == |d.ths| == |r.ths| && n > 0 && d.ths == c.ths[i := d.ths[i]]
    requires Count(d.ths[..i + 1], Dying) == 0 && Count(c.ths[..i], Dying) == 0
    requires IsDying(c.ths[i]) && TakenOn(c.ths[i], d.ths[i])
    requires ReusedBy(d, r, i + 1, n - 1)
    ensures ReusedBy(c, r, i, n)
  {
    forall j | 0 <= j < |c.ths| && j != i
      ensures Reached(c.ths, i, n, j) == Reached(d.ths, i + 1, n - 1, j)
    {
      if i < j {
        assert d.ths[..j] == c.ths[..j][i := d.ths[i]];
        CountUpdate(c.ths[..j], i, d.ths[i], Dying);
      }
    }
    assert Reached(c.ths, i, n, i) && !Reached(d.ths, i + 1, n - 1, i);
  }

  lemma {:induction false} CreateKeeps(c: Core, n: int)
    requires Formed(c)
    ensures Supplied(c, Create(c, n), 0, Max(0, n)) && c.ths <= Create(c, n).ths
    decreases n
  {
    if n > 0 {
      CreateOneKeeps(c);
      var d := CreateOne(c);
      CreateKeeps(d, n - 1);
      SuppliedTransitive(c, d, Create(c, n), 0, 1, 0, n - 1);
    }
  }

  /** Adding `n` threads serves with exactly `n` more: dying ones first, new ones for the rest. */
  lemma AddThreadsExact(c: Core, n: int)
    requires Formed(c) && Drift(c, Dying) == 0
    ensures var made := Max(0, n - c.dying); Supplied(c, AddThreads(c, n), Max(0, n) - made, made)
  {
    if n <= 0 {
      assert Reuse(c, 0, n) == (c, n);
    } else {
      ReuseKeeps(c, 0, n);
      var (d, m) := Reuse(c, 0, n);
      CreateKeeps(d, m);
      SuppliedTransitive(c, d, Create(d, m), n - m, 0, 0, m);
    }
    assert c.dying >= 0;
  }

  // ---- the equations that the debug build checks ----

  lemma {:induction false} CountSplit(ths: seq<Thread>)
    ensures Count(ths, RealPool) ==
      Count(ths, RealSleeping) + Count(ths, RealFree) + Count(ths, Running) - Count(ths, DyingRun)
    ensures Count(ths, RealSleeping) <= Count(ths, Sleepers) + Count(ths, Waked)
    ensures Count(ths, InList) <= Count(ths, Sleepers) + Count(ths, Waked) + Count(ths, Running)
                                  + (Count(ths, Dying) - Count(ths, DyingRun)) + Count(ths, RealFree)
    ensures Count(ths, InList) == Count(ths, RealPool) + Count(ths, Dying)
    ensures Count(ths, Sleepers) + Count(ths, Waked) <= Count(ths, InList)
    ensures Count(ths, DyingRun) <= Count(ths, Dying) && Count(ths, DyingRun) <= Count(ths, Running)
  {
    if ths != [] {
      CountSplit(ths[..|ths| - 1]);
      WeightSplit(ths[|ths| - 1]);
    }
  }

  lemma WeightSplit(t: Thread)
    ensures Weight(t, RealPool) ==
      Weight(t, RealSleeping) + Weight(t, RealFree) + Weight(t, Running) - Weight(t, DyingRun)
    ensures Weight(t, RealSleeping) <= Weight(t, Sleepers) + Weight(t, Waked)
    ensures Weight(t, InList) <= Weight(t, Sleepers) + Weight(t, Waked) + Weight(t, Running)
                                 + (Weight(t, Dying) - Weight(t, DyingRun)) + Weight(t, RealFree)
    ensures Weight(t, InList) == Weight(t, RealPool) + Weight(t, Dying)
    ensures Weight(t, Sleepers) + Weight(t, Waked) <= Weight(t, InList)
    ensures Weight(t, DyingRun) <= Weight(t, Dying) && Weight(t, DyingRun) <= Weight(t, Running)
  {
  }

  /** VERIFY: its two balance equations and its bounds hold, and no counter is negative. */
  lemma CountersBalance(c: Core)
    requires Counted(c)
    ensures c.qths <= c.qthsWait + c.qthsWaked + c.running + (c.dying - c.dyingRun) + c.realFree
    ensures c.realPool == c.sleeping + c.realFree + (c.running - c.dyingRun)
    ensures 0 <= c.qthsWait <= c.qths && 0 <= c.qthsWaked <= c.qths
    ensures c.qths == c.realPool + c.dying && c.sleeping <= c.qthsWait + c.qthsWaked
    ensures c.running >= c.dyingRun >= 0 && c.realFree >= 0 && c.sleeping >= 0 && c.realPool >= 0
    ensures c.dying >= c.dyingRun
  {
    CountSplit(c.ths);
    assert forall k :: IsCounter(k) ==> Counter(c, k) == Count(c.ths, k) by {
      forall k | IsCounter(k) ensures Counter(c, k) == Count(c.ths, k) { assert Drift(c, k) == 0; }
    }
    assert Counter(c, InList) == c.qths && Counter(c, Sleepers) == c.qthsWait && Counter(c, Waked) == c.qthsWaked;
    assert Counter(c, Running) == c.running && Counter(c, Dying) == c.dying && Counter(c, DyingRun) == c.dyingRun;
    assert Counter(c, RealSleeping) == c.sleeping && Counter(c, RealPool) == c.realPool;
    assert Counter(c, RealFree) == c.realFree;
  }

  // ---- ensuring service ----

  /** Some thread will look at the queues again: one is free, woken or running. */
  predicate Attended(c: Core) { c.realFree > 0 || c.qthsWaked > 0 || c.running > 0 }

  ghost predicate Ensured(c: Core, r: Core)
  {
    && Formed(r) && SameDrift(c, r) && SameSettings(c, r) && Grown(c, r)
    && r.running == c.running
    && c.realPool <= r.realPool <= Max(c.realPool, c.maxthreads)
  }

  lemma WakeNSupplies(c: Core, n: int)
    requires Formed(c)
    ensures Supplied(c, WakeN(c, n), 0, 0)
    ensures WakeN(c, n).qthsWaked >= c.qthsWaked + Bit(c.waitq != [])
  {
    WakeNKeeps(c, n);
    var r := WakeN(c, n);
    assert |r.waitq| <= |c.waitq| by { WakeNShortens(c, n); }
  }

  lemma {:induction false} WakeNShortens(c: Core, n: int)
    requires WaitqInRange(c)
    ensures |WakeN(c, n).waitq| <= |c.waitq|
    ensures n < 0 ==> WakeN(c, n).waitq == []
    decreases |c.waitq|
  {
    if c.waitq != [] && n != 1 { WakeNShortens(WakeOne(c), n - 1); }
  }

  lemma EnsureKeeps(c: Core)
    requires Formed(c) && Drift(c, Dying) == 0
    ensures Ensured(c, Ensure(c))
  {
    if c.qthsWaked == 0 && c.realFree == 0 && HasWork(c) {
      if c.waitq != [] {
        WakeNSupplies(c, Min(2, c.perTime));
      } else if c.maxthreads > c.realPool {
        AddThreadsExact(c, WantedThreads(c));
      }
    }
  }

  /** With every counter right and no waiter asleep, a pool at its ceiling has a thread running. */
  lemma FullPoolRuns(c: Core)
    requires Counted(c) && c.realPool >= 1 && c.realFree == 0 && c.qthsWaked == 0 && c.qthsWait == 0
    ensures c.running > 0
  {
    CountersBalance(c);
  }

  /** After cpool_core_ensure_servicesl, a pool within its bounds that has work is attended. */
  lemma EnsureServes(c: Core)
    requires Formed(c) && Counted(c) && 1 <= c.maxthreads && c.realPool <= c.maxthreads && c.pendings >= 0
    requires HasWork(c)
    ensures Attended(Ensure(c))
  {
    CountersBalance(c);
    assert Drift(c, Dying) == 0;
    if c.qthsWaked == 0 && c.realFree == 0 {
      if c.waitq != [] {
        WakeNSupplies(c, Min(2, c.perTime));
      } else if c.maxthreads > c.realPool {
        var n := WantedThreads(c);
        AddThreadsExact(c, n);
        var r := AddThreads(c, n);
        assert Counted(r) by { CountedBySameDrift(c, r); }
        CountersBalance(r);
        assert r.waitq == [] && r.qthsWait == 0;
      } else {
        FullPoolRuns(c);
      }
    }
  }

  lemma CountedBySameDrift(c: Core, r: Core)
    requires Counted(c) && SameDrift(c, r)
    ensures Counted(r)
  {
    forall k | IsCounter(k) ensures Drift(r, k) == 0 { assert Drift(c, k) == Drift(r, k); }
  }

  /** The guarded call used by the queue, remove and resume operations serves as well. */
  lemma NeedEnsureServes(c: Core)
    requires Formed(c) && Counted(c) && 1 <= c.maxthreads && c.realPool <= c.maxthreads && c.pendings >= 0
    requires HasWork(c)
    ensures Attended(if NeedEnsure(c) then Ensure(c) else c)
  {
    CountersBalance(c);
    if NeedEnsure(c) { EnsureServes(c); } else if c.realFree == 0 && c.qthsWaked == 0 { FullPoolRuns(c); }
  }
}
