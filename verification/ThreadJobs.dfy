/**
 What the thread manager leaves alone: the pool's settings, the pending and dispatch counts,
 and the tasks its threads hold.
 */
module ThreadJobs {
  import opened Types
  import opened ThreadModel
  import opened ThreadCounts
  import opened ThreadSupply

  /** The tasks held are unchanged, and nobody starts or stops running; new threads hold nothing. */
  predicate SameJob(t: Thread, u: Thread)
  {
    u.current == t.current && u.batch == t.batch && (u.status == Run <==> t.status == Run)
  }

  ghost predicate SameJobs(c: Core, r: Core)
  {
    && SameSettings(c, r)
    && |c.ths| <= |r.ths|
    && (forall j :: 0 <= j < |c.ths| ==> SameJob(c.ths[j], r.ths[j]))
    && (forall j :: |c.ths| <= j < |r.ths| ==> r.ths[j] == NEWBORN)
  }

  lemma {:induction false} WakeNJobs(c: Core, n: int)
    requires WaitqInRange(c)
    ensures SameJobs(c, WakeN(c, n))
    decreases |c.waitq|
  {
    if c.waitq != [] && n != 1 { WakeNJobs(WakeOne(c), n - 1); }
  }

  lemma ReuseOneJobs(c: Core, i: nat)
    requires i < |c.ths|
    ensures SameJobs(c, ReuseOne(c, i))
  {
  }

  lemma MarkOneJobs(c: Core, i: nat)
    requires i < |c.ths|
    ensures SameJobs(c, MarkOne(c, i))
  {
  }

  /** Two steps that add no thread. */
  lemma SameJobsTwice(c: Core, d: Core, r: Core)
    requires SameJobs(c, d) && SameJobs(d, r) && |d.ths| == |c.ths|
    ensures SameJobs(c, r)
  {
    forall j | 0 <= j < |c.ths| ensures SameJob(c.ths[j], r.ths[j]) { assert SameJob(c.ths[j], d.ths[j]); }
  }

  lemma {:induction false} ReuseJobs(c: Core, i: nat, n: int)
    requires i <= |c.ths| && WaitqInRange(c)
    ensures SameJobs(c, Reuse(c, i, n).0) && |Reuse(c, i, n).0.ths| == |c.ths|
    decreases |c.ths| - i
  {
    if i < |c.ths| && n > 0 && c.dying != 0 {
      if c.ths[i].status == Left || !c.ths[i].rm {
        ReuseJobs(c, i + 1, n);
      } else {
        var d := ReuseOne(c, i);
        ReuseOneJobs(c, i);
        ReuseJobs(d, i + 1, n - 1);
        SameJobsTwice(c, d, Reuse(d, i + 1, n - 1).0);
      }
    }
  }

  lemma {:induction false} CreateJobs(c: Core, n: int)
    requires WaitqInRange(c)
    ensures SameJobs(c, Create(c, n)) && c.ths <= Create(c, n).ths
    decreases n
  {
    if n > 0 { CreateJobs(CreateOne(c), n - 1); }
  }

  lemma AddThreadsJobs(c: Core, n: int)
    requires WaitqInRange(c)
    ensures SameJobs(c, AddThreads(c, n))
  {
    ReuseJobs(c, 0, n);
    CreateJobs(Reuse(c, 0, n).0, Reuse(c, 0, n).1);
  }

  lemma {:induction false} MarkJobs(c: Core, i: nat, n: int, r: int, died: nat)
    requires i <= |c.ths| && WaitqInRange(c)
    ensures SameJobs(c, Mark(c, i, n, r, died).0)
    decreases |c.ths| - i
  {
    if i < |c.ths| {
      var t := c.ths[i];
      if t.status == Left || t.rm || (t.status == Run && r == 0) {
        MarkJobs(c, i + 1, n, r, died);
      } else {
        var d := MarkOne(c, i);
        MarkOneJobs(c, i);
        var (n', r') := if t.status != Run then (n - 1, r) else (n, r - 1);
        MarkJobs(d, i + 1, n', r', died + 1);
        SameJobsTwice(c, d, Mark(d, i + 1, n', r', died + 1).0);
      }
    }
  }

  lemma DecThreadsJobs(c: Core, n: int)
    requires WaitqInRange(c)
    ensures SameJobs(c, DecThreads(c, n).0)
  {
    if n > 0 && c.realPool != 0 {
      var want := Min(c.realPool, n);
      var others := c.realPool - (c.running - c.dyingRun);
      MarkJobs(c, 0, want, if others < want then want - others else 0, 0);
    }
  }

  lemma FlushJobs(c: Core)
    requires WaitqInRange(c)
    ensures SameJobs(c, Flush(c))
  {
    DecThreadsJobs(c, c.realPool - c.minthreads);
  }

  lemma EnsureJobs(c: Core)
    requires WaitqInRange(c)
    ensures SameJobs(c, Ensure(c))
  {
    WakeNJobs(c, Min(2, c.perTime));
    AddThreadsJobs(c, WantedThreads(c));
  }

  lemma AdjustAbsJobs(c: Core)
    requires WaitqInRange(c)
    ensures SameJobs(c, AdjustAbs(c))
  {
    AddThreadsJobs(c, c.minthreads - c.realPool);
    DecThreadsJobs(c, c.realPool - c.maxthreads);
    WakeNJobs(c, -1);
  }

  lemma TryGCJobs(c: Core, flushable: bool)
    requires WaitqInRange(c)
    ensures SameJobs(c, TryGC(c, flushable))
  {
    AddThreadsJobs(c, 1);
    WakeNJobs(c, 1);
  }

  /** As SameJobs, but thread `i` ends up running or not as told. */
  ghost predicate JobsMoved(c: Core, r: Core, i: nat, runs: bool)
  {
    && SameSettings(c, r)
    && i < |c.ths| <= |r.ths|
    && (forall j :: 0 <= j < |c.ths| && j != i ==> SameJob(c.ths[j], r.ths[j]))
    && (forall j :: |c.ths| <= j < |r.ths| ==> r.ths[j] == NEWBORN)
    && r.ths[i].current == c.ths[i].current && r.ths[i].batch == c.ths[i].batch
    && (r.ths[i].status == Run <==> runs)
  }

  lemma ToRunJobs(c: Core, i: nat)
    requires i < |c.ths| && WaitqInRange(c)
    ensures JobsMoved(c, ToRun(c, i), i, true)
  {
    EnsureJobs(BeforeRun(c, i));
  }

  lemma AfterWaitJobs(c: Core, i: nat)
    requires i < |c.ths| && WaitqInRange(c)
    ensures SameJobs(c, AfterWait(c, i))
  {
    EnsureJobs(if c.ths[i].waked then c.(qthsWaked := c.qthsWaked - 1) else c);
  }

  lemma ToFreeJobs(c: Core, i: nat)
    requires i < |c.ths| && WaitqInRange(c)
    ensures JobsMoved(c, ToFree(c, i), i, false)
  {
    AfterWaitJobs(c, i);
  }

  lemma ToTimedoutJobs(c: Core, i: nat, mayQuit: bool)
    requires i < |c.ths| && WaitqInRange(c)
    ensures JobsMoved(c, ToTimedout(c, i, mayQuit), i, false)
  {
    AfterWaitJobs(BeforeTimedout(c, i, mayQuit), i);
  }

  // ---- counts of held tasks ----

  predicate IsJob(k: Kind) { !IsCounter(k) }

  /** The same tasks held give the same counts. */
  lemma {:induction false} SameLoad(ths: seq<Thread>, uhs: seq<Thread>, k: Kind)
    requires IsJob(k) && |ths| <= |uhs|
    requires forall j :: 0 <= j < |ths| ==> uhs[j].current == ths[j].current && uhs[j].batch == ths[j].batch
    requires forall j :: |ths| <= j < |uhs| ==> uhs[j].current == None && uhs[j].batch == []
    ensures Count(uhs, k) == Count(ths, k)
    decreases |uhs|
  {
    if uhs != [] {
      var n := |uhs| - 1;
      if n < |ths| { SameLoad(ths[..n], uhs[..n], k); } else { SameLoad(ths, uhs[..n], k); }
    }
  }

  lemma SameJobsLoad(c: Core, r: Core)
    requires SameJobs(c, r)
    ensures forall k :: IsJob(k) ==> Count(r.ths, k) == Count(c.ths, k)
  {
    forall k | IsJob(k) ensures Count(r.ths, k) == Count(c.ths, k) { SameLoad(c.ths, r.ths, k); }
  }

  // ---- a running thread holds one task, or a batch ----

  predicate JobOk(t: Thread)
  {
    && (t.status == Run <==> t.current.Some? || t.batch != [])
    && !(t.current.Some? && t.batch != [])
  }

  ghost predicate JobsOk(c: Core) { forall i :: 0 <= i < |c.ths| ==> JobOk(c.ths[i]) }

  lemma {:induction false} RunningSplit(ths: seq<Thread>)
    requires forall i :: 0 <= i < |ths| ==> JobOk(ths[i])
    ensures Count(ths, Running) == Count(ths, Runs(Every)) + Count(ths, HoldsBatch)
  {
    if ths != [] { RunningSplit(ths[..|ths| - 1]); }
  }
}
