/**
 The status machine keeps every counter, and where the source ensures service before it
 writes the thread's own status, exactly when that call does not take the thread itself back.
 */
module ThreadStatus {
  import opened Types
  import opened ThreadModel
  import opened ThreadCounts
  import opened ThreadSupply

  ghost predicate Sound(c: Core) { Formed(c) && Counted(c) }

  /** cpool_core_ensure_servicesl, called now, would take the dying thread `i` back into service. */
  predicate CallsBack(c: Core, i: nat)
    requires i < |c.ths|
  {
    && c.qthsWaked == 0 && c.realFree == 0 && HasWork(c) && c.waitq == [] && c.maxthreads > c.realPool
    && Reached(c.ths, 0, WantedThreads(c), i)
  }

  lemma EnsureCallsBack(c: Core, i: nat)
    requires Formed(c) && Drift(c, Dying) == 0 && i < |c.ths| && c.ths[i].status != Left
    ensures Ensure(c).ths[i].rm <==> c.ths[i].rm && !CallsBack(c, i)
  {
    EnsureKeeps(c);
    assert KeepsJob(c.ths[i], Ensure(c).ths[i]);
    if c.qthsWaked == 0 && c.realFree == 0 && HasWork(c) {
      if c.waitq != [] {
        WakeNKeeps(c, Min(2, c.perTime));
      } else if c.maxthreads > c.realPool {
        var n := WantedThreads(c);
        if n > 0 {
          ReuseEffect(c, 0, n);
          ReuseKeeps(c, 0, n);
          var (d, m) := Reuse(c, 0, n);
          CreateKeeps(d, m);
        } else {
          assert Reuse(c, 0, n) == (c, n);
        }
      }
    }
  }

  /** The last write of a status change turns the drift by the change of the thread's own weights. */
  lemma StatusWrite(c: Core, i: nat, s: Status)
    requires i < |c.ths|
    ensures var t := c.ths[i];
      forall k :: Drift(SetStatus(c, i, s), k) == Drift(c, k) + Weight(t, k) - Weight(t.(status := s), k)
  {
    SetThreadDrift(c, i, c.ths[i].(status := s));
  }

  /** A step that touches one thread keeps the counters when they move as that thread's weights do. */
  lemma MovedOne(c: Core, r: Core, i: nat)
    requires i < |c.ths| == |r.ths| && r.ths == c.ths[i := r.ths[i]] && Counted(c)
    requires forall k :: IsCounter(k) ==>
      Counter(r, k) - Weight(r.ths[i], k) == Counter(c, k) - Weight(c.ths[i], k)
    ensures Counted(r)
  {
    forall k | IsCounter(k) ensures Drift(r, k) == 0 {
      CountUpdate(c.ths, i, r.ths[i], k);
      assert Drift(c, k) == 0;
    }
  }

  ghost predicate OnlyMoved(c: Core, d: Core, i: nat)
  {
    i < |c.ths| <= |d.ths| && SameDrift(c, d) && KeepsJob(c.ths[i], d.ths[i])
    && Formed(d) && c.ths[i].status == d.ths[i].status
  }

  // ---- RUN ----

  lemma BeforeRunDrift(c: Core, i: nat)
    requires i < |c.ths| && Awake(c.ths[i]) && Sound(c)
    ensures Formed(BeforeRun(c, i))
    ensures forall k :: IsCounter(k) ==>
      Drift(BeforeRun(c, i), k) == Weight(c.ths[i].(status := Run), k) - Weight(c.ths[i], k)
    ensures forall k :: !IsCounter(k) ==> Drift(BeforeRun(c, i), k) == Drift(c, k)
  {
    forall k | IsCounter(k)
      ensures Drift(BeforeRun(c, i), k) == Weight(c.ths[i].(status := Run), k) - Weight(c.ths[i], k)
    {
      assert Drift(c, k) == 0;
    }
  }

  lemma RunWrite(c: Core, d: Core, i: nat)
    requires i < |c.ths| && Awake(c.ths[i]) && Sound(c) && OnlyMoved(BeforeRun(c, i), d, i)
    ensures Formed(SetStatus(d, i, Run))
    ensures Counted(SetStatus(d, i, Run)) <==> d.ths[i].rm == c.ths[i].rm
  {
    BeforeRunDrift(c, i);
    StatusWrite(d, i, Run);
    RunWriteDrift(c, BeforeRun(c, i), d, SetStatus(d, i, Run), i);
  }

  lemma RunWriteDrift(c: Core, b: Core, d: Core, r: Core, i: nat)
    requires i < |c.ths| && Awake(c.ths[i]) && i < |d.ths| && SameDrift(b, d)
    requires d.ths[i].status == c.ths[i].status && (d.ths[i].rm ==> c.ths[i].rm)
    requires forall k :: IsCounter(k) ==> Drift(b, k) == Weight(c.ths[i].(status := Run), k) - Weight(c.ths[i], k)
    requires forall k :: Drift(r, k) == Drift(d, k) + Weight(d.ths[i], k) - Weight(d.ths[i].(status := Run), k)
    ensures Counted(r) <==> d.ths[i].rm == c.ths[i].rm
  {
    if d.ths[i].rm == c.ths[i].rm {
      forall k | IsCounter(k) ensures Drift(r, k) == 0 { assert Drift(d, k) == Drift(b, k); }
    } else {
      assert Drift(d, RealFree) == Drift(b, RealFree);
      assert IsCounter(RealFree) && Drift(r, RealFree) == 1;
    }
  }

  lemma ServiceCheckMoves(b: Core, i: nat)
    requires Formed(b) && Drift(b, Dying) == 0 && i < |b.ths| && b.ths[i].status != Left && b.ths[i].status != ForceQuit
    ensures OnlyMoved(b, ServiceCheck(b), i) && SameSettings(b, ServiceCheck(b))
    ensures ServiceCheck(b).ths[i].rm <==> b.ths[i].rm && !(b.pendings != 0 && CallsBack(b, i))
  {
    EnsureKeeps(b);
    assert KeepsJob(b.ths[i], b.ths[i]) && KeepsJob(b.ths[i], Ensure(b).ths[i]);
    EnsureCallsBack(b, i);
  }

  /**
   Taking a task keeps every counter if and only if the service check made before the status
   is written does not call the (dying) taker back.
   */
  lemma RunKeepsCounts(c: Core, i: nat)
    requires i < |c.ths| && Awake(c.ths[i]) && Sound(c)
    ensures Formed(ToRun(c, i))
    ensures Counted(ToRun(c, i)) <==> !(c.pendings != 0 && CallsBack(c, i))
  {
    var b := BeforeRun(c, i);
    BeforeRunDrift(c, i);
    assert Drift(b, Dying) == 0;
    ServiceCheckMoves(b, i);
    RunWrite(c, ServiceCheck(b), i);
    assert c.ths[i].rm ==> (CallsBack(b, i) == CallsBack(c, i));
  }

  // ---- leaving WAIT ----

  /** A woken sleeper that was marked dying, and whose wake-up is the last one counted. */
  predicate ExitCallsBack(c: Core, i: nat)
    requires i < |c.ths|
  {
    c.ths[i].rm && c.pendings != 0 && CallsBack(c.(qthsWaked := c.qthsWaked - 1), i)
  }

  lemma DyingSleeperWrite(c: Core, d: Core, i: nat, s: Status)
    requires i < |c.ths| && c.ths[i].status == Wait && c.ths[i].rm && Sound(c) && (s == Free || s == Timedout)
    requires OnlyMoved(c.(qthsWaked := c.qthsWaked - 1), d, i)
    ensures Formed(SetStatus(d, i, s))
    ensures Counted(SetStatus(d, i, s)) <==> d.ths[i].rm
  {
    var b := c.(qthsWaked := c.qthsWaked - 1);
    StatusWrite(d, i, s);
    var r := SetStatus(d, i, s);
    assert c.ths[i].waked && d.ths[i].waked && i !in d.waitq;
    assert forall k :: IsCounter(k) ==> Drift(d, k) == (if k == Waked then -1 else 0) by {
      forall k | IsCounter(k) ensures Drift(d, k) == (if k == Waked then -1 else 0) {
        assert Drift(c, k) == 0 && Drift(b, k) == Drift(d, k);
      }
    }
    if !d.ths[i].rm { assert IsCounter(RealFree) && Drift(r, RealFree) == -1; }
  }

  lemma DyingSleeperLeaves(c: Core, i: nat, s: Status)
    requires i < |c.ths| && c.ths[i].status == Wait && c.ths[i].rm && Sound(c) && (s == Free || s == Timedout)
    ensures var r := SetStatus(AfterWait(c, i), i, s); Formed(r) && (Counted(r) <==> !ExitCallsBack(c, i))
  {
    var b := c.(qthsWaked := c.qthsWaked - 1);
    assert b.ths == c.ths && Drift(c, Dying) == 0 && Drift(b, Dying) == 0;
    ServiceCheckMoves(b, i);
    assert AfterWait(c, i) == ServiceCheck(b);
    DyingSleeperWrite(c, ServiceCheck(b), i, s);
  }

  /** Returning from the wait as woken keeps every counter, with the same exact exception. */
  lemma FreeKeepsCounts(c: Core, i: nat)
    requires i < |c.ths| && c.ths[i].status == Wait && c.ths[i].waked && Sound(c)
    ensures Formed(ToFree(c, i)) && (Counted(ToFree(c, i)) <==> !ExitCallsBack(c, i))
  {
    if c.ths[i].rm {
      DyingSleeperLeaves(c, i, Free);
    } else {
      var r := ToFree(c, i);
      assert r.ths == c.ths[i := c.ths[i].(status := Free)] && i !in c.waitq;
      MovedOne(c, r, i);
    }
  }

  lemma TimedoutWeights(c: Core, i: nat, mayQuit: bool)
    requires i < |c.ths| && c.ths[i].status == Wait && !c.ths[i].rm && c.ths[i].run && WaitqInRange(c)
    ensures var r := ToTimedout(c, i, mayQuit);
      forall k :: IsCounter(k) ==> Counter(r, k) - Weight(r.ths[i], k) == Counter(c, k) - Weight(c.ths[i], k)
  {
  }

  /** Returning from the wait by time-out keeps every counter, with the same exact exception. */
  lemma TimedoutKeepsCounts(c: Core, i: nat, mayQuit: bool)
    requires i < |c.ths| && c.ths[i].status == Wait && Sound(c)
    ensures var r := ToTimedout(c, i, mayQuit); Formed(r) && (Counted(r) <==> !ExitCallsBack(c, i))
  {
    if c.ths[i].rm {
      DyingSleeperLeaves(c, i, Timedout);
    } else {
      var r := ToTimedout(c, i, mayQuit);
      assert r.ths == c.ths[i := r.ths[i]];
      RemoveMembers(c.waitq, i);
      assert Formed(r);
      TimedoutWeights(c, i, mayQuit);
      MovedOne(c, r, i);
    }
  }

  // ---- the other statuses ----

  lemma JoinWeights(c: Core, i: nat)
    requires i < |c.ths| && c.ths[i].status == Init
    ensures var r := ToJoin(c, i);
      forall k :: IsCounter(k) ==> Counter(r, k) - Weight(r.ths[i], k) == Counter(c, k) - Weight(c.ths[i], k)
  {
  }

  lemma JoinKeepsCounts(c: Core, i: nat)
    requires i < |c.ths| && c.ths[i].status == Init && Sound(c)
    ensures Sound(ToJoin(c, i))
  {
    JoinWeights(c, i);
    MovedOne(c, ToJoin(c, i), i);
  }

  lemma WaitWeights(c: Core, i: nat)
    requires i < |c.ths| && Awake(c.ths[i]) && !c.ths[i].rm
    ensures var r := ToWait(c, i);
      forall k :: IsCounter(k) ==> Counter(r, k) - Weight(r.ths[i], k) == Counter(c, k) - Weight(c.ths[i], k)
  {
  }

  lemma WaitKeepsCounts(c: Core, i: nat)
    requires i < |c.ths| && Awake(c.ths[i]) && !c.ths[i].rm && Sound(c)
    ensures Sound(ToWait(c, i))
  {
    WaitWeights(c, i);
    MovedOne(c, ToWait(c, i), i);
    assert i !in c.waitq && forall j :: j in ToWait(c, i).waitq <==> j == i || j in c.waitq;
  }

  lemma ForceQuitWeights(c: Core, i: nat)
    requires i < |c.ths| && Awake(c.ths[i])
    ensures var r := ToForceQuit(c, i);
      forall k :: IsCounter(k) ==> Counter(r, k) - Weight(r.ths[i], k) == Counter(c, k) - Weight(c.ths[i], k)
  {
  }

  lemma ForceQuitKeepsCounts(c: Core, i: nat)
    requires i < |c.ths| && Awake(c.ths[i]) && Sound(c)
    ensures Sound(ToForceQuit(c, i))
  {
    ForceQuitWeights(c, i);
    MovedOne(c, ToForceQuit(c, i), i);
  }

  lemma CompleteWeights(c: Core, i: nat)
    requires i < |c.ths| && c.ths[i].status == Run
    ensures var r := ToComplete(c, i);
      forall k :: IsCounter(k) ==> Counter(r, k) - Weight(r.ths[i], k) == Counter(c, k) - Weight(c.ths[i], k)
  {
  }

  lemma CompleteKeepsCounts(c: Core, i: nat)
    requires i < |c.ths| && c.ths[i].status == Run && Sound(c)
    ensures Sound(ToComplete(c, i))
  {
    CompleteWeights(c, i);
    MovedOne(c, ToComplete(c, i), i);
  }

  /** A dying thread that has looked for work at least once and is neither asleep nor running. */
  predicate CanLeave(t: Thread)
  {
    t.rm && (t.status == Free || t.status == Complete || t.status == Timedout || t.status == ForceQuit)
  }

  lemma LeaveWeights(c: Core, i: nat)
    requires i < |c.ths| && CanLeave(c.ths[i])
    ensures var r := ToLeave(c, i);
      forall k :: IsCounter(k) ==> Counter(r, k) - Weight(r.ths[i], k) == Counter(c, k) - Weight(c.ths[i], k)
  {
  }

  lemma LeaveKeepsCounts(c: Core, i: nat)
    requires i < |c.ths| && CanLeave(c.ths[i]) && Sound(c)
    ensures Sound(ToLeave(c, i))
  {
    LeaveWeights(c, i);
    MovedOne(c, ToLeave(c, i), i);
  }

  // ---- the exception, on concrete states ----

  const DYING := Thread(Join, true, false, true, None, [])

  /** One thread, marked dying before it first looked for work, and two startable tasks: it took one. */
  const LASTTAKER := Core([DYING], [], 1, 0, 0, 0, 1, 0, 0, 0, 0, 1, 0, 1, false, 1, [])

  lemma OneDying(k: Kind)
    requires IsCounter(k)
    ensures Count([DYING], k) == Weight(DYING, k)
  {
    assert [DYING][..0] == [];
  }

  /** The taker is called back under its old status: a free thread is counted, and there is none. */
  lemma TakerCalledBack()
    ensures Sound(LASTTAKER) && !Counted(ToRun(LASTTAKER, 0))
    ensures var r := ToRun(LASTTAKER, 0); r.realFree == 1 && |r.ths| == 1 && r.ths[0].status == Run
  {
    forall k | IsCounter(k) ensures Drift(LASTTAKER, k) == 0 { OneDying(k); }
    var c := LASTTAKER;
    assert Count(c.ths[..0], Dying) == 0;
    assert Reached(c.ths, 0, WantedThreads(c), 0);
    RunKeepsCounts(c, 0);
    var b := BeforeRun(c, 0);
    var d := ReuseOne(b, 0);
    assert Reuse(d, 1, 0) == (d, 0);
    assert Reuse(b, 0, 1) == (d, 0);
    assert Create(d, 0) == d;
    assert AddThreads(b, 1) == d;
    assert Ensure(b) == d;
  }

  /** One sleeper, marked dying and woken by a flush, and a task that arrived since. */
  const LASTSLEEPER := Core([DYING.(status := Wait)], [], 1, 0, 1, 0, 1, 0, 0, 0, 0, 1, 0, 1, false, 1, [])

  lemma OneSleeper(k: Kind)
    requires IsCounter(k)
    ensures Count([DYING.(status := Wait)], k) == Weight(DYING.(status := Wait), k)
  {
    assert [DYING.(status := Wait)][..0] == [];
  }

  /** The sleeper is called back as if still asleep: when it then takes the task, real_free is -1. */
  lemma SleeperCalledBack()
    ensures Sound(LASTSLEEPER) && !Counted(ToFree(LASTSLEEPER, 0))
    ensures var r := ToFree(LASTSLEEPER, 0);
      r.sleeping == 1 && |r.ths| == 1 && r.ths[0].status == Free && !r.ths[0].rm && r.realFree == 0
    ensures BeforeRun(ToFree(LASTSLEEPER, 0), 0).realFree == -1
  {
    forall k | IsCounter(k) ensures Drift(LASTSLEEPER, k) == 0 { OneSleeper(k); }
    var c := LASTSLEEPER;
    var b := c.(qthsWaked := 0);
    assert Count(b.ths[..0], Dying) == 0;
    assert Reached(b.ths, 0, WantedThreads(b), 0);
    FreeKeepsCounts(c, 0);
    var d := ReuseOne(b, 0);
    assert Reuse(d, 1, 0) == (d, 0);
    assert Reuse(b, 0, 1) == (d, 0);
    assert Create(d, 0) == d;
    assert Ensure(b) == d;
    assert AfterWait(c, 0) == d;
  }
}
