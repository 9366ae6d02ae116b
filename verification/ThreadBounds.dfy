/**
 Taking threads out of service, and the bounds minthreads <= nthreads_real_pool <= maxthreads.
 */
module ThreadBounds {
  import opened Types
  import opened ThreadModel
  import opened ThreadCounts
  import opened ThreadSupply
  import opened ThreadStatus

  predicate Marked(t: Thread, u: Thread) { !t.rm && u.rm }

  /** Threads in service from position `i` on: those not running, and those running. */
  predicate Idle(t: Thread) { !t.rm && t.status != Left && t.status != Run }

  predicate Busy(t: Thread) { !t.rm && t.status == Run }

  function IdleFrom(ths: seq<Thread>, i: nat): nat
    requires i <= |ths|
    decreases |ths| - i
  {
    if i == |ths| then 0 else Bit(Idle(ths[i])) + IdleFrom(ths, i + 1)
  }

  function BusyFrom(ths: seq<Thread>, i: nat): nat
    requires i <= |ths|
    decreases |ths| - i
  {
    if i == |ths| then 0 else Bit(Busy(ths[i])) + BusyFrom(ths, i + 1)
  }

  lemma {:induction false} FromCount(ths: seq<Thread>, i: nat)
    requires i <= |ths|
    ensures IdleFrom(ths, i) ==
      Count(ths, RealSleeping) + Count(ths, RealFree) - Count(ths[..i], RealSleeping) - Count(ths[..i], RealFree)
    ensures BusyFrom(ths, i) ==
      Count(ths, Running) - Count(ths, DyingRun) - Count(ths[..i], Running) + Count(ths[..i], DyingRun)
    decreases |ths| - i
  {
    if i == |ths| {
      assert ths[..i] == ths;
    } else {
      FromCount(ths, i + 1);
      CountPrefixStep(ths, i, RealSleeping);
      CountPrefixStep(ths, i, RealFree);
      CountPrefixStep(ths, i, Running);
      CountPrefixStep(ths, i, DyingRun);
    }
  }

  lemma {:induction false} FromSame(ths: seq<Thread>, uhs: seq<Thread>, i: nat)
    requires i <= |ths| == |uhs| && ths[i..] == uhs[i..]
    ensures IdleFrom(ths, i) == IdleFrom(uhs, i) && BusyFrom(ths, i) == BusyFrom(uhs, i)
    decreases |ths| - i
  {
    if i < |ths| {
      assert ths[i] == ths[i..][0] == uhs[i..][0] == uhs[i];
      assert ths[i + 1..] == ths[i..][1..] == uhs[i..][1..] == uhs[i + 1..];
      FromSame(ths, uhs, i + 1);
    }
  }

  /** `r` is `c` with `died` more threads marked, none before position `i`. */
  ghost predicate Shed(c: Core, r: Core, i: nat, died: int)
  {
    && Formed(r) && SameDrift(c, r) && SameSettings(c, r) && |r.ths| == |c.ths|
    && r.realPool == c.realPool - died && r.dying == c.dying + died && r.running == c.running && r.qths == c.qths
    && (forall j :: 0 <= j < |c.ths| ==>
          || r.ths[j] == c.ths[j]
          || (i <= j && Marked(c.ths[j], r.ths[j]) && c.ths[j].status != Left && MarksOnly(c.ths[j], r.ths[j])))
  }

  predicate MarksOnly(t: Thread, u: Thread)
  {
    u.status == t.status && u.current == t.current && u.batch == t.batch && (t.waked ==> u.waked)
  }

  lemma MarkOneSheds(c: Core, i: nat)
    requires Formed(c) && i < |c.ths| && !c.ths[i].rm && c.ths[i].status != Left
    ensures Shed(c, MarkOne(c, i), i, 1) && MarkOne(c, i).ths == c.ths[i := MarkOne(c, i).ths[i]]
  {
    MarkOneKeeps(c, i);
  }

  lemma ShedStep(c: Core, d: Core, r: Core, i: nat, died: int)
    requires i < |c.ths| && Shed(c, d, i, 1) && Shed(d, r, i + 1, died) && d.ths == c.ths[i := d.ths[i]]
    ensures Shed(c, r, i, died + 1)
  {
    forall k ensures Drift(c, k) == Drift(r, k) { assert Drift(c, k) == Drift(d, k); }
    forall j | 0 <= j < |c.ths| && j != i ensures d.ths[j] == c.ths[j] {}
  }

  /** How many the marking scan has to mark: `n` idle ones, or all idle ones and `r` busy ones. */
  predicate Demand(idle: nat, busy: nat, n: int, r: int)
  {
    || (r == 0 && 1 <= n <= idle)
    || (n > idle && 0 <= r <= busy)
  }

  function Quota(idle: nat, n: int, r: int): int { if n <= idle then n else idle + r }

  /** The scan has marked what was demanded from position `i` on. */
  ghost predicate Marks(c: Core, res: (Core, nat), i: nat, q: int, died: nat)
  {
    res.1 == died + q && Shed(c, res.0, i, q)
  }

  lemma {:induction false} MarkExact(c: Core, i: nat, n: int, r: int, died: nat)
    requires Formed(c) && i <= |c.ths|
    requires Demand(IdleFrom(c.ths, i), BusyFrom(c.ths, i), n, r)
    ensures Marks(c, Mark(c, i, n, r, died), i, Quota(IdleFrom(c.ths, i), n, r), died)
    decreases |c.ths| - i, 1
  {
    if i < |c.ths| {
      var t := c.ths[i];
      if Idle(t) || (Busy(t) && r != 0) {
        MarkOneSheds(c, i);
        FromSame(c.ths, MarkOne(c, i).ths, i + 1);
        MarkExactTaken(c, MarkOne(c, i), i, n, r, died);
      } else {
        MarkExact(c, i + 1, n, r, died);
        ShedSkips(c, Mark(c, i + 1, n, r, died).0, i, Quota(IdleFrom(c.ths, i + 1), n, r));
      }
    } else {
      ShedNone(c, i);
    }
  }

  lemma ShedNone(c: Core, i: nat)
    requires Formed(c)
    ensures Shed(c, c, i, 0)
  {
  }

  lemma ShedSkips(c: Core, r: Core, i: nat, died: int)
    requires Shed(c, r, i + 1, died)
    ensures Shed(c, r, i, died)
  {
  }

  lemma {:induction false} MarkExactTaken(c: Core, d: Core, i: nat, n: int, r: int, died: nat)
    requires i < |c.ths| == |d.ths| && d == MarkOne(c, i) && Shed(c, d, i, 1) && d.ths == c.ths[i := d.ths[i]]
    requires WaitqInRange(c)
    requires Idle(c.ths[i]) || (Busy(c.ths[i]) && r != 0)
    requires IdleFrom(d.ths, i + 1) == IdleFrom(c.ths, i + 1) && BusyFrom(d.ths, i + 1) == BusyFrom(c.ths, i + 1)
    requires Demand(IdleFrom(c.ths, i), BusyFrom(c.ths, i), n, r)
    ensures Marks(c, Mark(c, i, n, r, died), i, Quota(IdleFrom(c.ths, i), n, r), died)
    decreases |c.ths| - i, 0, 1
  {
    if Idle(c.ths[i]) {
      if !(n == 1 && r == 0) { MarkExactStep(c, d, i, n - 1, r, died + 1); }
    } else {
      MarkExactStep(c, d, i, n, r - 1, died + 1);
    }
  }

  lemma {:induction false} MarkExactStep(c: Core, d: Core, i: nat, n: int, r: int, died: nat)
    requires i < |c.ths| == |d.ths| && Shed(c, d, i, 1) && d.ths == c.ths[i := d.ths[i]]
    requires Demand(IdleFrom(d.ths, i + 1), BusyFrom(d.ths, i + 1), n, r)
    ensures var (e, m) := Mark(d, i + 1, n, r, died); var q := Quota(IdleFrom(d.ths, i + 1), n, r);
      m == died + q && Shed(c, e, i, q + 1)
    decreases |c.ths| - i, 0, 0
  {
    MarkExact(d, i + 1, n, r, died);
    ShedStep(c, d, Mark(d, i + 1, n, r, died).0, i, Quota(IdleFrom(d.ths, i + 1), n, r));
  }

  ghost predicate NoBusyMarked(c: Core, d: Core, i: nat)
    requires |c.ths| == |d.ths|
  {
    forall j :: i <= j < |c.ths| && Busy(c.ths[j]) ==> !d.ths[j].rm
  }

  ghost predicate AllIdleMarked(c: Core, d: Core, i: nat)
    requires |c.ths| == |d.ths|
  {
    forall j :: i <= j < |c.ths| && Idle(c.ths[j]) ==> d.ths[j].rm
  }

  /** With no demand for running threads, none is marked. */
  lemma {:induction false} MarkSparesBusy(c: Core, i: nat, n: int, died: nat)
    requires Formed(c) && i <= |c.ths| && 1 <= n <= IdleFrom(c.ths, i)
    ensures NoBusyMarked(c, Mark(c, i, n, 0, died).0, i)
    decreases |c.ths| - i
  {
    if Idle(c.ths[i]) {
      MarkOneSheds(c, i);
      var d := MarkOne(c, i);
      FromSame(c.ths, d.ths, i + 1);
      if n > 1 { MarkSparesBusy(d, i + 1, n - 1, died + 1); }
    } else {
      MarkSparesBusy(c, i + 1, n, died);
      MarkExact(c, i + 1, n, 0, died);
    }
  }

  /** With a demand beyond the idle threads, every idle one is marked. */
  lemma {:induction false} MarkTakesIdle(c: Core, i: nat, n: int, r: int, died: nat)
    requires Formed(c) && i <= |c.ths| && n > IdleFrom(c.ths, i) && 0 <= r <= BusyFrom(c.ths, i)
    ensures AllIdleMarked(c, Mark(c, i, n, r, died).0, i)
    decreases |c.ths| - i, 1
  {
    if i < |c.ths| {
      if Idle(c.ths[i]) || (Busy(c.ths[i]) && r != 0) {
        MarkOneSheds(c, i);
        var d := MarkOne(c, i);
        FromSame(c.ths, d.ths, i + 1);
        var (n', r') := if Idle(c.ths[i]) then (n - 1, r) else (n, r - 1);
        MarkTakesIdleStep(c, d, i, n', r', died + 1);
      } else {
        MarkTakesIdle(c, i + 1, n, r, died);
      }
    }
  }

  lemma {:induction false} MarkTakesIdleStep(c: Core, d: Core, i: nat, n: int, r: int, died: nat)
    requires Formed(d) && i < |c.ths| == |d.ths| && d.ths == c.ths[i := d.ths[i]] && d.ths[i].rm
    requires n > IdleFrom(d.ths, i + 1) && 0 <= r <= BusyFrom(d.ths, i + 1)
    ensures AllIdleMarked(c, Mark(d, i + 1, n, r, died).0, i)
    decreases |c.ths| - i, 0
  {
    MarkTakesIdle(d, i + 1, n, r, died);
    MarkExact(d, i + 1, n, r, died);
  }

  lemma FromCounters(c: Core)
    requires Counted(c)
    ensures IdleFrom(c.ths, 0) == c.sleeping + c.realFree && BusyFrom(c.ths, 0) == c.running - c.dyingRun
  {
    FromCount(c.ths, 0);
    assert c.ths[..0] == [];
    assert Drift(c, RealSleeping) == 0 && Drift(c, RealFree) == 0 && Drift(c, Running) == 0 && Drift(c, DyingRun) == 0;
  }

  /**
   cpool_core_dec_threadsl(n) marks exactly min(n, nthreads_real_pool) threads, and a running
   one only if every thread in service that is not running is marked as well.
   */
  lemma DecThreadsExact(c: Core, n: int)
    requires Sound(c)
    ensures var (r, died) := DecThreads(c, n);
      && died == Max(0, Min(n, c.realPool))
      && Shed(c, r, 0, died)
      && Sound(r)
      && ((exists j :: 0 <= j < |c.ths| && Busy(c.ths[j]) && r.ths[j].rm) ==> AllIdleMarked(c, r, 0))
  {
    CountersBalance(c);
    FromCounters(c);
    if n > 0 && c.realPool > 0 {
      var want := Min(c.realPool, n);
      var others := c.realPool - (c.running - c.dyingRun);
      var rdec := if others < want then want - others else 0;
      MarkExact(c, 0, want, rdec, 0);
      if rdec == 0 { MarkSparesBusy(c, 0, want, 0); } else { MarkTakesIdle(c, 0, want, rdec, 0); }
      assert DecThreads(c, n) == Mark(c, 0, want, rdec, 0);
    }
    CountedBySameDrift(c, DecThreads(c, n).0);
  }

  // ---- bounds ----

  ghost predicate Bounded(c: Core) { 0 <= c.minthreads <= c.realPool <= c.maxthreads }

  lemma SupplySound(c: Core, n: int)
    requires Sound(c)
    ensures Sound(AddThreads(c, n)) && AddThreads(c, n).realPool == c.realPool + Max(0, n)
  {
    assert Drift(c, Dying) == 0;
    AddThreadsExact(c, n);
    CountedBySameDrift(c, AddThreads(c, n));
  }

  lemma EnsureSound(c: Core)
    requires Sound(c)
    ensures Sound(Ensure(c)) && (Bounded(c) ==> Bounded(Ensure(c)))
  {
    assert Drift(c, Dying) == 0;
    EnsureKeeps(c);
    CountedBySameDrift(c, Ensure(c));
  }

  /** Whatever the pool was, cpool_core_adjust_abs_l brings it within the bounds it was given. */
  lemma AdjustBounds(c: Core)
    requires Sound(c) && 0 <= c.minthreads <= c.maxthreads
    ensures Sound(AdjustAbs(c)) && Bounded(AdjustAbs(c))
  {
    if c.minthreads > c.realPool {
      SupplySound(c, c.minthreads - c.realPool);
      assert Drift(c, Dying) == 0;
      AddThreadsExact(c, c.minthreads - c.realPool);
    } else if c.realPool > c.maxthreads {
      DecThreadsExact(c, c.realPool - c.maxthreads);
      CountersBalance(c);
    } else {
      WakeNSupplies(c, -1);
      CountedBySameDrift(c, WakeN(c, -1));
    }
  }

  /** cpool_com_flush leaves exactly minthreads in service. */
  lemma FlushBounds(c: Core)
    requires Sound(c) && Bounded(c)
    ensures Sound(Flush(c)) && Bounded(Flush(c)) && Flush(c).realPool == c.minthreads
  {
    DecThreadsExact(c, c.realPool - c.minthreads);
    CountersBalance(c);
  }

  /**
   A thread made for the collector keeps the ceiling, because the counters say that none is in service:
   unless the ceiling is zero, and then there is always one too many.
   */
  lemma TryGCBounds(c: Core, flushable: bool)
    requires Sound(c) && Bounded(c)
    ensures Sound(TryGC(c, flushable))
    ensures Bounded(TryGC(c, flushable)) <==> !(flushable && c.maxthreads == 0)
  {
    CountersBalance(c);
    if c.realFree == 0 && c.running == c.dyingRun && flushable {
      if c.sleeping != 0 {
        WakeNSupplies(c, 1);
        CountedBySameDrift(c, WakeN(c, 1));
      } else {
        SupplySound(c, 1);
        assert Drift(c, Dying) == 0;
        AddThreadsExact(c, 1);
      }
    }
  }

  /** cpool_core_ctor */
  lemma NewCoreBounds(maxthreads: int, minthreads: int, perTime: int, paused: bool)
    requires perTime >= 1
    ensures var c := NewCore(maxthreads, minthreads, perTime, paused);
      Sound(c) && Bounded(c) && c.realPool == c.minthreads
  {
    var hi := Max(1, maxthreads);
    var lo := Min(Max(0, minthreads), hi);
    var c := Core([], [], 0, 0, 0, 0, 0, 0, 0, 0, 0, hi, lo, perTime, paused, 0, []);
    assert Counted(c);
    SupplySound(c, lo);
    assert Drift(c, Dying) == 0;
    AddThreadsExact(c, lo);
  }
}
