/**
 What the nine thread counters mean: each is the number of threads in some condition.
 `Drift` is the amount by which a counter is off; waking, reusing, creating and marking
 never change a drift, so a status change keeps the counters right exactly when its own
 increments match the status it finally writes.
 */
module ThreadCounts {
  import opened Types
  import opened ThreadModel

  /** The nine counted conditions, and three measures of the work that threads hold. */
  datatype Kind =
    | InList | Sleepers | Waked | Running | Dying | DyingRun | RealSleeping | RealPool | RealFree
    | HoldsBatch | Runs(s: Sel) | Batches(s: Sel)

  function Weight(t: Thread, k: Kind): nat
  {
    match k
    case InList => Bit(t.status != Left)
    case Sleepers => Bit(t.status == Wait && !t.waked)
    case Waked => Bit(t.status == Wait && t.waked)
    case Running => Bit(t.status == Run)
    case Dying => Bit(t.rm && t.status != Left)
    case DyingRun => Bit(t.rm && t.status == Run)
    case RealSleeping => Bit(!t.rm && t.status == Wait)
    case RealPool => Bit(!t.rm && t.status != Left)
    case RealFree => Bit(!t.rm && t.status != Left && t.status != Wait && t.status != Run)
    case HoldsBatch => Bit(t.batch != [])
    case Runs(s) => Bit(t.current.Some? && Selects(s, t.current.value))
    case Batches(s) => Matching(t.batch, s)
  }

  function Count(ths: seq<Thread>, k: Kind): nat
  {
    if ths == [] then 0 else Count(ths[..|ths| - 1], k) + Weight(ths[|ths| - 1], k)
  }

  function Counter(c: Core, k: Kind): int
  {
    match k
    case InList => c.qths
    case Sleepers => c.qthsWait
    case Waked => c.qthsWaked
    case Running => c.running
    case Dying => c.dying
    case DyingRun => c.dyingRun
    case RealSleeping => c.sleeping
    case RealPool => c.realPool
    case RealFree => c.realFree
    case _ => 0
  }

  predicate IsCounter(k: Kind) { !(k.HoldsBatch? || k.Runs? || k.Batches?) }

  function Drift(c: Core, k: Kind): int { Counter(c, k) - Count(c.ths, k) }

  ghost predicate SameDrift(c: Core, d: Core) { forall k :: Drift(c, k) == Drift(d, k) }

  /** Every counter is the number of threads it is meant to count. */
  ghost predicate Counted(c: Core) { forall k :: IsCounter(k) ==> Drift(c, k) == 0 }

  /** The part of the invariant that does not mention counters. */
  ghost predicate Formed(c: Core)
  {
    && NoDup(c.waitq)
    && WaitqInRange(c)
    && (forall i :: 0 <= i < |c.ths| ==> (i in c.waitq <==> c.ths[i].status == Wait && !c.ths[i].waked))
    && (forall i :: 0 <= i < |c.ths| ==> c.ths[i].run == !c.ths[i].rm)
    && (forall i :: 0 <= i < |c.ths| ==> c.ths[i].rm && c.ths[i].status == Wait ==> c.ths[i].waked)
    && |c.waitq| == c.qthsWait
    && c.perTime >= 1
  }

  // ---- counting ----

  lemma {:induction false} CountUpdate(ths: seq<Thread>, i: nat, t: Thread, k: Kind)
    requires i < |ths|
    ensures Count(ths[i := t], k) == Count(ths, k) - Weight(ths[i], k) + Weight(t, k)
  {
    var n := |ths| - 1;
    if i < n {
      CountUpdate(ths[..n], i, t, k);
      assert ths[i := t][..n] == ths[..n][i := t];
    } else {
      assert ths[i := t][..n] == ths[..n];
    }
  }

  lemma SetThreadDrift(c: Core, i: nat, t: Thread)
    requires i < |c.ths|
    ensures forall k :: Count(c.ths[i := t], k) == Count(c.ths, k) - Weight(c.ths[i], k) + Weight(t, k)
  {
    forall k ensures Count(c.ths[i := t], k) == Count(c.ths, k) - Weight(c.ths[i], k) + Weight(t, k) {
      CountUpdate(c.ths, i, t, k);
    }
  }

  lemma {:induction false} CountMember(ths: seq<Thread>, i: nat, k: Kind)
    requires i < |ths|
    ensures Count(ths, k) >= Weight(ths[i], k)
  {
    if i < |ths| - 1 { CountMember(ths[..|ths| - 1], i, k); }
  }

  lemma {:induction false} CountPositive(ths: seq<Thread>, k: Kind) returns (i: nat)
    requires Count(ths, k) > 0
    ensures i < |ths| && Weight(ths[i], k) > 0
  {
    var n := |ths| - 1;
    if Weight(ths[n], k) > 0 { i := n; } else { i := CountPositive(ths[..n], k); }
  }

  lemma {:induction false} CountAppend(ths: seq<Thread>, t: Thread, k: Kind)
    ensures Count(ths + [t], k) == Count(ths, k) + Weight(t, k)
  {
    assert (ths + [t])[..|ths|] == ths;
  }

  lemma {:induction false} CountMonotone(ths: seq<Thread>, uhs: seq<Thread>, k: Kind)
    requires |ths| <= |uhs| && forall j :: 0 <= j < |ths| ==> Weight(ths[j], k) <= Weight(uhs[j], k)
    ensures Count(ths, k) <= Count(uhs, k)
    decreases |uhs|
  {
    if uhs != [] {
      var n := |uhs| - 1;
      if n < |ths| { CountMonotone(ths[..n], uhs[..n], k); } else { CountMonotone(ths, uhs[..n], k); }
    }
  }

  /** One thread that counts less makes the whole count less. */
  lemma {:induction false} CountStrict(ths: seq<Thread>, uhs: seq<Thread>, k: Kind, i: nat)
    requires i < |ths| == |uhs| && Weight(ths[i], k) < Weight(uhs[i], k)
    requires forall j :: 0 <= j < |ths| ==> Weight(ths[j], k) <= Weight(uhs[j], k)
    ensures Count(ths, k) < Count(uhs, k)
  {
    var n := |ths| - 1;
    if i < n { CountStrict(ths[..n], uhs[..n], k, i); } else { CountMonotone(ths[..n], uhs[..n], k); }
  }

  // ---- the four building blocks keep every drift ----

  lemma WakeOneKeeps(c: Core)
    requires Formed(c) && c.waitq != []
    ensures Formed(WakeOne(c)) && SameDrift(c, WakeOne(c))
  {
    var i := c.waitq[0];
    assert i in c.waitq;
    SetThreadDrift(c, i, c.ths[i].(waked := true));
    assert forall j :: j in c.waitq[1..] <==> j in c.waitq && j != i;
  }

  lemma {:induction false} WakeNKeeps(c: Core, n: int)
    requires Formed(c)
    ensures var r := WakeN(c, n); Formed(r) && SameDrift(c, r)
    ensures var r := WakeN(c, n);
      r == c.(ths := r.ths, waitq := r.waitq, qthsWait := r.qthsWait, qthsWaked := r.qthsWaked)
    ensures WakeN(c, n).qthsWaked >= c.qthsWaked + Bit(c.waitq != [])
    ensures forall i :: 0 <= i < |c.ths| ==>
      WakeN(c, n).ths[i] == c.ths[i] || WakeN(c, n).ths[i] == c.ths[i].(waked := true)
    decreases |c.waitq|
  {
    if c.waitq != [] {
      WakeOneKeeps(c);
      if n != 1 { WakeNKeeps(WakeOne(c), n - 1); }
    }
  }

  /** How many sleepers a count wakes: all of them unless it is positive and smaller. */
  function WakeCount(c: Core, n: int): nat { if 1 <= n <= |c.waitq| then n else |c.waitq| }

  /** The first `k` of the queue have been woken, and nobody else. */
  ghost predicate WokenFirst(c: Core, r: Core, k: nat)
  {
    && k <= |c.waitq| && r.waitq == c.waitq[k..] && r.qthsWaked == c.qthsWaked + k && r.qthsWait == c.qthsWait - k
    && |r.ths| == |c.ths|
    && (forall i :: 0 <= i < |c.ths| ==> r.ths[i] == c.ths[i].(waked := c.ths[i].waked || i in c.waitq[..k]))
  }

  /** Waking takes exactly that many sleepers off the head of the queue, and wakes exactly those. */
  lemma {:induction false} WakeNExact(c: Core, n: int)
    requires WaitqInRange(c)
    ensures WokenFirst(c, WakeN(c, n), WakeCount(c, n))
    decreases |c.waitq|
  {
    if c.waitq != [] {
      WokenOne(c);
      if n != 1 {
        WakeNExact(WakeOne(c), n - 1);
        WokenMore(c, WakeOne(c), WakeN(WakeOne(c), n - 1), WakeCount(WakeOne(c), n - 1));
      }
    }
  }

  lemma WokenOne(c: Core)
    requires WaitqInRange(c) && c.waitq != []
    ensures WokenFirst(c, WakeOne(c), 1)
  {
    assert c.waitq[..1] == [c.waitq[0]];
  }

  lemma WokenMore(c: Core, d: Core, r: Core, k: nat)
    requires WokenFirst(c, d, 1) && WokenFirst(d, r, k)
    ensures WokenFirst(c, r, k + 1)
  {
    assert c.waitq[..k + 1] == c.waitq[..1] + d.waitq[..k];
  }

  lemma ReuseOneWeights(c: Core, i: nat, k: Kind)
    requires i < |c.ths| && c.ths[i].rm && c.ths[i].status != Left
    ensures Counter(ReuseOne(c, i), k) - Weight(ReuseOne(c, i).ths[i], k) == Counter(c, k) - Weight(c.ths[i], k)
  {
  }

  lemma ReuseOneKeeps(c: Core, i: nat)
    requires Formed(c) && i < |c.ths| && c.ths[i].rm && c.ths[i].status != Left
    ensures Formed(ReuseOne(c, i)) && SameDrift(c, ReuseOne(c, i))
  {
    var r := ReuseOne(c, i);
    assert r.waitq == c.waitq && r.ths == c.ths[i := r.ths[i]];
    forall k ensures Drift(r, k) == Drift(c, k) {
      CountUpdate(c.ths, i, r.ths[i], k);
      ReuseOneWeights(c, i, k);
    }
  }

  lemma CreateOneKeeps(c: Core)
    requires Formed(c)
    ensures Formed(CreateOne(c)) && SameDrift(c, CreateOne(c))
  {
    forall k ensures Drift(c, k) == Drift(CreateOne(c), k) { CreateOneDrift(c, k); }
    CreateOneFormed(c);
  }

  lemma CreateOneDrift(c: Core, k: Kind)
    ensures Drift(c, k) == Drift(CreateOne(c), k)
  {
    CountAppend(c.ths, NEWBORN, k);
  }

  lemma CreateOneFormed(c: Core)
    requires Formed(c)
    ensures Formed(CreateOne(c))
  {
    assert forall i :: i in c.waitq ==> i < |c.ths|;
  }

  lemma MarkOneKeeps(c: Core, i: nat)
    requires Formed(c) && i < |c.ths| && !c.ths[i].rm && c.ths[i].status != Left
    ensures Formed(MarkOne(c, i)) && SameDrift(c, MarkOne(c, i))
  {
    var r := MarkOne(c, i);
    assert r.ths == c.ths[i := r.ths[i]];
    assert SameDrift(c, r) by {
      forall k ensures Drift(r, k) == Drift(c, k) {
        CountUpdate(c.ths, i, r.ths[i], k);
        MarkOneWeights(c, i, k);
      }
    }
    assert Formed(r) by { RemoveMembers(c.waitq, i); }
  }

  lemma MarkOneWeights(c: Core, i: nat, k: Kind)
    requires i < |c.ths| && !c.ths[i].rm && c.ths[i].status != Left
    ensures Counter(MarkOne(c, i), k) - Weight(MarkOne(c, i).ths[i], k) == Counter(c, k) - Weight(c.ths[i], k)
  {
  }
}
