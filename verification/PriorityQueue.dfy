/**
 The two-level priority queue of a group: `priq_num` queues, each for a band of
 priorities, and the descending list of those that are not empty.
 It refines one flat sequence.
 */
module PriorityQueue {
  import opened Types
  import opened PriorityOrder

  // ---- bands ----

  /** __cpool_com_priq_locate, for a container whose bands are `avg` priorities wide. */
  function Locate(avg: nat, pri: nat): nat
    requires avg > 0
  {
    if pri < avg then 0 else pri / avg
  }

  lemma MulMonotone(x: nat, y: nat, d: nat)
    requires x <= y
    ensures x * d <= y * d
  {
  }

  lemma DivLess(p: nat, d: nat, n: nat)
    requires d > 0
    ensures p / d < n <==> p < n * d
  {
    var x := p / d;
    assert p == x * d + p % d;
    if x < n { MulMonotone(x + 1, n, d); } else { MulMonotone(n, x, d); }
  }

  lemma LocateMonotone(avg: nat, p: nat, q: nat)
    requires avg > 0 && p <= q
    ensures Locate(avg, p) <= Locate(avg, q)
  {
    DivLess(p, avg, q / avg + 1);
    DivLess(q, avg, q / avg + 1);
  }

  lemma LocateLess(avg: nat, p: nat, num: nat)
    requires avg > 0 && num > 0
    ensures Locate(avg, p) < num <==> p < num * avg
  {
    DivLess(p, avg, num);
    MulMonotone(1, num, avg);
  }

  /** A number of queues is usable for every priority 0..99 exactly when it divides 100. */
  lemma LocateInRange(num: nat)
    requires 1 <= num <= 100
    ensures (forall p: nat :: p <= 99 ==> Locate(100 / num, p) < num) <==> 100 % num == 0
  {
    var avg := 100 / num;
    assert avg > 0 && 100 == num * avg + 100 % num;
    LocateLess(avg, 99, num);
    if 100 % num == 0 {
      forall p: nat | p <= 99 ensures Locate(avg, p) < num { LocateLess(avg, p, num); }
    }
  }

  // ---- the flat view ----

  /** The queues from index `hi` - 1 down to `lo`, end to end. */
  function Flatten(qs: seq<seq<Task>>, lo: nat, hi: nat): seq<Task>
    requires lo <= hi <= |qs|
    decreases hi
  {
    if lo == hi then [] else qs[hi - 1] + Flatten(qs, lo, hi - 1)
  }

  lemma {:induction false} FlattenSplit(qs: seq<seq<Task>>, lo: nat, k: nat, hi: nat)
    requires lo <= k <= hi <= |qs|
    ensures Flatten(qs, lo, hi) == Flatten(qs, k, hi) + Flatten(qs, lo, k)
    decreases hi
  {
    if k < hi {
      FlattenSplit(qs, lo, k, hi - 1);
      assert qs[hi - 1] + (Flatten(qs, k, hi - 1) + Flatten(qs, lo, k)) ==
        qs[hi - 1] + Flatten(qs, k, hi - 1) + Flatten(qs, lo, k);
    }
  }

  lemma {:induction false} FlattenSame(qs: seq<seq<Task>>, rs: seq<seq<Task>>, lo: nat, hi: nat)
    requires lo <= hi <= |qs| == |rs| && forall i :: lo <= i < hi ==> qs[i] == rs[i]
    ensures Flatten(qs, lo, hi) == Flatten(rs, lo, hi)
    decreases hi
  {
    if lo < hi { FlattenSame(qs, rs, lo, hi - 1); }
  }

  /** The queue `k` seen inside the flat sequence. */
  lemma FlattenAround(qs: seq<seq<Task>>, k: nat)
    requires k < |qs|
    ensures Flatten(qs, 0, |qs|) == Flatten(qs, k + 1, |qs|) + qs[k] + Flatten(qs, 0, k)
  {
    FlattenSplit(qs, 0, k + 1, |qs|);
    assert Flatten(qs, 0, k + 1) == qs[k] + Flatten(qs, 0, k);
    assert Flatten(qs, k + 1, |qs|) + (qs[k] + Flatten(qs, 0, k)) ==
      Flatten(qs, k + 1, |qs|) + qs[k] + Flatten(qs, 0, k);
  }

  lemma FlattenUpdate(qs: seq<seq<Task>>, k: nat, q: seq<Task>)
    requires k < |qs|
    ensures Flatten(qs[k := q], 0, |qs|) == Flatten(qs, k + 1, |qs|) + q + Flatten(qs, 0, k)
  {
    FlattenAround(qs[k := q], k);
    FlattenSame(qs, qs[k := q], k + 1, |qs|);
    FlattenSame(qs, qs[k := q], 0, k);
  }

  lemma {:induction false} FlattenEmpty(qs: seq<seq<Task>>, lo: nat, hi: nat)
    requires lo <= hi <= |qs| && forall i :: lo <= i < hi ==> qs[i] == []
    ensures Flatten(qs, lo, hi) == []
    decreases hi
  {
    if lo < hi { FlattenEmpty(qs, lo, hi - 1); }
  }

  lemma {:induction false} FlattenMember(qs: seq<seq<Task>>, lo: nat, hi: nat, u: Task) returns (i: nat)
    requires lo <= hi <= |qs| && u in Flatten(qs, lo, hi)
    ensures lo <= i < hi && u in qs[i]
    decreases hi
  {
    if u in qs[hi - 1] { i := hi - 1; } else { i := FlattenMember(qs, lo, hi - 1, u); }
  }

  ghost predicate Banded(avg: nat, qs: seq<seq<Task>>)
    requires avg > 0
  {
    forall i, j :: 0 <= i < |qs| && 0 <= j < |qs[i]| ==> Locate(avg, qs[i][j].pri) == i
  }

  // ---- insertion on the flat sequence ----

  /** The tasks of `q` whose band lies above, in, or below `k`. */
  function Above(avg: nat, q: seq<Task>, k: nat): seq<Task>
    requires avg > 0
  {
    if q == [] then [] else (if Locate(avg, q[0].pri) > k then [q[0]] else []) + Above(avg, q[1..], k)
  }

  function Within(avg: nat, q: seq<Task>, k: nat): seq<Task>
    requires avg > 0
  {
    if q == [] then [] else (if Locate(avg, q[0].pri) == k then [q[0]] else []) + Within(avg, q[1..], k)
  }

  function Below(avg: nat, q: seq<Task>, k: nat): seq<Task>
    requires avg > 0
  {
    if q == [] then [] else (if Locate(avg, q[0].pri) < k then [q[0]] else []) + Below(avg, q[1..], k)
  }

  /** Insertion into the band of the task, as the source performs it there. */
  function FlatInsert(avg: nat, q: seq<Task>, t: Task, tail: bool): seq<Task>
    requires avg > 0
  {
    var k := Locate(avg, t.pri);
    Above(avg, q, k) + InsertInto(Within(avg, q, k), t, tail) + Below(avg, q, k)
  }

  lemma {:induction false} SplitConcat(avg: nat, p: seq<Task>, q: seq<Task>, k: nat)
    requires avg > 0
    ensures Above(avg, p + q, k) == Above(avg, p, k) + Above(avg, q, k)
    ensures Within(avg, p + q, k) == Within(avg, p, k) + Within(avg, q, k)
    ensures Below(avg, p + q, k) == Below(avg, p, k) + Below(avg, q, k)
  {
    if p == [] {
      assert p + q == q;
    } else {
      assert (p + q)[1..] == p[1..] + q;
      SplitConcat(avg, p[1..], q, k);
    }
  }

  lemma {:induction false} SplitUniform(avg: nat, q: seq<Task>, k: nat)
    requires avg > 0
    ensures (forall u :: u in q ==> Locate(avg, u.pri) > k) ==>
      Above(avg, q, k) == q && Within(avg, q, k) == [] && Below(avg, q, k) == []
    ensures (forall u :: u in q ==> Locate(avg, u.pri) == k) ==>
      Above(avg, q, k) == [] && Within(avg, q, k) == q && Below(avg, q, k) == []
    ensures (forall u :: u in q ==> Locate(avg, u.pri) < k) ==>
      Above(avg, q, k) == [] && Within(avg, q, k) == [] && Below(avg, q, k) == q
  {
    if q != [] {
      assert q == [q[0]] + q[1..] && q[0] in q && forall u :: u in q[1..] ==> u in q;
      SplitUniform(avg, q[1..], k);
    }
  }

  /** The three parts of a flattened container are its higher queues, the queue, and its lower queues. */
  lemma SplitFlatten(avg: nat, qs: seq<seq<Task>>, k: nat)
    requires avg > 0 && Banded(avg, qs) && k < |qs|
    ensures var q := Flatten(qs, 0, |qs|);
      && Above(avg, q, k) == Flatten(qs, k + 1, |qs|)
      && Within(avg, q, k) == qs[k]
      && Below(avg, q, k) == Flatten(qs, 0, k)
  {
    var hi, lo := Flatten(qs, k + 1, |qs|), Flatten(qs, 0, k);
    forall u | u in hi ensures Locate(avg, u.pri) > k { var i := FlattenMember(qs, k + 1, |qs|, u); }
    forall u | u in lo ensures Locate(avg, u.pri) < k { var i := FlattenMember(qs, 0, k, u); }
    FlattenAround(qs, k);
    SplitThree(avg, hi, qs[k], lo, k);
  }

  lemma SplitThree(avg: nat, hi: seq<Task>, mid: seq<Task>, lo: seq<Task>, k: nat)
    requires avg > 0 && (forall u :: u in hi ==> Locate(avg, u.pri) > k)
    requires (forall u :: u in mid ==> Locate(avg, u.pri) == k) && (forall u :: u in lo ==> Locate(avg, u.pri) < k)
    ensures Above(avg, hi + mid + lo, k) == hi && Within(avg, hi + mid + lo, k) == mid
    ensures Below(avg, hi + mid + lo, k) == lo
  {
    SplitConcat(avg, hi + mid, lo, k);
    SplitConcat(avg, hi, mid, k);
    AllAbove(avg, hi, k);
    AllWithin(avg, mid, k);
    AllBelow(avg, lo, k);
  }

  lemma AllAbove(avg: nat, q: seq<Task>, k: nat)
    requires avg > 0 && forall u :: u in q ==> Locate(avg, u.pri) > k
    ensures Above(avg, q, k) == q && Within(avg, q, k) == [] && Below(avg, q, k) == []
  {
    SplitUniform(avg, q, k);
  }

  lemma AllWithin(avg: nat, q: seq<Task>, k: nat)
    requires avg > 0 && forall u :: u in q ==> Locate(avg, u.pri) == k
    ensures Above(avg, q, k) == [] && Within(avg, q, k) == q && Below(avg, q, k) == []
  {
    SplitUniform(avg, q, k);
  }

  lemma AllBelow(avg: nat, q: seq<Task>, k: nat)
    requires avg > 0 && forall u :: u in q ==> Locate(avg, u.pri) < k
    ensures Above(avg, q, k) == [] && Within(avg, q, k) == [] && Below(avg, q, k) == q
  {
    SplitUniform(avg, q, k);
  }

  lemma {:induction false} SplitMembers(avg: nat, q: seq<Task>, k: nat)
    requires avg > 0
    ensures forall u :: u in Above(avg, q, k) ==> u in q && Locate(avg, u.pri) > k
    ensures forall u :: u in Within(avg, q, k) ==> u in q && Locate(avg, u.pri) == k
    ensures forall u :: u in Below(avg, q, k) ==> u in q && Locate(avg, u.pri) < k
  {
    if q != [] { SplitMembers(avg, q[1..], k); }
  }

  lemma {:induction false} WithinSorted(avg: nat, q: seq<Task>, k: nat)
    requires avg > 0 && Sorted(q)
    ensures Sorted(Within(avg, q, k))
  {
    if q != [] {
      WithinSorted(avg, q[1..], k);
      SplitMembers(avg, q[1..], k);
      var w := Within(avg, q[1..], k);
      forall j | 0 <= j < |w| ensures Precedes(q[0], w[j]) { assert w[j] in w; }
    }
  }

  lemma {:induction false} SplitSorted(avg: nat, q: seq<Task>, k: nat)
    requires avg > 0 && Sorted(q)
    ensures q == Above(avg, q, k) + Within(avg, q, k) + Below(avg, q, k)
  {
    if q != [] {
      var b := Locate(avg, q[0].pri);
      forall u | u in q ensures Locate(avg, u.pri) <= b {
        SortedTail(q);
        LocateMonotone(avg, u.pri, q[0].pri);
      }
      if b < k {
        SplitUniform(avg, q, k);
      } else {
        SplitSorted(avg, q[1..], k);
        SplitMembers(avg, q[1..], k);
        if b == k {
          var a := Above(avg, q[1..], k);
          assert forall u :: u !in a;
          assert a == [];
        }
      }
    }
  }

  /** The tasks that share the new task's queue decide whether insertion is stable. */
  predicate BandSafe(avg: nat, q: seq<Task>, t: Task, tail: bool)
    requires avg > 0
  {
    InsertSafe(Within(avg, q, Locate(avg, t.pri)), t, tail)
  }

  /**
   Into a sorted flat queue, two-level insertion is stable insertion if and only if the task is
   safe within its own band.
   */
  lemma FlatInsertExact(avg: nat, q: seq<Task>, t: Task, tail: bool)
    requires avg > 0 && Sorted(q) && t !in q
    ensures FlatInsert(avg, q, t, tail) == StableInsert(q, t) <==> BandSafe(avg, q, t, tail)
  {
    var k := Locate(avg, t.pri);
    var hi, mid, lo := Above(avg, q, k), Within(avg, q, k), Below(avg, q, k);
    SplitSorted(avg, q, k);
    SplitMembers(avg, q, k);
    WithinSorted(avg, q, k);
    forall u | u in hi ensures !Outranks(t, u) { if u.pri <= t.pri { LocateMonotone(avg, u.pri, t.pri); } }
    forall u | u in lo ensures Outranks(t, u) { if t.pri <= u.pri { LocateMonotone(avg, t.pri, u.pri); } }
    StableInsertStops(hi + mid, lo, t);
    StableInsertPasses(hi, mid, t);
    InsertFromExact(mid, t, FirstCompared(mid, tail));
    var a, b := InsertInto(mid, t, tail), StableInsert(mid, t);
    assert FlatInsert(avg, q, t, tail) == hi + a + lo && StableInsert(q, t) == hi + b + lo;
    assert (hi + a + lo)[|hi|..|hi| + |a|] == a && (hi + b + lo)[|hi|..|hi| + |b|] == b;
  }

  lemma {:induction false} SplitMultiset(avg: nat, q: seq<Task>, k: nat)
    requires avg > 0
    ensures multiset(Above(avg, q, k)) + multiset(Within(avg, q, k)) + multiset(Below(avg, q, k)) == multiset(q)
    ensures |Above(avg, q, k)| + |Within(avg, q, k)| + |Below(avg, q, k)| == |q|
  {
    if q != [] {
      SplitMultiset(avg, q[1..], k);
      assert q == [q[0]] + q[1..];
    }
  }

  /** Whatever the order, insertion adds exactly the task. */
  lemma FlatInsertMultiset(avg: nat, q: seq<Task>, t: Task, tail: bool)
    requires avg > 0
    ensures multiset(FlatInsert(avg, q, t, tail)) == multiset(q) + multiset{t}
    ensures |FlatInsert(avg, q, t, tail)| == |q| + 1
  {
    SplitMultiset(avg, q, Locate(avg, t.pri));
  }
}
