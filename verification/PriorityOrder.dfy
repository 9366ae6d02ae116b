/**
 The order in which tasks are meant to be scheduled, insertion as the source performs it,
 and the exact condition under which the two agree.
 */
module PriorityOrder {
  import opened Types

  // ---- the intended order ----

  /** Higher priority first; among equals TOP before BACK, the newest TOP first, the oldest BACK first. */
  predicate Precedes(a: Task, b: Task)
  {
    a.pri > b.pri ||
    (a.pri == b.pri &&
     if a.policy == Top then b.policy == Back || a.seqno > b.seqno
     else b.policy == Back && a.seqno < b.seqno)
  }

  ghost predicate Sorted(q: seq<Task>)
  {
    forall i, j :: 0 <= i < j < |q| ==> Precedes(q[i], q[j])
  }

  /** Where a newly queued task belongs: before the first task it outranks. */
  predicate Outranks(t: Task, u: Task) { t.pri > u.pri || (t.pri == u.pri && t.policy == Top) }

  function StableInsert(q: seq<Task>, t: Task): (r: seq<Task>)
    ensures |r| == |q| + 1 && multiset(r) == multiset(q) + multiset{t}
  {
    if q == [] then [t]
    else if Outranks(t, q[0]) then assert q == [q[0]] + q[1..]; [t] + q
    else assert q == [q[0]] + q[1..]; [q[0]] + StableInsert(q[1..], t)
  }

  /** The task is newer than everything queued. */
  ghost predicate Newest(q: seq<Task>, t: Task) { forall u :: u in q ==> u.seqno < t.seqno }

  /** eTASK_VM_F_PUSH is only ever set together with priority 0 and policy BACK. */
  predicate PushIsLowest(t: Task) { t.push ==> t.pri == 0 && t.policy == Back }

  lemma PrecedesIsStrictTotal(a: Task, b: Task, c: Task)
    ensures !Precedes(a, a)
    ensures Precedes(a, b) && Precedes(b, c) ==> Precedes(a, c)
    ensures a.seqno != b.seqno ==> (Precedes(a, b) <==> !Precedes(b, a))
  {
  }

  lemma {:induction false} StableInsertSorted(q: seq<Task>, t: Task)
    requires Sorted(q) && Newest(q, t)
    ensures Sorted(StableInsert(q, t))
    ensures forall u :: u in StableInsert(q, t) <==> u == t || u in q
  {
    if q != [] && !Outranks(t, q[0]) {
      StableInsertSorted(q[1..], t);
      var r := StableInsert(q[1..], t);
      forall j | 0 <= j < |r| ensures Precedes(q[0], r[j]) {
        assert r[j] in r;
        assert r[j] == t || r[j] in q[1..];
      }
    } else {
      forall j | 0 <= j < |q| ensures Precedes(t, q[j]) { assert q[j] in q && (j > 0 ==> Precedes(q[0], q[j])); }
    }
  }

  lemma SortedTail(q: seq<Task>)
    requires Sorted(q) && q != []
    ensures Sorted(q[1..]) && forall u :: u in q ==> u == q[0] || Precedes(q[0], u)
  {
  }

  lemma {:induction false} SortedRemove(q: seq<Task>, t: Task)
    requires Sorted(q)
    ensures Sorted(Remove(q, t))
  {
    if q != [] && q[0] != t {
      SortedRemove(q[1..], t);
      var r := Remove(q[1..], t);
      forall j | 0 <= j < |r| ensures Precedes(q[0], r[j]) { assert r[j] in q[1..]; }
    }
  }

  lemma {:induction false} StableInsertPasses(p: seq<Task>, q: seq<Task>, t: Task)
    requires forall u :: u in p ==> !Outranks(t, u)
    ensures StableInsert(p + q, t) == p + StableInsert(q, t)
  {
    if p == [] {
      assert p + q == q;
    } else {
      assert (p + q)[1..] == p[1..] + q;
      StableInsertPasses(p[1..], q, t);
    }
  }

  lemma {:induction false} StableInsertStops(p: seq<Task>, q: seq<Task>, t: Task)
    requires forall u :: u in q ==> Outranks(t, u)
    ensures StableInsert(p + q, t) == StableInsert(p, t) + q
  {
    if p == [] {
      assert p + q == q;
    } else if !Outranks(t, p[0]) {
      assert (p + q)[1..] == p[1..] + q;
      StableInsertStops(p[1..], q, t);
    }
  }

  // ---- one scan ----

  function InsertAt(q: seq<Task>, at: nat, t: Task): (r: seq<Task>)
    requires at <= |q|
    ensures |r| == |q| + 1 && multiset(r) == multiset(q) + multiset{t}
  {
    assert q == q[..at] + q[at..];
    q[..at] + [t] + q[at..]
  }

  /** The first position from `i` on whose task is outranked. */
  function FirstOutranked(q: seq<Task>, t: Task, i: nat): (r: nat)
    requires i <= |q|
    ensures i <= r <= |q| && (forall j :: i <= j < r ==> !Outranks(t, q[j])) && (r < |q| ==> Outranks(t, q[r]))
    decreases |q| - i
  {
    if i == |q| || Outranks(t, q[i]) then i else FirstOutranked(q, t, i + 1)
  }

  /** The last position before `s` whose task has another priority, or -1. */
  function LastDiffering(q: seq<Task>, t: Task, s: nat): (r: int)
    requires s <= |q|
    ensures -1 <= r < s && (forall j :: r < j < s ==> q[j].pri == t.pri) && (r >= 0 ==> q[r].pri != t.pri)
  {
    if s == 0 then -1 else if q[s - 1].pri != t.pri then s - 1 else LastDiffering(q, t, s - 1)
  }

  /** The place __cpool_com_priq_insert0 chooses when its first comparison is with position `s`. */
  function ScanPlace(q: seq<Task>, t: Task, s: nat): (r: nat)
    requires s < |q|
    ensures r <= |q|
  {
    if t.pri < q[s].pri || (t.pri == q[s].pri && t.policy == Back) then s + 1
    else if t.pri == q[s].pri && LastDiffering(q, t, s) >= 0 then LastDiffering(q, t, s) + 1
    else FirstOutranked(q, t, 0)
  }

  /** __cpool_com_priq_insert0 with the position of its first comparison as a parameter. */
  function InsertFrom(q: seq<Task>, t: Task, s: nat): (r: seq<Task>)
    requires q != [] ==> s < |q|
    ensures |r| == |q| + 1 && multiset(r) == multiset(q) + multiset{t}
  {
    if t.push || q == [] then q + [t] else InsertAt(q, ScanPlace(q, t, s), t)
  }

  lemma {:induction false} StableIsFirst(q: seq<Task>, t: Task)
    ensures StableInsert(q, t) == InsertAt(q, FirstOutranked(q, t, 0), t)
  {
    var at := FirstOutranked(q, t, 0);
    assert q == q[..at] + q[at..];
    StableInsertPasses(q[..at], q[at..], t);
  }

  lemma InsertAtInjective(q: seq<Task>, t: Task, a: nat, b: nat)
    requires a <= |q| && b <= |q| && t !in q
    ensures InsertAt(q, a, t) == InsertAt(q, b, t) <==> a == b
  {
    assert InsertAt(q, a, t)[a] == t;
    if b < a { assert InsertAt(q, a, t)[b] == q[b]; }
    if a < b { assert InsertAt(q, b, t)[a] == q[a]; }
    assert InsertAt(q, b, t)[b] == t;
  }

  lemma OutrankedOnwards(q: seq<Task>, t: Task, i: nat, j: nat)
    requires Sorted(q) && i <= j < |q| && Outranks(t, q[i])
    ensures Outranks(t, q[j])
  {
    assert i < j ==> Precedes(q[i], q[j]);
  }

  /** The task does not belong further down than the position after the one first compared. */
  predicate PlaceSafe(q: seq<Task>, t: Task, s: nat)
  {
    if t.push then q == [] || !Outranks(t, q[|q| - 1])
    else q == [] || (s < |q| && (Outranks(t, q[s]) || s + 1 == |q| || Outranks(t, q[s + 1])))
  }

  lemma PlaceExact(q: seq<Task>, t: Task, s: nat)
    requires Sorted(q) && s < |q|
    ensures ScanPlace(q, t, s) == FirstOutranked(q, t, 0) <==>
      Outranks(t, q[s]) || s + 1 == |q| || Outranks(t, q[s + 1])
  {
    var at := FirstOutranked(q, t, 0);
    if Outranks(t, q[s]) {
      var d := LastDiffering(q, t, s);
      if t.pri == q[s].pri && d >= 0 {
        assert Precedes(q[d], q[s]);
        if d + 1 < s { assert q[d + 1].pri == t.pri; }
        assert Outranks(t, q[d + 1]);
        if at <= d { OutrankedOnwards(q, t, at, d); }
      }
    } else if at <= s {
      OutrankedOnwards(q, t, at, s);
    }
  }

  /**
   Insertion that starts its comparisons at position `s` of a sorted queue is stable insertion
   if and only if the task does not belong further down than the position after `s`.
   */
  lemma InsertFromExact(q: seq<Task>, t: Task, s: nat)
    requires Sorted(q) && t !in q && (q != [] ==> s < |q|)
    ensures InsertFrom(q, t, s) == StableInsert(q, t) <==> PlaceSafe(q, t, s)
  {
    StableIsFirst(q, t);
    if q != [] && t.push {
      PushExact(q, t);
    } else if q != [] {
      PlaceExact(q, t, s);
      InsertAtInjective(q, t, ScanPlace(q, t, s), FirstOutranked(q, t, 0));
    }
  }

  lemma PushExact(q: seq<Task>, t: Task)
    requires Sorted(q) && t !in q && q != []
    ensures q + [t] == InsertAt(q, FirstOutranked(q, t, 0), t) <==> !Outranks(t, q[|q| - 1])
  {
    var at := FirstOutranked(q, t, 0);
    assert q + [t] == InsertAt(q, |q|, t);
    InsertAtInjective(q, t, |q|, at);
    if at < |q| { OutrankedOnwards(q, t, at, |q| - 1); }
  }

  /** Compared first with the last task, as the comment in the source says, insertion is always stable. */
  lemma InsertFromTailStable(q: seq<Task>, t: Task)
    requires Sorted(q) && t !in q && PushIsLowest(t)
    ensures InsertFrom(q, t, if q == [] then 0 else |q| - 1) == StableInsert(q, t)
  {
    InsertFromExact(q, t, if q == [] then 0 else |q| - 1);
  }

  // ---- the two forms: the first comparison is with the last task, or, as written, with the first ----

  /** The position first compared with: the source's comment says the last task, its code takes the first. */
  function FirstCompared(q: seq<Task>, tail: bool): (s: nat)
    ensures q != [] ==> s < |q|
  {
    if tail && q != [] then |q| - 1 else 0
  }

  function InsertInto(q: seq<Task>, t: Task, tail: bool): (r: seq<Task>)
    ensures |r| == |q| + 1 && multiset(r) == multiset(q) + multiset{t}
  {
    InsertFrom(q, t, FirstCompared(q, tail))
  }

  predicate InsertSafe(q: seq<Task>, t: Task, tail: bool) { PlaceSafe(q, t, FirstCompared(q, tail)) }

  /** In the intended form every task is safe everywhere. */
  lemma TailIsSafe(q: seq<Task>, t: Task)
    requires PushIsLowest(t)
    ensures InsertSafe(q, t, true)
  {
  }

  function InsertWritten(q: seq<Task>, t: Task): (r: seq<Task>)
    ensures |r| == |q| + 1 && multiset(r) == multiset(q) + multiset{t}
  {
    InsertInto(q, t, false)
  }

  /** As written, insertion never looks past the first task: the place is the head, second, or the tail. */
  lemma InsertWrittenPlaces(q: seq<Task>, t: Task)
    ensures InsertWritten(q, t) ==
            if t.push || q == [] then q + [t] else if Outranks(t, q[0]) then [t] + q else [q[0], t] + q[1..]
  {
  }

  /** A pushed task is always inserted where it belongs. */
  lemma PushIsSafe(q: seq<Task>, t: Task)
    requires t.push && PushIsLowest(t)
    ensures InsertSafe(q, t, false)
  {
  }

  /** Queueing priorities 90, 50 and then 10 leaves the 10 before the 50. */
  lemma InsertWrittenMisorders()
    ensures var a := Task(1, 0, 90, Back, false, false, false, 1);
      var b := Task(2, 0, 50, Back, false, false, false, 2);
      var c := Task(3, 0, 10, Back, false, false, false, 3);
      InsertWritten(InsertWritten(InsertWritten([], a), b), c) == [a, c, b] && Precedes(b, c)
  {
    var a := Task(1, 0, 90, Back, false, false, false, 1);
    var b := Task(2, 0, 50, Back, false, false, false, 2);
    InsertWrittenPlaces([a], b);
    InsertWrittenPlaces([a, b], Task(3, 0, 10, Back, false, false, false, 3));
  }

  /** Three tasks of one priority and policy BACK do not stay first-in first-out. */
  lemma InsertWrittenBreaksFifo(pri: nat)
    ensures var a := Task(1, 0, pri, Back, false, false, false, 1);
      var b := Task(2, 0, pri, Back, false, false, false, 2);
      var c := Task(3, 0, pri, Back, false, false, false, 3);
      InsertWritten(InsertWritten(InsertWritten([], a), b), c) == [a, c, b] && Precedes(b, c)
  {
    var a := Task(1, 0, pri, Back, false, false, false, 1);
    var b := Task(2, 0, pri, Back, false, false, false, 2);
    InsertWrittenPlaces([a], b);
    InsertWrittenPlaces([a, b], Task(3, 0, pri, Back, false, false, false, 3));
  }

  /** __cpool_com_priq_insert0: the reverse scan among equals, then the scan from the head. */
  method InsertOne(q: seq<Task>, t: Task, s: nat) returns (r: seq<Task>)
    requires q != [] ==> s < |q|
    ensures r == InsertFrom(q, t, s)
  {
    if t.push || q == [] {
      return q + [t];
    }
    var peek: int := s;
    if t.pri <= q[peek].pri {
      if t.pri < q[peek].pri || t.policy == Back {
        return q[..peek + 1] + [t] + q[peek + 1..];
      }
      peek := peek - 1;
      while peek >= 0
        invariant -1 <= peek < s
        invariant LastDiffering(q, t, peek + 1) == LastDiffering(q, t, s)
      {
        if q[peek].pri != t.pri {
          return q[..peek + 1] + [t] + q[peek + 1..];
        }
        peek := peek - 1;
      }
    }
    peek := 0;
    while peek < |q|
      invariant 0 <= peek <= |q|
      invariant FirstOutranked(q, t, peek) == FirstOutranked(q, t, 0)
    {
      if t.pri > q[peek].pri || (t.pri == q[peek].pri && t.policy == Top) {
        return q[..peek] + [t] + q[peek..];
      }
      peek := peek + 1;
    }
    assert false;
  }
}
