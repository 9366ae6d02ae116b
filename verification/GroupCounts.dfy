/**
 Sums over the entries, and the places a task can be in.
 */
module GroupCounts {
  import opened Types
  import opened ThreadModel
  import opened ThreadCounts
  import opened PriorityOrder
  import opened PriorityQueue
  import opened GroupModel

  /** What is summed over the entries. */
  datatype Measure = Pending | Startable | InRun | InDispatch | Traced | Queued(s: Sel)

  function Of(e: Entry, m: Measure): int
  {
    match m
    case Pending => if e.paused then 0 else e.npendings
    case Startable => if e.paused then 0 else if e.benefits then e.npendings else e.eff
    case InRun => e.nrunnings
    case InDispatch => e.ndispatchings
    case Traced => e.ntraces
    case Queued(s) => Matching(e.queue, s)
  }

  function Sum(es: seq<Entry>, m: Measure): int
  {
    if es == [] then 0 else Sum(es[..|es| - 1], m) + Of(es[|es| - 1], m)
  }

  lemma {:induction false} SumUpdate(es: seq<Entry>, g: nat, e: Entry, m: Measure)
    requires g < |es|
    ensures Sum(es[g := e], m) == Sum(es, m) - Of(es[g], m) + Of(e, m)
  {
    var n := |es| - 1;
    if g < n {
      SumUpdate(es[..n], g, e, m);
      assert es[g := e][..n] == es[..n][g := e];
    } else {
      assert es[g := e][..n] == es[..n];
    }
  }

  lemma {:induction false} SumAppend(es: seq<Entry>, fs: seq<Entry>, m: Measure)
    ensures Sum(es + fs, m) == Sum(es, m) + Sum(fs, m)
  {
    if fs == [] {
      assert es + fs == es;
    } else {
      var n := |fs| - 1;
      SumAppend(es, fs[..n], m);
      assert (es + fs)[..|es| + n] == es + fs[..n];
    }
  }

  ghost predicate NonNegative(es: seq<Entry>, m: Measure) { forall g :: 0 <= g < |es| ==> Of(es[g], m) >= 0 }

  lemma {:induction false} SumMember(es: seq<Entry>, g: nat, m: Measure)
    requires g < |es| && NonNegative(es, m)
    ensures Sum(es, m) >= Of(es[g], m)
    ensures Sum(es, m) >= 0
  {
    var n := |es| - 1;
    if g < n { SumMember(es[..n], g, m); } else { SumNonNegative(es[..n], m); }
  }

  lemma {:induction false} SumNonNegative(es: seq<Entry>, m: Measure)
    requires NonNegative(es, m)
    ensures Sum(es, m) >= 0
  {
    if es != [] { SumNonNegative(es[..|es| - 1], m); }
  }

  lemma {:induction false} SumPositive(es: seq<Entry>, m: Measure) returns (g: nat)
    requires Sum(es, m) > 0
    ensures g < |es| && Of(es[g], m) > 0
  {
    var n := |es| - 1;
    if Of(es[n], m) > 0 { g := n; } else { g := SumPositive(es[..n], m); }
  }

  lemma {:induction false} SumZero(es: seq<Entry>, m: Measure)
    requires forall g :: 0 <= g < |es| ==> Of(es[g], m) == 0
    ensures Sum(es, m) == 0
  {
    if es != [] { SumZero(es[..|es| - 1], m); }
  }

  /** Two different entries contribute both. */
  lemma SumTwo(es: seq<Entry>, g: nat, h: nat, m: Measure)
    requires g < |es| && h < |es| && g != h && NonNegative(es, m)
    ensures Sum(es, m) >= Of(es[g], m) + Of(es[h], m)
  {
    SumUpdate(es, g, FREESLOT.(paused := true), m);
    var fs := es[g := FREESLOT.(paused := true)];
    assert NonNegative(fs, m);
    SumMember(fs, h, m);
  }

  // ---- what insertion adds ----

  lemma PrependMatching(c: bool, x: Task, q: seq<Task>, s: Sel)
    ensures Matching((if c then [x] else []) + q, s) == Matching(q, s) + Bit(c && Selects(s, x))
  {
    assert c ==> ([x] + q)[1..] == q;
    assert !c ==> [] + q == q;
  }

  lemma {:induction false} SplitMatching(avg: nat, q: seq<Task>, k: nat, s: Sel)
    requires avg > 0
    ensures Matching(Above(avg, q, k), s) + Matching(Within(avg, q, k), s) + Matching(Below(avg, q, k), s) ==
      Matching(q, s)
  {
    if q != [] {
      var t := q[1..];
      var b := Locate(avg, q[0].pri);
      SplitMatching(avg, t, k, s);
      PrependMatching(b > k, q[0], Above(avg, t, k), s);
      PrependMatching(b == k, q[0], Within(avg, t, k), s);
      PrependMatching(b < k, q[0], Below(avg, t, k), s);
    }
  }

  lemma InsertMatching(q: seq<Task>, at: nat, t: Task, s: Sel)
    requires at <= |q|
    ensures Matching(InsertAt(q, at, t), s) == Matching(q, s) + Bit(Selects(s, t))
  {
    var r := InsertAt(q, at, t);
    MatchingAround(r, at, s);
    assert r[..at] + r[at + 1..] == q;
  }

  lemma InsertIntoMatching(q: seq<Task>, t: Task, tail: bool, s: Sel)
    ensures Matching(InsertInto(q, t, tail), s) == Matching(q, s) + Bit(Selects(s, t))
  {
    var at := if t.push || q == [] then |q| else ScanPlace(q, t, FirstCompared(q, tail));
    assert q + [t] == InsertAt(q, |q|, t);
    InsertMatching(q, at, t, s);
  }

  /** Whatever the order, insertion adds exactly the task. */
  lemma FlatInsertMatching(avg: nat, q: seq<Task>, t: Task, tail: bool, s: Sel)
    requires avg > 0
    ensures Matching(FlatInsert(avg, q, t, tail), s) == Matching(q, s) + Bit(Selects(s, t))
  {
    var k := Locate(avg, t.pri);
    var hi, mid, lo := Above(avg, q, k), Within(avg, q, k), Below(avg, q, k);
    SplitMatching(avg, q, k, s);
    InsertIntoMatching(mid, t, tail, s);
    MatchingConcat(hi + InsertInto(mid, t, tail), lo, s);
    MatchingConcat(hi, InsertInto(mid, t, tail), s);
  }
}
