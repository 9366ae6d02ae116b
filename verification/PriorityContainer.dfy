/** The container object: an array of queues and the list of ready ones, changed in place. */
module PriorityContainer {
  import opened Types
  import opened PriorityOrder
  import opened PriorityQueue

  ghost predicate Descending(s: seq<nat>) { forall i, j :: 0 <= i < j < |s| ==> s[i] > s[j] }

  lemma {:induction false} RemoveFromConcat(p: seq<Task>, q: seq<Task>, t: Task)
    ensures t !in p ==> Remove(p + q, t) == p + Remove(q, t)
    ensures t in p ==> Remove(p + q, t) == Remove(p, t) + q
  {
    if p == [] {
      assert p + q == q;
    } else {
      assert (p + q)[1..] == p[1..] + q;
      RemoveFromConcat(p[1..], q, t);
    }
  }

  class Container {
    const num: nat
    const avg: nat
    const taskq: array<seq<Task>>
    var ready: seq<nat>

    ghost predicate Valid()
      reads this, taskq
    {
      && num > 0 && avg > 0 && avg == 100 / num && taskq.Length == num
      && Descending(ready)
      && (forall k :: k in ready ==> k < num)
      && (forall k :: 0 <= k < num ==> (k in ready <==> taskq[k] != []))
      && Banded(avg, taskq[..])
    }

    /** The tasks in scheduling order. */
    ghost function View(): seq<Task>
      reads this, taskq
      requires Valid()
    {
      Flatten(taskq[..], 0, num)
    }

    constructor (priqNum: nat)
      requires 1 <= priqNum <= 100
      ensures Valid() && fresh(taskq) && num == priqNum && View() == []
    {
      num := priqNum;
      avg := 100 / priqNum;
      taskq := new seq<Task>[priqNum](_ => []);
      ready := [];
      new;
      FlattenEmpty(taskq[..], 0, priqNum);
    }

    /** What the ready list says about the view. */
    lemma ReadyHead()
      requires Valid()
      ensures ready == [] <==> View() == []
      ensures ready != [] ==> ready[0] < num && taskq[ready[0]] != []
      ensures ready != [] ==> View() == taskq[ready[0]] + Flatten(taskq[..], 0, ready[0])
    {
      var qs := taskq[..];
      if ready == [] {
        FlattenEmpty(qs, 0, num);
      } else {
        var k := ready[0];
        assert k in ready;
        forall i | k < i < num ensures qs[i] == [] { assert i !in ready; }
        FlattenAround(qs, k);
        FlattenEmpty(qs, k + 1, num);
      }
    }

    method Empty() returns (r: bool)
      requires Valid()
      ensures r <==> View() == []
    {
      ReadyHead();
      r := ready == [];
    }

    /** __cpool_com_priq_top */
    method PeekTop() returns (t: Task)
      requires Valid() && View() != []
      ensures t == View()[0]
    {
      ReadyHead();
      t := taskq[ready[0]][0];
    }

    /** __cpool_com_priq_pop */
    method Pop() returns (t: Task)
      requires Valid() && View() != []
      modifies this, taskq
      ensures Valid() && t == old(View())[0] && View() == old(View())[1..]
    {
      ReadyHead();
      var k := ready[0];
      ghost var qs := taskq[..];
      assert k in ready;
      t := taskq[k][0];
      taskq[k] := taskq[k][1..];
      if taskq[k] == [] {
        ready := ready[1..];
      }
      assert taskq[..] == qs[k := qs[k][1..]];
      FlattenAround(qs, k);
      FlattenUpdate(qs, k, qs[k][1..]);
      forall i | k < i < num ensures qs[i] == [] { assert i !in old(ready); }
      FlattenEmpty(qs, k + 1, num);
    }

    /** __cpool_com_priq_active: link queue `q` into the descending ready list. */
    method Activate(q: nat)
      requires Descending(ready) && q !in ready
      modifies this
      ensures Descending(ready) && forall k :: k in ready <==> k == q || k in old(ready)
    {
      if ready == [] {
        ready := [q];
      } else if q < ready[|ready| - 1] {
        ready := ready + [q];
      } else {
        var i := 0;
        while i < |ready|
          invariant 0 <= i <= |ready|
          invariant ready == old(ready)
          invariant forall j :: 0 <= j < i ==> ready[j] > q
        {
          if q > ready[i] {
            ready := ready[..i] + [q] + ready[i..];
            assert old(ready) == old(ready)[..i] + old(ready)[i..];
            return;
          }
          assert ready[i] in ready;
          i := i + 1;
        }
        assert false;
      }
    }

    /** __cpool_com_priq_insert; the task's queue index must exist. */
    method Insert(t: Task)
      requires Valid() && Locate(avg, t.pri) < num
      modifies this, taskq
      ensures Valid() && View() == FlatInsert(avg, old(View()), t, false)
    {
      var k := Locate(avg, t.pri);
      ghost var qs := taskq[..];
      if taskq[k] == [] {
        Activate(k);
      }
      var q := InsertOne(taskq[k], t, 0);
      taskq[k] := q;
      assert taskq[..] == qs[k := q];
      InsertView(avg, qs, t);
    }

    /** __cpool_com_priq_erase of a queued task. */
    method Erase(t: Task)
      requires Valid() && t in View()
      modifies this, taskq
      ensures Valid() && View() == Remove(old(View()), t)
    {
      var k := Locate(avg, t.pri);
      ghost var qs := taskq[..];
      EraseView(avg, qs, t);
      taskq[k] := Remove(taskq[k], t);
      assert taskq[..] == qs[k := Remove(qs[k], t)];
      if taskq[k] == [] {
        RemoveDescending(ready, k);
        RemoveMembers(ready, k);
        ready := Remove(ready, k);
      }
    }
  }

  lemma InsertView(avg: nat, qs: seq<seq<Task>>, t: Task)
    requires avg > 0 && Banded(avg, qs) && Locate(avg, t.pri) < |qs|
    ensures var k := Locate(avg, t.pri); var rs := qs[k := InsertWritten(qs[k], t)];
      Banded(avg, rs) && Flatten(rs, 0, |rs|) == FlatInsert(avg, Flatten(qs, 0, |qs|), t, false)
  {
    var k := Locate(avg, t.pri);
    var q := InsertWritten(qs[k], t);
    FlattenUpdate(qs, k, q);
    SplitFlatten(avg, qs, k);
    forall j | 0 <= j < |q| ensures Locate(avg, q[j].pri) == k {
      assert q[j] in multiset(q);
      assert q[j] == t || q[j] in qs[k];
    }
  }

  lemma EraseView(avg: nat, qs: seq<seq<Task>>, t: Task)
    requires avg > 0 && Banded(avg, qs) && t in Flatten(qs, 0, |qs|)
    ensures Locate(avg, t.pri) < |qs| && t in qs[Locate(avg, t.pri)]
    ensures var rs := qs[Locate(avg, t.pri) := Remove(qs[Locate(avg, t.pri)], t)];
      Banded(avg, rs) && Flatten(rs, 0, |rs|) == Remove(Flatten(qs, 0, |qs|), t)
  {
    var k := FlattenMember(qs, 0, |qs|, t);
    assert k == Locate(avg, t.pri);
    var hi, lo := Flatten(qs, k + 1, |qs|), Flatten(qs, 0, k);
    FlattenUpdate(qs, k, Remove(qs[k], t));
    FlattenAround(qs, k);
    if t in hi { var j := FlattenMember(qs, k + 1, |qs|, t); }
    RemoveFromMiddle(hi, qs[k], lo, t);
  }

  lemma RemoveFromMiddle(hi: seq<Task>, q: seq<Task>, lo: seq<Task>, t: Task)
    requires t !in hi && t in q
    ensures Remove(hi + q + lo, t) == hi + Remove(q, t) + lo
  {
    assert hi + q + lo == hi + (q + lo);
    RemoveFromConcat(hi, q + lo, t);
    RemoveFromConcat(q, lo, t);
    assert hi + (Remove(q, t) + lo) == hi + Remove(q, t) + lo;
  }

  lemma {:induction false} RemoveDescending(s: seq<nat>, x: nat)
    requires Descending(s)
    ensures Descending(Remove(s, x)) && NoDup(s)
  {
    if s != [] && s[0] != x {
      RemoveDescending(s[1..], x);
      var r := Remove(s[1..], x);
      forall j | 0 <= j < |r| ensures s[0] > r[j] { assert r[j] in s[1..]; }
    }
  }
}
