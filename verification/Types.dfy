/** Values shared by every part of the pool model. */
module Types {

  datatype Option<+T> = None | Some(value: T)

  /** ep_TOP and ep_BACK: whether a task goes before or after those of equal priority. */
  datatype Policy = Top | Back

  /** The fields of a task object that the scheduler reads.  `seqno` is written when the task is queued. */
  datatype Task = Task(
    id: nat,
    gid: nat,          // the group it belongs to
    pri: nat,          // 0..99
    policy: Policy,
    push: bool,        // eTASK_VM_F_PUSH: go straight to the tail
    once: bool,        // eTASK_VM_F_PRI_ONCE: the priority is reset after one run
    handler: bool,     // task_err_handler is not NULL
    seqno: nat)

  function Min(a: int, b: int): int { if a < b then a else b }

  function Max(a: int, b: int): int { if a < b then b else a }

  /** list_del of one node: the list without `x`, the others in order. */
  function Remove<T(==)>(s: seq<T>, x: T): (r: seq<T>)
    ensures |r| <= |s|
    ensures forall k :: 0 <= k < |r| ==> r[k] in s
  {
    if s == [] then [] else if s[0] == x then s[1..] else [s[0]] + Remove(s[1..], x)
  }

  ghost predicate NoDup<T>(s: seq<T>)
  {
    forall i, j :: 0 <= i < j < |s| ==> s[i] != s[j]
  }

  lemma {:induction false} RemoveMembers<T>(s: seq<T>, x: T)
    requires NoDup(s)
    ensures NoDup(Remove(s, x))
    ensures forall y :: y in Remove(s, x) <==> y in s && y != x
    ensures |Remove(s, x)| == |s| - (if x in s then 1 else 0)
  {
    if s != [] && s[0] != x {
      var tail := s[1..];
      RemoveMembers(tail, x);
      assert forall y :: y in s <==> y == s[0] || y in tail;
      assert s[0] !in tail;
      var r := Remove(s, x);
      assert r == [s[0]] + Remove(tail, x);
      assert forall y :: y in r <==> y == s[0] || y in Remove(tail, x);
      forall i, j | 0 <= i < j < |r| ensures r[i] != r[j] {
        assert r[j] in Remove(tail, x);
      }
    } else if s != [] {
      assert forall y :: y in s <==> y == s[0] || y in s[1..];
      assert x !in s[1..];
    }
  }

  // ---- counting tasks ----

  /** Which tasks are counted. */
  datatype Sel = Every | InGroup(g: nat) | BelowGroup(m: nat) | WithId(id: nat) | WithSeq(n: nat)

  predicate Selects(s: Sel, t: Task)
  {
    match s
    case Every => true
    case InGroup(g) => t.gid == g
    case BelowGroup(m) => t.gid < m
    case WithId(id) => t.id == id
    case WithSeq(n) => t.seqno == n
  }

  function Bit(b: bool): nat { if b then 1 else 0 }

  function Matching(q: seq<Task>, s: Sel): nat
  {
    if q == [] then 0 else Bit(Selects(s, q[0])) + Matching(q[1..], s)
  }

  lemma {:induction false} MatchingConcat(p: seq<Task>, q: seq<Task>, s: Sel)
    ensures Matching(p + q, s) == Matching(p, s) + Matching(q, s)
  {
    if p == [] { assert p + q == q; } else { assert (p + q)[1..] == p[1..] + q; MatchingConcat(p[1..], q, s); }
  }

  lemma MatchingAround(q: seq<Task>, i: nat, s: Sel)
    requires i < |q|
    ensures Matching(q, s) == Matching(q[..i] + q[i + 1..], s) + Bit(Selects(s, q[i]))
  {
    assert q == q[..i] + ([q[i]] + q[i + 1..]);
    MatchingConcat(q[..i], [q[i]] + q[i + 1..], s);
    MatchingConcat(q[..i], q[i + 1..], s);
  }

  lemma {:induction false} MatchingRemove(q: seq<Task>, t: Task, s: Sel)
    ensures Matching(Remove(q, t), s) == Matching(q, s) - Bit(t in q && Selects(s, t))
  {
    if q != [] && q[0] != t { MatchingRemove(q[1..], t, s); }
  }

  lemma {:induction false} MatchingMember(q: seq<Task>, i: nat, s: Sel)
    requires i < |q| && Selects(s, q[i])
    ensures Matching(q, s) >= 1
  {
    if i > 0 { MatchingMember(q[1..], i - 1, s); }
  }

  lemma {:induction false} MatchingNextGroup(q: seq<Task>, n: nat)
    ensures Matching(q, BelowGroup(n + 1)) == Matching(q, BelowGroup(n)) + Matching(q, InGroup(n))
  {
    if q != [] { MatchingNextGroup(q[1..], n); }
  }

  lemma {:induction false} MatchingAll(q: seq<Task>, s: Sel)
    requires forall i :: 0 <= i < |q| ==> Selects(s, q[i])
    ensures Matching(q, s) == Matching(q, Every)
  {
    if q != [] { MatchingAll(q[1..], s); }
  }
}
