/**
 The object cache: a singly linked queue whose destroyable objects are kept in front, so that
 flushing can stop at the first object it must keep.
 */
module SmCache {
  import opened Types

  /** An object of the cache; `doomed` is the answer of need_destroy, which does not change. */
  class Link {
    var next: Link?
    const doomed: bool

    constructor (doomed: bool)
      ensures this.doomed == doomed && next == null
    {
      this.doomed := doomed;
      next := null;
    }
  }

  // ---- what the operations do to the sequence of cached objects ----

  /** The destroyable objects come first. */
  ghost predicate Prefixed(s: seq<Link>) { forall i, j :: 0 <= i < j < |s| && s[j].doomed ==> s[i].doomed }

  function PrefixLength(s: seq<Link>): (k: nat)
    ensures k <= |s| && (forall i :: 0 <= i < k ==> s[i].doomed) && (k < |s| ==> !s[k].doomed)
  {
    if s == [] || !s[0].doomed then 0 else 1 + PrefixLength(s[1..])
  }

  /** smcache_addl */
  function Added(s: seq<Link>, o: Link): seq<Link> { if o.doomed && s != [] then [o] + s else s + [o] }

  /** smcache_addl_dir */
  function AddedFirst(s: seq<Link>, o: Link): seq<Link> { [o] + s }

  function AddedAll(s: seq<Link>, q: seq<Link>): seq<Link>
    decreases |q|
  {
    if q == [] then s else AddedAll(Added(s, q[0]), q[1..])
  }

  /** smcache_flushablel */
  predicate Flushable(s: seq<Link>, limit: int) { 0 <= limit < |s| && s[0].doomed }

  /** How many objects smcache_get_flush_ql takes. */
  function FlushCount(s: seq<Link>, limit: nat): (k: nat)
    requires limit <= |s|
    ensures k <= |s|
  {
    if limit == 0 && s != [] && s[|s| - 1].doomed then |s| else Min(|s| - limit, PrefixLength(s))
  }

  lemma PrefixedLength(s: seq<Link>)
    requires Prefixed(s)
    ensures forall i :: 0 <= i < |s| ==> (s[i].doomed <==> i < PrefixLength(s))
  {
  }

  /** Insertion keeps the destroyable objects in front, and adds exactly the object. */
  lemma AddedPrefixed(s: seq<Link>, o: Link)
    requires Prefixed(s)
    ensures Prefixed(Added(s, o)) && multiset(Added(s, o)) == multiset(s) + multiset{o}
  {
  }

  lemma {:induction false} AddedAllPrefixed(s: seq<Link>, q: seq<Link>)
    requires Prefixed(s)
    ensures Prefixed(AddedAll(s, q)) && multiset(AddedAll(s, q)) == multiset(s) + multiset(q)
    decreases |q|
  {
    if q != [] {
      AddedPrefixed(s, q[0]);
      AddedAllPrefixed(Added(s, q[0]), q[1..]);
      assert q == [q[0]] + q[1..];
    }
  }

  /** Adding straight to the front keeps them there if and only if the object is one, or there are none. */
  lemma AddedFirstPrefixed(s: seq<Link>, o: Link)
    requires Prefixed(s)
    ensures Prefixed(AddedFirst(s, o)) <==> o.doomed || s == [] || !s[0].doomed
  {
    var r := AddedFirst(s, o);
    if !o.doomed && s != [] && s[0].doomed { assert r[1].doomed && !r[0].doomed; }
  }

  /**
   Flushing to a limit takes exactly min(n - limit, destroyable prefix) objects from the front, all of
   them destroyable, and leaves the rest in order, the destroyable ones still in front.
   */
  lemma FlushExact(s: seq<Link>, limit: nat)
    requires Prefixed(s) && Flushable(s, limit)
    ensures var k := FlushCount(s, limit);
      && k == Min(|s| - limit, PrefixLength(s)) && k >= 1
      && (forall o :: o in s[..k] ==> o.doomed) && Prefixed(s[k..])
      && !(|s[k..]| > limit && s[k..][0].doomed)
  {
    PrefixedLength(s);
  }

  /** Without the prefix, flushing to zero takes objects that must be kept exactly when the last one is destroyable. */
  lemma FlushTakesOthers(s: seq<Link>, limit: nat)
    requires Flushable(s, limit)
    ensures (exists i :: 0 <= i < FlushCount(s, limit) && !s[i].doomed) <==>
            limit == 0 && s[|s| - 1].doomed && exists i :: 0 <= i < |s| && !s[i].doomed
  {
  }

  // ---- smcache_add_limit ----

  /** The object is turned away. */
  predicate Ejects(s: seq<Link>, o: Link, limit: int) { !(limit < 0 || !o.doomed || limit > |s|) }

  /** What becomes of the cache, what is destroyed, and what is neither cached nor destroyed. */
  datatype Outcome = Outcome(cache: seq<Link>, destroyed: seq<Link>, lost: seq<Link>)

  /** As written: a flushed list in front of a turned-away object is dropped. */
  function AddLimitWritten(s: seq<Link>, o: Link, limit: int): Outcome
  {
    var s1 := if Ejects(s, o, limit) then s else Added(s, o);
    var k := if Flushable(s1, limit) then FlushCount(s1, limit) else 0;
    if Ejects(s, o, limit) then Outcome(s1[k..], [o], s1[..k]) else Outcome(s1[k..], s1[..k], [])
  }

  /** Objects are lost exactly when the new one is turned away and the cache holds more than the limit already. */
  lemma AddLimitLoses(s: seq<Link>, o: Link, limit: int)
    requires Prefixed(s)
    ensures AddLimitWritten(s, o, limit).lost != [] <==> Ejects(s, o, limit) && Flushable(s, limit)
  {
    if Flushable(s, limit) { FlushExact(s, limit); }
  }

  /** Nothing else goes astray: everything is cached, destroyed or lost, and what is destroyed may be. */
  lemma AddLimitConserves(s: seq<Link>, o: Link, limit: int)
    requires Prefixed(s)
    ensures var r := AddLimitWritten(s, o, limit);
      && multiset(r.cache) + multiset(r.destroyed) + multiset(r.lost) == multiset(s) + multiset{o}
      && Prefixed(r.cache) && (forall x :: x in r.destroyed ==> x.doomed)
  {
    var s1 := if Ejects(s, o, limit) then s else Added(s, o);
    AddedPrefixed(s, o);
    var k := if Flushable(s1, limit) then FlushCount(s1, limit) else 0;
    if Flushable(s1, limit) { FlushExact(s1, limit); }
    SplitMultiset(s1, k);
  }

  lemma SplitMultiset(s: seq<Link>, k: nat)
    requires k <= |s|
    ensures multiset(s[..k]) + multiset(s[k..]) == multiset(s)
  {
    assert s == s[..k] + s[k..];
  }

  /** smcache_remove_unflushable_objectsl: the objects in front that need not be destroyed are dropped. */
  function Unkept(s: seq<Link>): seq<Link>
  {
    if s == [] || s[0].doomed then s else Unkept(s[1..])
  }

  /** With the destroyable objects in front it drops all that it should only if there are none of one kind. */
  lemma {:induction false} UnkeptExact(s: seq<Link>)
    requires Prefixed(s)
    ensures (forall o :: o in Unkept(s) ==> o.doomed) <==> s == [] || !s[0].doomed || forall o :: o in s ==> o.doomed
    ensures s != [] && !s[0].doomed ==> Unkept(s) == []
  {
    if s != [] && !s[0].doomed {
      assert forall i :: 0 < i < |s| ==> !s[i].doomed;
      assert Prefixed(s[1..]);
      UnkeptExact(s[1..]);
    }
  }

  // ---- the queue ----

  /** smlink_q_t, with the cache operations on it.  `nodes` is the chain from qfirst on. */
  class Queue {
    var n: int
    var qfirst: Link?
    var qlast: Link?
    ghost var nodes: seq<Link>

    ghost predicate Valid()
      reads this, nodes
    {
      && n == |nodes|
      && (forall i, j :: 0 <= i < j < |nodes| ==> nodes[i] != nodes[j])
      && (nodes == [] ==> qfirst == null && qlast == null)
      && (nodes != [] ==> qfirst == nodes[0] && qlast == nodes[|nodes| - 1] && qlast.next == null)
      && (forall i :: 0 <= i < |nodes| - 1 ==> nodes[i].next == nodes[i + 1])
    }

    constructor ()
      ensures Valid() && nodes == []
    {
      n, qfirst, qlast, nodes := 0, null, null, [];
    }

    /** smlink_q_push, and the front case of smcache_addl and smcache_addl_dir */
    method Push(o: Link)
      requires Valid() && o !in nodes
      modifies this, o
      ensures Valid() && nodes == [o] + old(nodes)
    {
      o.next := qfirst;
      qfirst := o;
      if n == 0 { qlast := o; }
      n := n + 1;
      nodes := [o] + nodes;
    }

    /** The tail case of smcache_addl */
    method Append(o: Link)
      requires Valid() && o !in nodes
      modifies this, o, nodes
      ensures Valid() && nodes == old(nodes) + [o]
    {
      if n != 0 { qlast.next := o; } else { qfirst := o; }
      qlast := o;
      qlast.next := null;
      n := n + 1;
      nodes := nodes + [o];
    }

    /** smcache_addl */
    method Add(o: Link)
      requires Valid() && o !in nodes
      modifies this, o, nodes
      ensures Valid() && nodes == Added(old(nodes), o)
    {
      if o.doomed && n != 0 { Push(o); } else { Append(o); }
    }

    /** smlink_q_pop, and smcache_getl of a cached object */
    method Pop() returns (o: Link?)
      requires Valid()
      modifies this
      ensures Valid()
      ensures old(nodes) == [] ==> o == null && nodes == []
      ensures old(nodes) != [] ==> o == old(nodes)[0] && nodes == old(nodes)[1..]
    {
      o := null;
      if n != 0 {
        o := qfirst;
        qfirst := qfirst.next;
        n := n - 1;
        nodes := nodes[1..];
        if n == 0 { qlast := null; }
      }
    }

    /** smcache_remove_unflushable_objectsl */
    method RemoveUnflushable()
      requires Valid()
      modifies this
      ensures Valid() && nodes == Unkept(old(nodes))
    {
      if n > 0 {
        ghost var was := nodes;
        while n > 0 && !qfirst.doomed
          invariant n == |nodes| && (forall i, j :: 0 <= i < j < |nodes| ==> nodes[i] != nodes[j])
          invariant qfirst == (if nodes == [] then null else nodes[0])
          invariant nodes != [] ==> qlast == nodes[|nodes| - 1] && qlast.next == null
          invariant forall i :: 0 <= i < |nodes| - 1 ==> nodes[i].next == nodes[i + 1]
          invariant Unkept(nodes) == Unkept(was)
          decreases n
        {
          if n == 1 { assert qfirst == qlast; }
          qfirst := qfirst.next;
          n := n - 1;
          nodes := nodes[1..];
        }
        if n <= 0 { qlast := qfirst; }
      }
    }

    /** smcache_get_flush_ql: the objects flushed go to `q`. */
    method GetFlush(limit: nat, q: Queue)
      requires Valid() && q.Valid() && q != this && q.nodes == [] && Flushable(nodes, limit)
      modifies this, q, nodes
      ensures Valid() && q.Valid()
      ensures var k := FlushCount(old(nodes), limit); q.nodes == old(nodes)[..k] && nodes == old(nodes)[k..]
    {
      if limit == 0 && qlast.doomed {
        q.n, q.qfirst, q.qlast, q.nodes := n, qfirst, qlast, nodes;
        qfirst, qlast, n, nodes := null, null, 0, [];
        return;
      }
      var last, p, k := FindCut(limit);
      if k != 0 { Cut(k, last, p, q); }
    }

    /** Its last part: the first `k` objects, up to `last`, become the queue `q`. */
    method Cut(k: nat, last: Link?, p: Link?, q: Queue)
      requires Valid() && q.Valid() && q != this && q.nodes == []
      requires 0 < k < |nodes| && last == nodes[k - 1] && p == nodes[k]
      modifies this, q, nodes
      ensures Valid() && q.Valid() && q.nodes == old(nodes)[..k] && nodes == old(nodes)[k..]
    {
      q.qfirst, q.qlast, q.n, q.nodes := qfirst, last, k, nodes[..k];
      last.next := null;
      qfirst := p;
      n := n - k;
      nodes := nodes[k..];
    }

    /** The loop of smcache_get_flush_ql: the last object to flush, and the first to keep. */
    method FindCut(limit: nat) returns (last: Link?, p: Link?, k: nat)
      requires Valid() && Flushable(nodes, limit)
      ensures k == Min(|nodes| - limit, PrefixLength(nodes))
      ensures last == (if k == 0 then null else nodes[k - 1]) && p == (if k == |nodes| then null else nodes[k])
    {
      p, last, k := qfirst, null, 0;
      var nflushed := n - limit;
      while p != null && nflushed > 0
        invariant k <= |nodes| && nflushed == n - limit - k >= 0
        invariant p == if k == |nodes| then null else nodes[k]
        invariant last == if k == 0 then null else nodes[k - 1]
        invariant forall i :: 0 <= i < k ==> nodes[i].doomed
        decreases |nodes| - k
      {
        if !p.doomed { break; }
        last := p;
        p := p.next;
        nflushed := nflushed - 1;
        k := k + 1;
      }
    }
  }
}
