/**
 The dispatch queue at the level of its links: cutting a batch off is right, moving the whole
 queue as written leaves its head pointing into the thread's list.
 */
module DispatchLinks {

  /** The two links of every list node and list head, by address. */
  datatype Links = Links(next: map<nat, nat>, prev: map<nat, nat>)

  /** From head `h` round through the nodes `s` and back. */
  function Ring(h: nat, s: seq<nat>): seq<nat> { [h] + s + [h] }

  ghost predicate IsList(m: Links, h: nat, s: seq<nat>)
  {
    && (forall i, j :: 0 <= i < j < |s| ==> s[i] != s[j]) && h !in s
    && (forall i :: 0 <= i <= |s| ==> Linked(m, Ring(h, s)[i], Ring(h, s)[i + 1]))
  }

  predicate Linked(m: Links, a: nat, b: nat) { a in m.next && m.next[a] == b && b in m.prev && m.prev[b] == a }

  function Link(m: Links, a: nat, b: nat): Links { Links(m.next[a := b], m.prev[b := a]) }

  /** list_add_tail */
  function AddTail(m: Links, n: nat, h: nat): Links
    requires h in m.prev
  {
    Link(Link(m, n, h), m.prev[h], n)
  }

  /** __list_splice of the whole list at `h` in front of the list at `q` */
  function Splice(m: Links, h: nat, q: nat): Links
    requires h in m.next && h in m.prev && q in m.next
  {
    Link(Link(m, q, m.next[h]), m.prev[h], m.next[q])
  }

  /** INIT_LIST_HEAD */
  function InitHead(m: Links, h: nat): Links { Link(m, h, h) }

  /** __list_cut_position: the nodes up to `e` go to the list at `q`. */
  function Cut(m: Links, h: nat, q: nat, e: nat): Links
    requires h in m.next && e in m.next
  {
    Link(Link(Link(m, q, m.next[h]), e, q), h, m.next[e])
  }

  predicate Apart(h: nat, q: nat, s: seq<nat>) { h != q && q !in s }

  /** Cutting off the first `n` nodes leaves both lists right. */
  lemma CutSplits(m: Links, h: nat, q: nat, s: seq<nat>, n: nat)
    requires IsList(m, h, s) && Apart(h, q, s) && 0 < n < |s|
    ensures h in m.next && s[n - 1] in m.next
    ensures var r := Cut(m, h, q, s[n - 1]); IsList(r, q, s[..n]) && IsList(r, h, s[n..])
  {
    assert Linked(m, Ring(h, s)[0], Ring(h, s)[1]) && Linked(m, Ring(h, s)[n], Ring(h, s)[n + 1]);
    var r := Cut(m, h, q, s[n - 1]);
    forall i | 0 <= i <= n ensures Linked(r, Ring(q, s[..n])[i], Ring(q, s[..n])[i + 1]) {
      assert 0 < i < n ==> Linked(m, Ring(h, s)[i], Ring(h, s)[i + 1]);
    }
    forall i | 0 <= i <= |s| - n ensures Linked(r, Ring(h, s[n..])[i], Ring(h, s[n..])[i + 1]) {
      assert 0 < i ==> Linked(m, Ring(h, s)[i + n], Ring(h, s)[i + n + 1]);
    }
  }

  /** Splicing gives the thread, whose list was empty, all the nodes; but the head keeps both its links. */
  lemma SpliceMoves(m: Links, h: nat, q: nat, s: seq<nat>)
    requires IsList(m, h, s) && IsList(m, q, []) && Apart(h, q, s) && s != []
    ensures h in m.next && h in m.prev && q in m.next
    ensures var r := Splice(m, h, q);
      IsList(r, q, s) && h in r.next && h in r.prev && r.next[h] == s[0] && r.prev[h] == s[|s| - 1]
  {
    assert Linked(m, Ring(h, s)[0], Ring(h, s)[1]) && Linked(m, Ring(h, s)[|s|], Ring(h, s)[|s| + 1]);
    assert Linked(m, Ring(q, [])[0], Ring(q, [])[1]);
    var r := Splice(m, h, q);
    forall i | 0 <= i <= |s| ensures Linked(r, Ring(q, s)[i], Ring(q, s)[i + 1]) {
      assert Linked(m, Ring(h, s)[i], Ring(h, s)[i + 1]);
    }
  }

  /**
   As written, the next removed task is hooked onto the thread's last node: the thread's list now runs
   on into the dispatch queue's head and no longer ends, and the queue's head still names the first
   node of the old batch.  This happens whatever the queue held.
   */
  lemma SpliceCorrupts(m: Links, h: nat, q: nat, s: seq<nat>, t: nat)
    requires IsList(m, h, s) && IsList(m, q, []) && Apart(h, q, s) && s != [] && t !in s && t != h && t != q
    ensures h in m.next && h in m.prev && q in m.next && h in Splice(m, h, q).prev
    ensures var r := AddTail(Splice(m, h, q), t, h);
      && Linked(r, s[|s| - 1], t) && Linked(r, t, h) && r.next[h] == s[0]
      && !IsList(r, q, s) && !IsList(r, h, [t])
  {
    SpliceMoves(m, h, q, s);
    var r := AddTail(Splice(m, h, q), t, h);
    assert !Linked(r, Ring(q, s)[|s|], Ring(q, s)[|s| + 1]);
    assert !Linked(r, Ring(h, [t])[0], Ring(h, [t])[1]);
  }

  /** With the head re-initialised both lists are right, and the next removed task is alone in the queue. */
  lemma SpliceInitMoves(m: Links, h: nat, q: nat, s: seq<nat>, t: nat)
    requires IsList(m, h, s) && IsList(m, q, []) && Apart(h, q, s) && s != [] && t !in s && t != h && t != q
    ensures h in m.next && h in m.prev && q in m.next
    ensures var r := InitHead(Splice(m, h, q), h);
      IsList(r, q, s) && IsList(r, h, []) && IsList(AddTail(r, t, h), q, s) && IsList(AddTail(r, t, h), h, [t])
  {
    SpliceMoves(m, h, q, s);
    var d := Splice(m, h, q);
    var r := InitHead(d, h);
    var e := AddTail(r, t, h);
    forall i | 0 <= i <= |s|
      ensures Linked(r, Ring(q, s)[i], Ring(q, s)[i + 1]) && Linked(e, Ring(q, s)[i], Ring(q, s)[i + 1])
    {
      assert Linked(d, Ring(q, s)[i], Ring(q, s)[i + 1]);
    }
  }
}
