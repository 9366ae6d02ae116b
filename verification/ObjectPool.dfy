/**
 The object pool: blocks of objects sorted by address, each with a queue of the objects that have
 been given back.  Addresses are integers.
 */
module ObjectPool {
  import opened Types

  /** `end` is begin + block_nobjs * objlen. */
  datatype Block = Block(begin: int, putq: seq<int>)

  /** objpool_t, the objects its cache holds, and those it has given out. */
  datatype Objects = Objects(
    nobjs: nat, objlen: nat,
    blocks: seq<Block>, nput: int, ntotal: int,
    cache: seq<int>, out: set<int>)

  // ---- occurrences ----

  function Occ(q: seq<int>, o: int): nat
  {
    if q == [] then 0 else Bit(q[0] == o) + Occ(q[1..], o)
  }

  lemma {:induction false} OccConcat(p: seq<int>, q: seq<int>, o: int)
    ensures Occ(p + q, o) == Occ(p, o) + Occ(q, o)
  {
    if p == [] { assert p + q == q; } else { assert (p + q)[1..] == p[1..] + q; OccConcat(p[1..], q, o); }
  }

  lemma {:induction false} OccAbsent(q: seq<int>, o: int)
    ensures Occ(q, o) == 0 <==> o !in q
  {
    if q != [] { OccAbsent(q[1..], o); }
  }

  /** One sequence inside another of the same length is all of it. */
  lemma {:induction false} OccFull(a: seq<int>, b: seq<int>)
    requires |a| == |b| && forall x :: Occ(a, x) <= Occ(b, x)
    ensures forall x :: Occ(a, x) == Occ(b, x)
  {
    if a != [] {
      OccAbsent(b, a[0]);
      var i :| 0 <= i < |b| && b[i] == a[0];
      var rest := b[..i] + b[i + 1..];
      forall x ensures Occ(rest, x) == Occ(b, x) - Bit(x == a[0]) {
        assert b == b[..i] + ([b[i]] + b[i + 1..]);
        OccConcat(b[..i], [b[i]] + b[i + 1..], x);
        OccConcat([b[i]], b[i + 1..], x);
        OccConcat(b[..i], b[i + 1..], x);
      }
      OccFull(a[1..], rest);
    }
  }

  // ---- addresses ----

  /** The address after `n` objects from `begin`. */
  function At(begin: int, objlen: nat, n: nat): int
  {
    if n == 0 then begin else At(begin, objlen, n - 1) + objlen
  }

  /** The addresses of the first `n` objects of a block. */
  function Addresses(begin: int, objlen: nat, n: nat): (r: seq<int>)
    ensures |r| == n
  {
    if n == 0 then [] else Addresses(begin, objlen, n - 1) + [At(begin, objlen, n - 1)]
  }

  lemma {:induction false} AddressesInRange(begin: int, objlen: nat, n: nat)
    requires objlen > 0
    ensures begin <= At(begin, objlen, n)
    ensures forall o :: o in Addresses(begin, objlen, n) ==> begin <= o < At(begin, objlen, n)
  {
    if n > 0 { AddressesInRange(begin, objlen, n - 1); }
  }

  lemma {:induction false} AddressesOnce(begin: int, objlen: nat, n: nat, o: int)
    requires objlen > 0
    ensures Occ(Addresses(begin, objlen, n), o) <= 1
  {
    if n > 0 {
      AddressesOnce(begin, objlen, n - 1, o);
      AddressesInRange(begin, objlen, n - 1);
      OccConcat(Addresses(begin, objlen, n - 1), [At(begin, objlen, n - 1)], o);
      if o == At(begin, objlen, n - 1) { OccAbsent(Addresses(begin, objlen, n - 1), o); }
    }
  }

  predicate InBlock(s: Objects, b: Block, o: int) { b.begin <= o < At(b.begin, s.objlen, s.nobjs) }

  // ---- sums over the blocks ----

  function PutCount(bs: seq<Block>): nat
  {
    if bs == [] then 0 else |bs[0].putq| + PutCount(bs[1..])
  }

  function PutOcc(bs: seq<Block>, o: int): nat
  {
    if bs == [] then 0 else Occ(bs[0].putq, o) + PutOcc(bs[1..], o)
  }

  function AllOcc(bs: seq<Block>, objlen: nat, nobjs: nat, o: int): nat
  {
    if bs == [] then 0 else Occ(Addresses(bs[0].begin, objlen, nobjs), o) + AllOcc(bs[1..], objlen, nobjs, o)
  }

  function Without(bs: seq<Block>, k: nat): seq<Block>
    requires k < |bs|
  {
    bs[..k] + bs[k + 1..]
  }

  lemma WithoutTail(bs: seq<Block>, k: nat)
    requires 0 < k < |bs|
    ensures Without(bs, k)[0] == bs[0] && Without(bs, k)[1..] == Without(bs[1..], k - 1) && bs[1..][k - 1] == bs[k]
  {
  }

  /** A block taken out of the middle. */
  lemma {:induction false} OccAround(bs: seq<Block>, k: nat, objlen: nat, nobjs: nat, o: int)
    requires k < |bs|
    ensures PutOcc(bs, o) == Occ(bs[k].putq, o) + PutOcc(Without(bs, k), o)
    ensures AllOcc(bs, objlen, nobjs, o) ==
      Occ(Addresses(bs[k].begin, objlen, nobjs), o) + AllOcc(Without(bs, k), objlen, nobjs, o)
  {
    if k == 0 {
      assert Without(bs, k) == bs[1..];
    } else {
      OccAround(bs[1..], k - 1, objlen, nobjs, o);
      WithoutTail(bs, k);
    }
  }

  lemma {:induction false} CountAround(bs: seq<Block>, k: nat)
    requires k < |bs|
    ensures PutCount(bs) == |bs[k].putq| + PutCount(Without(bs, k))
  {
    if k == 0 {
      assert Without(bs, k) == bs[1..];
    } else {
      CountAround(bs[1..], k - 1);
      WithoutTail(bs, k);
    }
  }

  // ---- the invariant ----

  ghost predicate Apart(s: Objects)
  {
    forall i, j :: 0 <= i < j < |s.blocks| ==> At(s.blocks[i].begin, s.objlen, s.nobjs) <= s.blocks[j].begin
  }

  ghost predicate PutInPlace(s: Objects)
  {
    forall k, i :: 0 <= k < |s.blocks| && 0 <= i < |s.blocks[k].putq| ==> InBlock(s, s.blocks[k], s.blocks[k].putq[i])
  }

  /** Every object of every block is given out, or cached, or in its block's queue: once and nowhere else. */
  ghost predicate Partitioned(s: Objects)
  {
    forall o :: Bit(o in s.out) + Occ(s.cache, o) + PutOcc(s.blocks, o) == AllOcc(s.blocks, s.objlen, s.nobjs, o)
  }

  ghost predicate Counted(s: Objects) { s.nput == PutCount(s.blocks) && s.ntotal == s.nobjs * |s.blocks| }

  ghost predicate Sound(s: Objects)
  {
    s.nobjs > 0 && s.objlen > 0 && Apart(s) && PutInPlace(s) && Partitioned(s) && Counted(s)
    && forall k :: 0 <= k < |s.blocks| ==> |s.blocks[k].putq| < s.nobjs
  }

  // ---- the two searches ----

  predicate Ascending(a: seq<int>) { forall i, j :: 0 <= i < j < |a| ==> a[i] < a[j] }

  /** The place of `m` in the ascending sequence: everything before is smaller, everything from there on greater. */
  predicate Slot(a: seq<int>, m: int, at: int)
  {
    0 <= at <= |a| && (forall k :: 0 <= k < at ==> a[k] < m) && (forall k :: at <= k < |a| ==> m < a[k])
  }

  /** The search of objpool_get with signed bounds finds the slot of every new address. */
  method FindSlot(a: seq<int>, m: int) returns (at: int)
    requires Ascending(a) && m !in a
    ensures Slot(a, m, at)
  {
    at := 0;
    if a != [] {
      var l, r := 0, |a| - 1;
      while r > l
        invariant 0 <= l < |a| && l - 1 <= r < |a|
        invariant forall k :: 0 <= k < l ==> a[k] < m
        invariant forall k :: r < k < |a| ==> m < a[k]
        decreases r - l + 1
      {
        if m < a[(l + r) / 2] { r := (l + r) / 2 - 1; } else { l := (l + r) / 2 + 1; }
      }
      at := l;
      if m > a[l] { at := l + 1; }
    }
  }

  /** The search of objpool_put finds the block that holds the object. */
  method FindOwner(a: seq<int>, size: nat, o: int, ghost owner: nat) returns (k: int)
    requires forall i, j :: 0 <= i < j < |a| ==> a[i] + size <= a[j]
    requires owner < |a| && a[owner] <= o < a[owner] + size
    ensures k == owner
  {
    var l, r := 0, |a| - 1;
    assert forall j :: owner < j < |a| ==> o < a[j];
    assert forall j :: 0 <= j < owner ==> a[j] + size <= o;
    while r > l
      invariant 0 <= l <= owner <= r < |a|
      decreases r - l
    {
      var mid := (l + r) / 2;
      if o < a[mid] { r := mid - 1; }
      else if o < a[mid] + size { k := mid; return; }
      else { l := mid + 1; }
    }
    k := (l + r) / 2;
  }

  // ---- the search as written, with unsigned bounds ----

  /** None: the upper bound has wrapped below zero, and a block outside the array is read next. */
  function SearchWritten(a: seq<int>, m: int, l: nat, r: nat): Option<nat>
    requires r < |a|
    decreases r - l
  {
    if r <= l then Some(l)
    else
      var mid := (l + r) / 2;
      if m < a[mid] then (if mid == 0 then None else SearchWritten(a, m, l, mid - 1))
      else SearchWritten(a, m, mid + 1, r)
  }

  /** Halving the upper bound, less one, meets 1. */
  predicate Wraps(r: nat)
  {
    r == 1 || (r >= 2 && Wraps(r / 2 - 1))
  }

  lemma {:induction false} SearchRight(a: seq<int>, m: int, l: nat, r: nat)
    requires r < |a| && l > 0
    ensures SearchWritten(a, m, l, r).Some?
    decreases r - l
  {
    if r > l {
      var mid := (l + r) / 2;
      if m < a[mid] { SearchRight(a, m, l, mid - 1); } else { SearchRight(a, m, mid + 1, r); }
    }
  }

  /** As written, the search leaves the array exactly when the block lies below all others and their number wraps. */
  lemma {:induction false} SearchWrittenExact(a: seq<int>, m: int, r: nat)
    requires Ascending(a) && r < |a|
    ensures SearchWritten(a, m, 0, r) == None <==> m < a[0] && Wraps(r)
    decreases r
  {
    if r >= 2 {
      var mid := r / 2;
      if m < a[mid] { SearchWrittenExact(a, m, mid - 1); } else { SearchRight(a, m, mid + 1, r); }
    } else if r == 1 && !(m < a[0]) {
      SearchRight(a, m, 1, 1);
    }
  }

  /** When it stays inside the array, it finds the slot as well. */
  lemma {:induction false} SearchWrittenFinds(a: seq<int>, m: int, l: nat, r: nat)
    requires Ascending(a) && m !in a && l < |a| && r < |a| && l <= r + 1
    requires (forall k :: 0 <= k < l ==> a[k] < m) && (forall k :: r < k < |a| ==> m < a[k])
    ensures var x := SearchWritten(a, m, l, r);
      x.Some? ==> x.value < |a| && Slot(a, m, if m > a[x.value] then x.value + 1 else x.value)
    decreases r - l + 1
  {
    if r > l {
      var mid := (l + r) / 2;
      if m >= a[mid] { SearchWrittenFinds(a, m, mid + 1, r); } else if mid > 0 { SearchWrittenFinds(a, m, l, mid - 1); }
    }
  }

  function Pow2(k: nat): (p: nat)
    ensures p >= 1
  {
    if k == 0 then 1 else 2 * Pow2(k - 1)
  }

  /** 1; 4 and 5; 10 to 13; 22 to 29; and so on. */
  predicate InGap(r: nat, k: nat) { 3 * Pow2(k) - 2 <= r <= 4 * Pow2(k) - 3 }

  lemma GapHalves(r: nat, k: nat)
    requires r >= 2
    ensures InGap(r, k + 1) <==> InGap(r / 2 - 1, k)
    ensures !InGap(r, 0)
  {
    assert Pow2(k + 1) == 2 * Pow2(k);
  }

  /** The numbers that wrap, in closed form. */
  lemma {:induction false} WrapsExactly(r: nat)
    ensures Wraps(r) <==> exists k: nat :: InGap(r, k)
  {
    if r == 1 {
      assert InGap(r, 0);
    } else if r == 0 {
      assert forall k: nat :: !InGap(r, k);
    } else {
      var h := r / 2 - 1;
      WrapsExactly(h);
      if Wraps(h) {
        var k: nat :| InGap(h, k);
        GapHalves(r, k);
        assert InGap(r, k + 1);
      }
      forall k: nat | InGap(r, k) ensures Wraps(h) {
        GapHalves(r, if k > 0 then k - 1 else 0);
        assert InGap(h, k - 1);
      }
    }
  }

  // ---- putting an object back ----

  /** objpool_put of an object of block `k` */
  function Put(s: Objects, o: int, k: nat): Objects
    requires k < |s.blocks|
  {
    var b := s.blocks[k];
    if |b.putq| == s.nobjs - 1
    then s.(blocks := Without(s.blocks, k), ntotal := s.ntotal - s.nobjs, nput := s.nput + 1 - s.nobjs,
      out := s.out - {o})
    else s.(blocks := s.blocks[k := b.(putq := [o] + b.putq)], nput := s.nput + 1, out := s.out - {o})
  }

  lemma {:induction false} InAll(bs: seq<Block>, objlen: nat, nobjs: nat, o: int) returns (k: nat)
    requires AllOcc(bs, objlen, nobjs, o) > 0
    ensures k < |bs| && o in Addresses(bs[k].begin, objlen, nobjs)
  {
    OccAbsent(Addresses(bs[0].begin, objlen, nobjs), o);
    if o in Addresses(bs[0].begin, objlen, nobjs) {
      k := 0;
    } else {
      var j := InAll(bs[1..], objlen, nobjs, o);
      k := j + 1;
    }
  }

  /** An object that is given out belongs to a block. */
  lemma OutHasOwner(s: Objects, o: int) returns (k: nat)
    requires Sound(s) && o in s.out
    ensures k < |s.blocks| && InBlock(s, s.blocks[k], o)
  {
    k := InAll(s.blocks, s.objlen, s.nobjs, o);
    AddressesInRange(s.blocks[k].begin, s.objlen, s.nobjs);
  }

  /** Objects of one block lie in no other. */
  lemma OnlyHere(s: Objects, k: nat, o: int)
    requires Sound(s) && k < |s.blocks| && InBlock(s, s.blocks[k], o)
    ensures AllOcc(s.blocks, s.objlen, s.nobjs, o) == Occ(Addresses(s.blocks[k].begin, s.objlen, s.nobjs), o)
  {
    OccAround(s.blocks, k, s.objlen, s.nobjs, o);
    var rest := Without(s.blocks, k);
    assert forall j :: 0 <= j < |rest| ==> rest[j] == s.blocks[if j < k then j else j + 1];
    if AllOcc(rest, s.objlen, s.nobjs, o) > 0 {
      var j := InAll(rest, s.objlen, s.nobjs, o);
      AddressesInRange(rest[j].begin, s.objlen, s.nobjs);
    }
  }

  /**
   A block whose last missing object comes back holds exactly its own objects: what was in its queue,
   and that one.
   */
  lemma FullBlock(s: Objects, o: int, k: nat)
    requires Sound(s) && o in s.out && k < |s.blocks| && InBlock(s, s.blocks[k], o) && |s.blocks[k].putq| == s.nobjs - 1
    ensures var b := s.blocks[k];
      forall x :: Occ(b.putq, x) + Bit(x == o) == Occ(Addresses(b.begin, s.objlen, s.nobjs), x)
  {
    var q := s.blocks[k].putq;
    var own := Addresses(s.blocks[k].begin, s.objlen, s.nobjs);
    forall x ensures Occ(q + [o], x) == Occ(q, x) + Bit(x == o) && Occ(q + [o], x) <= Occ(own, x) {
      OccConcat(q, [o], x);
      AtMostOwn(s, o, k, x);
    }
    OccFull(q + [o], own);
  }

  lemma AtMostOwn(s: Objects, o: int, k: nat, x: int)
    requires Sound(s) && o in s.out && k < |s.blocks| && InBlock(s, s.blocks[k], o)
    ensures Occ(s.blocks[k].putq, x) + Bit(x == o) <= Occ(Addresses(s.blocks[k].begin, s.objlen, s.nobjs), x)
  {
    var q := s.blocks[k].putq;
    OccAround(s.blocks, k, s.objlen, s.nobjs, x);
    OccAbsent(q, x);
    if x in q {
      var i :| 0 <= i < |q| && q[i] == x;
      assert InBlock(s, s.blocks[k], q[i]);
      OnlyHere(s, k, x);
    } else if x == o {
      OnlyHere(s, k, x);
    }
  }

  lemma PutKeeps(s: Objects, o: int, k: nat)
    requires Sound(s) && o in s.out && k < |s.blocks| && InBlock(s, s.blocks[k], o)
    ensures Sound(Put(s, o, k))
  {
    if |s.blocks[k].putq| == s.nobjs - 1 {
      FullBlock(s, o, k);
      PutFrees(s, o, k);
    } else {
      PutPushes(s, o, k);
    }
  }

  lemma PutFrees(s: Objects, o: int, k: nat)
    requires Sound(s) && o in s.out && k < |s.blocks| && |s.blocks[k].putq| == s.nobjs - 1
    requires var b := s.blocks[k];
      forall x :: Occ(b.putq, x) + Bit(x == o) == Occ(Addresses(b.begin, s.objlen, s.nobjs), x)
    ensures Sound(Put(s, o, k))
  {
    var r := Put(s, o, k);
    CountAround(s.blocks, k);
    forall x ensures Bit(x in r.out) + Occ(r.cache, x) + PutOcc(r.blocks, x) == AllOcc(r.blocks, r.objlen, r.nobjs, x) {
      OccAround(s.blocks, k, s.objlen, s.nobjs, x);
    }
    WithoutInPlace(s, r, k);
    MulNext(s.nobjs, |r.blocks|);
  }

  lemma MulNext(n: nat, k: nat)
    ensures n * (k + 1) == n * k + n
  {
  }

  /** Blocks stay apart when one is taken out. */
  lemma WithoutInPlace(s: Objects, r: Objects, k: nat)
    requires Sound(s) && k < |s.blocks| && r.blocks == Without(s.blocks, k) && r.objlen == s.objlen
    requires r.nobjs == s.nobjs
    ensures Apart(r) && PutInPlace(r) && forall i :: 0 <= i < |r.blocks| ==> |r.blocks[i].putq| < r.nobjs
  {
    assert forall i :: 0 <= i < |r.blocks| ==> r.blocks[i] == s.blocks[if i < k then i else i + 1];
  }

  lemma PutPushes(s: Objects, o: int, k: nat)
    requires Sound(s) && o in s.out && k < |s.blocks| && InBlock(s, s.blocks[k], o) && |s.blocks[k].putq| < s.nobjs - 1
    ensures Sound(Put(s, o, k))
  {
    var r := Put(s, o, k);
    assert Without(r.blocks, k) == Without(s.blocks, k);
    CountAround(s.blocks, k);
    CountAround(r.blocks, k);
    forall x ensures Bit(x in r.out) + Occ(r.cache, x) + PutOcc(r.blocks, x) == AllOcc(r.blocks, r.objlen, r.nobjs, x) {
      OccAround(s.blocks, k, s.objlen, s.nobjs, x);
      OccAround(r.blocks, k, s.objlen, s.nobjs, x);
      OccConcat([o], s.blocks[k].putq, x);
    }
  }

  /** All the objects of block `k` are back once `o` is: its queue and `o` are the whole block. */
  ghost predicate AllBack(s: Objects, o: int, k: nat)
    requires k < |s.blocks|
  {
    forall x :: Occ(s.blocks[k].putq, x) + Bit(x == o) == Occ(Addresses(s.blocks[k].begin, s.objlen, s.nobjs), x)
  }

  /** A block is freed exactly when all its objects are back. */
  lemma FreedWhenAllBack(s: Objects, o: int, k: nat)
    requires Sound(s) && o in s.out && k < |s.blocks| && InBlock(s, s.blocks[k], o)
    ensures |Put(s, o, k).blocks| < |s.blocks| <==> AllBack(s, o, k)
  {
    if |s.blocks[k].putq| == s.nobjs - 1 {
      FullBlock(s, o, k);
    } else if AllBack(s, o, k) {
      AllBackLength(s, o, k);
    }
  }

  lemma AllBackLength(s: Objects, o: int, k: nat)
    requires k < |s.blocks| && AllBack(s, o, k)
    ensures |s.blocks[k].putq| + 1 == s.nobjs
  {
    var q, own := s.blocks[k].putq, Addresses(s.blocks[k].begin, s.objlen, s.nobjs);
    forall x ensures Occ(q + [o], x) == Occ(own, x) { OccConcat(q, [o], x); }
    OccLength(q + [o], own);
  }

  lemma {:induction false} OccLength(a: seq<int>, b: seq<int>)
    requires forall x :: Occ(a, x) == Occ(b, x)
    ensures |a| == |b|
  {
    if |a| < |b| {
      OccShort(a, b);
    } else if |b| < |a| {
      OccShort(b, a);
    }
  }

  /** A shorter sequence misses something of a longer one. */
  lemma {:induction false} OccShort(a: seq<int>, b: seq<int>)
    requires |a| < |b|
    ensures exists x :: Occ(a, x) < Occ(b, x)
  {
    if a == [] {
      assert Occ(a, b[0]) < Occ(b, b[0]);
    } else if a[0] !in b {
      OccShort(a[1..], b);
      var x :| Occ(a[1..], x) < Occ(b, x);
      OccAbsent(b, a[0]);
      assert Occ(a, x) < Occ(b, x);
    } else {
      var i :| 0 <= i < |b| && b[i] == a[0];
      var rest := b[..i] + b[i + 1..];
      OccShort(a[1..], rest);
      var x :| Occ(a[1..], x) < Occ(rest, x);
      assert b == b[..i] + ([b[i]] + b[i + 1..]);
      OccConcat(b[..i], [b[i]] + b[i + 1..], x);
      OccConcat([b[i]], b[i + 1..], x);
      OccConcat(b[..i], b[i + 1..], x);
      assert Occ(a, x) < Occ(b, x);
    }
  }

  /** Whatever becomes of its block, the object is given out no more, and nobody else's is touched. */
  lemma PutTakesBack(s: Objects, o: int, k: nat)
    requires Sound(s) && o in s.out && k < |s.blocks| && InBlock(s, s.blocks[k], o)
    ensures var r := Put(s, o, k);
      && r.out == s.out - {o} && r.cache == s.cache
      && (AllBack(s, o, k) ==> |r.blocks| == |s.blocks| - 1 && r.nput == s.nput - (s.nobjs - 1))
      && (!AllBack(s, o, k) ==> |r.blocks| == |s.blocks| && r.nput == s.nput + 1 && PutOcc(r.blocks, o) == 1)
  {
    FreedWhenAllBack(s, o, k);
    if !AllBack(s, o, k) {
      PutKeeps(s, o, k);
      PutIsHeld(s, Put(s, o, k), o, k);
    }
  }

  /** The object is in the queue of its block, once. */
  lemma PutIsHeld(s: Objects, r: Objects, o: int, k: nat)
    requires Sound(s) && Sound(r) && o in s.out && k < |s.blocks| == |r.blocks| && InBlock(s, s.blocks[k], o)
    requires r.objlen == s.objlen && r.nobjs == s.nobjs && r.blocks[k].begin == s.blocks[k].begin
    requires o in r.blocks[k].putq
    ensures PutOcc(r.blocks, o) == 1
  {
    assert InBlock(r, r.blocks[k], o);
    OnlyHere(r, k, o);
    AddressesOnce(r.blocks[k].begin, r.objlen, r.nobjs, o);
    OccAround(r.blocks, k, r.objlen, r.nobjs, o);
    OccAbsent(r.blocks[k].putq, o);
  }

  // ---- getting objects ----

  /** Block `i` gives up its queue: to the caller first, if it has none yet, the rest to the cache. */
  function EmptyOne(s: Objects, i: nat, found: Option<int>): Objects
    requires i < |s.blocks| && s.blocks[i].putq != []
  {
    var q := s.blocks[i].putq;
    var t := s.(blocks := s.blocks[i := s.blocks[i].(putq := [])], nput := s.nput - |q|);
    if found == None then t.(cache := s.cache + q[1..], out := s.out + {q[0]}) else t.(cache := s.cache + q)
  }

  /** The scan of objpool_get over the blocks' queues, from block `i`: the state, and the object found. */
  function Regain(s: Objects, i: nat, found: Option<int>, gained: nat): (r: (Objects, Option<int>))
    requires i <= |s.blocks|
    decreases |s.blocks| - i
  {
    if i == |s.blocks| || s.nput == 0 || gained >= 5 then (s, found)
    else if s.blocks[i].putq == [] then Regain(s, i + 1, found, gained)
    else
      var q := s.blocks[i].putq;
      Regain(EmptyOne(s, i, found), i + 1, if found == None then Some(q[0]) else found,
        gained + |q| - Bit(found == None))
  }

  lemma Emptied(s: Objects, i: nat, found: Option<int>)
    requires Sound(s) && i < |s.blocks| && s.blocks[i].putq != []
    ensures var r := EmptyOne(s, i, found); Sound(r) && (found == None ==> s.blocks[i].putq[0] !in s.out)
  {
    var r := EmptyOne(s, i, found);
    assert Without(r.blocks, i) == Without(s.blocks, i);
    CountAround(s.blocks, i);
    CountAround(r.blocks, i);
    PutIsNotOut(s, i, 0);
    EmptiedPartitioned(s, i, found);
  }

  lemma EmptiedPartitioned(s: Objects, i: nat, found: Option<int>)
    requires Partitioned(s) && i < |s.blocks| && s.blocks[i].putq != [] && s.blocks[i].putq[0] !in s.out
    ensures Partitioned(EmptyOne(s, i, found))
  {
    var q := s.blocks[i].putq;
    var r := EmptyOne(s, i, found);
    assert Without(r.blocks, i) == Without(s.blocks, i);
    forall x ensures Bit(x in r.out) + Occ(r.cache, x) + PutOcc(r.blocks, x) == AllOcc(r.blocks, r.objlen, r.nobjs, x) {
      OccAround(s.blocks, i, s.objlen, s.nobjs, x);
      OccAround(r.blocks, i, s.objlen, s.nobjs, x);
      OccConcat(s.cache, if found == None then q[1..] else q, x);
    }
  }

  /** An object in a block's queue is not given out. */
  lemma PutIsNotOut(s: Objects, i: nat, j: nat)
    requires Sound(s) && i < |s.blocks| && j < |s.blocks[i].putq|
    ensures s.blocks[i].putq[j] !in s.out
  {
    var o := s.blocks[i].putq[j];
    assert InBlock(s, s.blocks[i], o);
    OnlyHere(s, i, o);
    AddressesOnce(s.blocks[i].begin, s.objlen, s.nobjs, o);
    OccAround(s.blocks, i, s.objlen, s.nobjs, o);
    OccAbsent(s.blocks[i].putq, o);
  }

  lemma {:induction false} RegainKeeps(s: Objects, i: nat, found: Option<int>, gained: nat)
    requires Sound(s) && i <= |s.blocks|
    requires found == None ==> gained == 0 && PutCount(s.blocks[i..]) == s.nput
    ensures var (r, f) := Regain(s, i, found, gained);
      Sound(r) && (found.Some? ==> f == found && r.out == s.out)
      && (found == None && s.nput > 0 ==> f.Some? && f.value !in s.out && r.out == s.out + {f.value})
    decreases |s.blocks| - i
  {
    if i < |s.blocks| && s.nput != 0 && gained < 5 {
      var q := s.blocks[i].putq;
      assert s.blocks[i..][1..] == s.blocks[i + 1..];
      if q == [] {
        RegainKeeps(s, i + 1, found, gained);
      } else {
        Emptied(s, i, found);
        RegainKeeps(EmptyOne(s, i, found), i + 1, if found == None then Some(q[0]) else found,
          gained + |q| - Bit(found == None));
      }
    } else if i == |s.blocks| {
      assert s.blocks[i..] == [];
    }
  }

  /** Getting an object while some have been put back gives out one that was not, and caches others. */
  lemma GetPutKeeps(s: Objects)
    requires Sound(s) && s.nput > 0
    ensures var (r, f) := Regain(s, 0, None, 0); Sound(r) && f.Some? && f.value !in s.out && r.out == s.out + {f.value}
  {
    assert s.blocks[0..] == s.blocks;
    RegainKeeps(s, 0, None, 0);
  }

  /** Getting from the queues touches no block but for its queue. */
  lemma {:induction false} RegainBlocks(s: Objects, i: nat, found: Option<int>, gained: nat)
    requires i <= |s.blocks|
    ensures var r := Regain(s, i, found, gained).0;
      && |r.blocks| == |s.blocks| && r.ntotal == s.ntotal
      && forall j :: 0 <= j < |s.blocks| ==> r.blocks[j].begin == s.blocks[j].begin
    decreases |s.blocks| - i
  {
    if i < |s.blocks| && s.nput != 0 && gained < 5 {
      var q := s.blocks[i].putq;
      if q == [] {
        RegainBlocks(s, i + 1, found, gained);
      } else {
        RegainBlocks(EmptyOne(s, i, found), i + 1, if found == None then Some(q[0]) else found,
          gained + |q| - Bit(found == None));
      }
    }
  }

  /** The scan goes on until it has cached five, or nothing is left in any queue. */
  lemma {:induction false} RegainGains(s: Objects, i: nat, found: Option<int>, gained: nat)
    requires i <= |s.blocks| && PutCount(s.blocks[i..]) == s.nput
    ensures var (r, f) := Regain(s, i, found, gained);
      && (found.Some? ==> f == found)
      && |r.cache| - |s.cache| == s.nput - r.nput - Bit(found == None && f.Some?)
      && (r.nput == 0 || |r.cache| - |s.cache| + gained >= 5)
    decreases |s.blocks| - i
  {
    if i == |s.blocks| {
      assert s.blocks[i..] == [];
    } else if s.nput != 0 && gained < 5 {
      var q := s.blocks[i].putq;
      assert s.blocks[i..][1..] == s.blocks[i + 1..];
      if q == [] {
        RegainGains(s, i + 1, found, gained);
      } else {
        var t := EmptyOne(s, i, found);
        assert t.blocks[i + 1..] == s.blocks[i + 1..];
        RegainGains(t, i + 1, if found == None then Some(q[0]) else found, gained + |q| - Bit(found == None));
      }
    }
  }

  /** What get caches beside the object it gives out: five or more, or else everything that was put back. */
  lemma GetPutGains(s: Objects)
    requires Sound(s) && s.nput > 0
    ensures var r := Regain(s, 0, None, 0).0;
      |r.cache| + r.nput + 1 == |s.cache| + s.nput && (r.nput == 0 || |r.cache| >= |s.cache| + 5)
  {
    assert s.blocks[0..] == s.blocks;
    GetPutKeeps(s);
    RegainGains(s, 0, None, 0);
  }

  /** The object found is the last one put into the first queue that is not empty. */
  lemma {:induction false} RegainFirst(s: Objects, i: nat, k: nat)
    requires Sound(s) && i <= k < |s.blocks| && s.nput > 0 && s.blocks[k].putq != []
    requires forall j :: i <= j < k ==> s.blocks[j].putq == []
    ensures Regain(s, i, None, 0).1 == Some(s.blocks[k].putq[0])
    decreases k - i
  {
    if i < k {
      RegainFirst(s, i + 1, k);
    } else {
      var q := s.blocks[i].putq;
      Emptied(s, i, None);
      RegainKeeps(EmptyOne(s, i, None), i + 1, Some(q[0]), |q| - 1);
    }
  }

  /**
   Round trip: unless the put completed its block, the next get needs no new block, and when the blocks
   before have nothing in their queues it gives out the same object.
   */
  lemma PutThenGet(s: Objects, o: int, k: nat)
    requires Sound(s) && o in s.out && k < |s.blocks| && InBlock(s, s.blocks[k], o) && !AllBack(s, o, k)
    ensures var t := Put(s, o, k); var (r, f) := Regain(t, 0, None, 0);
      && t.nput > 0 && f.Some? && r.out == s.out - {o} + {f.value} && |r.blocks| == |s.blocks|
      && ((forall j :: 0 <= j < k ==> s.blocks[j].putq == []) ==> f == Some(o) && r.out == s.out)
  {
    var t := Put(s, o, k);
    PutKeeps(s, o, k);
    PutTakesBack(s, o, k);
    PutCountAtLeast(t.blocks, k);
    GetPutKeeps(t);
    RegainBlocks(t, 0, None, 0);
    if forall j :: 0 <= j < k ==> s.blocks[j].putq == [] { RegainFirst(t, 0, k); }
  }

  lemma {:induction false} PutCountAtLeast(bs: seq<Block>, k: nat)
    requires k < |bs|
    ensures PutCount(bs) >= |bs[k].putq|
  {
    if k > 0 { PutCountAtLeast(bs[1..], k - 1); }
  }

  /** A new block at address `m`, put in its place. */
  function NewBlock(s: Objects, m: int, at: nat): Objects
    requires at <= |s.blocks| && s.nobjs > 0
  {
    s.(blocks := s.blocks[..at] + [Block(m, [])] + s.blocks[at..], ntotal := s.ntotal + s.nobjs,
       cache := s.cache + Addresses(m, s.objlen, s.nobjs)[1..], out := s.out + {m})
  }

  /** The memory of the new block overlaps no other block. */
  ghost predicate FreshMemory(s: Objects, m: int)
  {
    forall k :: 0 <= k < |s.blocks| ==>
      At(s.blocks[k].begin, s.objlen, s.nobjs) <= m || At(m, s.objlen, s.nobjs) <= s.blocks[k].begin
  }

  predicate InOrder(s: Objects, m: int, at: nat)
  {
    && at <= |s.blocks|
    && (forall k :: 0 <= k < at ==> s.blocks[k].begin < m)
    && (forall k :: at <= k < |s.blocks| ==> m < s.blocks[k].begin)
  }

  lemma {:induction false} FirstAddress(m: int, objlen: nat, n: nat)
    requires n > 0
    ensures Addresses(m, objlen, n)[0] == m
  {
    if n > 1 { FirstAddress(m, objlen, n - 1); }
  }

  lemma NewBlockKeeps(s: Objects, m: int, at: nat)
    requires Sound(s) && FreshMemory(s, m) && InOrder(s, m, at)
    ensures Sound(NewBlock(s, m, at)) && m !in s.out
  {
    NewBlockApart(s, m, at);
    NewIsNotOut(s, m);
    NewBlockPartitioned(s, m, at);
    NewBlockCounted(s, m, at);
    NewInPlace(s, m, at);
  }

  lemma NewBlockCounted(s: Objects, m: int, at: nat)
    requires Counted(s) && at <= |s.blocks| && s.nobjs > 0
    ensures Counted(NewBlock(s, m, at))
  {
    var r := NewBlock(s, m, at);
    assert Without(r.blocks, at) == s.blocks;
    CountAround(r.blocks, at);
    MulNext(s.nobjs, |s.blocks|);
  }

  lemma NewInPlace(s: Objects, m: int, at: nat)
    requires Sound(s) && at <= |s.blocks|
    ensures var r := NewBlock(s, m, at);
      PutInPlace(r) && forall i :: 0 <= i < |r.blocks| ==> |r.blocks[i].putq| < r.nobjs
  {
    var r := NewBlock(s, m, at);
    assert forall k :: 0 <= k < |r.blocks| && k != at ==> r.blocks[k] == s.blocks[if k < at then k else k - 1];
  }

  lemma NewIsNotOut(s: Objects, m: int)
    requires Sound(s) && FreshMemory(s, m)
    ensures m !in s.out
  {
    if m in s.out {
      var k := OutHasOwner(s, m);
      AddressesInRange(m, s.objlen, s.nobjs);
      AddressesInRange(s.blocks[k].begin, s.objlen, s.nobjs);
      AtGrows(m, s.objlen, s.nobjs);
      assert false;
    }
  }

  lemma {:induction false} AtGrows(m: int, objlen: nat, n: nat)
    requires objlen > 0 && n > 0
    ensures At(m, objlen, n) > m
  {
    if n > 1 { AtGrows(m, objlen, n - 1); }
  }

  lemma NewBlockPartitioned(s: Objects, m: int, at: nat)
    requires Sound(s) && at <= |s.blocks| && m !in s.out
    ensures Partitioned(NewBlock(s, m, at))
  {
    var r := NewBlock(s, m, at);
    var a := Addresses(m, s.objlen, s.nobjs);
    assert Without(r.blocks, at) == s.blocks;
    FirstAddress(m, s.objlen, s.nobjs);
    forall x ensures Bit(x in r.out) + Occ(r.cache, x) + PutOcc(r.blocks, x) == AllOcc(r.blocks, r.objlen, r.nobjs, x) {
      OccAround(r.blocks, at, s.objlen, s.nobjs, x);
      OccConcat(s.cache, a[1..], x);
    }
  }

  lemma NewBlockApart(s: Objects, m: int, at: nat)
    requires Sound(s) && FreshMemory(s, m) && InOrder(s, m, at)
    ensures Apart(NewBlock(s, m, at))
  {
    var r := NewBlock(s, m, at);
    AddressesInRange(m, s.objlen, s.nobjs);
    forall i, j | 0 <= i < j < |r.blocks| ensures At(r.blocks[i].begin, r.objlen, r.nobjs) <= r.blocks[j].begin {
      if i != at && j != at {
        var i', j' := if i < at then i else i - 1, if j < at then j else j - 1;
        assert r.blocks[i] == s.blocks[i'] && r.blocks[j] == s.blocks[j'];
      } else if i == at {
        assert r.blocks[j] == s.blocks[j - 1];
        AddressesInRange(s.blocks[j - 1].begin, s.objlen, s.nobjs);
      } else {
        assert r.blocks[i] == s.blocks[i];
      }
    }
  }

  // ---- the object ----

  function Begins(bs: seq<Block>): (r: seq<int>)
    ensures |r| == |bs| && forall k :: 0 <= k < |bs| ==> r[k] == bs[k].begin
  {
    seq(|bs|, k requires 0 <= k < |bs| => bs[k].begin)
  }

  /** The length of a block does not depend on where it lies. */
  lemma {:induction false} AtShifts(begin: int, objlen: nat, n: nat)
    ensures At(begin, objlen, n) == begin + At(0, objlen, n) && At(0, objlen, n) >= 0
  {
    if n > 0 { AtShifts(begin, objlen, n - 1); }
  }

  /** objpool_t as the operations change it.  `given` is what is given out. */
  class ObjPool {
    const nobjs: nat
    const objlen: nat
    var blocks: seq<Block>
    var nput: int
    var ntotal: int
    var cache: seq<int>
    ghost var given: set<int>

    ghost function View(): Objects
      reads this
    {
      Objects(nobjs, objlen, blocks, nput, ntotal, cache, given)
    }

    constructor (nobjs: nat, objlen: nat)
      requires nobjs > 0 && objlen > 0
      ensures Sound(View()) && View() == Objects(nobjs, objlen, [], 0, 0, [], {})
    {
      this.nobjs, this.objlen := nobjs, objlen;
      blocks, nput, ntotal, cache, given := [], 0, 0, [], {};
    }

    /** The search of objpool_put. */
    method Owner(o: int) returns (k: nat)
      requires Sound(View()) && o in given
      ensures k < |blocks| && InBlock(View(), blocks[k], o)
    {
      ghost var owner := OutHasOwner(View(), o);
      var size := At(0, objlen, nobjs);
      AtShifts(0, objlen, nobjs);
      forall i | 0 <= i < |blocks| ensures At(blocks[i].begin, objlen, nobjs) == blocks[i].begin + size {
        AtShifts(blocks[i].begin, objlen, nobjs);
      }
      k := FindOwner(Begins(blocks), size, o, owner);
    }

    /** objpool_put */
    method PutBack(o: int) returns (ghost k: nat)
      requires Sound(View()) && o in given
      modifies this
      ensures k < |old(blocks)| && InBlock(old(View()), old(blocks)[k], o)
      ensures Sound(View()) && View() == Put(old(View()), o, k) && given == old(given) - {o}
    {
      var i := Owner(o);
      k := i;
      PutKeeps(View(), o, i);
      nput := nput + 1;
      if |blocks[i].putq| == nobjs - 1 {
        blocks := blocks[..i] + blocks[i + 1..];
        ntotal := ntotal - nobjs;
        nput := nput - nobjs;
      } else {
        blocks := blocks[i := blocks[i].(putq := [o] + blocks[i].putq)];
      }
      given := given - {o};
    }

    /** objpool_get while objects have been put back */
    method GetPut() returns (m0: int)
      requires Sound(View()) && nput > 0
      modifies this
      ensures Sound(View()) && m0 !in old(given) && given == old(given) + {m0}
      ensures (View(), Some(m0)) == Regain(old(View()), 0, None, 0)
    {
      GetPutKeeps(View());
      var found: Option<int> := None;
      var gained := 0;
      var i := 0;
      while i < |blocks| && nput != 0 && gained < 5
        invariant 0 <= i <= |blocks| && gained >= 0
        invariant Regain(View(), i, found, gained) == Regain(old(View()), 0, None, 0)
        decreases |blocks| - i
      {
        var q := blocks[i].putq;
        ghost var s := View();
        ghost var was := found;
        if q != [] {
          nput := nput - |q|;
          blocks := blocks[i := blocks[i].(putq := [])];
          if found == None {
            found := Some(q[0]);
            given := given + {q[0]};
            q := q[1..];
          }
          gained := gained + |q|;
          cache := cache + q;
          assert View() == EmptyOne(s, i, was);
        }
        i := i + 1;
      }
      m0 := found.value;
    }

    /** objpool_get when none has: a new block at address `m0` */
    method GetNew(m0: int)
      requires Sound(View()) && FreshMemory(View(), m0)
      modifies this
      ensures Sound(View()) && m0 !in old(given) && given == old(given) + {m0} && |blocks| == |old(blocks)| + 1
      ensures exists at :: 0 <= at <= |old(blocks)| && View() == NewBlock(old(View()), m0, at)
    {
      BeginsAscend(View(), m0);
      var at := FindSlot(Begins(blocks), m0);
      NewBlockKeeps(View(), m0, at);
      ntotal := ntotal + nobjs;
      cache := cache + Addresses(m0, objlen, nobjs)[1..];
      blocks := blocks[..at] + [Block(m0, [])] + blocks[at..];
      given := given + {m0};
    }
  }

  lemma BeginsAscend(s: Objects, m: int)
    requires Sound(s) && FreshMemory(s, m)
    ensures Ascending(Begins(s.blocks)) && m !in Begins(s.blocks)
  {
    AtGrows(m, s.objlen, s.nobjs);
    forall k | 0 <= k < |s.blocks|
      ensures s.blocks[k].begin != m && At(s.blocks[k].begin, s.objlen, s.nobjs) > s.blocks[k].begin
    {
      AtGrows(s.blocks[k].begin, s.objlen, s.nobjs);
    }
  }
}
