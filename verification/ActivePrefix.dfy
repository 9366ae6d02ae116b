/**
 The active entries: `act` (gpool->actentry) is a permutation of the groups whose active ones lie,
 lazily, in a prefix that the scheduler scans.
 */
module ActivePrefix {

  datatype Prefix = Prefix(
    act: seq<nat>,        // actentry: position -> group
    index: seq<nat>,      // entry->index: group -> position
    active: seq<bool>,    // SLOT_F_ACTIVE
    activeIdx: int,
    nactives: int)

  ghost predicate InRange(p: Prefix)
  {
    && |p.act| == |p.index| == |p.active|
    && (forall i :: 0 <= i < |p.act| ==> p.act[i] < |p.act|)
    && (forall g :: 0 <= g < |p.act| ==> p.index[g] < |p.act|)
  }

  /** `act` and `index` are inverse to each other. */
  ghost predicate Permutation(p: Prefix)
  {
    && InRange(p)
    && (forall i :: 0 <= i < |p.act| ==> p.index[p.act[i]] == i)
    && (forall g :: 0 <= g < |p.act| ==> p.index[g] < |p.act| && p.act[p.index[g]] == g)
  }

  /** A tag of every group, read by position. */
  function At(act: seq<nat>, tag: seq<bool>): (f: seq<bool>)
    requires forall i :: 0 <= i < |act| ==> act[i] < |tag|
    ensures |f| == |act| && forall i :: 0 <= i < |f| ==> f[i] == tag[act[i]]
  {
    seq(|act|, i requires 0 <= i < |act| => tag[act[i]])
  }

  /** The SLOT_F_ACTIVE flags by position. */
  function Flags(p: Prefix): seq<bool>
    requires InRange(p)
  {
    At(p.act, p.active)
  }

  function CountTrue(b: seq<bool>): nat
  {
    if b == [] then 0 else CountTrue(b[..|b| - 1]) + (if b[|b| - 1] then 1 else 0)
  }

  /** All active groups lie below activeIdx, nactives_ok counts them, and at most two others linger. */
  predicate LazyPrefix(f: seq<bool>, activeIdx: int, nactives: int)
  {
    && nactives == CountTrue(f)
    && nactives <= activeIdx <= |f|
    && (forall i :: activeIdx <= i < |f| ==> !f[i])
    && (nactives == 0 ==> activeIdx == 0)
    && activeIdx <= nactives + 2
  }

  ghost predicate PrefixOk(p: Prefix) { Permutation(p) && LazyPrefix(Flags(p), p.activeIdx, p.nactives) }

  /** No group carrying the tag lies in the prefix. */
  ghost predicate Clear(p: Prefix, tag: seq<bool>)
    requires InRange(p) && |tag| == |p.act|
  {
    forall i :: 0 <= i < p.activeIdx && i < |p.act| ==> !tag[p.act[i]]
  }

  // ---- operations ----

  /** __cpool_gp_entry_swapl */
  function Swap(p: Prefix, i: nat, j: nat): (r: Prefix)
    requires InRange(p) && i < |p.act| && j < |p.act|
    ensures InRange(r)
  {
    var a, b := p.act[i], p.act[j];
    p.(index := p.index[a := j][b := i], act := p.act[i := b][j := a])
  }

  /** __cpool_gp_entry_activel */
  function Activate(p: Prefix, g: nat): (r: Prefix)
    requires InRange(p) && g < |p.act|
    ensures InRange(r) && |r.act| == |p.act| && r.active == p.active[g := true]
  {
    var q := p.(active := p.active[g := true], nactives := p.nactives + 1);
    if q.nactives == 1 then (if q.index[g] != 0 then Swap(q, 0, q.index[g]) else q).(activeIdx := 1)
    else if 0 <= q.activeIdx <= q.index[g] then Swap(q, q.activeIdx, q.index[g]).(activeIdx := q.activeIdx + 1)
    else q
  }

  /** The first active position from `j` on, below activeIdx. */
  function FirstActive(p: Prefix, j: nat): (r: nat)
    requires InRange(p)
    ensures j <= r && (r < |p.act| && r < p.activeIdx ==> p.active[p.act[r]])
    ensures forall k :: j <= k < r && k < |p.act| ==> !p.active[p.act[k]]
    decreases p.activeIdx - j
  {
    if j >= p.activeIdx || j >= |p.act| || p.active[p.act[j]] then j else FirstActive(p, j + 1)
  }

  /** The outer loop of __cpool_gp_entry_shrink, from position `i`. */
  function ShrinkFrom(p: Prefix, i: nat): (r: Prefix)
    requires InRange(p)
    ensures InRange(r) && r.active == p.active && r.nactives == p.nactives && r.activeIdx == p.activeIdx
    ensures |r.act| == |p.act|
    decreases p.nactives - i
  {
    if i >= p.nactives || i >= |p.act| then p
    else if p.active[p.act[i]] then ShrinkFrom(p, i + 1)
    else
      var j := FirstActive(p, i + 1);
      if j < p.activeIdx && j < |p.act| then ShrinkFrom(Swap(p, i, j), i + 1) else ShrinkFrom(p, i + 1)
  }

  /** __cpool_gp_entry_shrink */
  function Shrink(p: Prefix): (r: Prefix)
    requires InRange(p)
    ensures InRange(r) && r.active == p.active && |r.act| == |p.act| && r.nactives == p.nactives
  {
    if p.activeIdx == p.nactives then p else ShrinkFrom(p, 0).(activeIdx := p.nactives)
  }

  /** __cpool_gp_entry_inactivel */
  function Inactivate(p: Prefix, g: nat, paused: bool): (r: Prefix)
    requires InRange(p) && g < |p.act|
    ensures InRange(r) && |r.act| == |p.act| && r.active == p.active[g := false]
  {
    var q := p.(active := p.active[g := false], nactives := p.nactives - 1);
    if q.nactives == 0 then q.(activeIdx := 0)
    else if paused || q.nactives + 2 < q.activeIdx then Shrink(q)
    else q
  }

  /** cpool_gp_entry_create, growing the arrays by `inc` slots. */
  function Grow(p: Prefix, inc: nat): Prefix
  {
    p.(act := p.act + seq(inc, i => |p.act| + i),
       index := p.index + seq(inc, i => |p.act| + i),
       active := p.active + seq(inc, i => false))
  }

  // ---- permutations ----

  lemma SwapPermutes(p: Prefix, i: nat, j: nat)
    requires Permutation(p) && i < |p.act| && j < |p.act|
    ensures Permutation(Swap(p, i, j))
  {
    var q := Swap(p, i, j);
    var a, b := p.act[i], p.act[j];
    assert i != j ==> a != b;
    forall k | 0 <= k < |q.act| ensures q.index[q.act[k]] == k {
      assert k != i && k != j ==> p.act[k] != a && p.act[k] != b;
    }
    forall g | 0 <= g < |q.act| ensures q.index[g] < |q.act| && q.act[q.index[g]] == g {
      assert g != a && g != b ==> p.index[g] != i && p.index[g] != j;
    }
  }

  lemma ActivatePermutes(p: Prefix, g: nat)
    requires Permutation(p) && g < |p.act|
    ensures Permutation(Activate(p, g))
  {
    var q := p.(active := p.active[g := true], nactives := p.nactives + 1);
    SwapPermutes(q, 0, q.index[g]);
    if 0 <= q.activeIdx <= q.index[g] { SwapPermutes(q, q.activeIdx, q.index[g]); }
  }

  lemma {:induction false} ShrinkFromPermutes(p: Prefix, i: nat)
    requires Permutation(p)
    ensures Permutation(ShrinkFrom(p, i))
    decreases p.nactives - i
  {
    if i < p.nactives && i < |p.act| {
      var j := FirstActive(p, i + 1);
      if p.active[p.act[i]] || j >= p.activeIdx || j >= |p.act| {
        ShrinkFromPermutes(p, i + 1);
      } else {
        SwapPermutes(p, i, j);
        ShrinkFromPermutes(Swap(p, i, j), i + 1);
      }
    }
  }

  lemma InactivatePermutes(p: Prefix, g: nat, paused: bool)
    requires Permutation(p) && g < |p.act|
    ensures Permutation(Inactivate(p, g, paused))
  {
    ShrinkFromPermutes(p.(active := p.active[g := false], nactives := p.nactives - 1), 0);
  }

  lemma GrowPermutes(p: Prefix, inc: nat)
    requires Permutation(p)
    ensures Permutation(Grow(p, inc))
  {
    var r := Grow(p, inc);
    var n := |p.act|;
    forall i | 0 <= i < |r.act| ensures r.act[i] < |r.act| && r.index[r.act[i]] == i {
      if i < n { assert r.act[i] == p.act[i] < n; } else { assert r.act[i] == i && r.index[i] == i; }
    }
    forall g | 0 <= g < |r.act| ensures r.index[g] < |r.act| && r.act[r.index[g]] == g {
      if g < n { assert r.index[g] == p.index[g] < n; } else { assert r.act[g] == g && r.index[g] == g; }
    }
  }

  // ---- counting ----

  lemma {:induction false} CountTrueUpdate(b: seq<bool>, i: nat, v: bool)
    requires i < |b|
    ensures CountTrue(b[i := v]) == CountTrue(b) - (if b[i] then 1 else 0) + (if v then 1 else 0)
  {
    var n := |b| - 1;
    if i < n {
      CountTrueUpdate(b[..n], i, v);
      assert b[i := v][..n] == b[..n][i := v];
    } else {
      assert b[i := v][..n] == b[..n];
    }
  }

  lemma {:induction false} CountTrueSplit(b: seq<bool>, k: nat)
    requires k <= |b|
    ensures CountTrue(b) == CountTrue(b[..k]) + CountTrue(b[k..])
  {
    if k == |b| {
      assert b[..k] == b;
    } else {
      var n := |b| - 1;
      CountTrueSplit(b[..n], k);
      assert b[..n][..k] == b[..k] && b[..n][k..] == b[k..][..n - k];
    }
  }

  lemma {:induction false} CountTrueAll(b: seq<bool>)
    ensures CountTrue(b) <= |b|
    ensures CountTrue(b) == |b| <==> forall i :: 0 <= i < |b| ==> b[i]
    ensures CountTrue(b) == 0 <==> forall i :: 0 <= i < |b| ==> !b[i]
  {
    if b != [] { CountTrueAll(b[..|b| - 1]); }
  }

  lemma CountTruePrefix(b: seq<bool>, k: nat)
    requires k <= |b| && forall i :: k <= i < |b| ==> !b[i]
    ensures CountTrue(b) == CountTrue(b[..k]) <= k
  {
    CountTrueSplit(b, k);
    CountTrueAll(b[k..]);
    CountTrueAll(b[..k]);
  }

  function Exchanged(f: seq<bool>, i: nat, j: nat): seq<bool>
    requires i < |f| && j < |f|
  {
    f[i := f[j]][j := f[i]]
  }

  lemma ExchangedCount(f: seq<bool>, i: nat, j: nat)
    requires i < |f| && j < |f|
    ensures CountTrue(Exchanged(f, i, j)) == CountTrue(f)
  {
    CountTrueUpdate(f, i, f[j]);
    CountTrueUpdate(f[i := f[j]], j, f[i]);
  }

  lemma SwapAt(p: Prefix, i: nat, j: nat, tag: seq<bool>)
    requires InRange(p) && i < |p.act| && j < |p.act| && |tag| == |p.act|
    ensures At(Swap(p, i, j).act, tag) == Exchanged(At(p.act, tag), i, j)
  {
  }

  // ---- what the operations keep, on the flags alone ----

  /** Setting the flag at position `k`, and bringing it to the end of the prefix if it lies beyond. */
  lemma ActivateFlags(f: seq<bool>, idx: int, n: int, k: nat)
    requires LazyPrefix(f, idx, n) && k < |f| && !f[k]
    ensures var h := f[k := true];
      && (n == 0 ==> LazyPrefix(Exchanged(h, 0, k), 1, 1))
      && (n > 0 && idx <= k ==> LazyPrefix(Exchanged(h, idx, k), idx + 1, n + 1))
      && (n > 0 && k < idx ==> LazyPrefix(h, idx, n + 1))
  {
    var h := f[k := true];
    CountTrueUpdate(f, k, true);
    CountTrueAll(f);
    ExchangedCount(h, 0, k);
    if n > 0 && idx <= k { ExchangedCount(h, idx, k); }
    if n > 0 && k < idx { CountTruePrefix(h, idx); }
  }

  lemma ActivateOk(p: Prefix, g: nat, tag: seq<bool>)
    requires PrefixOk(p) && g < |p.act| && !p.active[g]
    requires |tag| == |p.act| && Clear(p, tag) && !tag[g]
    ensures var r := Activate(p, g);
      PrefixOk(r) && r.active == p.active[g := true] && |r.act| == |p.act| && Clear(r, tag)
  {
    ActivatePermutes(p, g);
    var k := p.index[g];
    ActivateFlags(Flags(p), p.activeIdx, p.nactives, k);
    assert p.act[k] == g;
    ActivateByPosition(p, g, tag, k);
  }

  lemma ActivateByPosition(p: Prefix, g: nat, tag: seq<bool>, k: nat)
    requires InRange(p) && g < |p.act| && k == p.index[g] && p.act[k] == g && 0 <= p.activeIdx
    requires forall i :: 0 <= i < |p.act| && i != k ==> p.act[i] != g
    requires |tag| == |p.act| && Clear(p, tag) && !tag[g]
    requires p.nactives == 0 ==> p.activeIdx == 0
    requires p.nactives >= 0
    ensures var r := Activate(p, g); var h := Flags(p)[k := true];
      && Clear(r, tag) && r.active == p.active[g := true] && |r.act| == |p.act|
      && Flags(r) ==
         (if p.nactives == 0 then Exchanged(h, 0, k) else if p.activeIdx <= k then Exchanged(h, p.activeIdx, k) else h)
  {
    var q := p.(active := p.active[g := true], nactives := p.nactives + 1);
    assert Flags(q) == Flags(p)[k := true];
    SwapAt(q, 0, k, q.active);
    if q.activeIdx <= k { SwapAt(q, q.activeIdx, k, q.active); }
  }

  /** Positions below `i` are all active, and all active positions lie below activeIdx. */
  ghost predicate Compacting(f: seq<bool>, idx: int, n: int, i: nat)
  {
    && n == CountTrue(f) && i <= n <= idx <= |f|
    && (forall k :: idx <= k < |f| ==> !f[k])
    && (forall k :: 0 <= k < i ==> f[k])
  }

  /** While not all active groups are in place, another one follows; then no more do. */
  lemma NextActive(f: seq<bool>, idx: int, n: int, i: nat)
    requires Compacting(f, idx, n, i)
    ensures i == n ==> forall k :: i <= k < |f| ==> !f[k]
    ensures i < n ==> f[i] || exists k :: i < k < idx && f[k]
  {
    CountTrueSplit(f, i);
    CountTrueAll(f[..i]);
    var rest := f[i..];
    CountTrueAll(rest);
    if i == n {
      forall k | i <= k < |f| ensures !f[k] { assert rest[k - i] == f[k]; }
    } else {
      var k :| 0 <= k < |rest| && rest[k];
      assert f[i + k];
    }
  }

  lemma CompactingStep(f: seq<bool>, idx: int, n: int, i: nat, j: nat)
    requires Compacting(f, idx, n, i) && i < n && i <= j < idx && f[j]
    ensures Compacting(Exchanged(f, i, j), idx, n, i + 1)
  {
    ExchangedCount(f, i, j);
  }

  lemma FindsActive(p: Prefix, i: nat)
    requires InRange(p) && Compacting(Flags(p), p.activeIdx, p.nactives, i) && i < p.nactives && !Flags(p)[i]
    ensures var j := FirstActive(p, i + 1); i < j < p.activeIdx && Flags(p)[j]
  {
    NextActive(Flags(p), p.activeIdx, p.nactives, i);
    var k :| i < k < p.activeIdx && Flags(p)[k];
    assert p.active[p.act[k]];
  }

  /** The loop brings an active group to every position below nactives. */
  lemma {:induction false} ShrinkFromCompacts(p: Prefix, i: nat)
    requires InRange(p) && Compacting(Flags(p), p.activeIdx, p.nactives, i)
    ensures Compacting(Flags(ShrinkFrom(p, i)), p.activeIdx, p.nactives, p.nactives)
    decreases p.nactives - i
  {
    if i < p.nactives {
      if Flags(p)[i] {
        ShrinkFromCompacts(p, i + 1);
      } else {
        FindsActive(p, i);
        var j := FirstActive(p, i + 1);
        CompactingStep(Flags(p), p.activeIdx, p.nactives, i, j);
        SwapAt(p, i, j, p.active);
        ShrinkFromCompacts(Swap(p, i, j), i + 1);
      }
    }
  }

  /** Shrinking leaves the prefix holding exactly the active groups. */
  lemma ShrinkOk(p: Prefix)
    requires Permutation(p) && Compacting(Flags(p), p.activeIdx, p.nactives, 0)
    ensures var r := Shrink(p); PrefixOk(r) && r.activeIdx == r.nactives
    ensures var r := Shrink(p); forall i :: 0 <= i < |r.act| ==> (r.active[r.act[i]] <==> i < r.activeIdx)
  {
    ShrinkFromPermutes(p, 0);
    ShrinkFlags(p);
  }

  lemma ShrinkFlags(p: Prefix)
    requires InRange(p) && Compacting(Flags(p), p.activeIdx, p.nactives, 0)
    ensures var r := Shrink(p); var f := Flags(r);
      && LazyPrefix(f, r.activeIdx, r.nactives) && r.activeIdx == r.nactives
      && (forall i :: 0 <= i < |f| ==> (f[i] <==> i < r.activeIdx))
  {
    var f := Flags(p);
    if p.activeIdx == p.nactives {
      CountTruePrefix(f, p.nactives);
      CountTrueAll(f[..p.nactives]);
      forall k | 0 <= k < p.nactives ensures f[k] { assert f[..p.nactives][k] == f[k]; }
    } else {
      ShrinkFromCompacts(p, 0);
      NextActive(Flags(ShrinkFrom(p, 0)), p.activeIdx, p.nactives, p.nactives);
    }
  }

  /** A group that stops being active leaves the prefix at once if it is paused. */
  lemma InactivateOk(p: Prefix, g: nat, paused: bool, tag: seq<bool>)
    requires PrefixOk(p) && g < |p.act| && p.active[g]
    requires |tag| == |p.act| && Clear(p, tag[g := false]) && tag[g] == paused
    requires forall h :: 0 <= h < |p.act| && h != g && p.active[h] ==> !tag[h]
    ensures var r := Inactivate(p, g, paused);
      PrefixOk(r) && r.active == p.active[g := false] && |r.act| == |p.act| && Clear(r, tag)
  {
    InactivatePermutes(p, g, paused);
    var k := p.index[g];
    assert p.act[k] == g;
    InactivateByPosition(p, g, paused, tag, k);
  }

  lemma InactivateByPosition(p: Prefix, g: nat, paused: bool, tag: seq<bool>, k: nat)
    requires InRange(p) && g < |p.act| && p.active[g] && k < |p.act| && p.act[k] == g
    requires forall i :: 0 <= i < |p.act| && i != k ==> p.act[i] != g
    requires LazyPrefix(Flags(p), p.activeIdx, p.nactives)
    requires |tag| == |p.act| && Clear(p, tag[g := false]) && tag[g] == paused
    requires forall h :: 0 <= h < |p.act| && h != g && p.active[h] ==> !tag[h]
    ensures var r := Inactivate(p, g, paused);
      LazyPrefix(Flags(r), r.activeIdx, r.nactives) && r.active == p.active[g := false] && Clear(r, tag)
  {
    var q := p.(active := p.active[g := false], nactives := p.nactives - 1);
    var f := Flags(p);
    assert Flags(q) == f[k := false];
    CountTrueUpdate(f, k, false);
    if q.nactives != 0 && (paused || q.nactives + 2 < q.activeIdx) {
      ShrinkFlags(q);
    } else {
      InactivatedLazily(p, g, paused, tag, k);
    }
  }

  /** Without compaction the group only loses its flag. */
  lemma InactivatedLazily(p: Prefix, g: nat, paused: bool, tag: seq<bool>, k: nat)
    requires InRange(p) && g < |p.act| && p.active[g] && k < |p.act| && p.act[k] == g
    requires forall i :: 0 <= i < |p.act| && i != k ==> p.act[i] != g
    requires LazyPrefix(Flags(p), p.activeIdx, p.nactives)
    requires |tag| == |p.act| && Clear(p, tag[g := false]) && tag[g] == paused
    requires p.nactives == 1 || (!paused && p.nactives + 1 >= p.activeIdx)
    requires CountTrue(Flags(p.(active := p.active[g := false]))) == p.nactives - 1
    ensures var r := Inactivate(p, g, paused);
      LazyPrefix(Flags(r), r.activeIdx, r.nactives) && Clear(r, tag)
  {
    CountTrueAll(Flags(p.(active := p.active[g := false])));
  }

  lemma GrowOk(p: Prefix, inc: nat)
    requires PrefixOk(p)
    ensures var r := Grow(p, inc);
      && PrefixOk(r) && |r.act| == |p.act| + inc && r.active[..|p.act|] == p.active
      && (forall i :: 0 <= i < |p.act| ==> r.act[i] == p.act[i] && r.index[i] == p.index[i])
      && (forall i :: |p.act| <= i < |r.act| ==> r.act[i] == i && r.index[i] == i && !r.active[i])
  {
    GrowPermutes(p, inc);
    GrowFlags(p, inc);
  }

  lemma GrowFlags(p: Prefix, inc: nat)
    requires InRange(p) && InRange(Grow(p, inc)) && LazyPrefix(Flags(p), p.activeIdx, p.nactives)
    ensures var r := Grow(p, inc); LazyPrefix(Flags(r), r.activeIdx, r.nactives)
  {
    var f := Flags(Grow(p, inc));
    var n := |p.act|;
    assert f[..n] == Flags(p);
    CountTruePrefix(f, n);
  }

  // ---- nactives_ok is the number of active groups ----

  function ActiveAmong(p: Prefix, k: nat): set<nat>
    requires InRange(p) && k <= |p.act|
  {
    set i | 0 <= i < k && p.active[p.act[i]] :: p.act[i]
  }

  lemma {:induction false} ActiveAmongSize(p: Prefix, k: nat)
    requires Permutation(p) && k <= |p.act|
    ensures |ActiveAmong(p, k)| == CountTrue(Flags(p)[..k])
  {
    if k > 0 {
      ActiveAmongSize(p, k - 1);
      assert Flags(p)[..k][..k - 1] == Flags(p)[..k - 1];
      ActiveAmongNext(p, k - 1);
    }
  }

  lemma ActiveAmongNext(p: Prefix, k: nat)
    requires Permutation(p) && k < |p.act|
    ensures ActiveAmong(p, k + 1) == ActiveAmong(p, k) + (if p.active[p.act[k]] then {p.act[k]} else {})
    ensures p.act[k] !in ActiveAmong(p, k)
  {
    forall i | 0 <= i < k ensures p.act[i] != p.act[k] { assert p.index[p.act[i]] == i; }
  }

  lemma NactivesCounts(p: Prefix)
    requires PrefixOk(p)
    ensures p.nactives == |set g: nat | g < |p.act| && p.active[g]|
  {
    ActiveAmongSize(p, |p.act|);
    assert Flags(p)[..|p.act|] == Flags(p);
    assert ActiveAmong(p, |p.act|) == (set g: nat | g < |p.act| && p.active[g]) by {
      forall g: nat | g < |p.act| && p.active[g] ensures g in ActiveAmong(p, |p.act|) { assert p.act[p.index[g]] == g; }
    }
  }

  /** Every active group is met by a scan of the prefix. */
  lemma ActiveIsScanned(p: Prefix, g: nat)
    requires PrefixOk(p) && g < |p.act| && p.active[g]
    ensures p.index[g] < p.activeIdx && p.act[p.index[g]] == g
  {
    assert Flags(p)[p.index[g]] == p.active[g];
  }
}
