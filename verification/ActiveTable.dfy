/**
 The table of active groups as the source has it: arrays whose elements are swapped in place,
 proved against the functions of ActivePrefix.
 */
module ActiveTable {
  import opened ActivePrefix

  class Table {
    var act: array<nat>
    var index: array<nat>
    var active: array<bool>
    var activeIdx: int
    var nactives: int

    ghost function View(): Prefix
      reads this, act, index, active
    {
      Prefix(act[..], index[..], active[..], activeIdx, nactives)
    }

    ghost predicate Valid()
      reads this, act, index, active
    {
      act != index && InRange(View())
    }

    constructor ()
      ensures Valid() && View() == Prefix([], [], [], 0, 0) && fresh(act) && fresh(index) && fresh(active)
    {
      act, index, active := new nat[0], new nat[0], new bool[0];
      activeIdx, nactives := 0, 0;
    }

    /** __cpool_gp_entry_swapl */
    method Swap(i: nat, j: nat)
      requires Valid() && i < act.Length && j < act.Length
      modifies act, index
      ensures Valid() && View() == ActivePrefix.Swap(old(View()), i, j)
    {
      var save := act[i];
      index[act[i]] := j;
      index[act[j]] := i;
      act[i] := act[j];
      act[j] := save;
    }

    /** __cpool_gp_entry_activel */
    method Activate(g: nat)
      requires Valid() && g < act.Length
      modifies this`activeIdx, this`nactives, act, index, active
      ensures Valid() && View() == ActivePrefix.Activate(old(View()), g)
    {
      active[g] := true;
      nactives := nactives + 1;
      if nactives == 1 {
        if index[g] != 0 { Swap(0, index[g]); }
        activeIdx := 1;
      } else if 0 <= activeIdx <= index[g] {
        Swap(activeIdx, index[g]);
        activeIdx := activeIdx + 1;
      }
    }

    /** __cpool_gp_entry_shrink */
    method Shrink()
      requires Valid()
      modifies this`activeIdx, act, index
      ensures Valid() && View() == ActivePrefix.Shrink(old(View()))
    {
      if activeIdx == nactives { return; }
      var i := 0;
      while i < nactives && i < act.Length
        invariant Valid() && 0 <= i
        invariant active[..] == old(active[..]) && activeIdx == old(activeIdx) && nactives == old(nactives)
        invariant ShrinkFrom(View(), i) == ShrinkFrom(old(View()), 0)
        decreases act.Length - i
      {
        FillAt(i);
        i := i + 1;
      }
      activeIdx := nactives;
    }

    /** The body of its outer loop: an inactive entry trades places with the next active one. */
    method FillAt(i: nat)
      requires Valid() && i < nactives && i < act.Length
      modifies act, index
      ensures Valid() && active[..] == old(active[..]) && activeIdx == old(activeIdx)
      ensures ShrinkFrom(View(), i + 1) == ShrinkFrom(old(View()), i)
    {
      if !active[act[i]] {
        var j := NextActive(i + 1);
        if j < activeIdx && j < act.Length { Swap(i, j); }
      }
    }

    /** The inner loop of __cpool_gp_entry_shrink. */
    method NextActive(from: nat) returns (j: nat)
      requires Valid()
      ensures j == FirstActive(View(), from)
    {
      j := from;
      while j < activeIdx && j < act.Length && !active[act[j]]
        invariant Valid() && FirstActive(View(), j) == FirstActive(View(), from)
        decreases act.Length - j
      {
        j := j + 1;
      }
    }

    /** __cpool_gp_entry_inactivel */
    method Inactivate(g: nat, paused: bool)
      requires Valid() && g < act.Length
      modifies this`activeIdx, this`nactives, act, index, active
      ensures Valid() && View() == ActivePrefix.Inactivate(old(View()), g, paused)
    {
      active[g] := false;
      nactives := nactives - 1;
      if nactives == 0 {
        activeIdx := 0;
      } else if paused || nactives + 2 < activeIdx {
        Shrink();
      }
    }

    /** The slot growth of cpool_gp_entry_create: the new slots lie at the end, each at its own index. */
    method Grow(inc: nat)
      requires Valid()
      modifies this
      ensures Valid() && View() == ActivePrefix.Grow(old(View()), inc)
      ensures fresh(act) && fresh(index) && fresh(active)
    {
      var n := act.Length;
      var a := Extended(act, inc);
      var x := Extended(index, inc);
      var flags := active;
      var f := new bool[n + inc](i requires 0 <= i reads flags => i < flags.Length && flags[i]);
      assert f[..] == active[..] + seq(inc, i => false);
      act, index, active := a, x, f;
      GrowInRange(old(View()), inc);
    }
  }

  /** A reallocated array: the old elements, then each new position itself. */
  method Extended(a: array<nat>, inc: nat) returns (b: array<nat>)
    ensures fresh(b) && b[..] == a[..] + seq(inc, i => a.Length + i)
  {
    var n := a.Length;
    b := new nat[n + inc];
    for k := 0 to n + inc
      invariant forall i :: 0 <= i < k ==> b[i] == if i < n then a[i] else i
    {
      b[k] := if k < n then a[k] else k;
    }
  }

  lemma GrowInRange(p: Prefix, inc: nat)
    requires InRange(p)
    ensures InRange(Grow(p, inc))
  {
    var r := Grow(p, inc);
    forall i | 0 <= i < |r.act| ensures r.act[i] < |r.act| && r.index[i] < |r.act| {
      if i < |p.act| { assert r.act[i] == p.act[i] && r.index[i] == p.index[i]; }
    }
  }
}
