/**
 Waiting for tasks: armed notify flags, two condition variables shared by all waiters, and the
 references that keep a task from being recycled.  A waiter is a call of __cpool_gp_w_waitl.
 */
module Waiters {
  import opened Types

  /** What a waiter waits for: `at` is the group of the task, `since` the number of processed tasks it has seen. */
  datatype Want =
    | OneDone(id: nat, at: nat) | AnyDone(g: nat, since: nat) | AllDone(h: nat)
    | PoolAnyDone(pooled: nat) | PoolAllDone

  datatype Phase = Out | Asleep | Woken

  datatype Waiter = Waiter(want: Want, phase: Phase)

  /** f_stat is not 0, is 0, or the object has gone back to the cache. */
  datatype TaskState = Live | Finished | Recycled

  /** The thread that detaches a task sleeps until no waiter refers to it. */
  datatype Detach = Attached | Sleeping | Signalled | Detached

  datatype Rec = Rec(group: nat, cached: bool, state: TaskState, ref: int, recycles: nat, detach: Detach)

  /** The thread that deletes a group sleeps until no waiter is left on it. */
  datatype Deleter = Away | Lingering | Called

  /** `wref` counts the waiters on the group, and on its tasks. */
  datatype Group = Group(
    free: bool, destroying: bool, need: bool, any: bool, wref: int, ntraces: int, nprocessed: nat, deleter: Deleter)

  datatype State = State(
    groups: seq<Group>, tasks: seq<Rec>,
    poolNeed: bool, poolAny: bool, ntraces: int, processed0: nat,
    wref: int, waiters: seq<Waiter>)

  predicate OnEntry(w: Want) { w.OneDone? || w.AnyDone? || w.AllDone? }

  /** The group an entry-class waiter waits on. */
  function Home(w: Want): nat
    requires OnEntry(w)
  {
    match w
    case OneDone(id, at) => at
    case AnyDone(g, since) => g
    case AllDone(g) => g
  }

  ghost predicate WantInRange(s: State, w: Want)
  {
    match w
    case OneDone(id, at) => id < |s.tasks| && s.tasks[id].group == at < |s.groups| && !s.groups[at].free
    case AnyDone(g, since) => g < |s.groups| && !s.groups[g].free
    case AllDone(g) => g < |s.groups| && !s.groups[g].free
    case _ => true
  }

  ghost predicate TasksInRange(s: State)
  {
    forall id :: 0 <= id < |s.tasks| ==> s.tasks[id].group < |s.groups|
  }

  /** The tasks processed so far in the groups that exist, as the pool-wide waiters add them up. */
  function Processed(gs: seq<Group>): nat
  {
    if gs == [] then 0 else Processed(gs[..|gs| - 1]) + Share(gs[|gs| - 1])
  }

  function Share(e: Group): nat { if e.free then 0 else e.nprocessed }

  /** What the wait loop tests before it sleeps. */
  predicate Holds(s: State, w: Want)
    requires OnEntry(w) ==> Home(w) < |s.groups|
    requires w.OneDone? ==> w.id < |s.tasks|
  {
    match w
    case OneDone(id, at) => s.tasks[id].state != Live
    case AnyDone(g, since) => s.groups[g].nprocessed != since
    case AllDone(g) => s.groups[g].ntraces == 0
    case PoolAnyDone(since) => Processed(s.groups) + s.processed0 != since
    case PoolAllDone => s.ntraces == 0
  }

  // ---- waking ----

  function Cleared(gs: seq<Group>): (r: seq<Group>)
    ensures |r| == |gs|
    ensures forall g :: 0 <= g < |gs| ==> r[g] == if gs[g].free then gs[g] else gs[g].(need := false, any := false)
  {
    seq(|gs|, g requires 0 <= g < |gs| => if gs[g].free then gs[g] else gs[g].(need := false, any := false))
  }

  /** A broadcast reaches every sleeper of the class. */
  function Broadcast(ws: seq<Waiter>, entry: bool): (r: seq<Waiter>)
    ensures |r| == |ws| && forall i :: 0 <= i < |ws| ==>
      r[i] == if ws[i].phase == Asleep && OnEntry(ws[i].want) == entry then ws[i].(phase := Woken) else ws[i]
  {
    seq(|ws|, i requires 0 <= i < |ws| =>
      if ws[i].phase == Asleep && OnEntry(ws[i].want) == entry then ws[i].(phase := Woken) else ws[i])
  }

  /** __cpool_gp_w_wakeup_entry_taskl: the flags of all groups are cleared, whichever group it was. */
  function WakeEntry(s: State): State { s.(groups := Cleared(s.groups), waiters := Broadcast(s.waiters, true)) }

  /** __cpool_gp_w_wakeup_pool_taskl */
  function WakePool(s: State): State { s.(poolNeed := false, poolAny := false, waiters := Broadcast(s.waiters, false)) }

  predicate WakesEntry(s: State, id: nat)
    requires id < |s.tasks| && s.tasks[id].group < |s.groups|
  {
    var g := s.groups[s.tasks[id].group];
    s.wref != 0 && g.need && (s.tasks[id].ref != 0 || g.any || g.ntraces == 0)
  }

  predicate WakesPool(s: State) { s.wref != 0 && s.poolNeed && (s.poolAny || s.ntraces == 0) }

  /** __cpool_gp_w_wakeup_taskl for a finished task */
  function WakeTask(s: State, id: nat): State
    requires id < |s.tasks| && s.tasks[id].group < |s.groups|
  {
    var s1 := if WakesEntry(s, id) then WakeEntry(s) else s;
    if WakesPool(s) then WakePool(s1) else s1
  }

  // ---- the steps ----

  /** The request of a waiter whose test has failed: the flags it needs are set, its references taken. */
  function Sleep(s: State, i: nat, w: Want): State
    requires i < |s.waiters| && (w.OneDone? ==> w.id < |s.tasks|) && (OnEntry(w) ==> Home(w) < |s.groups|)
  {
    var s1 := s.(wref := s.wref + 1, waiters := s.waiters[i := Waiter(w, Asleep)]);
    if !OnEntry(w) then s1.(poolNeed := true, poolAny := s.poolAny || w.PoolAnyDone?)
    else
      var g := Home(w);
      var e := s.groups[g];
      s1.(groups := s.groups[g := e.(need := true, any := e.any || w.AnyDone?, wref := e.wref + 1)],
          tasks := if w.OneDone? then s.tasks[w.id := s.tasks[w.id].(ref := s.tasks[w.id].ref + 1)] else s.tasks)
  }

  /** The end of __cpool_gp_w_waitl, woken or timed out, and the waiter's look at its task. */
  function Return(s: State, i: nat): State
    requires i < |s.waiters|
    requires var w := s.waiters[i].want;
      (w.OneDone? ==> w.id < |s.tasks|) && (OnEntry(w) ==> Home(w) < |s.groups|)
  {
    var w := s.waiters[i].want;
    var s1 := s.(wref := s.wref - 1, waiters := s.waiters[i := s.waiters[i].(phase := Out)]);
    if !OnEntry(w) then s1
    else
      var e := s.groups[Home(w)];
      s1.(groups := s.groups[Home(w) := GivenUp(e.(wref := e.wref - 1))],
          tasks := if !w.OneDone? then s.tasks
                   else s.tasks[w.id := LookedAt(s.tasks[w.id].(ref := s.tasks[w.id].ref - 1))])
  }

  /** The last waiter on a group that is being deleted calls the thread that deletes it. */
  function GivenUp(e: Group): Group
  {
    if e.wref == 0 && e.destroying && e.deleter == Lingering then e.(deleter := Called) else e
  }

  /** What the waiter that has just given up its reference does with the task. */
  function LookedAt(t: Rec): Rec
  {
    if t.ref != 0 then t
    else
      var u := if t.detach == Sleeping then t.(detach := Signalled) else t;
      if u.state == Finished && u.cached then u.(state := Recycled, recycles := u.recycles + 1) else u
  }

  /** A task is queued: for the first time, or again after it had finished. */
  function Queue(s: State, id: nat): State
    requires id < |s.tasks| && s.tasks[id].group < |s.groups|
  {
    var g := s.tasks[id].group;
    s.(tasks := s.tasks[id := s.tasks[id].(state := Live)],
       groups := s.groups[g := s.groups[g].(ntraces := s.groups[g].ntraces + 1)], ntraces := s.ntraces + 1)
  }

  function NewTask(s: State, g: nat, cached: bool): State
    requires g < |s.groups|
  {
    s.(tasks := s.tasks + [Rec(g, cached, Live, 0, 0, Attached)],
       groups := s.groups[g := s.groups[g].(ntraces := s.groups[g].ntraces + 1)], ntraces := s.ntraces + 1)
  }

  /** The trace record of a finished task is dropped. */
  function Dropped(s: State, id: nat): State
    requires id < |s.tasks| && s.tasks[id].group < |s.groups|
  {
    var e := s.groups[s.tasks[id].group];
    s.(groups := s.groups[s.tasks[id].group := e.(ntraces := e.ntraces - 1, nprocessed := e.nprocessed + 1)],
      ntraces := s.ntraces - 1)
  }

  /** The worker's part: a cached task to which nobody refers goes back to the cache. */
  function Ended(t: Rec): Rec
  {
    if t.cached && t.ref == 0 then t.(state := Recycled, recycles := t.recycles + 1) else t.(state := Finished)
  }

  /** A task finishes: cpool_gp_core_finished, a removal, or a dispatched one. */
  function Finish(s: State, id: nat): State
    requires id < |s.tasks| && s.tasks[id].group < |s.groups|
  {
    var s1 := WakeTask(Dropped(s, id), id);
    s1.(tasks := s1.tasks[id := Ended(s1.tasks[id])])
  }

  /** cpool_gp_task_detach, up to its wait for the waiters. */
  function DetachTask(s: State, id: nat): State
    requires id < |s.tasks| && s.tasks[id].group < |s.groups|
  {
    var s1 := Finish(s, id);
    var t := s1.tasks[id];
    s1.(tasks := s1.tasks[id := t.(detach := if t.ref == 0 then Detached else Sleeping)])
  }

  /** The detaching thread has been signalled and tests again. */
  function DetachTests(s: State, id: nat): State
    requires id < |s.tasks|
  {
    var t := s.tasks[id];
    s.(tasks := s.tasks[id := t.(detach := if t.ref == 0 then Detached else Sleeping)])
  }

  /** IS_VALID_ENTRY */
  predicate InUse(e: Group) { !e.free && !e.destroying }

  /** cpool_gp_entry_delete has waited for the last task of the group. */
  predicate Dying(e: Group) { !e.free && e.destroying && e.ntraces == 0 }

  /** cpool_gp_entry_create in the free slot `g` */
  function CreateGroup(s: State, g: nat): State
    requires g < |s.groups|
  {
    var e := s.groups[g];
    s.(groups := s.groups[g := e.(free := false, need := false, any := false, wref := 0, nprocessed := 0)])
  }

  /** The end of cpool_gp_entry_delete: nobody waits on the group any more. */
  function VacateGroup(s: State, g: nat): State
    requires g < |s.groups|
  {
    var e := s.groups[g];
    s.(groups := s.groups[g := e.(free := true, destroying := false, deleter := Away)],
       processed0 := s.processed0 + e.nprocessed)
  }

  // ---- counting ----

  /** Which waiters are counted: all, those for one task, those on one group. */
  datatype Scope = Anyone | ForTask(id: nat) | OnGroup(g: nat)

  /** A waiter in __cpool_gp_w_waitl. */
  predicate Counts(w: Waiter, only: Scope)
  {
    w.phase != Out &&
    match only
    case Anyone => true
    case ForTask(id) => w.want.OneDone? && w.want.id == id
    case OnGroup(g) => OnEntry(w.want) && Home(w.want) == g
  }

  function Inside(ws: seq<Waiter>, only: Scope): nat
  {
    if ws == [] then 0 else Inside(ws[..|ws| - 1], only) + Bit(Counts(ws[|ws| - 1], only))
  }

  lemma {:induction false} InsideUpdate(ws: seq<Waiter>, i: nat, w: Waiter, only: Scope)
    requires i < |ws|
    ensures Inside(ws[i := w], only) == Inside(ws, only) - Bit(Counts(ws[i], only)) + Bit(Counts(w, only))
  {
    var n := |ws| - 1;
    if i < n {
      InsideUpdate(ws[..n], i, w, only);
      assert ws[i := w][..n] == ws[..n][i := w];
    } else {
      assert ws[i := w][..n] == ws[..n];
    }
  }

  lemma {:induction false} InsideMember(ws: seq<Waiter>, i: nat, only: Scope)
    requires i < |ws| && Counts(ws[i], only)
    ensures Inside(ws, only) >= 1
  {
    if i < |ws| - 1 { InsideMember(ws[..|ws| - 1], i, only); }
  }

  lemma {:induction false} InsideSame(ws: seq<Waiter>, vs: seq<Waiter>, only: Scope)
    requires |ws| == |vs| && forall i :: 0 <= i < |ws| ==> Counts(ws[i], only) == Counts(vs[i], only)
    ensures Inside(ws, only) == Inside(vs, only)
  {
    if ws != [] { InsideSame(ws[..|ws| - 1], vs[..|ws| - 1], only); }
  }

  lemma {:induction false} ProcessedSame(gs: seq<Group>, hs: seq<Group>)
    requires |gs| == |hs|
    requires forall g :: 0 <= g < |gs| ==> gs[g].free == hs[g].free && gs[g].nprocessed == hs[g].nprocessed
    ensures Processed(gs) == Processed(hs)
  {
    if gs != [] { ProcessedSame(gs[..|gs| - 1], hs[..|gs| - 1]); }
  }

  /** The tasks that are not finished, of all groups or of one. */
  function LiveTasks(ts: seq<Rec>, only: Option<nat>): nat
  {
    if ts == [] then 0 else LiveTasks(ts[..|ts| - 1], only) + LiveBit(ts[|ts| - 1], only)
  }

  function LiveBit(t: Rec, only: Option<nat>): nat { Bit(t.state == Live && (only.Some? ==> t.group == only.value)) }

  lemma {:induction false} LiveUpdate(ts: seq<Rec>, id: nat, t: Rec, only: Option<nat>)
    requires id < |ts|
    ensures LiveTasks(ts[id := t], only) == LiveTasks(ts, only) - LiveBit(ts[id], only) + LiveBit(t, only)
  {
    var n := |ts| - 1;
    if id < n {
      LiveUpdate(ts[..n], id, t, only);
      assert ts[id := t][..n] == ts[..n][id := t];
    } else {
      assert ts[id := t][..n] == ts[..n];
    }
  }

  // ---- the invariant ----

  /** The flags by which the step that makes the wish come true will find the waiter. */
  predicate Flagged(s: State, w: Want)
    requires OnEntry(w) ==> Home(w) < |s.groups|
  {
    if OnEntry(w) then s.groups[Home(w)].need && (w.AnyDone? ==> s.groups[Home(w)].any)
    else s.poolNeed && (w.PoolAnyDone? ==> s.poolAny)
  }

  ghost predicate WantsInRange(s: State)
  {
    forall i :: 0 <= i < |s.waiters| && s.waiters[i].phase != Out ==> WantInRange(s, s.waiters[i].want)
  }

  /** Every sleeper is armed, and sleeps for a reason. */
  ghost predicate Armed(s: State)
    requires TasksInRange(s) && WantsInRange(s)
  {
    forall i :: 0 <= i < |s.waiters| && s.waiters[i].phase == Asleep ==>
      Flagged(s, s.waiters[i].want) && !Holds(s, s.waiters[i].want)
  }

  ghost predicate RefsCounted(s: State)
  {
    && s.wref == Inside(s.waiters, Anyone)
    && (forall g :: 0 <= g < |s.groups| ==> s.groups[g].wref == Inside(s.waiters, OnGroup(g)))
    && (forall id :: 0 <= id < |s.tasks| ==> s.tasks[id].ref == Inside(s.waiters, ForTask(id)))
  }

  /** A task with a live trace belongs to a group that exists. */
  ghost predicate LiveInUse(s: State)
    requires TasksInRange(s)
  {
    forall id :: 0 <= id < |s.tasks| && s.tasks[id].state == Live ==> !s.groups[s.tasks[id].group].free
  }

  /** Recycling and detaching, task by task. */
  predicate RecOk(t: Rec)
  {
    && (t.state == Recycled ==> t.cached && t.ref == 0)
    && (t.state == Finished && t.cached ==> t.ref > 0)
    && t.recycles == (if t.state == Recycled then 1 else 0)
    && (t.detach == Sleeping ==> t.ref > 0)
  }

  ghost predicate RecsOk(s: State) { forall id :: 0 <= id < |s.tasks| ==> RecOk(s.tasks[id]) }

  /** The thread that deletes a group sleeps only while somebody waits on it; no deletion leaves its mark. */
  ghost predicate DeletersOk(s: State)
  {
    && (forall g :: 0 <= g < |s.groups| && s.groups[g].deleter == Lingering ==>
          !s.groups[g].free && s.groups[g].destroying && s.groups[g].wref > 0)
    && (forall g :: 0 <= g < |s.groups| && s.groups[g].free ==> !s.groups[g].destroying)
  }

  ghost predicate TracesCounted(s: State)
  {
    && s.ntraces == LiveTasks(s.tasks, None)
    && (forall g :: 0 <= g < |s.groups| ==> s.groups[g].ntraces == LiveTasks(s.tasks, Some(g)))
  }

  ghost predicate Inv(s: State)
  {
    && TasksInRange(s) && WantsInRange(s) && Armed(s) && RefsCounted(s) && TracesCounted(s) && LiveInUse(s)
    && RecsOk(s) && DeletersOk(s)
  }

  // ---- the steps keep it ----

  datatype Step =
    | GoToSleep(i: nat, w: Want)
    | ComeBack(i: nat)
    | Add(g: nat, cached: bool)
    | AddAgain(id: nat)
    | End(id: nat)
    | DetachIt(id: nat)
    | DetachTest(id: nat)
    | Create(g: nat)
    | Delete(g: nat)
    | Interrupt(g: nat)
    | Linger(g: nat)
    | Vacate(g: nat)

  ghost predicate Enabled(s: State, step: Step)
  {
    match step
    case GoToSleep(i, w) => i < |s.waiters| && s.waiters[i].phase == Out && WantInRange(s, w) && !Holds(s, w)
    case ComeBack(i) => i < |s.waiters| && s.waiters[i].phase != Out && WantInRange(s, s.waiters[i].want)
    case Add(g, cached) => g < |s.groups| && InUse(s.groups[g])
    case AddAgain(id) => id < |s.tasks| && s.tasks[id].state == Finished && !s.tasks[id].cached
                         && s.tasks[id].group < |s.groups| && InUse(s.groups[s.tasks[id].group])
    case End(id) => id < |s.tasks| && s.tasks[id].state == Live && s.tasks[id].group < |s.groups|
    case DetachIt(id) => id < |s.tasks| && s.tasks[id].state == Live && !s.tasks[id].cached
                         && s.tasks[id].group < |s.groups|
    case DetachTest(id) => id < |s.tasks| && s.tasks[id].detach == Signalled
    case Create(g) => g < |s.groups| && s.groups[g].free
    case Delete(g) => g < |s.groups| && InUse(s.groups[g])
    case Interrupt(g) => g < |s.groups| && Dying(s.groups[g]) && s.groups[g].wref != 0
    case Linger(g) => g < |s.groups| && Dying(s.groups[g]) && s.groups[g].deleter != Lingering && s.groups[g].wref != 0
    case Vacate(g) => g < |s.groups| && Dying(s.groups[g]) && s.groups[g].deleter != Lingering && s.groups[g].wref == 0
  }

  function Apply(s: State, step: Step): State
    requires Enabled(s, step) && TasksInRange(s)
  {
    match step
    case GoToSleep(i, w) => Sleep(s, i, w)
    case ComeBack(i) => Return(s, i)
    case Add(g, cached) => NewTask(s, g, cached)
    case AddAgain(id) => Queue(s, id)
    case End(id) => Finish(s, id)
    case DetachIt(id) => DetachTask(s, id)
    case DetachTest(id) => DetachTests(s, id)
    case Create(g) => CreateGroup(s, g)
    case Delete(g) => s.(groups := s.groups[g := s.groups[g].(destroying := true)])
    case Interrupt(g) => WakeEntry(s)
    case Linger(g) => s.(groups := s.groups[g := s.groups[g].(deleter := Lingering)])
    case Vacate(g) => VacateGroup(s, g)
  }

  // going to sleep

  /** Whoever slept sleeps on, armed: flags are only set, and nothing else that is tested changes. */
  lemma SleeperUndisturbed(s: State, r: State, w: Want)
    requires TasksInRange(s) && TasksInRange(r) && WantInRange(s, w) && Flagged(s, w) && !Holds(s, w)
    requires |r.tasks| >= |s.tasks| && |r.groups| == |s.groups|
    requires forall id :: 0 <= id < |s.tasks| ==>
      r.tasks[id].group == s.tasks[id].group && (s.tasks[id].state == Live ==> r.tasks[id].state == Live)
    requires forall g :: 0 <= g < |s.groups| ==>
      && r.groups[g].nprocessed == s.groups[g].nprocessed && (s.groups[g].ntraces != 0 ==> r.groups[g].ntraces != 0)
      && (s.groups[g].need ==> r.groups[g].need) && (s.groups[g].any ==> r.groups[g].any)
      && r.groups[g].free == s.groups[g].free
    requires (s.poolNeed ==> r.poolNeed) && (s.poolAny ==> r.poolAny) && r.processed0 == s.processed0
    requires s.ntraces != 0 ==> r.ntraces != 0
    ensures Flagged(r, w) && !Holds(r, w)
  {
    ProcessedSame(s.groups, r.groups);
  }

  /** Flags may be set, nothing else changes. */
  predicate MoreFlags(e: Group, f: Group)
  {
    f == e.(need := f.need, any := f.any, wref := f.wref) && (e.need ==> f.need) && (e.any ==> f.any)
  }

  /** What taking up a request leaves alone. */
  lemma SleepEffect(s: State, i: nat, w: Want)
    requires Inv(s) && Enabled(s, GoToSleep(i, w))
    ensures var r := Sleep(s, i, w);
      && |r.tasks| == |s.tasks| && |r.groups| == |s.groups|
      && (forall id :: 0 <= id < |s.tasks| ==>
        r.tasks[id] == s.tasks[id].(ref := s.tasks[id].ref + Bit(w.OneDone? && w.id == id)))
      && (forall g :: 0 <= g < |s.groups| ==> MoreFlags(s.groups[g], r.groups[g]))
      && (forall g :: 0 <= g < |s.groups| ==>
           r.groups[g].wref == s.groups[g].wref + Bit(Counts(Waiter(w, Asleep), OnGroup(g))))
      && (s.poolNeed ==> r.poolNeed) && (s.poolAny ==> r.poolAny)
      && r.processed0 == s.processed0 && r.ntraces == s.ntraces
      && r.waiters == s.waiters[i := Waiter(w, Asleep)] && r.wref == s.wref + 1
      && Flagged(r, w)
  {
  }

  lemma SleepArmed(s: State, i: nat, w: Want)
    requires Inv(s) && Enabled(s, GoToSleep(i, w))
    ensures var r := Sleep(s, i, w); TasksInRange(r) && WantsInRange(r) && Armed(r)
  {
    SleepEffect(s, i, w);
    NewSleeperArmed(s, Sleep(s, i, w), i, w);
  }

  lemma NewSleeperArmed(s: State, r: State, i: nat, w: Want)
    requires TasksInRange(s) && WantsInRange(s) && Armed(s) && i < |s.waiters| && WantInRange(s, w) && !Holds(s, w)
    requires |r.tasks| == |s.tasks| && |r.groups| == |s.groups| && r.waiters == s.waiters[i := Waiter(w, Asleep)]
    requires forall id :: 0 <= id < |s.tasks| ==> r.tasks[id] == s.tasks[id].(ref := r.tasks[id].ref)
    requires forall g :: 0 <= g < |s.groups| ==> MoreFlags(s.groups[g], r.groups[g])
    requires (s.poolNeed ==> r.poolNeed) && (s.poolAny ==> r.poolAny) && r.processed0 == s.processed0
    requires r.ntraces == s.ntraces
    requires TasksInRange(r) && Flagged(r, w)
    ensures WantsInRange(r) && Armed(r)
  {
    ProcessedSame(s.groups, r.groups);
    forall j | 0 <= j < |r.waiters| && r.waiters[j].phase == Asleep && j != i
      ensures Flagged(r, r.waiters[j].want) && !Holds(r, r.waiters[j].want)
    {
      SleeperUndisturbed(s, r, s.waiters[j].want);
    }
  }

  lemma SleepCounts(s: State, i: nat, w: Want)
    requires Inv(s) && Enabled(s, GoToSleep(i, w))
    ensures var r := Sleep(s, i, w); RefsCounted(r) && TracesCounted(r) && RecsOk(r) && LiveInUse(r)
  {
    SleepEffect(s, i, w);
    var r := Sleep(s, i, w);
    SleepRefs(s, r, i, w);
    assert TracesCounted(r) by {
      forall only ensures LiveTasks(r.tasks, only) == LiveTasks(s.tasks, only) { SameLive(s.tasks, r.tasks, only); }
    }
    forall id | 0 <= id < |r.tasks| ensures RecOk(r.tasks[id]) {
      assert RecOk(s.tasks[id]) && (w.OneDone? && w.id == id ==> s.tasks[id].state == Live);
    }
  }

  lemma {:induction false} SameLive(ts: seq<Rec>, us: seq<Rec>, only: Option<nat>)
    requires |ts| == |us|
    requires forall id :: 0 <= id < |ts| ==> us[id].state == ts[id].state && us[id].group == ts[id].group
    ensures LiveTasks(us, only) == LiveTasks(ts, only)
  {
    if ts != [] { SameLive(ts[..|ts| - 1], us[..|ts| - 1], only); }
  }

  lemma SleepRefs(s: State, r: State, i: nat, w: Want)
    requires RefsCounted(s) && i < |s.waiters| && s.waiters[i].phase == Out
    requires |r.tasks| == |s.tasks| && r.waiters == s.waiters[i := Waiter(w, Asleep)] && r.wref == s.wref + 1
    requires forall id :: 0 <= id < |s.tasks| ==> r.tasks[id].ref == s.tasks[id].ref + Bit(w.OneDone? && w.id == id)
    requires |r.groups| == |s.groups| && forall g :: 0 <= g < |s.groups| ==>
      r.groups[g].wref == s.groups[g].wref + Bit(Counts(Waiter(w, Asleep), OnGroup(g)))
    ensures RefsCounted(r)
  {
    forall only ensures Inside(r.waiters, only) == Inside(s.waiters, only) + Bit(Counts(Waiter(w, Asleep), only)) {
      InsideUpdate(s.waiters, i, Waiter(w, Asleep), only);
    }
  }

  // coming back

  lemma ReturnArmed(s: State, i: nat)
    requires Inv(s) && Enabled(s, ComeBack(i))
    ensures var r := Return(s, i); TasksInRange(r) && WantsInRange(r) && Armed(r) && LiveInUse(r)
  {
    var r := Return(s, i);
    ReturnEffect(s, i);
    forall j | 0 <= j < |r.waiters| && r.waiters[j].phase == Asleep
      ensures Flagged(r, r.waiters[j].want) && !Holds(r, r.waiters[j].want)
    {
      SleeperUndisturbed(s, r, s.waiters[j].want);
    }
  }

  lemma ReturnEffect(s: State, i: nat)
    requires Inv(s) && Enabled(s, ComeBack(i))
    ensures var r := Return(s, i);
      && r == s.(tasks := r.tasks, groups := r.groups, wref := r.wref,
        waiters := s.waiters[i := s.waiters[i].(phase := Out)])
      && |r.tasks| == |s.tasks| && |r.groups| == |s.groups|
      && (forall g :: 0 <= g < |s.groups| ==> r.groups[g] == s.groups[g].(
           wref := s.groups[g].wref - Bit(Counts(s.waiters[i], OnGroup(g))), deleter := r.groups[g].deleter))
      && (forall id :: 0 <= id < |s.tasks| ==>
        r.tasks[id].group == s.tasks[id].group && (s.tasks[id].state == Live <==> r.tasks[id].state == Live))
  {
  }

  lemma ReturnCounts(s: State, i: nat)
    requires Inv(s) && Enabled(s, ComeBack(i))
    ensures var r := Return(s, i); RefsCounted(r) && TracesCounted(r) && RecsOk(r)
  {
    ReturnRefs(s, i);
    ReturnTraces(s, i);
    var w := s.waiters[i].want;
    if w.OneDone? { LookedAtOk(s.tasks[w.id]); }
  }

  lemma LookedAtOk(t: Rec)
    requires RecOk(t)
    ensures var u := LookedAt(t.(ref := t.ref - 1));
      (t.ref > 0 ==> RecOk(u)) && u.ref == t.ref - 1 && u.group == t.group && (u.state == Live <==> t.state == Live)
  {
  }

  lemma ReturnRefs(s: State, i: nat)
    requires Inv(s) && Enabled(s, ComeBack(i))
    ensures RefsCounted(Return(s, i))
    ensures var w := s.waiters[i].want; w.OneDone? ==> s.tasks[w.id].ref > 0
  {
    var r := Return(s, i);
    var w := s.waiters[i];
    ReturnEffect(s, i);
    forall only ensures Inside(r.waiters, only) == Inside(s.waiters, only) - Bit(Counts(w, only)) {
      InsideUpdate(s.waiters, i, w.(phase := Out), only);
    }
    if w.want.OneDone? { InsideMember(s.waiters, i, ForTask(w.want.id)); }
    forall id | 0 <= id < |r.tasks| ensures r.tasks[id].ref == Inside(r.waiters, ForTask(id)) {
      assert s.tasks[id].ref == Inside(s.waiters, ForTask(id));
    }
  }

  lemma ReturnTraces(s: State, i: nat)
    requires Inv(s) && Enabled(s, ComeBack(i))
    ensures TracesCounted(Return(s, i))
  {
    var r := Return(s, i);
    var w := s.waiters[i].want;
    forall only ensures LiveTasks(r.tasks, only) == LiveTasks(s.tasks, only) {
      if w.OneDone? { LiveUpdate(s.tasks, w.id, r.tasks[w.id], only); }
    }
  }

  // new work

  /** The sleepers of a step that only adds work. */
  lemma MoreWorkArmed(s: State, r: State)
    requires Inv(s) && TasksInRange(r) && r.waiters == s.waiters && |r.tasks| >= |s.tasks| && |r.groups| == |s.groups|
    requires forall id :: 0 <= id < |s.tasks| ==>
      r.tasks[id].group == s.tasks[id].group && (s.tasks[id].state == Live ==> r.tasks[id].state == Live)
    requires forall g :: 0 <= g < |s.groups| ==>
      && r.groups[g] == s.groups[g].(
           ntraces := r.groups[g].ntraces, destroying := r.groups[g].destroying, deleter := r.groups[g].deleter)
      && (s.groups[g].ntraces != 0 ==> r.groups[g].ntraces != 0)
    requires r.poolNeed == s.poolNeed && r.poolAny == s.poolAny && r.processed0 == s.processed0
    requires s.ntraces != 0 ==> r.ntraces != 0
    ensures WantsInRange(r) && Armed(r)
  {
    forall j | 0 <= j < |r.waiters| && r.waiters[j].phase == Asleep
      ensures Flagged(r, r.waiters[j].want) && !Holds(r, r.waiters[j].want)
    {
      SleeperUndisturbed(s, r, s.waiters[j].want);
    }
  }

  lemma NewTaskInv(s: State, g: nat, cached: bool)
    requires Inv(s) && Enabled(s, Add(g, cached))
    ensures Inv(NewTask(s, g, cached))
  {
    NewTaskTraces(s, g, cached);
    NewTaskRest(s, g, cached);
    MoreWorkArmed(s, NewTask(s, g, cached));
  }

  lemma NewTaskRest(s: State, g: nat, cached: bool)
    requires Inv(s) && g < |s.groups| && !s.groups[g].free
    ensures var r := NewTask(s, g, cached);
      TasksInRange(r) && RefsCounted(r) && LiveInUse(r) && RecsOk(r)
  {
    var r := NewTask(s, g, cached);
    NobodyWaits(s, |s.tasks|);
    forall id | 0 <= id < |r.tasks|
      ensures r.tasks[id].group < |r.groups| && !(r.tasks[id].state == Live && r.groups[r.tasks[id].group].free)
      ensures RecOk(r.tasks[id]) && r.tasks[id].ref == Inside(r.waiters, ForTask(id))
    {
      if id < |s.tasks| { assert r.tasks[id] == s.tasks[id]; }
    }
  }

  lemma NewTaskTraces(s: State, g: nat, cached: bool)
    requires TracesCounted(s) && g < |s.groups|
    ensures TracesCounted(NewTask(s, g, cached))
    ensures s.ntraces >= 0 && s.groups[g].ntraces >= 0
  {
    var r := NewTask(s, g, cached);
    forall only ensures LiveTasks(r.tasks, only) == LiveTasks(s.tasks, only) + LiveBit(r.tasks[|s.tasks|], only) {
      assert r.tasks[..|s.tasks|] == s.tasks;
    }
  }

  /** No waiter refers to a task that does not exist yet. */
  lemma NobodyWaits(s: State, id: nat)
    requires WantsInRange(s) && id >= |s.tasks|
    ensures Inside(s.waiters, ForTask(id)) == 0
  {
    NobodyInside(s.waiters, ForTask(id));
  }

  lemma {:induction false} NobodyInside(ws: seq<Waiter>, only: Scope)
    requires forall i :: 0 <= i < |ws| ==> !Counts(ws[i], only)
    ensures Inside(ws, only) == 0
  {
    if ws != [] { NobodyInside(ws[..|ws| - 1], only); }
  }

  lemma QueueInv(s: State, id: nat)
    requires Inv(s) && Enabled(s, AddAgain(id))
    ensures Inv(Queue(s, id))
  {
    QueueTraces(s, id);
    MoreWorkArmed(s, Queue(s, id));
    assert RecOk(s.tasks[id]);
  }

  lemma QueueTraces(s: State, id: nat)
    requires TracesCounted(s) && id < |s.tasks| && s.tasks[id].group < |s.groups| && s.tasks[id].state != Live
    ensures TracesCounted(Queue(s, id))
    ensures s.ntraces >= 0 && s.groups[s.tasks[id].group].ntraces >= 0
  {
    var r := Queue(s, id);
    forall only ensures LiveTasks(r.tasks, only) == LiveTasks(s.tasks, only) + LiveBit(r.tasks[id], only) {
      LiveUpdate(s.tasks, id, r.tasks[id], only);
    }
  }

  // finishing

  predicate WokenAtMost(w: Waiter, v: Waiter)
  {
    v.want == w.want && (v.phase == w.phase || (w.phase == Asleep && v.phase == Woken))
  }

  /** Waking moves no waiter in or out, and changes nothing but flags. */
  lemma WakeKeeps(s: State, id: nat)
    requires id < |s.tasks| && s.tasks[id].group < |s.groups|
    ensures var r := WakeTask(s, id);
      && r.tasks == s.tasks && r.ntraces == s.ntraces && r.wref == s.wref && r.processed0 == s.processed0
      && |r.groups| == |s.groups| && |r.waiters| == |s.waiters|
      && (forall g :: 0 <= g < |s.groups| ==>
        r.groups[g] == s.groups[g].(need := r.groups[g].need, any := r.groups[g].any))
      && (forall j :: 0 <= j < |s.waiters| ==> WokenAtMost(s.waiters[j], r.waiters[j]))
  {
  }

  /**
   No lost wake-up: a sleeper whose wish comes true when the trace of task `id` is dropped is woken in
   the same step; one that sleeps on keeps its flags.
   */
  lemma FinishWakes(s: State, id: nat, j: nat)
    requires Inv(s) && id < |s.tasks| && s.tasks[id].state == Live
    requires j < |s.waiters| && s.waiters[j].phase == Asleep
    ensures var r := Finish(s, id); var w := s.waiters[j].want;
      && r.waiters[j].want == w
      && (r.waiters[j].phase == Asleep ==> !Holds(r, w) && Flagged(r, w))
      && (Holds(r, w) ==> r.waiters[j].phase == Woken)
  {
    var w := s.waiters[j].want;
    var d := Dropped(s, id);
    assert Flagged(s, w) && !Holds(s, w);
    InsideMember(s.waiters, j, Anyone);
    if w.OneDone? { InsideMember(s.waiters, j, ForTask(w.id)); }
    assert d.wref > 0;
    if OnEntry(w) {
      var g := s.tasks[id].group;
      if Home(w) == g && ((w.OneDone? && w.id == id) || w.AnyDone? || (w.AllDone? && s.groups[g].ntraces == 1)) {
        assert WakesEntry(d, id);
      }
    } else if w.PoolAnyDone? || s.ntraces == 1 {
      assert WakesPool(d);
    }
  }

  lemma FinishTraces(s: State, id: nat)
    requires TracesCounted(s) && id < |s.tasks| && s.tasks[id].group < |s.groups| && s.tasks[id].state == Live
    ensures TracesCounted(Finish(s, id))
  {
    var r := Finish(s, id);
    WakeKeeps(Dropped(s, id), id);
    forall only ensures LiveTasks(r.tasks, only) == LiveTasks(s.tasks, only) - LiveBit(s.tasks[id], only) {
      LiveUpdate(s.tasks, id, r.tasks[id], only);
    }
  }

  lemma FinishRefs(s: State, id: nat)
    requires RefsCounted(s) && id < |s.tasks| && s.tasks[id].group < |s.groups|
    ensures RefsCounted(Finish(s, id))
  {
    var r := Finish(s, id);
    WakeKeeps(Dropped(s, id), id);
    forall only ensures Inside(r.waiters, only) == Inside(s.waiters, only) { InsideSame(r.waiters, s.waiters, only); }
  }

  lemma FinishInv(s: State, id: nat)
    requires Inv(s) && id < |s.tasks| && s.tasks[id].state == Live
    ensures Inv(Finish(s, id))
  {
    FinishTraces(s, id);
    FinishRefs(s, id);
    FinishRest(s, id);
    var r := Finish(s, id);
    forall j | 0 <= j < |r.waiters| && r.waiters[j].phase == Asleep
      ensures Flagged(r, r.waiters[j].want) && !Holds(r, r.waiters[j].want)
    {
      FinishWakes(s, id, j);
    }
  }

  lemma FinishRest(s: State, id: nat)
    requires Inv(s) && id < |s.tasks| && s.tasks[id].state == Live
    ensures var r := Finish(s, id);
      && TasksInRange(r) && WantsInRange(r) && LiveInUse(r) && RecsOk(r) && |r.waiters| == |s.waiters|
      && (forall j :: 0 <= j < |r.waiters| && r.waiters[j].phase == Asleep ==> s.waiters[j].phase == Asleep)
  {
    WakeKeeps(Dropped(s, id), id);
    FinishRecs(s, id);
  }

  lemma FinishRecs(s: State, id: nat)
    requires Inv(s) && id < |s.tasks| && s.tasks[id].state == Live
    ensures Finish(s, id).tasks == s.tasks[id := Ended(s.tasks[id])] && RecsOk(Finish(s, id))
  {
    WakeKeeps(Dropped(s, id), id);
    assert RecOk(s.tasks[id]);
  }

  lemma DetachInv(s: State, id: nat)
    requires Inv(s) && id < |s.tasks| && s.tasks[id].state == Live && !s.tasks[id].cached
    ensures Inv(DetachTask(s, id))
  {
    FinishInv(s, id);
    DetachMarked(Finish(s, id), id);
  }

  /** Only the detach mark of the task is written. */
  lemma DetachMarked(s: State, id: nat)
    requires Inv(s) && id < |s.tasks|
    ensures Inv(DetachTests(s, id))
  {
    var r := DetachTests(s, id);
    assert RecOk(s.tasks[id]);
    InsideNonNegative(s, id);
    forall only ensures LiveTasks(r.tasks, only) == LiveTasks(s.tasks, only) {
      LiveUpdate(s.tasks, id, r.tasks[id], only);
    }
    forall j | 0 <= j < |r.waiters| && r.waiters[j].phase == Asleep
      ensures Flagged(r, r.waiters[j].want) && !Holds(r, r.waiters[j].want)
    {
      assert Flagged(s, s.waiters[j].want) && !Holds(s, s.waiters[j].want);
    }
  }

  lemma InsideNonNegative(s: State, id: nat)
    requires RefsCounted(s) && id < |s.tasks|
    ensures s.tasks[id].ref >= 0
  {
  }

  // creating and deleting groups

  lemma {:induction false} ProcessedUpdate(gs: seq<Group>, g: nat, e: Group)
    requires g < |gs|
    ensures Processed(gs[g := e]) == Processed(gs) - Share(gs[g]) + Share(e)
  {
    var n := |gs| - 1;
    if g < n {
      ProcessedUpdate(gs[..n], g, e);
      assert gs[g := e][..n] == gs[..n][g := e];
    } else {
      assert gs[g := e][..n] == gs[..n];
    }
  }

  /** A group that nobody waits on may change; what it adds to the processed tasks must stay the same. */
  lemma ReplacedArmed(s: State, r: State, g: nat, e: Group)
    requires Inv(s) && g < |s.groups| && s.groups[g].wref == 0
    requires r == s.(groups := s.groups[g := e], processed0 := r.processed0)
    requires Processed(r.groups) + r.processed0 == Processed(s.groups) + s.processed0
    ensures TasksInRange(r) && WantsInRange(r) && Armed(r)
  {
    forall j | 0 <= j < |s.waiters| && Counts(s.waiters[j], OnGroup(g)) ensures false {
      InsideMember(s.waiters, j, OnGroup(g));
    }
    forall j | 0 <= j < |r.waiters| && r.waiters[j].phase == Asleep
      ensures Flagged(r, r.waiters[j].want) && !Holds(r, r.waiters[j].want)
    {
      assert WantInRange(s, s.waiters[j].want) && Flagged(s, s.waiters[j].want) && !Holds(s, s.waiters[j].want);
      assert !Counts(s.waiters[j], OnGroup(g));
    }
  }

  /** Nobody waits on a free slot. */
  lemma FreeUnwaited(s: State, g: nat)
    requires Inv(s) && g < |s.groups| && s.groups[g].free
    ensures s.groups[g].wref == 0
  {
    forall j | 0 <= j < |s.waiters| ensures !Counts(s.waiters[j], OnGroup(g)) {
      assert s.waiters[j].phase != Out ==> WantInRange(s, s.waiters[j].want);
    }
    NobodyInside(s.waiters, OnGroup(g));
  }

  lemma CreateInv(s: State, g: nat)
    requires Inv(s) && Enabled(s, Create(g))
    ensures Inv(CreateGroup(s, g))
  {
    var r := CreateGroup(s, g);
    FreeUnwaited(s, g);
    ProcessedUpdate(s.groups, g, r.groups[g]);
    ReplacedArmed(s, r, g, r.groups[g]);
  }

  lemma VacateInv(s: State, g: nat)
    requires Inv(s) && Enabled(s, Vacate(g))
    ensures Inv(VacateGroup(s, g))
  {
    var r := VacateGroup(s, g);
    ProcessedUpdate(s.groups, g, r.groups[g]);
    ReplacedArmed(s, r, g, r.groups[g]);
    forall id | 0 <= id < |s.tasks| && s.tasks[id].state == Live ensures s.tasks[id].group != g {
      if s.tasks[id].group == g { LiveMember(s.tasks, id, Some(g)); }
    }
  }

  lemma {:induction false} LiveMember(ts: seq<Rec>, id: nat, only: Option<nat>)
    requires id < |ts| && LiveBit(ts[id], only) == 1
    ensures LiveTasks(ts, only) >= 1
  {
    if id < |ts| - 1 { LiveMember(ts[..|ts| - 1], id, only); }
  }

  lemma DeleteInv(s: State, g: nat)
    requires Inv(s) && Enabled(s, Delete(g))
    ensures Inv(Apply(s, Delete(g)))
  {
    var r := Apply(s, Delete(g));
    MoreWorkArmed(s, r);
  }

  lemma LingerInv(s: State, g: nat)
    requires Inv(s) && Enabled(s, Linger(g))
    ensures Inv(Apply(s, Linger(g)))
  {
    MoreWorkArmed(s, Apply(s, Linger(g)));
  }

  /**
   A deletion is never left asleep: its thread sleeps only while somebody waits on the group, the return of
   the last one calls it, and once awake it gives the slot back if and only if nobody waits any more.
   */
  lemma DeletionReturns(s: State, g: nat)
    requires Inv(s) && g < |s.groups|
    ensures s.groups[g].deleter == Lingering ==> Inside(s.waiters, OnGroup(g)) > 0
    ensures Dying(s.groups[g]) && s.groups[g].deleter != Lingering ==>
      (Enabled(s, Vacate(g)) <==> Inside(s.waiters, OnGroup(g)) == 0)
  {
  }

  lemma LastWaiterCalls(s: State, i: nat)
    requires Inv(s) && Enabled(s, ComeBack(i)) && OnEntry(s.waiters[i].want)
    requires s.groups[Home(s.waiters[i].want)].deleter == Lingering
    ensures var g := Home(s.waiters[i].want); var r := Return(s, i);
      r.groups[g].deleter == if Inside(r.waiters, OnGroup(g)) == 0 then Called else Lingering
  {
    ReturnRefs(s, i);
  }

  /** The broadcast to the waiters on a group that is being deleted wakes every entry-class sleeper. */
  lemma InterruptInv(s: State)
    requires Inv(s)
    ensures Inv(WakeEntry(s))
    ensures forall j :: 0 <= j < |s.waiters| && s.waiters[j].phase == Asleep && OnEntry(s.waiters[j].want) ==>
      WakeEntry(s).waiters[j].phase == Woken
  {
    var r := WakeEntry(s);
    ProcessedSame(s.groups, r.groups);
    forall only ensures Inside(r.waiters, only) == Inside(s.waiters, only) { InsideSame(r.waiters, s.waiters, only); }
    forall j | 0 <= j < |r.waiters| && r.waiters[j].phase == Asleep
      ensures Flagged(r, r.waiters[j].want) && !Holds(r, r.waiters[j].want)
    {
      assert s.waiters[j] == r.waiters[j] && Flagged(s, s.waiters[j].want) && !Holds(s, s.waiters[j].want);
    }
  }

  // ---- the theorems ----

  lemma SleepDeleters(s: State, i: nat, w: Want)
    requires Inv(s) && Enabled(s, GoToSleep(i, w))
    ensures DeletersOk(Sleep(s, i, w))
  {
    SleepEffect(s, i, w);
  }

  lemma SleepInv(s: State, i: nat, w: Want)
    requires Inv(s) && Enabled(s, GoToSleep(i, w))
    ensures Inv(Sleep(s, i, w))
  {
    SleepArmed(s, i, w);
    SleepCounts(s, i, w);
    SleepDeleters(s, i, w);
  }

  lemma ReturnDeleters(s: State, i: nat)
    requires DeletersOk(s) && i < |s.waiters|
    requires var w := s.waiters[i].want;
      (w.OneDone? ==> w.id < |s.tasks|) && (OnEntry(w) ==> Home(w) < |s.groups|)
    ensures DeletersOk(Return(s, i))
  {
  }

  lemma ReturnInv(s: State, i: nat)
    requires Inv(s) && Enabled(s, ComeBack(i))
    ensures Inv(Return(s, i))
  {
    ReturnArmed(s, i);
    ReturnCounts(s, i);
    ReturnDeleters(s, i);
  }

  lemma StepKeeps(s: State, step: Step)
    requires Inv(s) && Enabled(s, step)
    ensures Inv(Apply(s, step))
  {
    match step
    case GoToSleep(i, w) => SleepInv(s, i, w);
    case ComeBack(i) => ReturnInv(s, i);
    case Add(g, cached) => NewTaskInv(s, g, cached);
    case AddAgain(id) => QueueInv(s, id);
    case End(id) => FinishInv(s, id);
    case DetachIt(id) => DetachInv(s, id);
    case DetachTest(id) => DetachMarked(s, id);
    case Create(g) => CreateInv(s, g);
    case Delete(g) => DeleteInv(s, g);
    case Interrupt(g) => InterruptInv(s);
    case Linger(g) => LingerInv(s, g);
    case Vacate(g) => VacateInv(s, g);
  }

  ghost predicate Possible(s: State, steps: seq<Step>)
    decreases |steps|
  {
    steps == [] || (TasksInRange(s) && Enabled(s, steps[0]) && Possible(Apply(s, steps[0]), steps[1..]))
  }

  ghost function After(s: State, steps: seq<Step>): State
    requires Possible(s, steps)
    decreases |steps|
  {
    if steps == [] then s else After(Apply(s, steps[0]), steps[1..])
  }

  lemma {:induction false} RunKeeps(s: State, steps: seq<Step>)
    requires Inv(s) && Possible(s, steps)
    ensures Inv(After(s, steps))
    decreases |steps|
  {
    if steps != [] {
      StepKeeps(s, steps[0]);
      RunKeeps(Apply(s, steps[0]), steps[1..]);
    }
  }

  /** At every point of every run, a waiter that sleeps has nothing to wake up for. */
  lemma NoLostWakeUp(s: State, steps: seq<Step>, i: nat)
    requires Inv(s) && Possible(s, steps)
    requires var r := After(s, steps); i < |r.waiters| && r.waiters[i].phase == Asleep
    ensures var r := After(s, steps);
      WantInRange(r, r.waiters[i].want) && TasksInRange(r) && !Holds(r, r.waiters[i].want)
  {
    RunKeeps(s, steps);
  }

  /**
   At every point of every run: a cached task goes back to the cache at most once, never while a waiter
   refers to it, and it has gone back once it is finished and nobody refers to it, whether the worker or
   the last waiter returned it.
   */
  lemma RecycledOnce(s: State, steps: seq<Step>, id: nat)
    requires Inv(s) && Possible(s, steps) && id < |After(s, steps).tasks|
    ensures var r := After(s, steps); var t := r.tasks[id];
      && t.recycles <= 1
      && (t.recycles == 1 ==> t.ref == 0 && Inside(r.waiters, ForTask(id)) == 0)
      && (t.cached && t.state != Live ==> (t.recycles == 1 <==> Inside(r.waiters, ForTask(id)) == 0))
  {
    RunKeeps(s, steps);
    assert RecOk(After(s, steps).tasks[id]);
  }

  /** Detaching returns only when no waiter refers to the task, and is never left asleep without one. */
  lemma DetachReturns(s: State, id: nat)
    requires Inv(s) && id < |s.tasks|
    ensures s.tasks[id].detach == Sleeping ==> Inside(s.waiters, ForTask(id)) > 0
    ensures Enabled(s, DetachTest(id)) ==>
      (DetachTests(s, id).tasks[id].detach == Detached <==> Inside(s.waiters, ForTask(id)) == 0)
  {
    assert RecOk(s.tasks[id]);
  }

  /**
   The answer of a detach: at once if no waiter refers to the task any more, and otherwise its thread sleeps;
   either way the task has finished.
   */
  lemma DetachAnswers(s: State, id: nat)
    requires Inv(s) && Enabled(s, DetachIt(id))
    ensures var r := Apply(s, DetachIt(id));
      && r.tasks[id].detach == (if Inside(r.waiters, ForTask(id)) == 0 then Detached else Sleeping)
      && r.tasks[id].state == Finished
  {
    FinishRefs(s, id);
    FinishRecs(s, id);
    InsideNonNegative(Finish(s, id), id);
  }

  /** Whatever the step, a task becomes detached only by its detaching thread, and where no waiter refers to it. */
  lemma DetachedAlone(s: State, step: Step, id: nat)
    requires Inv(s) && Enabled(s, step) && id < |s.tasks| && s.tasks[id].detach != Detached
    requires Apply(s, step).tasks[id].detach == Detached
    ensures (step == DetachIt(id) || step == DetachTest(id)) && Inside(s.waiters, ForTask(id)) == 0
  {
    if step.End? || step.DetachIt? {
      FinishRecs(s, step.id);
      WakeKeeps(Dropped(s, step.id), step.id);
    }
  }

  /** Over runs: whoever is told that the task is detached leaves no waiter behind that refers to it. */
  lemma DetachedOverRuns(s: State, steps: seq<Step>, step: Step, id: nat)
    requires Inv(s) && Possible(s, steps) && Enabled(After(s, steps), step)
    requires var q := After(s, steps);
      id < |q.tasks| && TasksInRange(q) && q.tasks[id].detach != Detached && Apply(q, step).tasks[id].detach == Detached
    ensures var r := Apply(After(s, steps), step); Inv(r) && Inside(r.waiters, ForTask(id)) == 0
  {
    var q := After(s, steps);
    RunKeeps(s, steps);
    StepKeeps(q, step);
    DetachedAlone(q, step, id);
    var r := Apply(q, step);
    assert q.tasks[id].ref == 0;
    if step.DetachIt? { FinishRecs(q, id); }
    assert r.tasks[id].ref == 0;
  }

  // ---- what the steps are for ----

  /** The waiter that takes up a request sleeps with it, and one that comes back is out. */
  lemma SleepersSleep(s: State, i: nat, w: Want)
    requires Inv(s)
    ensures Enabled(s, GoToSleep(i, w)) ==> Apply(s, GoToSleep(i, w)).waiters == s.waiters[i := Waiter(w, Asleep)]
    ensures Enabled(s, ComeBack(i)) ==> Apply(s, ComeBack(i)).waiters == s.waiters[i := s.waiters[i].(phase := Out)]
  {
    if Enabled(s, GoToSleep(i, w)) { SleepEffect(s, i, w); }
    if Enabled(s, ComeBack(i)) { ReturnEffect(s, i); }
  }

  /** A group can be used once created, takes no task once its deletion has begun, and is free at its end. */
  lemma GroupLives(s: State, g: nat, cached: bool)
    requires Inv(s) && g < |s.groups|
    ensures Enabled(s, Create(g)) ==> Enabled(Apply(s, Create(g)), Add(g, cached))
    ensures Enabled(s, Delete(g)) ==> !Enabled(Apply(s, Delete(g)), Add(g, cached))
    ensures Enabled(s, Vacate(g)) ==> Enabled(Apply(s, Vacate(g)), Create(g))
    ensures Enabled(s, Linger(g)) ==> !Enabled(Apply(s, Linger(g)), Vacate(g))
  {
  }

  /** A new group has no flag set, nobody on it and nothing processed; a slot given back keeps no deletion. */
  lemma GroupStartsAfresh(s: State, g: nat)
    requires Inv(s) && g < |s.groups|
    ensures Enabled(s, Create(g)) ==> var e := Apply(s, Create(g)).groups[g];
      !e.need && !e.any && e.wref == 0 && e.ntraces == 0 && e.nprocessed == 0 && e.deleter != Lingering
    ensures Enabled(s, Vacate(g)) ==> Apply(s, Vacate(g)).groups[g].deleter == Away
  {
    if s.groups[g].free {
      FreeUnwaited(s, g);
      if LiveTasks(s.tasks, Some(g)) > 0 { LiveInFree(s, g); }
    }
  }

  lemma LiveInFree(s: State, g: nat)
    requires Inv(s) && g < |s.groups| && LiveTasks(s.tasks, Some(g)) > 0
    ensures !s.groups[g].free
  {
    var id := LiveFinds(s.tasks, Some(g));
    assert s.tasks[id].group == g;
  }

  lemma {:induction false} LiveFinds(ts: seq<Rec>, only: Option<nat>) returns (id: nat)
    requires LiveTasks(ts, only) > 0
    ensures id < |ts| && LiveBit(ts[id], only) == 1
  {
    var n := |ts| - 1;
    if LiveBit(ts[n], only) == 1 { id := n; } else { id := LiveFinds(ts[..n], only); }
  }

  /** A deletion can go on once the last task of the group is over: to its end, or to sleep while somebody waits. */
  lemma DeletionGoesOn(s: State, g: nat)
    requires Inv(s) && g < |s.groups| && !s.groups[g].free && s.groups[g].destroying && s.groups[g].deleter != Lingering
    ensures LiveTasks(s.tasks, Some(g)) == 0 ==>
      if Inside(s.waiters, OnGroup(g)) == 0 then Enabled(s, Vacate(g)) else Enabled(s, Linger(g))
    ensures LiveTasks(s.tasks, Some(g)) > 0 ==> !Enabled(s, Vacate(g)) && !Enabled(s, Linger(g))
  {
  }

  /** A pool-wide waiter sees every task that ends, and nothing but that: groups come and go unnoticed. */
  lemma ProcessedOverSteps(s: State, step: Step)
    requires Inv(s) && Enabled(s, step)
    ensures var r := Apply(s, step);
      Processed(r.groups) + r.processed0 ==
        Processed(s.groups) + s.processed0 + Bit(step.End? || step.DetachIt?)
  {
    var r := Apply(s, step);
    match step
    case Create(g) => ProcessedUpdate(s.groups, g, r.groups[g]);
    case Vacate(g) => ProcessedUpdate(s.groups, g, r.groups[g]);
    case End(id) => FinishProcessed(s, id);
    case DetachIt(id) => FinishProcessed(s, id);
    case GoToSleep(i, w) => SleepEffect(s, i, w); ProcessedSame(s.groups, r.groups);
    case ComeBack(i) => ReturnEffect(s, i); ProcessedSame(s.groups, r.groups);
    case _ => ProcessedSame(s.groups, r.groups);
  }

  lemma FinishProcessed(s: State, id: nat)
    requires Inv(s) && id < |s.tasks| && s.tasks[id].state == Live
    ensures var r := Finish(s, id);
      Processed(r.groups) + r.processed0 == Processed(s.groups) + s.processed0 + 1
  {
    var g := s.tasks[id].group;
    var d := Dropped(s, id);
    ProcessedUpdate(s.groups, g, d.groups[g]);
    WakeKeeps(d, id);
    ProcessedSame(d.groups, Finish(s, id).groups);
  }

  /** What the wait loop tests is what the waiter asked: its task is over, or so many, or all of them are. */
  lemma WishesMean(s: State, w: Want)
    requires Inv(s) && WantInRange(s, w)
    ensures Holds(s, w) <==>
      match w
      case OneDone(id, at) => s.tasks[id].state == Finished || s.tasks[id].state == Recycled
      case AnyDone(g, since) => s.groups[g].nprocessed != since
      case AllDone(g) => LiveTasks(s.tasks, Some(g)) == 0
      case PoolAnyDone(since) => Processed(s.groups) + s.processed0 != since
      case PoolAllDone => LiveTasks(s.tasks, None) == 0
  {
  }

  /** A flag of a waiting class is set in some group, or in the pool. */
  predicate EntryArmed(s: State) { exists g :: 0 <= g < |s.groups| && !s.groups[g].free && s.groups[g].need }

  /**
   A broadcast is made only where its flag asks for one, and then clears all flags of its class: the next task
   that ends makes none, until a waiter has gone to sleep again.
   */
  lemma BroadcastsOnce(s: State, id: nat)
    requires id < |s.tasks| && s.tasks[id].group < |s.groups|
    ensures var r := WakeTask(s, id);
      && (r.waiters != s.waiters ==> (s.groups[s.tasks[id].group].need && s.wref != 0) || (s.poolNeed && s.wref != 0))
      && (WakesEntry(s, id) ==> !EntryArmed(r)) && (!WakesEntry(s, id) ==> r.groups == s.groups)
      && (WakesPool(s) ==> !r.poolNeed && !r.poolAny)
      && (!WakesPool(s) ==> r.poolNeed == s.poolNeed && r.poolAny == s.poolAny)
  {
  }

  /** Who is woken when a task ends: of each class everybody or nobody, and nobody unless a flag of the class fits. */
  lemma BroadcastsFor(s: State, id: nat, j: nat)
    requires id < |s.tasks| && s.tasks[id].group < |s.groups| && j < |s.waiters| && s.waiters[j].phase == Asleep
    ensures var g := s.groups[s.tasks[id].group];
      WakeTask(s, id).waiters[j].phase == Woken <==>
        if OnEntry(s.waiters[j].want)
        then s.wref != 0 && g.need && (s.tasks[id].ref != 0 || g.any || g.ntraces == 0)
        else s.wref != 0 && s.poolNeed && (s.poolAny || s.ntraces == 0)
  {
  }

  /** How a detach goes on: begun by its thread, called by the last waiter, tested again by its thread. */
  lemma DetachMoves(s: State, step: Step, id: nat)
    requires Inv(s) && Enabled(s, step) && id < |s.tasks|
    ensures id < |Apply(s, step).tasks|
    ensures var was, now := s.tasks[id].detach, Apply(s, step).tasks[id].detach;
      was != now ==>
        || step == DetachIt(id)
        || (step == DetachTest(id) && was == Signalled)
        || (step.ComeBack? && was == Sleeping && now == Signalled && Inside(s.waiters, ForTask(id)) == 1)
  {
    match step
    case ComeBack(i) => if s.waiters[i].want.OneDone? { ReturnRefs(s, i); }
    case End(k) => FinishRecs(s, k);
    case DetachIt(k) => FinishRecs(s, k);
    case GoToSleep(i, w) => SleepEffect(s, i, w);
    case _ =>
  }

  // ---- the flags, in place ----

  /** The notify flags as the wake-up macros change them. */
  class NotifyFlags {
    var groups: seq<Group>
    var poolNeed: bool
    var poolAny: bool
    var ntraces: int
    var wref: int

    ghost predicate Shows(s: State)
      reads this
    {
      groups == s.groups && poolNeed == s.poolNeed && poolAny == s.poolAny && ntraces == s.ntraces && wref == s.wref
    }

    constructor (groups: seq<Group>)
      ensures this.groups == groups && !poolNeed && !poolAny && ntraces == 0 && wref == 0
    {
      this.groups, poolNeed, poolAny, ntraces, wref := groups, false, false, 0, 0;
    }

    /** __cpool_gp_w_wakeup_entry_taskl, up to its broadcast */
    method WakeupEntries()
      modifies this`groups
      ensures groups == Cleared(old(groups))
    {
      var g := 0;
      while g < |groups|
        invariant 0 <= g <= |groups| == |old(groups)|
        invariant forall h :: 0 <= h < |groups| ==>
          groups[h] == if h < g then Cleared(old(groups))[h] else old(groups)[h]
      {
        if !groups[g].free { groups := groups[g := groups[g].(need := false, any := false)]; }
        g := g + 1;
      }
    }

    /** __cpool_gp_w_wakeup_taskl: which of the two condition variables it broadcasts on. */
    method WakeupTask(g: nat, ref: int, ghost s: State, ghost id: nat) returns (entry: bool, pool: bool)
      requires Shows(s) && id < |s.tasks| && s.tasks[id].group == g < |groups| && s.tasks[id].ref == ref
      modifies this
      ensures Shows(WakeTask(s, id)) && entry == WakesEntry(s, id) && pool == WakesPool(s)
    {
      entry, pool := false, false;
      if wref != 0 {
        if groups[g].need && (ref != 0 || groups[g].any || groups[g].ntraces == 0) {
          WakeupEntries();
          entry := true;
        }
        if poolNeed && (poolAny || ntraces == 0) {
          poolNeed := false;
          poolAny := false;
          pool := true;
        }
      }
    }
  }
}
