/**
 The life of the pool object: references, service threads, and who runs the destructor.
 Every step is one critical section of a user or of a service thread; a thread that has left
 the list still holds its reference until its last call.
 */
module Destruction {

  /** `ths`: threads in the list; `leaving`: threads out of it that have not released their reference yet. */
  datatype Life = Life(
    ref: int, userRef: int,
    ths: nat, leaving: nat,
    created: bool,       // CORE_F_created, until the last user has released
    cleaning: bool,      // release_cleaning
    waiting: Wait,       // the last user
    destroyed: nat)      // how often the destructor has been started

  /** The last user: not waiting, asleep on cond_ths, or about to test its loop condition. */
  datatype Wait = No | Asleep | Ready

  datatype Step = AddRef | UserRelease | Spawn | Leave | ThreadRelease | WaitEnds

  function Born(): Life { Life(1, 1, 0, 0, true, false, No, 0) }

  /** Who may take the step: a reference or a thread is needed to do anything but wait. */
  predicate Enabled(s: Life, step: Step)
  {
    match step
    case AddRef => s.userRef > 0
    case UserRelease => s.userRef > 0
    case Spawn => s.userRef > 0 || s.ths > 0
    case Leave => s.ths > 0
    case ThreadRelease => s.leaving > 0
    case WaitEnds => s.waiting == Ready
  }

  /** cpool_com_addref; the status is checked, not the count. */
  function Referenced(s: Life): Life
  {
    if s.created then s.(ref := s.ref + 1, userRef := s.userRef + 1) else s
  }

  /** cpool_core_release_ex(core, 0, 0) up to the wait of the last user. */
  function UserReleased(s: Life): Life
  {
    var s1 := s.(ref := s.ref - 1, userRef := s.userRef - 1);
    if s1.userRef != 0 then s1
    else
      var s2 := s1.(created := false);
      if s2.ths == 0 then s2.(cleaning := true, waiting := Ready) else s2
  }

  /** cpool_core_release_ex(core, 1, 0) */
  function ThreadReleased(s: Life): Life
    requires s.leaving > 0
  {
    var s1 := s.(ref := s.ref - 1, leaving := s.leaving - 1);
    if s1.ref != 0 then s1
    else if s1.cleaning then (if s1.waiting == Asleep then s1.(waiting := Ready) else s1)
    else s1.(destroyed := s1.destroyed + 1)
  }

  /** The last user tests its condition: it sleeps on, or goes on to the destructor. */
  function Tested(s: Life): Life
  {
    if s.ths != 0 || s.ref != 0 then s.(waiting := Asleep) else s.(waiting := No, destroyed := s.destroyed + 1)
  }

  /** The LEAVE status: an empty list is announced to the last user. */
  function Departed(s: Life): Life
    requires s.ths > 0
  {
    s.(ths := s.ths - 1, leaving := s.leaving + 1,
      waiting := if s.ths == 1 && s.waiting == Asleep then Ready else s.waiting)
  }

  function Apply(s: Life, step: Step): Life
    requires Enabled(s, step)
  {
    match step
    case AddRef => Referenced(s)
    case UserRelease => UserReleased(s)
    case Spawn => s.(ref := s.ref + 1, ths := s.ths + 1)
    case Leave => Departed(s)
    case ThreadRelease => ThreadReleased(s)
    case WaitEnds => Tested(s)
  }

  // ---- the invariant ----

  predicate Balanced(s: Life)
  {
    && s.ref == s.userRef + s.ths + s.leaving && s.userRef >= 0
    && (s.created <==> s.userRef > 0)
    && (s.cleaning ==> s.userRef == 0 && s.ths == 0)
    && (s.waiting != No ==> s.cleaning && s.destroyed == 0)
    && (s.cleaning && s.waiting == No ==> s.destroyed == 1)
    && (s.destroyed > 0 ==> s.destroyed == 1 && s.ref == 0)
    && (s.ref == 0 ==> s.waiting == Ready || s.destroyed == 1)
  }

  lemma StepBalanced(s: Life, step: Step)
    requires Balanced(s) && Enabled(s, step)
    ensures Balanced(Apply(s, step))
  {
  }

  predicate Possible(s: Life, steps: seq<Step>)
    decreases |steps|
  {
    steps == [] || (Enabled(s, steps[0]) && Possible(Apply(s, steps[0]), steps[1..]))
  }

  function After(s: Life, steps: seq<Step>): Life
    requires Possible(s, steps)
    decreases |steps|
  {
    if steps == [] then s else After(Apply(s, steps[0]), steps[1..])
  }

  lemma {:induction false} RunBalanced(s: Life, steps: seq<Step>)
    requires Balanced(s) && Possible(s, steps)
    ensures Balanced(After(s, steps))
    decreases |steps|
  {
    if steps != [] {
      StepBalanced(s, steps[0]);
      RunBalanced(Apply(s, steps[0]), steps[1..]);
    }
  }

  function Occurs(steps: seq<Step>, step: Step): nat
  {
    if steps == [] then 0 else (if steps[0] == step then 1 else 0) + Occurs(steps[1..], step)
  }

  /**
   The counts are those of what has happened: one more user for each reference added, one fewer for each
   release, one more thread for each that was made, one fewer in the list for each that left it, and one fewer
   on its way out for each that released.
   */
  predicate CountedBy(s: Life, r: Life, steps: seq<Step>)
  {
    && r.userRef == s.userRef + Occurs(steps, AddRef) - Occurs(steps, UserRelease)
    && r.ths == s.ths + Occurs(steps, Spawn) - Occurs(steps, Leave)
    && r.leaving == s.leaving + Occurs(steps, Leave) - Occurs(steps, ThreadRelease)
  }

  lemma StepCounts(s: Life, step: Step)
    requires Balanced(s) && Enabled(s, step)
    ensures CountedBy(s, Apply(s, step), [step])
  {
    OccursOnce(step);
  }

  lemma OccursOnce(step: Step)
    ensures forall x :: Occurs([step], x) == if step == x then 1 else 0
  {
    assert [step][1..] == [];
  }

  lemma OccursFirst(steps: seq<Step>)
    requires steps != []
    ensures forall x :: Occurs(steps, x) == Occurs([steps[0]], x) + Occurs(steps[1..], x)
  {
    OccursOnce(steps[0]);
  }

  lemma {:induction false} CountsOverRuns(s: Life, steps: seq<Step>)
    requires Balanced(s) && Possible(s, steps)
    ensures CountedBy(s, After(s, steps), steps)
    decreases |steps|
  {
    if steps != [] {
      StepBalanced(s, steps[0]);
      StepCounts(s, steps[0]);
      OccursFirst(steps);
      CountsOverRuns(Apply(s, steps[0]), steps[1..]);
    }
  }

  predicate Idle(s: Life) { forall step :: !Enabled(s, step) }

  lemma IdleMeansDestroyed(s: Life)
    requires Balanced(s)
    ensures s.destroyed == 1 <==> Idle(s)
  {
    if s.destroyed == 0 {
      if s.userRef > 0 { assert Enabled(s, UserRelease); }
      else if s.ths > 0 { assert Enabled(s, Leave); }
      else if s.leaving > 0 { assert Enabled(s, ThreadRelease); }
      else { assert Enabled(s, WaitEnds); }
    }
  }

  /**
   In every interleaving the destructor is started at most once, and only when no reference is held
   and no thread is in the list or on its way out; after that no party can take a step any more,
   and when nobody can take a step it has been started: the wait of the last user misses no wake-up.
   */
  lemma DestroyedOnce(born: Life, steps: seq<Step>)
    requires Balanced(born) && Possible(born, steps)
    ensures var s := After(born, steps);
      && s.ref == s.userRef + s.ths + s.leaving
      && s.destroyed <= 1
      && (s.destroyed == 1 ==> s.ref == 0 && s.userRef == 0 && s.ths == 0 && s.leaving == 0)
      && (s.destroyed == 1 <==> Idle(s))
  {
    RunBalanced(born, steps);
    IdleMeansDestroyed(After(born, steps));
  }

  lemma BornBalanced()
    ensures Balanced(Born())
  {
  }

  /** The last steps any state still needs: the users release, the threads leave and release. */
  function Remaining(s: Life): nat
    requires Balanced(s)
  {
    2 * s.userRef + 4 * s.ths + 2 * s.leaving + (if s.destroyed == 0 then 1 else 0) +
      (if s.waiting == Ready then 1 else 0)
  }

  /** The way to the end is finite: unless references or threads are added, each step brings it nearer. */
  lemma StepsRunOut(s: Life, step: Step)
    requires Balanced(s) && Enabled(s, step) && step != AddRef && step != Spawn
    ensures Balanced(Apply(s, step)) && Remaining(Apply(s, step)) < Remaining(s)
  {
  }

  // ---- the object ----

  /** The reference counts as the source keeps them. */
  class References {
    var ref: int
    var userRef: int
    var created: bool
    var cleaning: bool

    ghost function View(ths: nat, leaving: nat, waiting: Wait, destroyed: nat): Life
      reads this
    {
      Life(ref, userRef, ths, leaving, created, cleaning, waiting, destroyed)
    }

    constructor ()
      ensures View(0, 0, No, 0) == Born()
    {
      ref, userRef, created, cleaning := 1, 1, true, false;
    }

    /** cpool_com_addref */
    method AddUser() returns (count: int)
      modifies this
      ensures forall ths, leaving, waiting, destroyed ::
        View(ths, leaving, waiting, destroyed) == Referenced(old(View(ths, leaving, waiting, destroyed)))
      ensures count == if old(created) then userRef else 0
    {
      count := 0;
      if created {
        ref := ref + 1;
        userRef := userRef + 1;
        count := userRef;
      }
    }

    /** The first part of cpool_core_release_ex, under the lock; `mustClean` is the decision to clear the
        resources, which a user then carries out after waiting for the threads. */
    method Release(thread: bool, ths: nat, ghost leaving: nat, ghost destroyed: nat) returns (mustClean: bool)
      requires thread ==> leaving > 0
      modifies this
      ensures !thread ==>
        View(ths, leaving, if mustClean then Ready else No, destroyed) ==
          UserReleased(old(View(ths, leaving, No, destroyed)))
      ensures thread ==>
        View(ths, leaving - 1, No, destroyed + (if mustClean then 1 else 0)) ==
          ThreadReleased(old(View(ths, leaving, No, destroyed)))
    {
      mustClean := false;
      ref := ref - 1;
      if !thread { userRef := userRef - 1; }
      if !thread && userRef == 0 {
        created := false;
        if ths == 0 {
          mustClean := true;
          cleaning := true;
        }
      }
      if thread && ref == 0 && !cleaning { mustClean := true; }
    }
  }
}
