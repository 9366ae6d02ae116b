/**
 The loop of a service thread, more finely: it looks for work when it joins, and again after each change of
 its status only if it has not been told to stop; what it read then may be old when it takes the lock.
 Threads that time out or quit tell themselves to stop, so they take no more tasks: what the runs of
 PoolTheorems ask of takers holds by itself.
 */
module PoolLoop {
  import opened Types
  import opened ThreadModel
  import opened ThreadCounts
  import opened ThreadSupply
  import opened ThreadStatus
  import opened ThreadBounds
  import opened ThreadJobs
  import opened ActivePrefix
  import opened GroupModel
  import opened GroupShape
  import opened GroupExact
  import opened GroupPlaces
  import opened Scheduler
  import opened PoolSound
  import opened NoStranded
  import opened PoolRuns
  import opened PoolTheorems

  /** `looking`: the threads that are on their way to cpool_core_gettask. */
  datatype Machine = Machine(pool: Pool, looking: set<nat>)

  datatype LoopOp = Look(i: nat) | Do(op: Op)

  /** The test at the end of the loop, made without the lock. */
  predicate GoesOn(t: Thread) { t.run && (t.status == Free || t.status == Complete || t.status == Timedout) }

  /** Where in its loop a thread has to be for the step. */
  predicate InPlace(m: Machine, i: nat, op: ThreadOp)
  {
    match op
    case Take => i in m.looking
    case Sleep => i in m.looking
    case Quit => i in m.looking
    case Exit => i !in m.looking
    case _ => true
  }

  ghost predicate LoopEnabled(m: Machine, a: LoopOp)
    requires Shaped(m.pool)
  {
    match a
    case Look(i) => i < |m.pool.core.ths| && GoesOn(m.pool.core.ths[i])
    case Do(op) => Enabled(m.pool, op) && (op.ByThread? ==> InPlace(m, op.i, op.thread))
  }

  function Lookers(looking: set<nat>, i: nat, op: ThreadOp): set<nat>
  {
    match op
    case Enter => looking + {i}
    case Take => looking - {i}
    case Sleep => looking - {i}
    case Quit => looking - {i}
    case _ => looking
  }

  function LoopApply(m: Machine, a: LoopOp): (r: Machine)
    requires Shaped(m.pool) && LoopEnabled(m, a)
    ensures Shaped(r.pool)
  {
    match a
    case Look(i) => m.(looking := m.looking + {i})
    case Do(op) => Machine(Apply(m.pool, op), if op.ByThread? then Lookers(m.looking, op.i, op.thread) else m.looking)
  }

  /** Whoever is looking for work is awake and in service. */
  ghost predicate Serving(m: Machine)
  {
    forall i :: i in m.looking ==> i < |m.pool.core.ths| && Ready(m.pool.core.ths[i])
  }

  predicate Ready(t: Thread) { Awake(t) && !t.rm }

  /** Threads that are ready, other than `but`, stay so. */
  ghost predicate Calm(c: Core, d: Core, but: int)
  {
    |c.ths| <= |d.ths| && forall j :: 0 <= j < |c.ths| && j != but && Ready(c.ths[j]) ==> Ready(d.ths[j])
  }

  lemma GrownCalm(c: Core, d: Core)
    requires Grown(c, d)
    ensures Calm(c, d, -1)
  {
    forall j | 0 <= j < |c.ths| && Ready(c.ths[j]) ensures Ready(d.ths[j]) { assert KeepsJob(c.ths[j], d.ths[j]); }
  }

  lemma EnsureCalm(c: Core)
    requires Sound(c)
    ensures Calm(c, Ensure(c), -1)
  {
    assert Drift(c, Dying) == 0;
    EnsureKeeps(c);
    GrownCalm(c, Ensure(c));
  }

  lemma DeliverCalm(p: Pool, g: nat, t: Task)
    requires Shaped(p) && g < |p.entries| && Steady(p.core)
    ensures Calm(p.core, Deliver(p, g, t).core, -1)
  {
    DeliverEffect(p, g, t);
    WorkWrite(p.core, AddCore(p.core, 1));
    EnsureCalm(AddCore(p.core, 1));
  }

  // ---- tasks and groups ----

  lemma TaskCalm(p: Pool, t: Task, op: TaskOp)
    requires Shaped(p) && Steady(p.core) && TaskEnabled(p, t, op)
    ensures Calm(p.core, ApplyTask(p, t, op).core, -1)
  {
    match op
    case Queue => if t.gid < |p.entries| { DeliverCalm(Trace(p, t.gid), t.gid, t); }
    case RemoveOne(byPool) => RemoveCalm(p, t, byPool);
    case MarkOneTask(byPool) => DiscardCore(p, t, byPool);
    case HandlerDone(detached) => DeliverCalm(Handled(p, t), t.gid, t);
  }

  lemma RemoveCalm(p: Pool, t: Task, byPool: bool)
    requires Shaped(p) && Steady(p.core) && t.gid < |p.entries|
    ensures Calm(p.core, RemoveTask(p, t, byPool).0.core, -1)
  {
    var c := RemoveWaiting(p, t, byPool).core;
    RemovedCore(p, t, byPool);
    WorkWrite(p.core, c);
    EnsureCalm(c);
  }

  lemma RemovedCore(p: Pool, t: Task, byPool: bool)
    requires Shaped(p) && t.gid < |p.entries|
    ensures var c := RemoveWaiting(p, t, byPool).core; c == p.core.(pendings := c.pendings, dispatchs := c.dispatchs)
  {
    var q := Dispose(p, t, byPool);
    assert q.core == p.core.(dispatchs := q.core.dispatchs);
    UnqueueCore(q, t);
  }

  lemma GroupCalm(p: Pool, g: nat, op: GroupOp)
    requires Shaped(p) && Steady(p.core) && GroupEnabled(p, g, op)
    ensures Calm(p.core, ApplyGroup(p, g, op).core, -1)
  {
    if op.ResumeGroup? {
      var c := ResumeQuietly(p, g).core;
      QuietCore(p, g);
      WorkWrite(p.core, c);
      EnsureCalm(c);
    }
  }

  // ---- the pool ----

  lemma AdjustCalm(p: Pool, hi: int, lo: int)
    requires Shaped(p) && Steady(p.core) && 0 <= lo <= hi && p.core.realPool <= hi
    ensures Calm(p.core, Adjust(p, hi, lo).core, -1)
  {
    Updated(p, hi, lo);
    AdjustAbsCalm(UpdateAllFrom(p.(core := p.core.(maxthreads := hi, minthreads := lo)), 0).core);
  }

  lemma AddCalm(c: Core, n: int)
    requires Sound(c)
    ensures Calm(c, AddThreads(c, n), -1)
  {
    assert Drift(c, Dying) == 0;
    AddThreadsExact(c, n);
    GrownCalm(c, AddThreads(c, n));
  }

  lemma WakeCalm(c: Core, n: int)
    requires Sound(c)
    ensures Calm(c, WakeN(c, n), -1)
  {
    WakeNSupplies(c, n);
    GrownCalm(c, WakeN(c, n));
  }

  lemma AdjustAbsCalm(c: Core)
    requires Sound(c) && c.realPool <= c.maxthreads
    ensures Calm(c, AdjustAbs(c), -1)
  {
    AddCalm(c, c.minthreads - c.realPool);
    WakeCalm(c, -1);
  }

  lemma CollectCalm(c: Core, flushable: bool)
    requires Sound(c)
    ensures Calm(c, TryGC(c, flushable), -1)
  {
    AddCalm(c, 1);
    WakeCalm(c, 1);
  }

  lemma {:induction false} SuspendAllCore(p: Pool, g: nat, r: Pool)
    requires Shaped(p) && g <= |p.entries| && r == SuspendAllFrom(p, g)
    ensures r.core == p.core.(pendings := r.core.pendings)
    decreases |p.entries| - g
  {
    if g < |p.entries| {
      SuspendCoreOnly(p, g);
      SuspendAllCore(Suspend(p, g), g + 1, r);
    }
  }

  lemma SuspendCoreOnly(p: Pool, g: nat)
    requires Shaped(p) && g < |p.entries|
    ensures Suspend(p, g).core == p.core.(pendings := Suspend(p, g).core.pendings)
  {
  }

  lemma ResumeAllCalm(p: Pool)
    requires Shaped(p) && Steady(p.core)
    ensures Calm(p.core, ResumeAll(p).core, -1)
  {
    var q := ResumeAllFrom(p, 0);
    ResumeAllCore(p, 0, q);
    WorkWrite(p.core, q.core);
    EnsureCalm(q.core);
  }

  lemma MarkPoolCalm(p: Pool, marks: seq<(Task, bool)>, flagged: bool)
    requires Shaped(p) && Steady(p.core) && MarksInRange(p, marks)
    ensures Calm(p.core, MarkPool(p, marks, flagged).core, -1)
  {
    var q := DiscardAll(p, marks);
    DiscardAllCore(p, marks, q);
    WorkWrite(p.core, q.core);
    EnsureCalm(q.core);
  }

  lemma ResumePoolCalm(c: Core)
    requires Steady(c)
    ensures Calm(c, ResumeCore(c), -1)
  {
    WorkWrite(c, c.(paused := false));
    EnsureCalm(c.(paused := false));
  }

  lemma PoolCalm(p: Pool, op: PoolOp)
    requires Shaped(p) && Steady(p.core) && PoolEnabled(p, op) && Staffed(p, OnPool(op))
    ensures Calm(p.core, ApplyPool(p, op).core, -1)
  {
    match op
    case GrowGroups =>
    case SuspendPool =>
    case ResumePool => ResumePoolCalm(p.core);
    case AdjustPool(hi, lo) => AdjustCalm(p, hi, lo);
    case FlushPool =>
    case CollectGarbage(flushable) => CollectCalm(p.core, flushable);
    case SuspendGroups => SuspendAllCore(p, 0, SuspendAllFrom(p, 0));
    case ResumeGroups => ResumeAllCalm(p);
    case MarkTasks(marks, flagged) => MarkPoolCalm(p, marks, flagged);
  }

  // ---- the threads ----

  lemma RunCalm(c: Core, i: nat)
    requires i < |c.ths| && Awake(c.ths[i]) && Sound(c)
    ensures Calm(c, ToRun(c, i), i)
  {
    var b := BeforeRun(c, i);
    BeforeRunDrift(c, i);
    assert Drift(b, Dying) == 0;
    EnsureKeeps(b);
    GrownCalm(b, Ensure(b));
  }

  lemma TakeCalm(p: Pool, i: nat)
    requires Shaped(p) && Steady(p.core) && ThreadEnabled(p, i, Take)
    ensures Calm(p.core, GetTask(p, i).pool.core, i)
  {
    GetTaskCore(p, i);
    LoadedSteady(p, i);
    RunCalm(Loaded(p, i), i);
  }

  lemma DoneCalm(p: Pool, i: nat, detached: bool)
    requires Shaped(p) && Steady(p.core) && ThreadEnabled(p, i, Done(detached))
    ensures Calm(p.core, Finish(p, i, detached).core, i)
  {
    var t := Job(p.core.ths[i]).value;
    var p1 := CompleteIfIdle(Release(p, i, t.gid), i);
    ReleasedSteady(p, i, t.gid);
    ReleasedCalm(p, i, t.gid);
    if detached || !WantsAgain(p, t.id) {
      UntraceCompletes(Release(p, i, t.gid), i, t.gid, t.id);
    } else {
      DeliverCalm(p1, t.gid, NiceAdjust(t));
      CalmTwice(p.core, p1.core, Deliver(p1, t.gid, NiceAdjust(t)).core, i);
    }
  }

  lemma ReleasedCalm(p: Pool, i: nat, g: nat)
    requires Shaped(p) && i < |p.core.ths| && g < |p.entries|
    ensures Calm(p.core, CompleteIfIdle(Release(p, i, g), i).core, i)
  {
  }

  lemma CalmTwice(c: Core, d: Core, r: Core, but: int)
    requires Calm(c, d, but) && Calm(d, r, -1)
    ensures Calm(c, r, but)
  {
  }

  /** Leaving the wait may call threads back, and marks nobody else. */
  lemma ExitCalm(c: Core, i: nat)
    requires i < |c.ths| && Sound(c) && c.ths[i].status == Wait
    ensures Calm(c, AfterWait(c, i), i)
  {
    var c1 := if c.ths[i].waked then c.(qthsWaked := c.qthsWaked - 1) else c;
    assert c1.ths == c.ths && Drift(c, Dying) == 0 && Drift(c1, Dying) == 0;
    EnsureKeeps(c1);
    GrownCalm(c1, Ensure(c1));
  }

  lemma ExpireCalm(c: Core, i: nat, mayQuit: bool)
    requires i < |c.ths| && Sound(c) && c.ths[i].status == Wait
    ensures Calm(c, ToTimedout(c, i, mayQuit), i)
  {
    if c.ths[i].rm {
      assert BeforeTimedout(c, i, mayQuit) == c;
      ExitCalm(c, i);
    }
  }

  lemma ThreadCalm(p: Pool, i: nat, op: ThreadOp)
    requires Shaped(p) && Steady(p.core) && ThreadEnabled(p, i, op)
    ensures Calm(p.core, ApplyThread(p, i, op).core, i)
  {
    match op
    case Take => TakeCalm(p, i);
    case Done(detached) => DoneCalm(p, i, detached);
    case Wake => ExitCalm(p.core, i);
    case Expire(mayQuit) => ExpireCalm(p.core, i, mayQuit);
    case Enter =>
    case Sleep =>
    case Quit =>
    case Exit =>
  }

  // ---- the theorem ----

  /** The steps of the theorem: as in PoolTheorems, but with nothing asked of takers. */
  ghost predicate Permitted(m: Machine, a: LoopOp)
    requires Shaped(m.pool) && LoopEnabled(m, a)
  {
    a.Do? ==> Covering(m.pool, a.op) && (!a.op.ByThread? ==> Staffed(m.pool, a.op))
  }

  ghost predicate Whole(m: Machine)
  {
    Books(m.pool) && Covers(m.pool) && Manned(m.pool.core) && Serving(m)
  }

  /** Whoever takes a task is in service. */
  lemma TakersServe(m: Machine, a: LoopOp)
    requires Whole(m) && LoopEnabled(m, a) && Permitted(m, a) && a.Do?
    ensures Staffed(m.pool, a.op)
  {
  }

  lemma ServingAfter(m: Machine, r: Machine, but: int)
    requires Serving(m) && Calm(m.pool.core, r.pool.core, but)
    requires forall i :: i in r.looking && i != but ==> i in m.looking
    requires but in r.looking ==> 0 <= but < |r.pool.core.ths| && Ready(r.pool.core.ths[but])
    ensures Serving(r)
  {
  }

  /** The thread that takes the step is not looking for work after it, unless it has just joined. */
  lemma ActorLooks(m: Machine, i: nat, op: ThreadOp)
    requires Shaped(m.pool) && Serving(m) && LoopEnabled(m, Do(ByThread(i, op))) && i in Lookers(m.looking, i, op)
    ensures op.Enter?
  {
    assert i in m.looking || op.Enter?;
  }

  lemma ActorServes(m: Machine, i: nat, op: ThreadOp)
    requires Whole(m) && LoopEnabled(m, Do(ByThread(i, op))) && i in Lookers(m.looking, i, op)
    ensures var c := ApplyThread(m.pool, i, op).core; i < |c.ths| && Ready(c.ths[i])
  {
    ActorLooks(m, i, op);
    assert ApplyThread(m.pool, i, op).core == ToJoin(m.pool.core, i);
  }

  lemma StaysServing(m: Machine, op: Op)
    requires Whole(m) && LoopEnabled(m, Do(op)) && Staffed(m.pool, op)
    ensures Serving(LoopApply(m, Do(op)))
  {
    var r := LoopApply(m, Do(op));
    match op
    case OnTask(t, o) => TaskCalm(m.pool, t, o); ServingAfter(m, r, -1);
    case OnGroup(g, o) => GroupCalm(m.pool, g, o); ServingAfter(m, r, -1);
    case OnPool(o) => PoolCalm(m.pool, o); ServingAfter(m, r, -1);
    case ByThread(i, o) =>
      ThreadCalm(m.pool, i, o);
      if i in Lookers(m.looking, i, o) { ActorServes(m, i, o); }
      ServingAfter(m, r, i);
  }

  lemma LoopStep(m: Machine, a: LoopOp)
    requires Whole(m) && LoopEnabled(m, a) && Permitted(m, a)
    ensures Whole(LoopApply(m, a))
  {
    if a.Do? {
      TakersServe(m, a);
      StaffedStep(m.pool, a.op);
      StaysServing(m, a.op);
    }
  }

  ghost predicate LoopRun(m: Machine, steps: seq<LoopOp>)
    requires Shaped(m.pool)
    decreases |steps|
  {
    steps == [] ||
    (LoopEnabled(m, steps[0]) && Permitted(m, steps[0]) && LoopRun(LoopApply(m, steps[0]), steps[1..]))
  }

  ghost function LoopAfter(m: Machine, steps: seq<LoopOp>): (r: Machine)
    requires Shaped(m.pool) && LoopRun(m, steps)
    ensures Shaped(r.pool)
    decreases |steps|
  {
    if steps == [] then m else LoopAfter(LoopApply(m, steps[0]), steps[1..])
  }

  /** No work is stranded in any run of the threads' loops, and nothing need be asked of who takes a task. */
  lemma {:induction false} LoopNeverStrands(m: Machine, steps: seq<LoopOp>)
    requires Whole(m) && LoopRun(m, steps)
    ensures Whole(LoopAfter(m, steps)) && NothingStranded(LoopAfter(m, steps).pool)
    decreases |steps|
  {
    if steps == [] {
      MannedStrandsNothing(m.pool);
    } else {
      LoopStep(m, steps[0]);
      LoopNeverStrands(LoopApply(m, steps[0]), steps[1..]);
    }
  }

  /** A newly made pool, with no thread looking for work yet, is such a machine. */
  lemma NewMachine(maxthreads: int, minthreads: int, perTime: int, paused: bool, priqNum: nat, tailFirst: bool)
    requires perTime >= 1 && 1 <= priqNum <= 99
    ensures Whole(Machine(NewPool(NewCore(maxthreads, minthreads, perTime, paused), priqNum, tailFirst), {}))
  {
    NewPoolInv(maxthreads, minthreads, perTime, paused, priqNum, tailFirst);
    ExactCovers(NewPool(NewCore(maxthreads, minthreads, perTime, paused), priqNum, tailFirst));
    NewCoreIdle(maxthreads, minthreads, perTime, paused);
  }
}
