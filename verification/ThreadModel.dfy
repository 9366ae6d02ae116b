/**
 The thread manager: one status per service thread, nine counters, the queue of
 sleeping threads, and the operations that change them.  Each function is one
 critical section of the source, with its branches in the source's order.

 A thread is its position in `ths`: threads are appended in the order they join
 core->ths, and one that has left keeps its place with status `Left`.
 */
module ThreadModel {
  import opened Types

  datatype Status = Init | Join | Wait | Run | Complete | Timedout | Free | ForceQuit | Left

  /** `current` and `batch` are the task and the dispatch queue a running thread holds. */
  datatype Thread = Thread(status: Status, rm: bool, run: bool, waked: bool,
                           current: Option<Task>, batch: seq<Task>)

  const NEWBORN := Thread(Init, false, true, true, None, [])

  datatype Core = Core(
    ths: seq<Thread>,
    waitq: seq<nat>,
    qths: int, qthsWait: int, qthsWaked: int,
    running: int, dying: int, dyingRun: int,
    sleeping: int, realPool: int, realFree: int,
    maxthreads: int, minthreads: int, perTime: int,
    paused: bool, pendings: int, dispatchs: seq<Task>)

  // ---- waking, reusing, creating, marking ----

  ghost predicate WaitqInRange(c: Core) { forall k :: 0 <= k < |c.waitq| ==> c.waitq[k] < |c.ths| }

  function SetThread(c: Core, i: nat, t: Thread): Core
    requires i < |c.ths|
  {
    c.(ths := c.ths[i := t])
  }

  function SetStatus(c: Core, i: nat, s: Status): Core
    requires i < |c.ths|
  {
    SetThread(c, i, c.ths[i].(status := s))
  }

  /** Wake the sleeper at the head of the queue. */
  function WakeOne(c: Core): Core
    requires c.waitq != [] && c.waitq[0] < |c.ths|
  {
    var i := c.waitq[0];
    SetThread(c, i, c.ths[i].(waked := true)).(
      waitq := c.waitq[1..], qthsWait := c.qthsWait - 1, qthsWaked := c.qthsWaked + 1)
  }

  /** Wake until the queue is empty or the count reaches zero; a negative count wakes them all. */
  function WakeN(c: Core, n: int): (r: Core)
    requires WaitqInRange(c)
    ensures |r.ths| == |c.ths| && WaitqInRange(r)
    decreases |c.waitq|
  {
    if c.waitq == [] then c
    else if n == 1 then WakeOne(c)
    else WakeN(WakeOne(c), n - 1)
  }

  /** Wake a sleeper out of turn, if nobody has woken it yet. */
  function Rouse(c: Core, i: nat): Core
    requires i < |c.ths|
  {
    if c.ths[i].waked then c
    else SetThread(c, i, c.ths[i].(waked := true)).(
           qthsWaked := c.qthsWaked + 1, qthsWait := c.qthsWait - 1, waitq := Remove(c.waitq, i))
  }

  /** Take a dying thread back into service. */
  function ReuseOne(c: Core, i: nat): Core
    requires i < |c.ths|
  {
    var c1 := SetThread(c, i, c.ths[i].(run := true, rm := false)).(realPool := c.realPool + 1, dying := c.dying - 1);
    match c.ths[i].status
    case Wait => Rouse(c1.(sleeping := c1.sleeping + 1), i)
    case Run => c1.(dyingRun := c1.dyingRun - 1)
    case ForceQuit => SetStatus(c1, i, Free).(realFree := c1.realFree + 1)
    case _ => c1.(realFree := c1.realFree + 1)
  }

  /** Scan the list for dying threads to reuse, at most `n`; the count still wanted is returned. */
  function Reuse(c: Core, i: nat, n: int): (r: (Core, int))
    requires i <= |c.ths| && WaitqInRange(c)
    ensures |r.0.ths| == |c.ths| && WaitqInRange(r.0) && r.1 <= n
    decreases |c.ths| - i
  {
    if i == |c.ths| || n <= 0 || c.dying == 0 then (c, n)
    else if c.ths[i].status == Left || !c.ths[i].rm then Reuse(c, i + 1, n)
    else Reuse(ReuseOne(c, i), i + 1, n - 1)
  }

  function CreateOne(c: Core): Core
  {
    c.(ths := c.ths + [NEWBORN], qths := c.qths + 1, realFree := c.realFree + 1, realPool := c.realPool + 1)
  }

  function Create(c: Core, n: int): (r: Core)
    requires WaitqInRange(c)
    ensures |r.ths| >= |c.ths| && WaitqInRange(r)
    decreases n
  {
    if n <= 0 then c else Create(CreateOne(c), n - 1)
  }

  /** cpool_core_add_threadsl */
  function AddThreads(c: Core, n: int): (r: Core)
    requires WaitqInRange(c)
    ensures |r.ths| >= |c.ths| && WaitqInRange(r)
  {
    var (c1, n1) := Reuse(c, 0, n);
    Create(c1, n1)
  }

  /** How many threads cpool_core_ensure_servicesl asks for when it has to create. */
  function WantedThreads(c: Core): int
  {
    var tasks := (if c.paused then 0 else c.pendings) + (if c.dispatchs != [] then 1 else 0);
    Min(Min(c.maxthreads - c.realPool, c.perTime), tasks)
  }

  /** There is something a thread could do now. */
  predicate HasWork(c: Core) { c.dispatchs != [] || (!c.paused && c.pendings != 0) }

  /** cpool_core_ensure_servicesl */
  function Ensure(c: Core): (r: Core)
    requires WaitqInRange(c)
    ensures |r.ths| >= |c.ths| && WaitqInRange(r)
  {
    if c.qthsWaked != 0 || c.realFree != 0 || !HasWork(c) then c
    else if c.waitq != [] then WakeN(c, Min(2, c.perTime))
    else if c.maxthreads > c.realPool then AddThreads(c, WantedThreads(c))
    else c
  }

  predicate NeedEnsure(c: Core)
  {
    c.realFree == 0 && c.qthsWaked == 0 && (c.maxthreads != c.realPool || c.qthsWait != 0)
  }

  /** Mark one thread dying inside cpool_core_dec_threadsl. */
  function MarkOne(c: Core, i: nat): Core
    requires i < |c.ths|
  {
    var c1 := SetThread(c, i, c.ths[i].(run := false, rm := true)).(realPool := c.realPool - 1, dying := c.dying + 1);
    match c.ths[i].status
    case Wait => Rouse(c1.(sleeping := c1.sleeping - 1), i)
    case Run => c1.(dyingRun := c1.dyingRun + 1)
    case _ => c1.(realFree := c1.realFree - 1)
  }

  /** The marking scan: `n` threads that are not running, and `r` running ones. */
  function Mark(c: Core, i: nat, n: int, r: int, died: nat): (res: (Core, nat))
    requires i <= |c.ths| && WaitqInRange(c)
    ensures |res.0.ths| == |c.ths| && WaitqInRange(res.0)
    decreases |c.ths| - i
  {
    if i == |c.ths| then (c, died)
    else
      var t := c.ths[i];
      if t.status == Left || t.rm then Mark(c, i + 1, n, r, died)
      else if t.status != Run then
        (if n == 1 && r == 0 then (MarkOne(c, i), died + 1) else Mark(MarkOne(c, i), i + 1, n - 1, r, died + 1))
      else if r != 0 then
        (if n == 0 && r == 1 then (MarkOne(c, i), died + 1) else Mark(MarkOne(c, i), i + 1, n, r - 1, died + 1))
      else if n == 0 then (c, died)
      else Mark(c, i + 1, n, r, died)
  }

  /** cpool_core_dec_threadsl: the new state and the number of threads marked. */
  function DecThreads(c: Core, n: int): (res: (Core, nat))
    requires WaitqInRange(c)
    ensures |res.0.ths| == |c.ths| && WaitqInRange(res.0)
  {
    if n <= 0 || c.realPool == 0 then (c, 0)
    else
      var want := Min(c.realPool, n);
      var others := c.realPool - (c.running - c.dyingRun);
      Mark(c, 0, want, if others < want then want - others else 0, 0)
  }

  // ---- the thread status machine ----

  predicate Awake(t: Thread) { t.status == Join || t.status == Complete || t.status == Timedout || t.status == Free }

  function ToJoin(c: Core, i: nat): Core
    requires i < |c.ths|
  {
    SetStatus(c, i, Join)
  }

  function BeforeWait(c: Core, i: nat): Core
    requires i < |c.ths|
  {
    var c1 := if c.ths[i].rm then c else c.(realFree := c.realFree - 1, sleeping := c.sleeping + 1);
    SetThread(c1, i, c1.ths[i].(waked := false)).(waitq := [i] + c1.waitq, qthsWait := c1.qthsWait + 1)
  }

  function ToWait(c: Core, i: nat): Core
    requires i < |c.ths|
  {
    SetStatus(BeforeWait(c, i), i, Wait)
  }

  /** The check that follows the switch for a thread whose previous status was WAIT. */
  function AfterWait(c: Core, i: nat): (r: Core)
    requires i < |c.ths| && WaitqInRange(c)
    ensures |r.ths| >= |c.ths| && WaitqInRange(r)
  {
    var t := c.ths[i];
    var c1 := if t.waked then c.(qthsWaked := c.qthsWaked - 1) else c;
    if t.rm && !t.run then
      (if c1.realFree == 0 && c1.qthsWaked == 0 && c1.pendings != 0 then Ensure(c1) else c1)
    else
      var c2 := c1.(sleeping := c1.sleeping - 1);
      if t.rm then SetThread(c2, i, t.(run := false)) else c2.(realFree := c2.realFree + 1)
  }

  function ToFree(c: Core, i: nat): (r: Core)
    requires i < |c.ths| && WaitqInRange(c)
    ensures |r.ths| >= |c.ths| && WaitqInRange(r)
  {
    SetStatus(AfterWait(c, i), i, Free)
  }

  predicate QuitsOnTimeout(c: Core, i: nat, mayQuit: bool)
    requires i < |c.ths|
  {
    !c.ths[i].rm && mayQuit && c.realPool > c.minthreads && !HasWork(c)
  }

  /** The part of THREAD_STAT_TIMEDOUT before the common check. */
  function BeforeTimedout(c: Core, i: nat, mayQuit: bool): (r: Core)
    requires i < |c.ths| && WaitqInRange(c)
    ensures |r.ths| == |c.ths| && WaitqInRange(r)
  {
    var c1 := if c.ths[i].waked then c else c.(waitq := Remove(c.waitq, i), qthsWait := c.qthsWait - 1);
    if QuitsOnTimeout(c, i, mayQuit) then
      SetThread(c1, i, c1.ths[i].(rm := true)).(dying := c1.dying + 1, realPool := c1.realPool - 1)
    else c1
  }

  /** `mayQuit`: the thread is not the collector and no thread was created in the last seconds. */
  function ToTimedout(c: Core, i: nat, mayQuit: bool): (r: Core)
    requires i < |c.ths| && WaitqInRange(c)
    ensures |r.ths| >= |c.ths| && WaitqInRange(r)
  {
    SetStatus(AfterWait(BeforeTimedout(c, i, mayQuit), i), i, Timedout)
  }

  function BeforeForceQuit(c: Core, i: nat): Core
    requires i < |c.ths|
  {
    if c.ths[i].rm then c
    else SetThread(c, i, c.ths[i].(rm := true, run := false)).(
           dying := c.dying + 1, realPool := c.realPool - 1, realFree := c.realFree - 1)
  }

  function ToForceQuit(c: Core, i: nat): Core
    requires i < |c.ths|
  {
    SetStatus(BeforeForceQuit(c, i), i, ForceQuit)
  }

  /** The counter part of THREAD_STAT_RUN, before the service check. */
  function BeforeRun(c: Core, i: nat): Core
    requires i < |c.ths|
  {
    var c1 := c.(running := c.running + 1);
    if c.ths[i].rm then c1.(dyingRun := c1.dyingRun + 1) else c1.(realFree := c1.realFree - 1)
  }

  function ServiceCheck(c: Core): (r: Core)
    requires WaitqInRange(c)
    ensures |r.ths| >= |c.ths| && WaitqInRange(r)
  {
    if c.realFree == 0 && c.qthsWaked == 0 && c.pendings != 0 then Ensure(c) else c
  }

  /** As the source has it: service is ensured before the thread's own status is written. */
  function ToRun(c: Core, i: nat): (r: Core)
    requires i < |c.ths| && WaitqInRange(c)
    ensures |r.ths| >= |c.ths| && WaitqInRange(r)
  {
    SetStatus(ServiceCheck(BeforeRun(c, i)), i, Run)
  }

  function BeforeComplete(c: Core, i: nat): Core
    requires i < |c.ths|
  {
    var c1 := c.(running := c.running - 1);
    if c.ths[i].rm then c1.(dyingRun := c1.dyingRun - 1) else c1.(realFree := c1.realFree + 1)
  }

  function ToComplete(c: Core, i: nat): Core
    requires i < |c.ths|
  {
    SetStatus(BeforeComplete(c, i), i, Complete)
  }

  function BeforeLeave(c: Core, i: nat): Core
    requires i < |c.ths|
  {
    c.(qths := c.qths - 1, dying := if c.ths[i].rm then c.dying - 1 else c.dying)
  }

  function ToLeave(c: Core, i: nat): Core
    requires i < |c.ths|
  {
    SetStatus(BeforeLeave(c, i), i, Left)
  }

  // ---- configuration, collection, suspension ----

  /** cpool_core_adjust_abs_l once the bounds are stored. */
  function AdjustAbs(c: Core): (r: Core)
    requires WaitqInRange(c)
    ensures |r.ths| >= |c.ths| && WaitqInRange(r)
  {
    if c.minthreads > c.realPool then AddThreads(c, c.minthreads - c.realPool)
    else if c.realPool > c.maxthreads then DecThreads(c, c.realPool - c.maxthreads).0
    else WakeN(c, -1)
  }

  /** cpool_com_flush */
  function Flush(c: Core): (r: Core)
    requires WaitqInRange(c)
    ensures |r.ths| == |c.ths| && WaitqInRange(r)
  {
    DecThreads(c, c.realPool - c.minthreads).0
  }

  /** cpool_core_try_GC; `flushable` is the answer of the task cache. */
  function TryGC(c: Core, flushable: bool): (r: Core)
    requires WaitqInRange(c)
    ensures |r.ths| >= |c.ths| && WaitqInRange(r)
  {
    if c.realFree == 0 && c.running == c.dyingRun && flushable then
      if c.sleeping != 0 then WakeN(c, 1) else AddThreads(c, 1)
    else c
  }

  function SuspendCore(c: Core): Core { c.(paused := true) }

  function ResumeCore(c: Core): (r: Core)
    requires WaitqInRange(c)
    ensures |r.ths| >= |c.ths| && WaitqInRange(r)
  {
    if !c.paused then c
    else
      var c1 := c.(paused := false);
      if c1.pendings != 0 then Ensure(c1) else c1
  }

  /** The state cpool_core_ctor reaches. */
  function NewCore(maxthreads: int, minthreads: int, perTime: int, paused: bool): (r: Core)
    ensures WaitqInRange(r)
  {
    var hi := Max(1, maxthreads);
    var lo := Min(Max(0, minthreads), hi);
    AddThreads(Core([], [], 0, 0, 0, 0, 0, 0, 0, 0, 0, hi, lo, perTime, paused, 0, []), lo)
  }
}
