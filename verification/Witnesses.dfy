/**
 The departures on concrete runs: from a newly made pool, the steps that lead to each of them.
 */
module Witnesses {
  import opened Types
  import opened ThreadModel
  import opened ThreadSupply
  import opened ThreadStatus
  import opened ThreadBounds
  import opened ThreadAttendance
  import opened PriorityOrder
  import opened PriorityQueue
  import opened ActivePrefix
  import opened GroupModel
  import opened GroupShape
  import opened GroupExact
  import opened GroupPlaces
  import opened Scheduler
  import opened PoolSound
  import opened NoStranded
  import opened PoolRuns
  import opened PoolTheorems

  // ---- runs, step by step ----

  /** One step of a guarded run; with `careful`, one that is safe for the effective numbers too. */
  ghost predicate Step(p: Pool, op: Op, q: Pool, careful: bool)
  {
    Shaped(p) && Enabled(p, op) && Guard(p, op) && Apply(p, op) == q && (careful ==> Safe(p, op, true))
  }

  /** Such steps lead from each state to the next. */
  ghost predicate Path(states: seq<Pool>, ops: seq<Op>, careful: bool)
  {
    |states| == |ops| + 1 && forall k :: 0 <= k < |ops| ==> Step(states[k], ops[k], states[k + 1], careful)
  }

  /** A path is a run. */
  lemma {:induction false} PathIsRun(states: seq<Pool>, ops: seq<Op>, careful: bool)
    requires Path(states, ops, careful) && Shaped(states[0])
    ensures Follows(states[0], ops) && After(states[0], ops) == states[|ops|]
    ensures careful ==> Careful(states[0], ops, true)
    decreases |ops|
  {
    if ops != [] {
      assert Step(states[0], ops[0], states[1], careful);
      forall k | 0 <= k < |ops| - 1 ensures Step(states[1..][k], ops[1..][k], states[1..][k + 1], careful) {
        assert Step(states[k + 1], ops[k + 1], states[k + 2], careful);
      }
      PathIsRun(states[1..], ops[1..], careful);
    }
  }

  /** So every path from a new pool ends with its books right, and a careful one with the invariant. */
  lemma PathKeeps(states: seq<Pool>, ops: seq<Op>, careful: bool)
    requires Path(states, ops, careful) && Inv(states[0])
    ensures Books(states[|ops|]) && (careful ==> Inv(states[|ops|]))
  {
    PathIsRun(states, ops, careful);
    RunKeepsBooks(states[0], ops);
    if careful { RunKeepsInv(states[0], ops); }
  }

  // ---- what queueing and taking do in an unpaused group ----

  function Numbered(t: Task, n: nat): Task { t.(seqno := n) }

  lemma InsertedAlone(e: Entry, u: Task, tail: bool)
    requires e.queue == []
    ensures Inserted(e, u, tail) == e.(queue := [u], top := u, npendings := e.npendings + 1)
  {
    var k := Locate(e.avg, u.pri);
    assert Within(e.avg, [], k) == [] && Above(e.avg, [], k) == [] && Below(e.avg, [], k) == [];
    assert FlatInsert(e.avg, [], u, tail) == [u];
  }

  /** A task of policy BACK behind the only one, which has the same priority. */
  lemma InsertedSecond(e: Entry, a: Task, u: Task, tail: bool)
    requires e.queue == [a] && a.pri == u.pri && u.policy == Back
    ensures Inserted(e, u, tail) == e.(queue := [a, u], top := a, npendings := e.npendings + 1)
  {
    BandOfOne(e.avg, a);
    assert FlatInsert(e.avg, [a], u, tail) == [a, u];
  }

  lemma BandOfOne(avg: Pos, a: Task)
    ensures var k := Locate(avg, a.pri); Within(avg, [a], k) == [a] && Above(avg, [a], k) == Below(avg, [a], k) == []
  {
    var k := Locate(avg, a.pri);
    assert [a][1..] == [] && [a][0] == a;
    assert Within(avg, [a][1..], k) == [] && Above(avg, [a][1..], k) == [] && Below(avg, [a][1..], k) == [];
  }

  // ---- a group at its limit ----

  const EMPTY := Entry(false, false, false, false, 100, [], NOTASK, 2, 2, true, 0, 0, 0, 0, 0, 0)

  /** Two threads and one group. */
  const FRESH := Pool(
    Core([NEWBORN, NEWBORN], [], 2, 0, 0, 0, 0, 0, 0, 2, 2, 2, 2, 1, false, 0, []),
    [EMPTY, FREESLOT, FREESLOT], Prefix([0, 1, 2], [0, 1, 2], [false, false, false], 0, 0),
    0, 0, 0, 0, false, map[], [], false)

  lemma FreshIsNew()
    ensures FRESH == NewPool(NewCore(2, 2, 1, false), 1, false)
  {
  }

  lemma NewInv(hi: int, lo: int, p: Pool)
    requires p == NewPool(NewCore(hi, lo, 1, false), 1, false)
    ensures Inv(p)
  {
    NewPoolInv(hi, lo, 1, false, 1, false);
  }

  lemma FreshInv()
    ensures Inv(FRESH)
  {
    FreshIsNew();
    NewInv(2, 2, FRESH);
  }

  const A := Task(1, 0, 50, Back, false, false, false, 0)
  const B := Task(2, 0, 50, Back, false, false, false, 0)

  const LIMITED := SetEntry(FRESH, 0, EMPTY.(limit := 1, parallel := 1, benefits := false))

  const ONEQUEUED := SetEntry(LIMITED, 0, LIMITED.entries[0].(
    queue := [Numbered(A, 1)], top := Numbered(A, 1), npendings := 1, eff := 1, ntraces := 1)).(
    core := LIMITED.core.(pendings := 1), pre := Prefix([0, 1, 2], [0, 1, 2], [true, false, false], 1, 1),
    npendings := 1, ntraces := 1, seqno := 1, stat := map[1 := Stat(Waiting, false)])

  lemma LimitStep()
    ensures Step(FRESH, OnGroup(0, SetGroupAttr(1, false)), LIMITED, true)
  {
  }

  lemma QueueA()
    ensures Step(LIMITED, OnTask(A, Queue), ONEQUEUED, true)
  {
    var p1 := Trace(LIMITED, 0);
    InsertedAlone(p1.entries[0], Numbered(A, 1), false);
    assert PriQueue(p1, 0, A).entries[0] == ONEQUEUED.entries[0].(eff := 0);
    assert Notify(PriQueue(p1, 0, A), 0) == ONEQUEUED;
  }

  const BOTHQUEUED := SetEntry(ONEQUEUED, 0, ONEQUEUED.entries[0].(
    queue := [Numbered(A, 1), Numbered(B, 2)], npendings := 2, ntraces := 2)).(
    npendings := 2, ntraces := 2, seqno := 2, stat := ONEQUEUED.stat[2 := Stat(Waiting, false)])

  lemma QueueB()
    ensures Step(ONEQUEUED, OnTask(B, Queue), BOTHQUEUED, true)
  {
    var p1 := Trace(ONEQUEUED, 0);
    InsertedSecond(p1.entries[0], Numbered(A, 1), Numbered(B, 2), false);
    assert PriQueue(p1, 0, B).entries[0] == BOTHQUEUED.entries[0];
    assert Notify(PriQueue(p1, 0, B), 0) == BOTHQUEUED;
  }

  const ENTERED := BOTHQUEUED.(core := SetStatus(BOTHQUEUED.core, 0, Join))

  lemma EnterStep()
    ensures Step(BOTHQUEUED, ByThread(0, Enter), ENTERED, true)
  {
  }

  const BUSY := Pool(
    Core([NEWBORN.(status := Run, current := Some(Numbered(A, 1))), NEWBORN], [],
         2, 0, 0, 1, 0, 0, 0, 2, 1, 2, 2, 1, false, 0, []),
    [EMPTY.(limit := 1, parallel := 1, benefits := false, queue := [Numbered(B, 2)], top := Numbered(B, 2),
            npendings := 1, nrunnings := 1, ntraces := 2), FREESLOT, FREESLOT],
    Prefix([0, 1, 2], [0, 1, 2], [true, false, false], 1, 1),
    1, 0, 2, 2, false, map[1 := Stat(Scheduling, false), 2 := Stat(Waiting, false)], [], false)

  lemma TakeIsChosen()
    ensures Choose(ENTERED) == Some(0)
  {
    assert ScanFrom(ENTERED, 1, false, Some(0)) == Some(0);
    assert ENTERED.pre.act[0] == 0;
  }

  lemma TakenFrom()
    ensures TakeFrom(ENTERED, 0) == BUSY.(core := AddCore(ENTERED.core, -1))
  {
    assert [Numbered(A, 1), Numbered(B, 2)][1..] == [Numbered(B, 2)];
    assert TakeFrom(ENTERED, 0).entries == BUSY.entries;
    assert TakeFrom(ENTERED, 0).stat == BUSY.stat;
  }

  lemma TakeStarts()
    ensures Start(TakeFrom(ENTERED, 0), 0, Numbered(A, 1)) == BUSY
  {
    TakenFrom();
    assert Start(BUSY.(core := AddCore(ENTERED.core, -1)), 0, Numbered(A, 1)).core.ths == BUSY.core.ths;
  }

  lemma TakeStep()
    ensures Step(ENTERED, ByThread(0, Take), BUSY, true)
  {
    TakeIsChosen();
    TakeStarts();
  }

  const TOBUSY := [
    OnGroup(0, SetGroupAttr(1, false)), OnTask(A, Queue), OnTask(B, Queue), ByThread(0, Enter), ByThread(0, Take)]

  /** Limit one, two tasks queued, the first of them taken: a careful run to a state with the invariant. */
  lemma BusyIsReached()
    ensures Path([FRESH, LIMITED, ONEQUEUED, BOTHQUEUED, ENTERED, BUSY], TOBUSY, true)
  {
    var states := [FRESH, LIMITED, ONEQUEUED, BOTHQUEUED, ENTERED, BUSY];
    forall k | 0 <= k < |TOBUSY| ensures Step(states[k], TOBUSY[k], states[k + 1], true) {
      BusyStep(states, TOBUSY, k);
    }
  }

  lemma BusyStep(states: seq<Pool>, ops: seq<Op>, k: nat)
    requires states == [FRESH, LIMITED, ONEQUEUED, BOTHQUEUED, ENTERED, BUSY] && ops == TOBUSY && k < 5
    ensures Step(states[k], ops[k], states[k + 1], true)
  {
    match k
    case 0 => LimitStep();
    case 1 => QueueA();
    case 2 => QueueB();
    case 3 => EnterStep();
    case 4 => TakeStep();
  }

  lemma BusyInv()
    ensures Inv(BUSY)
  {
    var states := [FRESH, LIMITED, ONEQUEUED, BOTHQUEUED, ENTERED, BUSY];
    BusyIsReached();
    FreshInv();
    PathKeeps(states, TOBUSY, true);
    assert states[|TOBUSY|] == BUSY;
  }

  const HALTED := SetEntry(BUSY, 0, BUSY.entries[0].(paused := true)).(
    npendings := 0, pre := Prefix([0, 1, 2], [0, 1, 2], [false, false, false], 0, 0))

  lemma HaltedInv()
    ensures Step(BUSY, OnGroup(0, SuspendGroup), HALTED, true) && Inv(HALTED)
  {
    BusyInv();
    SuspendIsHalted();
    StepExactly(BUSY, OnGroup(0, SuspendGroup));
  }

  lemma SuspendIsHalted()
    ensures Suspend(BUSY, 0) == HALTED
  {
  }

  /** Resuming that group, or every group, loses the invariant. */
  lemma ResumeBreaks()
    ensures !Exact(Resume(HALTED, 0)) && !Exact(ResumeAll(HALTED))
  {
    HaltedInv();
    ResumeNumbers(HALTED, 0, true);
    ResumeAllNumbers(HALTED, true);
    assert ValidEntry(HALTED.entries[0]) && !ResumeSafe(HALTED.entries[0], true);
  }

  /** The user suspends and resumes the group, and the next take never ends. */
  lemma BusyGroupSpins()
    ensures GetTask(Resume(Suspend(BUSY, 0), 0), 1).Spins?
  {
    BusyInv();
    ResumeMakesTakeSpin(BUSY, 0, 1);
  }

  /** Storing the same attributes, or the same bounds, again loses the invariant too. */
  lemma AttrBreaks()
    ensures !Exact(SetAttr(BUSY, 0, 1, false)) && !Exact(Adjust(BUSY, 2, 2))
  {
    BusyInv();
    EntriesCounted(BUSY, 0);
    SetAttrExact(BUSY, 0, 1, false, true);
    AdjustNumbers(BUSY, 2, 2, true);
    assert !BUSY.entries[0].free && !AttrSafe(BUSY.entries[0], 2, 1, false, true);
  }

  // ---- a free slot inside the active prefix ----

  const C := Task(3, 1, 50, Back, false, false, false, 0)

  lemma OneQueuedInv()
    ensures Inv(ONEQUEUED)
  {
    FreshInv();
    LimitStep();
    StepExactly(FRESH, OnGroup(0, SetGroupAttr(1, false)));
    QueueA();
    StepExactly(LIMITED, OnTask(A, Queue));
  }

  const CREATED := SetEntry(ONEQUEUED, 1, EMPTY)

  const BOTHACTIVE := SetEntry(CREATED, 1, EMPTY.(
    queue := [Numbered(C, 2)], top := Numbered(C, 2), npendings := 1, ntraces := 1)).(
    core := CREATED.core.(pendings := 2), pre := Prefix([0, 1, 2], [0, 1, 2], [true, true, false], 2, 2),
    npendings := 2, ntraces := 2, seqno := 2, stat := CREATED.stat[3 := Stat(Waiting, false)])

  const LINGERING := SetEntry(ONEQUEUED, 1, EMPTY.(top := Numbered(C, 2), nprocessed := 1)).(
    pre := Prefix([0, 1, 2], [0, 1, 2], [true, false, false], 2, 1), seqno := 2)

  const DELETED := SetEntry(LINGERING, 1, LINGERING.entries[1].(destroying := true))

  const VACATED := SetEntry(LINGERING, 1, LINGERING.entries[1].(free := true))

  lemma CreateStep()
    ensures Step(ONEQUEUED, OnGroup(1, CreateGroup(1, false)), CREATED, true)
  {
  }

  lemma QueueC()
    ensures Step(CREATED, OnTask(C, Queue), BOTHACTIVE, true)
  {
    var p1 := Trace(CREATED, 1);
    InsertedAlone(p1.entries[1], Numbered(C, 2), false);
    assert PriQueue(p1, 1, C).entries[1] == BOTHACTIVE.entries[1];
    assert Notify(PriQueue(p1, 1, C), 1) == BOTHACTIVE;
  }

  lemma RemoveC()
    ensures Step(BOTHACTIVE, OnTask(Numbered(C, 2), RemoveOne(false)), LINGERING, true)
  {
    RemovedC();
    assert BOTHACTIVE.entries[1].queue[0] == Numbered(C, 2);
  }

  lemma RemovedC()
    ensures RemoveWaiting(BOTHACTIVE, Numbered(C, 2), false) == LINGERING
  {
    var p1 := Untrace(BOTHACTIVE, 1, 3);
    assert p1.stat == LINGERING.stat;
    assert Remove([Numbered(C, 2)], Numbered(C, 2)) == [];
    assert Unqueue(p1, Numbered(C, 2)).entries[1] == LINGERING.entries[1];
    assert Unqueue(p1, Numbered(C, 2)).entries == LINGERING.entries;
  }

  lemma DeleteStep()
    ensures Step(LINGERING, OnGroup(1, DeleteGroup), DELETED, true)
  {
  }

  lemma VacateStep()
    ensures Step(DELETED, OnGroup(1, VacateGroup), VACATED, true)
  {
    assert Vacate(DELETED, 1).entries == VACATED.entries;
  }

  const TOVACATED := [
    OnGroup(1, CreateGroup(1, false)), OnTask(C, Queue), OnTask(Numbered(C, 2), RemoveOne(false)),
    OnGroup(1, DeleteGroup), OnGroup(1, VacateGroup)]

  lemma VacatedStep(states: seq<Pool>, ops: seq<Op>, k: nat)
    requires states == [ONEQUEUED, CREATED, BOTHACTIVE, LINGERING, DELETED, VACATED] && ops == TOVACATED && k < 5
    ensures Step(states[k], ops[k], states[k + 1], true)
  {
    match k
    case 0 => CreateStep();
    case 1 => QueueC();
    case 2 => RemoveC();
    case 3 => DeleteStep();
    case 4 => VacateStep();
  }

  /** A second group is created, given a task, emptied and deleted: its slot still lies in the prefix. */
  lemma VacatedIsReached()
    ensures Path([ONEQUEUED, CREATED, BOTHACTIVE, LINGERING, DELETED, VACATED], TOVACATED, true)
  {
    var states := [ONEQUEUED, CREATED, BOTHACTIVE, LINGERING, DELETED, VACATED];
    forall k | 0 <= k < |TOVACATED| ensures Step(states[k], TOVACATED[k], states[k + 1], true) {
      VacatedStep(states, TOVACATED, k);
    }
  }

  lemma VacatedInv()
    ensures Inv(VACATED)
  {
    var states := [ONEQUEUED, CREATED, BOTHACTIVE, LINGERING, DELETED, VACATED];
    OneQueuedInv();
    VacatedIsReached();
    PathKeeps(states, TOVACATED, true);
    assert states[|TOVACATED|] == VACATED;
  }

  /** Created suspended in that slot, the next group is scanned although it is paused. */
  lemma CreateBreaks()
    ensures VACATED.entries[1].free && !Tidy(Occupy(VACATED, 1, 1, true))
  {
    VacatedInv();
    OccupyTidy(VACATED, 1, 1, true);
  }

  // ---- benefits gained with a task counted ----

  const FAVOURED := SetEntry(ONEQUEUED, 0, ONEQUEUED.entries[0].(benefits := true))

  const IDLE := SetEntry(LIMITED, 0, LIMITED.entries[0].(
    benefits := true, top := Numbered(A, 1), eff := 1, nprocessed := 1)).(seqno := 1)

  const STALE := SetEntry(IDLE, 0, IDLE.entries[0].(benefits := false))

  const UNCOUNTED := SetEntry(STALE, 0, STALE.entries[0].(
    queue := [Numbered(B, 2)], top := Numbered(B, 2), npendings := 1, ntraces := 1)).(
    pre := Prefix([0, 1, 2], [0, 1, 2], [true, false, false], 1, 1),
    npendings := 1, ntraces := 1, seqno := 2, stat := map[2 := Stat(Waiting, false)])

  lemma FavourStep()
    ensures Step(ONEQUEUED, OnGroup(0, SetGroupAttr(1, true)), FAVOURED, false)
    ensures !Safe(ONEQUEUED, OnGroup(0, SetGroupAttr(1, true)), false)
  {
  }

  lemma RemoveA()
    ensures Step(FAVOURED, OnTask(Numbered(A, 1), RemoveOne(false)), IDLE, false)
  {
    RemovedA();
    assert FAVOURED.entries[0].queue[0] == Numbered(A, 1);
  }

  lemma RemovedA()
    ensures RemoveWaiting(FAVOURED, Numbered(A, 1), false) == IDLE
  {
    var p1 := Untrace(FAVOURED, 0, 1);
    assert p1.stat == IDLE.stat;
    assert Remove([Numbered(A, 1)], Numbered(A, 1)) == [];
    assert Unqueue(p1, Numbered(A, 1)).entries[0] == IDLE.entries[0];
    assert Unqueue(p1, Numbered(A, 1)).entries == IDLE.entries;
  }

  lemma UnfavourStep()
    ensures Step(IDLE, OnGroup(0, SetGroupAttr(1, false)), STALE, false)
  {
  }

  lemma QueueUncounted()
    ensures Step(STALE, OnTask(B, Queue), UNCOUNTED, false)
  {
    var p1 := Trace(STALE, 0);
    InsertedAlone(p1.entries[0], Numbered(B, 2), false);
    assert PriQueue(p1, 0, B).entries[0] == UNCOUNTED.entries[0];
    assert Notify(PriQueue(p1, 0, B), 0) == UNCOUNTED;
  }

  const TOUNCOUNTED := [
    OnGroup(0, SetGroupAttr(1, true)), OnTask(Numbered(A, 1), RemoveOne(false)),
    OnGroup(0, SetGroupAttr(1, false)), OnTask(B, Queue)]

  lemma UncountedStep(states: seq<Pool>, ops: seq<Op>, k: nat)
    requires states == [ONEQUEUED, FAVOURED, IDLE, STALE, UNCOUNTED] && ops == TOUNCOUNTED && k < 4
    ensures Step(states[k], ops[k], states[k + 1], false)
  {
    match k
    case 0 => FavourStep();
    case 1 => RemoveA();
    case 2 => UnfavourStep();
    case 3 => QueueUncounted();
  }

  /**
   The group gains benefits with one task counted, is emptied and loses them again: the count it keeps
   hides the next task, which could start but which no thread ever takes.
   */
  lemma GainedBenefitsHideATask()
    ensures Path([ONEQUEUED, FAVOURED, IDLE, STALE, UNCOUNTED], TOUNCOUNTED, false)
    ensures CanStart(UNCOUNTED.entries[0], false) && GetTask(UNCOUNTED, 0) == Nothing
  {
    var states := [ONEQUEUED, FAVOURED, IDLE, STALE, UNCOUNTED];
    forall k | 0 <= k < |TOUNCOUNTED| ensures Step(states[k], TOUNCOUNTED[k], states[k + 1], false) {
      UncountedStep(states, TOUNCOUNTED, k);
    }
  }

  // ---- work handed to the pool's threads while nobody attends ----

  const SMALL := EMPTY.(limit := 1, parallel := 1)

  /** One thread and one group. */
  const SOLO := Pool(
    Core([NEWBORN], [], 1, 0, 0, 0, 0, 0, 0, 1, 1, 1, 1, 1, false, 0, []),
    [SMALL, FREESLOT, FREESLOT], Prefix([0, 1, 2], [0, 1, 2], [false, false, false], 0, 0),
    0, 0, 0, 0, false, map[], [], false)

  lemma SoloIsNew()
    ensures SOLO == NewPool(NewCore(1, 1, 1, false), 1, false)
  {
  }

  lemma SoloInv()
    ensures Inv(SOLO)
  {
    SoloIsNew();
    NewInv(1, 1, SOLO);
  }

  /** A task with a handler. */
  const H := Task(1, 0, 50, Back, false, false, true, 0)

  const ONHOLD := SetEntry(SOLO, 0, SMALL.(paused := true))

  const HELD := SetEntry(ONHOLD, 0, SMALL.(
    paused := true, queue := [Numbered(H, 1)], top := Numbered(H, 1), npendings := 1, ntraces := 1)).(
    ntraces := 1, seqno := 1, stat := map[1 := Stat(Waiting, false)])

  const JOINED := HELD.(core := SetStatus(HELD.core, 0, Join))

  const ASLEEP := HELD.(core := SetThread(HELD.core, 0, NEWBORN.(status := Wait, waked := false)).(
    waitq := [0], qthsWait := 1, realFree := 0, sleeping := 1))

  lemma HoldStep()
    ensures Step(SOLO, OnGroup(0, SuspendGroup), ONHOLD, true)
  {
  }

  lemma QueueH()
    ensures Step(ONHOLD, OnTask(H, Queue), HELD, true)
  {
    var p1 := Trace(ONHOLD, 0);
    InsertedAlone(p1.entries[0], Numbered(H, 1), false);
    assert PriQueue(p1, 0, H) == HELD;
  }

  lemma JoinStep()
    ensures Step(HELD, ByThread(0, Enter), JOINED, true)
  {
  }

  lemma SleepStep()
    ensures Step(JOINED, ByThread(0, Sleep), ASLEEP, true)
  {
    assert ToWait(JOINED.core, 0).ths == ASLEEP.core.ths;
  }

  const TOASLEEP := [OnGroup(0, SuspendGroup), OnTask(H, Queue), ByThread(0, Enter), ByThread(0, Sleep)]

  lemma AsleepStep(states: seq<Pool>, ops: seq<Op>, k: nat)
    requires states == [SOLO, ONHOLD, HELD, JOINED, ASLEEP] && ops == TOASLEEP && k < 4
    ensures Step(states[k], ops[k], states[k + 1], true)
  {
    match k
    case 0 => HoldStep();
    case 1 => QueueH();
    case 2 => JoinStep();
    case 3 => SleepStep();
  }

  /** The only thread sleeps while the only group is suspended. */
  lemma AsleepIsReached()
    ensures Path([SOLO, ONHOLD, HELD, JOINED, ASLEEP], TOASLEEP, true)
  {
    var states := [SOLO, ONHOLD, HELD, JOINED, ASLEEP];
    forall k | 0 <= k < |TOASLEEP| ensures Step(states[k], TOASLEEP[k], states[k + 1], true) {
      AsleepStep(states, TOASLEEP, k);
    }
  }

  lemma AsleepInv()
    ensures Inv(ASLEEP) && Manned(ASLEEP.core) && !Attended(ASLEEP.core)
  {
    var states := [SOLO, ONHOLD, HELD, JOINED, ASLEEP];
    SoloInv();
    AsleepIsReached();
    PathKeeps(states, TOASLEEP, true);
    assert states[|TOASLEEP|] == ASLEEP;
  }

  /** Marking the tasks of that group for the pool's threads strands them; marking over the whole pool does not. */
  lemma MarkStrands()
    ensures !Manned(Discard(ASLEEP, Numbered(H, 1), true).core)
    ensures Manned(MarkPool(ASLEEP, [(Numbered(H, 1), true)], false).core)
  {
    AsleepInv();
    var t := Numbered(H, 1);
    assert ASLEEP.entries[0].queue[0] == t;
    ExactCovers(ASLEEP);
    DiscardManned(ASLEEP, t, true);
    MarkStranded(ASLEEP, t);
  }

  lemma MarkStranded(p: Pool, t: Task)
    requires Books(p) && Covers(p) && Manned(p.core)
    requires t.gid < |p.entries| && t in p.entries[t.gid].queue && t.id in p.stat && p.stat[t.id].place == Waiting
    ensures Manned(MarkPool(p, [(t, true)], false).core)
  {
    var marks := [(t, true)];
    assert marks[1..] == [];
    assert Markable(Discard(p, t, true), []);
    MarkPoolManned(p, marks, false);
  }

  // ---- a maximum lowered below the threads in service ----

  const JOINED0 := FRESH.(core := SetStatus(FRESH.core, 0, Join))

  const JOINED1 := JOINED0.(core := SetStatus(JOINED0.core, 1, Join))

  const RESTING1 := JOINED1.(core := SetThread(JOINED1.core, 1, NEWBORN.(status := Wait, waked := false)).(
    waitq := [1], qthsWait := 1, realFree := 1, sleeping := 1))

  const BOTHREST := RESTING1.(core := SetThread(RESTING1.core, 0, NEWBORN.(status := Wait, waked := false)).(
    waitq := [0, 1], qthsWait := 2, realFree := 0, sleeping := 2))

  const ONEROUSED := Pool(
    Core([NEWBORN.(status := Wait), NEWBORN.(status := Wait, waked := false)], [1],
         2, 1, 1, 0, 0, 0, 2, 2, 0, 2, 2, 1, false, 1, []),
    [EMPTY.(queue := [Numbered(A, 1)], top := Numbered(A, 1), npendings := 1, ntraces := 1), FREESLOT, FREESLOT],
    Prefix([0, 1, 2], [0, 1, 2], [true, false, false], 1, 1),
    1, 0, 1, 1, false, map[1 := Stat(Waiting, false)], [], false)

  const ONEFREE := ONEROUSED.(core := SetThread(ONEROUSED.core, 0, NEWBORN.(status := Free)).(
    qthsWaked := 0, sleeping := 1, realFree := 1))

  const LOWERED := SetEntry(ONEFREE, 0, ONEFREE.entries[0].(limit := 1)).(
    core := SetThread(ONEFREE.core, 0, NEWBORN.(status := Free, run := false, rm := true)).(
      maxthreads := 1, minthreads := 0, realPool := 1, dying := 1, realFree := 0))

  const LEFTASLEEP := LOWERED.(core := SetStatus(LOWERED.core, 0, Status.Left).(qths := 1, dying := 0))

  lemma JoinBoth()
    ensures Step(FRESH, ByThread(0, Enter), JOINED0, true) && Step(JOINED0, ByThread(1, Enter), JOINED1, true)
  {
  }

  lemma RestOne()
    ensures Step(JOINED1, ByThread(1, Sleep), RESTING1, true)
  {
    assert ToWait(JOINED1.core, 1).ths == RESTING1.core.ths;
  }

  lemma RestOther()
    ensures Step(RESTING1, ByThread(0, Sleep), BOTHREST, true)
  {
    assert ToWait(RESTING1.core, 0).ths == BOTHREST.core.ths;
    assert ToWait(RESTING1.core, 0).waitq == [0, 1];
  }

  lemma FirstRoused(c: Core)
    requires |c.ths| == 2 && c.waitq == [0, 1] && c.perTime == 1 && c.qthsWait == 2
    requires c.qthsWaked == 0 && c.realFree == 0 && !c.paused && c.pendings == 1
    ensures Served(c) == c.(ths := c.ths[0 := c.ths[0].(waked := true)], waitq := [1], qthsWait := 1, qthsWaked := 1)
  {
    assert Ensure(c) == WakeN(c, 1);
    assert WakeN(c, 1) == WakeOne(c);
    assert [0, 1][1..] == [1];
  }

  lemma QueueRousesOne()
    ensures Step(BOTHREST, OnTask(A, Queue), ONEROUSED, true)
  {
    var p1 := Trace(BOTHREST, 0);
    InsertedAlone(p1.entries[0], Numbered(A, 1), false);
    FirstRoused(AddCore(BOTHREST.core, 1));
    assert Served(AddCore(BOTHREST.core, 1)).ths == ONEROUSED.core.ths;
    assert Served(AddCore(BOTHREST.core, 1)) == ONEROUSED.core;
    assert PriQueue(p1, 0, A).entries == ONEROUSED.entries;
    assert Notify(PriQueue(p1, 0, A), 0) == ONEROUSED;
  }

  lemma WakeOneStep()
    ensures Step(ONEROUSED, ByThread(0, Wake), ONEFREE, true)
  {
    assert ToFree(ONEROUSED.core, 0).ths == ONEFREE.core.ths;
  }

  lemma LimitsLowered()
    ensures var p0 := ONEFREE.(core := ONEFREE.core.(maxthreads := 1, minthreads := 0));
      UpdateAllFrom(p0, 0) == SetEntry(p0, 0, LOWERED.entries[0])
  {
    var p0 := ONEFREE.(core := ONEFREE.core.(maxthreads := 1, minthreads := 0));
    var p1 := SetAttr(p0, 0, 2, true);
    assert p1 == SetEntry(p0, 0, LOWERED.entries[0]);
    assert UpdateAllFrom(p1, 3) == p1;
    assert UpdateAllFrom(p1, 2) == p1;
    assert UpdateAllFrom(p1, 1) == p1;
    assert UpdateAllFrom(p0, 0) == p1;
  }

  lemma LowerStep()
    ensures Step(ONEFREE, OnPool(AdjustPool(1, 0)), LOWERED, true)
  {
    var c := ONEFREE.core.(maxthreads := 1, minthreads := 0);
    LimitsLowered();
    assert Mark(c, 0, 1, 0, 0) == (MarkOne(c, 0), 1);
  }

  const TOLOWERED := [
    ByThread(0, Enter), ByThread(1, Enter), ByThread(1, Sleep), ByThread(0, Sleep), OnTask(A, Queue),
    ByThread(0, Wake), OnPool(AdjustPool(1, 0)), ByThread(0, Exit)]

  lemma LoweredStep(states: seq<Pool>, ops: seq<Op>, k: nat)
    requires states == [FRESH, JOINED0, JOINED1, RESTING1, BOTHREST, ONEROUSED, ONEFREE, LOWERED, LEFTASLEEP]
    requires ops == TOLOWERED && k < 8
    ensures Step(states[k], ops[k], states[k + 1], true)
  {
    match k
    case 0 => JoinBoth();
    case 1 => JoinBoth();
    case 2 => RestOne();
    case 3 => RestOther();
    case _ => LoweredRest(states, ops, k);
  }

  lemma LoweredRest(states: seq<Pool>, ops: seq<Op>, k: nat)
    requires states == [FRESH, JOINED0, JOINED1, RESTING1, BOTHREST, ONEROUSED, ONEFREE, LOWERED, LEFTASLEEP]
    requires ops == TOLOWERED && 4 <= k < 8
    ensures Step(states[k], ops[k], states[k + 1], true)
  {
    match k
    case 4 => QueueRousesOne();
    case 5 => WakeOneStep();
    case 6 => LowerStep();
    case 7 => LeaveStep();
  }

  lemma LeaveStep()
    ensures Step(LOWERED, ByThread(0, Exit), LEFTASLEEP, true)
  {
  }

  /** Of two threads one is woken for a task, marked as the maximum is lowered to one, and leaves. */
  lemma LoweredIsReached()
    ensures var states := [FRESH, JOINED0, JOINED1, RESTING1, BOTHREST, ONEROUSED, ONEFREE, LOWERED, LEFTASLEEP];
      Path(states, TOLOWERED, true)
  {
    var states := [FRESH, JOINED0, JOINED1, RESTING1, BOTHREST, ONEROUSED, ONEFREE, LOWERED, LEFTASLEEP];
    forall k | 0 <= k < |TOLOWERED| ensures Step(states[k], TOLOWERED[k], states[k + 1], true) {
      LoweredStep(states, TOLOWERED, k);
    }
  }

  /** The other sleeps on, and the task waits; the condition of `LoweringAttends` tells so before the call. */
  lemma LoweringStrands()
    ensures Manned(ONEFREE.core) && !StaysAttended(ONEFREE.core, 1)
    ensures HasWork(LEFTASLEEP.core) && !Attended(LEFTASLEEP.core) && LEFTASLEEP.core.realPool == 1
  {
  }

  // ---- a dying taker, and a maximum of no threads ----

  const LEAN := SOLO.(core := SOLO.core.(minthreads := 0))

  const LEANJOINED := LEAN.(core := SetStatus(LEAN.core, 0, Join))

  const RESTING := LEAN.(core := SetThread(LEAN.core, 0, NEWBORN.(status := Wait, waked := false)).(
    waitq := [0], qthsWait := 1, realFree := 0, sleeping := 1))

  const ROUSED := SetEntry(RESTING, 0, SMALL.(
    queue := [Numbered(A, 1)], top := Numbered(A, 1), npendings := 1, ntraces := 1)).(
    core := SetThread(RESTING.core, 0, NEWBORN.(status := Wait)).(
      pendings := 1, waitq := [], qthsWait := 0, qthsWaked := 1),
    pre := Prefix([0, 1, 2], [0, 1, 2], [true, false, false], 1, 1),
    npendings := 1, ntraces := 1, seqno := 1, stat := map[1 := Stat(Waiting, false)])

  const FREED := ROUSED.(core := SetThread(ROUSED.core, 0, NEWBORN.(status := Free)).(
    qthsWaked := 0, sleeping := 0, realFree := 1))

  const DOUBLE := Pool(
    Core([NEWBORN.(status := Free)], [], 1, 0, 0, 0, 0, 0, 0, 1, 1, 1, 0, 1, false, 2, []),
    [SMALL.(queue := [Numbered(A, 1), Numbered(B, 2)], top := Numbered(A, 1), npendings := 2, ntraces := 2),
     FREESLOT, FREESLOT],
    Prefix([0, 1, 2], [0, 1, 2], [true, false, false], 1, 1),
    2, 0, 2, 2, false, map[1 := Stat(Waiting, false), 2 := Stat(Waiting, false)], [], false)

  const DOOMED := DOUBLE.(core := SetThread(DOUBLE.core, 0, NEWBORN.(status := Free, run := false, rm := true)).(
    realPool := 0, dying := 1, realFree := 0))

  const DESERTED := DOOMED.(core := SetStatus(DOOMED.core, 0, Status.Left).(qths := 0, dying := 0))

  lemma LeanStep()
    ensures Step(SOLO, OnPool(AdjustPool(1, 0)), LEAN, true)
  {
    var p1 := SetAttr(LEAN, 0, 1, true);
    assert p1 == LEAN;
    assert UpdateAllFrom(p1, 3) == p1;
    assert UpdateAllFrom(p1, 2) == p1;
    assert UpdateAllFrom(p1, 1) == p1;
    assert UpdateAllFrom(p1, 0) == p1;
  }

  lemma LeanJoin()
    ensures Step(LEAN, ByThread(0, Enter), LEANJOINED, true)
  {
  }

  lemma RestStep()
    ensures Step(LEANJOINED, ByThread(0, Sleep), RESTING, true)
  {
    assert ToWait(LEANJOINED.core, 0).ths == RESTING.core.ths;
  }

  lemma OneRoused(c: Core)
    requires |c.ths| == 1 && c.waitq == [0] && c.perTime == 1 && c.qthsWait == 1
    requires c.qthsWaked == 0 && c.realFree == 0 && !c.paused && c.pendings == 1
    ensures Served(c) == c.(ths := [c.ths[0].(waked := true)], waitq := [], qthsWait := 0, qthsWaked := 1)
  {
    assert Ensure(c) == WakeN(c, 1);
    assert WakeN(c, 1) == WakeOne(c);
    assert WakeOne(c).ths == [c.ths[0].(waked := true)];
  }

  lemma QueueRouses()
    ensures Step(RESTING, OnTask(A, Queue), ROUSED, true)
  {
    var p1 := Trace(RESTING, 0);
    InsertedAlone(p1.entries[0], Numbered(A, 1), false);
    OneRoused(AddCore(RESTING.core, 1));
    assert Served(AddCore(RESTING.core, 1)) == ROUSED.core;
    assert PriQueue(p1, 0, A).entries[0] == ROUSED.entries[0];
    assert Notify(PriQueue(p1, 0, A), 0) == ROUSED;
  }

  lemma WakeStep()
    ensures Step(ROUSED, ByThread(0, Wake), FREED, true)
  {
    assert ToFree(ROUSED.core, 0).ths == FREED.core.ths;
  }

  lemma DoubleDelivered()
    ensures Deliver(Trace(FREED, 0), 0, B) == DOUBLE
  {
    var p1 := Trace(FREED, 0);
    InsertedSecond(p1.entries[0], Numbered(A, 1), Numbered(B, 2), false);
    assert PriQueue(p1, 0, B).entries == DOUBLE.entries;
    assert PriQueue(p1, 0, B).stat == DOUBLE.stat;
    assert p1.core.ths == DOUBLE.core.ths;
    assert Notify(PriQueue(p1, 0, B), 0) == DOUBLE;
  }

  lemma QueueDouble()
    ensures Step(FREED, OnTask(B, Queue), DOUBLE, true)
  {
    DoubleDelivered();
  }

  lemma FlushStep()
    ensures Step(DOUBLE, OnPool(FlushPool), DOOMED, true)
  {
    assert Mark(DOUBLE.core, 0, 1, 0, 0) == (MarkOne(DOUBLE.core, 0), 1);
  }

  lemma DesertStep()
    ensures Step(DOOMED, ByThread(0, Exit), DESERTED, true)
  {
  }

  const TODOOMED := [
    OnPool(AdjustPool(1, 0)), ByThread(0, Enter), ByThread(0, Sleep), OnTask(A, Queue), ByThread(0, Wake),
    OnTask(B, Queue), OnPool(FlushPool)]

  lemma DoomedStep(states: seq<Pool>, ops: seq<Op>, k: nat)
    requires states == [SOLO, LEAN, LEANJOINED, RESTING, ROUSED, FREED, DOUBLE, DOOMED] && ops == TODOOMED && k < 7
    ensures Step(states[k], ops[k], states[k + 1], true)
  {
    match k
    case 0 => LeanStep();
    case 1 => LeanJoin();
    case 2 => RestStep();
    case 3 => QueueRouses();
    case 4 => WakeStep();
    case 5 => QueueDouble();
    case 6 => FlushStep();
  }

  /** The only thread, woken for the first of two tasks, is marked by a flush before it takes any. */
  lemma DoomedIsReached()
    ensures Path([SOLO, LEAN, LEANJOINED, RESTING, ROUSED, FREED, DOUBLE, DOOMED], TODOOMED, true)
  {
    var states := [SOLO, LEAN, LEANJOINED, RESTING, ROUSED, FREED, DOUBLE, DOOMED];
    forall k | 0 <= k < |TODOOMED| ensures Step(states[k], TODOOMED[k], states[k + 1], true) {
      DoomedStep(states, TODOOMED, k);
    }
  }

  lemma DoomedInv()
    ensures Inv(DOOMED)
  {
    var states := [SOLO, LEAN, LEANJOINED, RESTING, ROUSED, FREED, DOUBLE, DOOMED];
    SoloInv();
    DoomedIsReached();
    PathKeeps(states, TODOOMED, true);
    assert states[|TODOOMED|] == DOOMED;
  }

  lemma DoomedTakes()
    ensures Choose(DOOMED) == Some(0)
  {
    assert ScanFrom(DOOMED, 1, false, Some(0)) == Some(0);
    assert DOOMED.pre.act[0] == 0;
  }

  /**
   The flush leaves the work to a thread that is marked, and that may leave before it looks: two tasks could
   start, and there is no thread at all.  The condition of `FlushAttends` tells so before the call.
   */
  lemma FlushStrands()
    ensures Manned(DOUBLE.core) && !StaysAttended(DOUBLE.core, DOUBLE.core.minthreads)
    ensures Step(DOOMED, ByThread(0, Exit), DESERTED, true)
    ensures HasWork(DESERTED.core) && !Attended(DESERTED.core) && DESERTED.core.qths == 0
  {
    DesertStep();
  }

  // the same, had the thread taken the first task before the flush

  const TAKEN := SetEntry(DOUBLE, 0, DOUBLE.entries[0].(
    queue := [Numbered(B, 2)], top := Numbered(B, 2), npendings := 1, nrunnings := 1)).(
    core := SetThread(DOUBLE.core, 0, NEWBORN.(status := Run, current := Some(Numbered(A, 1)))).(
      running := 1, realFree := 0, pendings := 1),
    npendings := 1, stat := DOUBLE.stat[1 := Stat(Scheduling, false)])

  const DISMISSED := TAKEN.(core := SetThread(TAKEN.core, 0, TAKEN.core.ths[0].(run := false, rm := true)).(
    realPool := 0, dying := 1, dyingRun := 1))

  const WORKEDOUT := SetEntry(DISMISSED, 0, DISMISSED.entries[0].(nrunnings := 0, ntraces := 1, nprocessed := 1)).(
    core := SetThread(DISMISSED.core, 0, NEWBORN.(status := Complete, run := false, rm := true)).(
      running := 0, dyingRun := 0),
    ntraces := 1, stat := map[2 := Stat(Waiting, false)])

  lemma TakeChosen()
    ensures Choose(DOUBLE) == Some(0)
  {
    assert ScanFrom(DOUBLE, 1, false, Some(0)) == Some(0);
    assert DOUBLE.pre.act[0] == 0;
  }

  lemma TakenStarts()
    ensures Start(TakeFrom(DOUBLE, 0), 0, Numbered(A, 1)) == TAKEN
  {
    assert [Numbered(A, 1), Numbered(B, 2)][1..] == [Numbered(B, 2)];
    assert TakeFrom(DOUBLE, 0).entries[0] == TAKEN.entries[0];
  }

  lemma TakenStep()
    ensures Step(DOUBLE, ByThread(0, Take), TAKEN, true)
  {
    TakeChosen();
    TakenStarts();
  }

  lemma DismissStep()
    ensures Step(TAKEN, OnPool(FlushPool), DISMISSED, true)
  {
    var c := MarkOne(TAKEN.core, 0);
    assert Mark(c, 1, 1, 0, 1) == (c, 1);
    assert Mark(TAKEN.core, 0, 1, 1, 0) == (c, 1);
  }

  lemma WorkedOut()
    ensures Finish(DISMISSED, 0, false) == WORKEDOUT
  {
    var p1 := Release(DISMISSED, 0, 0);
    assert p1.entries == DISMISSED.entries[0 := DISMISSED.entries[0].(nrunnings := 0)];
    var p2 := Untrace(p1, 0, 1);
    assert p2.stat == WORKEDOUT.stat;
    assert p2.entries == WORKEDOUT.entries;
    assert CompleteIfIdle(p2, 0).core == WORKEDOUT.core;
  }

  lemma WorkedOutStep()
    ensures Step(DISMISSED, ByThread(0, Done(false)), WORKEDOUT, true)
  {
    WorkedOut();
  }

  /** A flush that leaves somebody to attend may still strand work later: whoever it marks leaves unchecked. */
  lemma FlushStrandsLater()
    ensures Step(DOUBLE, ByThread(0, Take), TAKEN, true) && Step(TAKEN, OnPool(FlushPool), DISMISSED, true)
    ensures Step(DISMISSED, ByThread(0, Done(false)), WORKEDOUT, true)
    ensures StaysAttended(TAKEN.core, TAKEN.core.minthreads)
    ensures HasWork(WORKEDOUT.core) && !Attended(WORKEDOUT.core)
  {
    TakenStep();
    DismissStep();
    WorkedOutStep();
  }

  /**
   If it was on its way to look already, it takes a task, is called back before its status is written, and a
   counter is wrong from then on.
   */
  lemma TakeBreaks()
    ensures GetTask(DOOMED, 0).Took? && !Steady(GetTask(DOOMED, 0).pool.core)
  {
    DoomedInv();
    DoomedTakes();
    GetTaskSteady(DOOMED, 0);
    assert TakeCallsBack(DOOMED, 0);
  }

  /** No threads yet. */
  const LAZY := Pool(
    Core([], [], 0, 0, 0, 0, 0, 0, 0, 0, 0, 1, 0, 1, false, 0, []),
    [SMALL, FREESLOT, FREESLOT], Prefix([0, 1, 2], [0, 1, 2], [false, false, false], 0, 0),
    0, 0, 0, 0, false, map[], [], false)

  lemma LazyIsNew()
    ensures LAZY == NewPool(NewCore(1, 0, 1, false), 1, false)
  {
  }

  lemma LazyInv()
    ensures Inv(LAZY)
  {
    LazyIsNew();
    NewInv(1, 0, LAZY);
  }

  const NOROOM := SetEntry(LAZY, 0, SMALL.(limit := 0)).(core := LAZY.core.(maxthreads := 0))

  lemma NoRoomStep()
    ensures Step(LAZY, OnPool(AdjustPool(0, 0)), NOROOM, true)
  {
    var p0 := LAZY.(core := LAZY.core.(maxthreads := 0, minthreads := 0));
    var p1 := SetAttr(p0, 0, 1, true);
    assert p1 == NOROOM;
    assert UpdateAllFrom(p1, 3) == p1;
    assert UpdateAllFrom(p1, 2) == p1;
    assert UpdateAllFrom(p1, 1) == p1;
    assert UpdateAllFrom(p0, 0) == p1;
  }

  /** With a maximum of no threads the collector makes one more than the maximum. */
  lemma CollectBreaks()
    ensures Books(NOROOM) && !Bounded(TryGC(NOROOM.core, true))
  {
    LazyInv();
    NoRoomStep();
    StepBooks(LAZY, OnPool(AdjustPool(0, 0)));
    TryGCBounds(NOROOM.core, true);
  }
}
