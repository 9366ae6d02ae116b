/**
 Conservation: every live task is in exactly one place, and every counter of tasks is the
 number of tasks in that place.
 */
module GroupPlaces {
  import opened Types
  import opened ThreadModel
  import opened ThreadCounts
  import opened ThreadSupply
  import opened ThreadJobs
  import opened PriorityOrder
  import opened PriorityQueue
  import opened GroupModel
  import opened GroupCounts
  import opened GroupShape

  /** How many of the selected tasks are queued, run by a thread, or removed and waiting for their handler. */
  datatype Tally = Tally(waits: int, runs: int, doomed: int)

  function TallyOf(p: Pool, s: Sel): Tally
  {
    Tally(Sum(p.entries, Queued(s)), Count(p.core.ths, Runs(s)),
          Matching(p.core.dispatchs, s) + Matching(p.removing, s) + Count(p.core.ths, Batches(s)))
  }

  function PlaceTally(stat: map<nat, Stat>, id: nat): Tally
  {
    if id !in stat then Tally(0, 0, 0)
    else
      match stat[id].place
      case Waiting => Tally(1, 0, 0)
      case Scheduling => Tally(0, 1, 0)
      case Dispatching => Tally(0, 0, 1)
  }

  /** The record of every task says in which one place it is. */
  ghost predicate IdsPlaced(p: Pool) { forall id: nat :: TallyOf(p, WithId(id)) == PlaceTally(p.stat, id) }

  /** The counters of every group, and the traced tasks, which are all three kinds together. */
  ghost predicate GroupsCounted(p: Pool)
  {
    && (forall g :: 0 <= g < |p.entries| ==>
          var e := p.entries[g];
          TallyOf(p, InGroup(g)) == Tally(e.npendings, e.nrunnings, e.ndispatchings)
          && e.ntraces == e.npendings + e.nrunnings + e.ndispatchings)
    && (forall g: nat :: g >= |p.entries| ==> TallyOf(p, InGroup(g)) == Tally(0, 0, 0))
  }

  /** Sequence numbers of queued tasks are distinct, and none is from the future. */
  ghost predicate SeqsDistinct(p: Pool) { forall n: nat :: TallyOf(p, WithSeq(n)).waits <= Bit(n <= p.seqno) }

  ghost predicate SumsRight(p: Pool)
  {
    && p.ndispatchings + |p.core.dispatchs| == TallyOf(p, Every).doomed
    && p.ntraces == Sum(p.entries, Traced)
  }

  ghost predicate Placed(p: Pool)
  {
    IdsPlaced(p) && GroupsCounted(p) && SeqsDistinct(p) && SumsRight(p) && JobsOk(p.core)
  }

  // ---- moving one task ----

  /** What moving a selected task from one place to another does to a tally. */
  function Left(t: Tally, from: Option<Place>): Tally
  {
    match from
    case None => t
    case Some(Waiting) => t.(waits := t.waits - 1)
    case Some(Scheduling) => t.(runs := t.runs - 1)
    case Some(Dispatching) => t.(doomed := t.doomed - 1)
  }

  function Joined(t: Tally, to: Option<Place>): Tally
  {
    match to
    case None => t
    case Some(Waiting) => t.(waits := t.waits + 1)
    case Some(Scheduling) => t.(runs := t.runs + 1)
    case Some(Dispatching) => t.(doomed := t.doomed + 1)
  }

  function Shift(t: Tally, selected: bool, from: Option<Place>, to: Option<Place>): Tally
  {
    if selected then Joined(Left(t, from), to) else t
  }

  /** The counters of an entry as a tally. */
  function EntryTally(e: Entry): Tally { Tally(e.npendings, e.nrunnings, e.ndispatchings) }

  function StatMoved(stat: map<nat, Stat>, id: nat, to: Option<Place>): map<nat, Stat>
  {
    if to == None then map k | k in stat && k != id :: stat[k] else stat[id := Stat(to.value, false)]
  }

  /** The step took task `t` from one place to another, in its group's books and in the pool's. */
  ghost predicate Shifted(p: Pool, r: Pool, t: Task, from: Option<Place>, to: Option<Place>)
  {
    && t.gid < |p.entries| == |r.entries|
    && (forall s: Sel :: !s.WithSeq? ==> TallyOf(r, s) == Shift(TallyOf(p, s), Selects(s, t), from, to))
    && r.entries == p.entries[t.gid := r.entries[t.gid]]
    && EntryTally(r.entries[t.gid]) == Shift(EntryTally(p.entries[t.gid]), true, from, to)
    && r.entries[t.gid].ntraces - p.entries[t.gid].ntraces == r.ntraces - p.ntraces == Bit(to.Some?) - Bit(from.Some?)
    && r.stat == StatMoved(p.stat, t.id, to)
    && r.ndispatchings + |r.core.dispatchs| - p.ndispatchings - |p.core.dispatchs| ==
      Bit(to == Some(Dispatching)) - Bit(from == Some(Dispatching))
  }

  function Whereabouts(p: Pool, id: nat): Option<Place>
  {
    if id in p.stat then Some(p.stat[id].place) else None
  }

  /** Moving a task from where its record says it is keeps the books, whatever the step was. */
  lemma ShiftKeepsPlaced(p: Pool, r: Pool, t: Task, from: Option<Place>, to: Option<Place>)
    requires Placed(p) && Shifted(p, r, t, from, to) && from == Whereabouts(p, t.id)
    requires SeqsDistinct(r) && JobsOk(r.core)
    ensures Placed(r)
  {
    ShiftKeepsIds(p, r, t, from, to);
    ShiftKeepsGroups(p, r, t, from, to);
    ShiftKeepsSums(p, r, t, from, to);
  }

  lemma ShiftKeepsIds(p: Pool, r: Pool, t: Task, from: Option<Place>, to: Option<Place>)
    requires IdsPlaced(p) && Shifted(p, r, t, from, to) && from == Whereabouts(p, t.id)
    ensures IdsPlaced(r)
  {
    forall id: nat ensures TallyOf(r, WithId(id)) == PlaceTally(r.stat, id) {
      assert TallyOf(p, WithId(id)) == PlaceTally(p.stat, id);
      ShiftRecord(TallyOf(p, WithId(id)), p.stat, t.id, id, from, to);
      assert TallyOf(r, WithId(id)) == Shift(TallyOf(p, WithId(id)), Selects(WithId(id), t), from, to);
    }
  }

  lemma ShiftRecord(k: Tally, stat: map<nat, Stat>, x: nat, id: nat, from: Option<Place>, to: Option<Place>)
    requires k == PlaceTally(stat, id) && from == (if x in stat then Some(stat[x].place) else None)
    ensures Shift(k, x == id, from, to) == PlaceTally(StatMoved(stat, x, to), id)
  {
  }

  lemma ShiftKeepsSums(p: Pool, r: Pool, t: Task, from: Option<Place>, to: Option<Place>)
    requires SumsRight(p) && Shifted(p, r, t, from, to)
    ensures SumsRight(r)
  {
    assert TallyOf(r, Every) == Shift(TallyOf(p, Every), Selects(Every, t), from, to);
    SumUpdate(p.entries, t.gid, r.entries[t.gid], Traced);
  }

  lemma ShiftKeepsGroups(p: Pool, r: Pool, t: Task, from: Option<Place>, to: Option<Place>)
    requires GroupsCounted(p) && Shifted(p, r, t, from, to)
    ensures GroupsCounted(r)
  {
    ShiftKeepsOwnGroup(p, r, t, from, to);
    forall g: nat | g != t.gid ensures TallyOf(r, InGroup(g)) == TallyOf(p, InGroup(g)) {
      assert TallyOf(r, InGroup(g)) == Shift(TallyOf(p, InGroup(g)), Selects(InGroup(g), t), from, to);
    }
  }

  lemma ShiftKeepsOwnGroup(p: Pool, r: Pool, t: Task, from: Option<Place>, to: Option<Place>)
    requires GroupsCounted(p) && Shifted(p, r, t, from, to)
    ensures var f := r.entries[t.gid];
      TallyOf(r, InGroup(t.gid)) == EntryTally(f) && f.ntraces == Total(EntryTally(f))
  {
    ShiftedAt(p, r, t, from, to, InGroup(t.gid));
    CountedAt(p, t.gid);
    OwnGroup(TallyOf(p, InGroup(t.gid)), TallyOf(r, InGroup(t.gid)), p.entries[t.gid], r.entries[t.gid], from, to);
  }

  lemma ShiftedAt(p: Pool, r: Pool, t: Task, from: Option<Place>, to: Option<Place>, s: Sel)
    requires Shifted(p, r, t, from, to) && !s.WithSeq?
    ensures TallyOf(r, s) == Shift(TallyOf(p, s), Selects(s, t), from, to)
  {
  }

  lemma CountedAt(p: Pool, g: nat)
    requires GroupsCounted(p) && g < |p.entries|
    ensures TallyOf(p, InGroup(g)) == EntryTally(p.entries[g])
    ensures p.entries[g].ntraces == Total(EntryTally(p.entries[g]))
  {
  }

  lemma OwnGroup(k: Tally, l: Tally, e: Entry, f: Entry, from: Option<Place>, to: Option<Place>)
    requires k == EntryTally(e) && l == Shift(k, true, from, to)
    requires EntryTally(f) == Shift(EntryTally(e), true, from, to)
    requires e.ntraces == Total(EntryTally(e)) && f.ntraces - e.ntraces == Bit(to.Some?) - Bit(from.Some?)
    ensures l == EntryTally(f) && f.ntraces == Total(EntryTally(f))
  {
    ShiftTotal(EntryTally(e), from, to);
  }

  function Total(k: Tally): int { k.waits + k.runs + k.doomed }

  lemma ShiftTotal(k: Tally, from: Option<Place>, to: Option<Place>)
    ensures Total(Shift(k, true, from, to)) == Total(k) + Bit(to.Some?) - Bit(from.Some?)
  {
  }

  /** The step moved no task. */
  ghost predicate Unmoved(p: Pool, r: Pool)
  {
    && (forall s :: TallyOf(r, s) == TallyOf(p, s))
    && |r.entries| == |p.entries|
    && (forall g :: 0 <= g < |p.entries| ==>
          EntryTally(r.entries[g]) == EntryTally(p.entries[g]) && r.entries[g].ntraces == p.entries[g].ntraces)
    && r.ntraces == p.ntraces && r.seqno == p.seqno
    && (forall id: nat :: Whereabouts(r, id) == Whereabouts(p, id))
    && r.ndispatchings + |r.core.dispatchs| == p.ndispatchings + |p.core.dispatchs|
  }

  lemma {:induction false} SumTraced(es: seq<Entry>, fs: seq<Entry>)
    requires |es| == |fs| && forall g :: 0 <= g < |es| ==> es[g].ntraces == fs[g].ntraces
    ensures Sum(es, Traced) == Sum(fs, Traced)
  {
    if es != [] { SumTraced(es[..|es| - 1], fs[..|es| - 1]); }
  }

  lemma UnmovedKeepsPlaced(p: Pool, r: Pool)
    requires Placed(p) && Unmoved(p, r) && JobsOk(r.core)
    ensures Placed(r)
  {
    forall id: nat ensures TallyOf(r, WithId(id)) == PlaceTally(r.stat, id) {
      assert TallyOf(p, WithId(id)) == PlaceTally(p.stat, id);
      assert Whereabouts(r, id) == Whereabouts(p, id);
    }
    forall g | 0 <= g < |r.entries| ensures TallyOf(r, InGroup(g)) == EntryTally(r.entries[g]) {
      assert TallyOf(r, InGroup(g)) == TallyOf(p, InGroup(g));
    }
    SumTraced(p.entries, r.entries);
  }

  // ---- tallies of the steps ----

  lemma ServedLoad(c: Core, s: Sel)
    requires WaitqInRange(c)
    ensures Count(Served(c).ths, Runs(s)) == Count(c.ths, Runs(s))
    ensures Count(Served(c).ths, Batches(s)) == Count(c.ths, Batches(s))
  {
    ServedJobs(c);
    SameLoad(c.ths, Served(c).ths, Runs(s));
    SameLoad(c.ths, Served(c).ths, Batches(s));
  }

  lemma DeliverWaits(p: Pool, g: nat, t: Task, s: Sel)
    requires Shaped(p) && g < |p.entries|
    ensures Sum(Deliver(p, g, t).entries, Queued(s)) ==
      Sum(p.entries, Queued(s)) + Bit(Selects(s, t.(seqno := p.seqno + 1)))
  {
    DeliverEffect(p, g, t);
    InsertedMatching(p.entries[g], t.(seqno := p.seqno + 1), p.tailFirst, s);
    SumUpdate(p.entries, g, Delivered(p, g, t), Queued(s));
  }

  lemma InsertedMatching(e: Entry, u: Task, tail: bool, s: Sel)
    ensures Matching(Inserted(e, u, tail).queue, s) == Matching(e.queue, s) + Bit(Selects(s, u))
  {
    FlatInsertMatching(e.avg, e.queue, u, tail, s);
  }

  lemma DeliverTally(p: Pool, g: nat, t: Task, s: Sel)
    requires Shaped(p) && g < |p.entries|
    ensures var k := TallyOf(p, s);
      TallyOf(Deliver(p, g, t), s) == k.(waits := k.waits + Bit(Selects(s, t.(seqno := p.seqno + 1))))
  {
    DeliverEffect(p, g, t);
    DeliverWaits(p, g, t, s);
    ServedLoad(AddCore(p.core, 1), s);
    ServedJobs(AddCore(p.core, 1));
  }

  lemma DeliverJobs(p: Pool, g: nat, t: Task)
    requires Shaped(p) && g < |p.entries| && JobsOk(p.core)
    ensures JobsOk(Deliver(p, g, t).core)
  {
    DeliverEffect(p, g, t);
    ServedJobs(AddCore(p.core, 1));
    SameJobsOk(AddCore(p.core, 1), Served(AddCore(p.core, 1)));
  }

  lemma SameJobsOk(c: Core, r: Core)
    requires JobsOk(c) && SameJobs(c, r)
    ensures JobsOk(r)
  {
    forall j | 0 <= j < |r.ths| ensures JobOk(r.ths[j]) {
      if j < |c.ths| { assert SameJob(c.ths[j], r.ths[j]); }
    }
  }

  lemma TraceTally(p: Pool, g: nat, s: Sel)
    requires Shaped(p) && g < |p.entries|
    ensures TallyOf(Trace(p, g), s) == TallyOf(p, s)
  {
    SumUpdate(p.entries, g, Trace(p, g).entries[g], Queued(s));
  }

  lemma UntraceTally(p: Pool, g: nat, id: nat, s: Sel)
    requires Shaped(p) && g < |p.entries|
    ensures TallyOf(Untrace(p, g, id), s) == TallyOf(p, s)
  {
    SumUpdate(p.entries, g, Untrace(p, g, id).entries[g], Queued(s));
  }

  // ---- queueing ----

  /** The step from `p` to `p1` took the task out of wherever it was. */
  ghost predicate TakenOut(p: Pool, p1: Pool, t: Task, from: Option<Place>)
  {
    && t.gid < |p.entries| == |p1.entries| && p1.entries == p.entries[t.gid := p1.entries[t.gid]]
    && (forall s :: TallyOf(p1, s) == Shift(TallyOf(p, s), Selects(s, t), from, None))
    && EntryTally(p1.entries[t.gid]) == Left(EntryTally(p.entries[t.gid]), from)
    && p1.entries[t.gid].ntraces - p.entries[t.gid].ntraces == p1.ntraces - p.ntraces == 1 - Bit(from.Some?)
    && p1.ndispatchings + |p1.core.dispatchs| ==
      p.ndispatchings + |p.core.dispatchs| + (if from == Some(Dispatching) then -1 else 0)
    && p1.stat == p.stat && p1.seqno == p.seqno
    && from == Whereabouts(p, t.id) && from != Some(Waiting)
  }

  function MoreWaits(k: Tally, selected: bool): Tally { k.(waits := k.waits + Bit(selected)) }

  /** The step from `p1` to `r` queued it. */
  ghost predicate PutIn(p1: Pool, r: Pool, t: Task)
  {
    && t.gid < |p1.entries| == |r.entries| && r.entries == p1.entries[t.gid := r.entries[t.gid]]
    && (forall s :: TallyOf(r, s) == MoreWaits(TallyOf(p1, s), Selects(s, t.(seqno := p1.seqno + 1))))
    && EntryTally(r.entries[t.gid]) == Joined(EntryTally(p1.entries[t.gid]), Some(Waiting))
    && r.entries[t.gid].ntraces == p1.entries[t.gid].ntraces && r.ntraces == p1.ntraces
    && r.ndispatchings == p1.ndispatchings && r.core.dispatchs == p1.core.dispatchs
    && r.stat == StatMoved(p1.stat, t.id, Some(Waiting)) && r.seqno == p1.seqno + 1
  }

  lemma TakenThenPut(p: Pool, p1: Pool, r: Pool, t: Task, from: Option<Place>)
    requires TakenOut(p, p1, t, from) && PutIn(p1, r, t)
    ensures Shifted(p, r, t, from, Some(Waiting))
  {
    forall s: Sel | !s.WithSeq? ensures TallyOf(r, s) == Shift(TallyOf(p, s), Selects(s, t), from, Some(Waiting)) {
      assert TallyOf(p1, s) == Shift(TallyOf(p, s), Selects(s, t), from, None);
    }
    assert p.entries[t.gid := p1.entries[t.gid]][t.gid := r.entries[t.gid]] == p.entries[t.gid := r.entries[t.gid]];
  }

  lemma DeliverPuts(p1: Pool, t: Task)
    requires Shaped(p1) && t.gid < |p1.entries|
    ensures PutIn(p1, Deliver(p1, t.gid, t), t)
  {
    DeliverEffect(p1, t.gid, t);
    var r := Deliver(p1, t.gid, t);
    forall s ensures TallyOf(r, s) == MoreWaits(TallyOf(p1, s), Selects(s, t.(seqno := p1.seqno + 1))) {
      DeliverTally(p1, t.gid, t, s);
    }
    ServedJobs(AddCore(p1.core, 1));
  }

  /** Delivering a task to its group, after a step that has taken it out of wherever it was. */
  lemma DeliverPlaced(p: Pool, p1: Pool, t: Task, from: Option<Place>)
    requires Shaped(p1) && Placed(p) && JobsOk(p1.core) && TakenOut(p, p1, t, from)
    ensures Placed(Deliver(p1, t.gid, t))
  {
    var r := Deliver(p1, t.gid, t);
    DeliverPuts(p1, t);
    DeliverJobs(p1, t.gid, t);
    TakenThenPut(p, p1, r, t, from);
    SeqsStay(p, p1, r, t, from);
    ShiftKeepsPlaced(p, r, t, from, Some(Waiting));
  }

  lemma QueueNewPlaced(p: Pool, t: Task)
    requires Shaped(p) && Placed(p) && t.gid < |p.entries| && t.id !in p.stat
    ensures Placed(Deliver(Trace(p, t.gid), t.gid, t))
  {
    forall s ensures TallyOf(Trace(p, t.gid), s) == TallyOf(p, s) { TraceTally(p, t.gid, s); }
    DeliverPlaced(p, Trace(p, t.gid), t, None);
  }

  /** A newly queued task gets a new number. */
  lemma SeqsStay(p: Pool, p1: Pool, r: Pool, t: Task, from: Option<Place>)
    requires SeqsDistinct(p) && TakenOut(p, p1, t, from) && PutIn(p1, r, t)
    ensures SeqsDistinct(r)
  {
    forall n: nat ensures TallyOf(r, WithSeq(n)).waits <= Bit(n <= r.seqno) {
      assert TallyOf(p, WithSeq(n)).waits <= Bit(n <= p.seqno);
      assert TallyOf(p1, WithSeq(n)) == Shift(TallyOf(p, WithSeq(n)), Selects(WithSeq(n), t), from, None);
    }
  }

  // ---- steps that move no task ----

  lemma EntryUnmoved(p: Pool, r: Pool, g: nat)
    requires g < |p.entries| == |r.entries| && r.entries == p.entries[g := r.entries[g]]
    requires r.entries[g].queue == p.entries[g].queue && r.entries[g].ntraces == p.entries[g].ntraces
    requires EntryTally(r.entries[g]) == EntryTally(p.entries[g])
    requires r.core.ths == p.core.ths && r.core.dispatchs == p.core.dispatchs && r.removing == p.removing
    requires r.ntraces == p.ntraces && r.seqno == p.seqno && r.stat == p.stat && r.ndispatchings == p.ndispatchings
    ensures Unmoved(p, r)
  {
    forall s ensures TallyOf(r, s) == TallyOf(p, s) { SumUpdate(p.entries, g, r.entries[g], Queued(s)); }
  }

  lemma CoreUnmoved(p: Pool, r: Pool)
    requires r == p.(core := r.core) && r.core.dispatchs == p.core.dispatchs
    requires forall k :: IsJob(k) ==> Count(r.core.ths, k) == Count(p.core.ths, k)
    ensures Unmoved(p, r)
  {
    assert forall s :: IsJob(Runs(s)) && IsJob(Batches(s));
  }

  /** A step of the thread manager that starts and ends no task. */
  lemma SameJobsPlaced(p: Pool, r: Pool)
    requires Placed(p) && r == p.(core := r.core)
    requires SameJobs(p.core, r.core.(maxthreads := p.core.maxthreads, minthreads := p.core.minthreads,
      paused := p.core.paused, pendings := p.core.pendings))
    ensures Placed(r)
  {
    var c := r.core.(maxthreads := p.core.maxthreads, minthreads := p.core.minthreads, paused := p.core.paused,
      pendings := p.core.pendings);
    SameJobsLoad(p.core, c);
    CoreUnmoved(p, r);
    SameJobsOk(p.core, c);
    UnmovedKeepsPlaced(p, r);
  }

  lemma QueueAgainPlaced(p: Pool, t: Task)
    requires Placed(p) && t.id in p.stat
    ensures Placed(p.(stat := p.stat[t.id := p.stat[t.id].(again := true)]))
  {
    UnmovedKeepsPlaced(p, p.(stat := p.stat[t.id := p.stat[t.id].(again := true)]));
  }

  lemma QueueTaskPlaced(p: Pool, t: Task)
    requires Shaped(p) && Placed(p)
    ensures Placed(QueueTask(p, t).0)
  {
    if t.gid < |p.entries| {
      if t.id in p.stat { QueueAgainPlaced(p, t); } else { QueueNewPlaced(p, t); }
    }
  }

  lemma SuspendPlaced(p: Pool, g: nat)
    requires Shaped(p) && Placed(p) && g < |p.entries|
    ensures Placed(Suspend(p, g))
  {
    EntryUnmoved(p, Suspend(p, g), g);
    UnmovedKeepsPlaced(p, Suspend(p, g));
  }

  lemma SetAttrPlaced(p: Pool, g: nat, parallel: int, benefits: bool)
    requires Shaped(p) && Placed(p) && g < |p.entries|
    ensures Placed(SetAttr(p, g, parallel, benefits))
  {
    EntryUnmoved(p, SetAttr(p, g, parallel, benefits), g);
    UnmovedKeepsPlaced(p, SetAttr(p, g, parallel, benefits));
  }

  lemma {:induction false} UpdateAllPlaced(p: Pool, g: nat)
    requires Shaped(p) && Placed(p) && g <= |p.entries|
    ensures Placed(UpdateAllFrom(p, g))
    decreases |p.entries| - g
  {
    if g < |p.entries| {
      var e := p.entries[g];
      SetAttrPlaced(p, g, e.parallel, e.benefits);
      UpdateAllPlaced(if e.free then p else SetAttr(p, g, e.parallel, e.benefits), g + 1);
    }
  }

  lemma OccupyPlaced(p: Pool, g: nat, priqNum: nat, suspend: bool)
    requires Tidy(p) && Placed(p) && g < |p.entries| && p.entries[g].free && 1 <= priqNum <= 99
    ensures Placed(Occupy(p, g, priqNum, suspend))
  {
    var r := Occupy(p, g, priqNum, suspend);
    assert EntryTidy(p.entries[g], g, p.pre.active[g]);
    assert r.entries == p.entries[g := r.entries[g]];
    EntryUnmoved(p, r, g);
    UnmovedKeepsPlaced(p, r);
  }

  lemma VacatePlaced(p: Pool, g: nat)
    requires Shaped(p) && Placed(p) && g < |p.entries|
    ensures Placed(Vacate(p, g))
  {
    EntryUnmoved(p, Vacate(p, g), g);
    UnmovedKeepsPlaced(p, Vacate(p, g));
  }

  lemma GrowPoolPlaced(p: Pool)
    requires Shaped(p) && Placed(p)
    ensures Placed(GrowPool(p))
  {
    var r := GrowPool(p);
    var slots := [FREESLOT, FREESLOT, FREESLOT];
    forall m: Measure | m.Queued? || m == Traced ensures Sum(r.entries, m) == Sum(p.entries, m) {
      SumAppend(p.entries, slots, m);
      SumZero(slots, m);
    }
    forall s ensures TallyOf(r, s) == TallyOf(p, s) {}
    forall id: nat ensures TallyOf(r, WithId(id)) == PlaceTally(r.stat, id) {}
    forall g: nat | g < |r.entries| ensures TallyOf(r, InGroup(g)) == EntryTally(r.entries[g]) {}
  }

  // ---- taking ----

  lemma QueuedIsWaiting(p: Pool, g: nat, k: nat)
    requires Placed(p) && g < |p.entries| && k < |p.entries[g].queue|
    ensures Whereabouts(p, p.entries[g].queue[k].id) == Some(Waiting)
  {
    var t := p.entries[g].queue[k];
    MatchingMember(p.entries[g].queue, k, WithId(t.id));
    SumMember(p.entries, g, Queued(WithId(t.id)));
    assert TallyOf(p, WithId(t.id)) == PlaceTally(p.stat, t.id);
  }

  lemma PoppedWaits(p: Pool, g: nat, s: Sel)
    requires Shaped(p) && g < |p.entries| && p.entries[g].queue != []
    ensures Sum(TakeFrom(p, g).entries, Queued(s)) == Sum(p.entries, Queued(s)) - Bit(Selects(s, p.entries[g].queue[0]))
  {
    var r := TakeFrom(p, g);
    assert r.entries == p.entries[g := r.entries[g]];
    SumUpdate(p.entries, g, r.entries[g], Queued(s));
  }

  lemma ToRunLoad(c: Core, i: nat, s: Sel)
    requires i < |c.ths| && WaitqInRange(c)
    ensures var r := ToRun(c, i);
      && Count(r.ths, Runs(s)) == Count(c.ths, Runs(s)) && Count(r.ths, Batches(s)) == Count(c.ths, Batches(s))
      && r.dispatchs == c.dispatchs
  {
    ToRunJobs(c, i);
    SameLoad(c.ths, ToRun(c, i).ths, Runs(s));
    SameLoad(c.ths, ToRun(c, i).ths, Batches(s));
  }

  lemma StartTally(p: Pool, i: nat, t: Task, s: Sel)
    requires Shaped(p) && i < |p.core.ths| && p.core.ths[i].current == None
    ensures var k := TallyOf(p, s); TallyOf(Start(p, i, t), s) == k.(runs := k.runs + Bit(Selects(s, t)))
  {
    var u := p.core.ths[i].(current := Some(t));
    var c := SetThread(p.core, i, u);
    CountUpdate(p.core.ths, i, u, Runs(s));
    CountUpdate(p.core.ths, i, u, Batches(s));
    ToRunLoad(c, i, s);
  }

  lemma StartJobs(p: Pool, i: nat, t: Task)
    requires Shaped(p) && i < |p.core.ths| && JobsOk(p.core) && p.core.ths[i].status != Run
    ensures JobsOk(Start(p, i, t).core)
  {
    var c := SetThread(p.core, i, p.core.ths[i].(current := Some(t)));
    ToRunJobs(c, i);
    RunJobsOk(p.core, c, ToRun(c, i), i);
  }

  /** All threads but `i` are as before, and `i` runs what it was given. */
  lemma RunJobsOk(b: Core, c: Core, r: Core, i: nat)
    requires JobsOk(b) && i < |b.ths| == |c.ths| && c.ths == b.ths[i := c.ths[i]] && JobsMoved(c, r, i, true)
    requires (c.ths[i].current.Some? && c.ths[i].batch == []) || (c.ths[i].current == None && c.ths[i].batch != [])
    ensures JobsOk(r)
  {
    forall j | 0 <= j < |r.ths| ensures JobOk(r.ths[j]) {
      if j < |c.ths| && j != i { assert JobOk(b.ths[j]) && SameJob(c.ths[j], r.ths[j]); }
    }
  }

  lemma TakeTally(p: Pool, i: nat, g: nat, s: Sel)
    requires Shaped(p) && i < |p.core.ths| && p.core.ths[i].current == None
    requires g < |p.entries| && p.entries[g].queue != [] && p.entries[g].top == p.entries[g].queue[0]
    ensures var t := p.entries[g].top;
      TallyOf(Start(TakeFrom(p, g), i, t), s) == Shift(TallyOf(p, s), Selects(s, t), Some(Waiting), Some(Scheduling))
  {
    PoppedWaits(p, g, s);
    StartTally(TakeFrom(p, g), i, p.entries[g].top, s);
  }

  /** Tasks that leave the queues leave their numbers distinct. */
  lemma SeqsDrop(p: Pool, r: Pool)
    requires SeqsDistinct(p) && r.seqno == p.seqno
    requires forall s :: TallyOf(r, s).waits <= TallyOf(p, s).waits
    ensures SeqsDistinct(r)
  {
    forall n: nat ensures TallyOf(r, WithSeq(n)).waits <= Bit(n <= r.seqno) {
      assert TallyOf(p, WithSeq(n)).waits <= Bit(n <= p.seqno);
    }
  }

  lemma TakePlaced(p: Pool, i: nat, g: nat)
    requires Tidy(p) && Placed(p) && i < |p.core.ths| && p.core.ths[i].status != Run
    requires g < |p.entries| && p.pre.active[g]
    ensures Placed(Start(TakeFrom(p, g), i, p.entries[g].top))
  {
    assert EntryTidy(p.entries[g], g, p.pre.active[g]) && JobOk(p.core.ths[i]);
    var t := p.entries[g].top;
    var r := Start(TakeFrom(p, g), i, t);
    forall s ensures TallyOf(r, s) == Shift(TallyOf(p, s), Selects(s, t), Some(Waiting), Some(Scheduling)) {
      TakeTally(p, i, g, s);
    }
    QueuedIsWaiting(p, g, 0);
    StartJobs(TakeFrom(p, g), i, t);
    TakenShifts(p, TakeFrom(p, g), r, i, g, t);
    SeqsDrop(p, r);
    ShiftKeepsPlaced(p, r, t, Some(Waiting), Some(Scheduling));
  }

  lemma TakenShifts(p: Pool, p1: Pool, r: Pool, i: nat, g: nat, t: Task)
    requires Tidy(p) && g < |p.entries| && p.pre.active[g] && t == p.entries[g].top && i < |p.core.ths|
    requires p1 == TakeFrom(p, g) && r == Start(p1, i, t)
    requires forall s :: TallyOf(r, s) == Shift(TallyOf(p, s), Selects(s, t), Some(Waiting), Some(Scheduling))
    ensures Shifted(p, r, t, Some(Waiting), Some(Scheduling)) && r.seqno == p.seqno
  {
    assert EntryTidy(p.entries[g], g, p.pre.active[g]);
    assert p.entries[g].queue[0].gid == g;
    assert r.entries == p1.entries == p.entries[g := p1.entries[g]];
    ToRunJobs(SetThread(p1.core, i, p1.core.ths[i].(current := Some(t))), i);
  }

  /** Cutting a batch moves tasks between two places where removed tasks wait. */
  lemma CutBatchTally(c: Core, i: nat, s: Sel)
    requires WaitqInRange(c) && i < |c.ths| && c.ths[i].batch == []
    ensures var r := CutBatch(c, i);
      && Count(r.ths, Runs(s)) == Count(c.ths, Runs(s))
      && Matching(r.dispatchs, s) + Count(r.ths, Batches(s)) == Matching(c.dispatchs, s) + Count(c.ths, Batches(s))
  {
    var n := Min(BATCH, |c.dispatchs|);
    var u := c.ths[i].(batch := c.dispatchs[..n]);
    CountUpdate(c.ths, i, u, Runs(s));
    CountUpdate(c.ths, i, u, Batches(s));
    assert c.dispatchs == c.dispatchs[..n] + c.dispatchs[n..];
    MatchingConcat(c.dispatchs[..n], c.dispatchs[n..], s);
  }

  lemma TakeBatchTally(p: Pool, i: nat, s: Sel)
    requires Shaped(p) && i < |p.core.ths| && p.core.ths[i].batch == []
    ensures TallyOf(TakeBatch(p, i), s) == TallyOf(p, s)
  {
    CutBatchTally(p.core, i, s);
    ToRunLoad(CutBatch(p.core, i), i, s);
    BatchTally(p, TakeBatch(p, i), CutBatch(p.core, i), s);
  }

  lemma BatchTally(p: Pool, r: Pool, c: Core, s: Sel)
    requires r.entries == p.entries && r.removing == p.removing
    requires Count(r.core.ths, Runs(s)) == Count(c.ths, Runs(s)) == Count(p.core.ths, Runs(s))
    requires Count(r.core.ths, Batches(s)) == Count(c.ths, Batches(s)) && r.core.dispatchs == c.dispatchs
    requires Matching(c.dispatchs, s) + Count(c.ths, Batches(s)) ==
      Matching(p.core.dispatchs, s) + Count(p.core.ths, Batches(s))
    ensures TallyOf(r, s) == TallyOf(p, s)
  {
  }

  lemma TakeBatchPlaced(p: Pool, i: nat)
    requires Shaped(p) && Placed(p) && i < |p.core.ths| && p.core.ths[i].status != Run && p.core.dispatchs != []
    ensures Placed(TakeBatch(p, i))
  {
    var r := TakeBatch(p, i);
    assert JobOk(p.core.ths[i]);
    forall s ensures TallyOf(r, s) == TallyOf(p, s) { TakeBatchTally(p, i, s); }
    ToRunJobs(CutBatch(p.core, i), i);
    RunJobsOk(p.core, CutBatch(p.core, i), r.core, i);
    UnmovedKeepsPlaced(p, r);
  }

  lemma GetTaskPlaced(p: Pool, i: nat)
    requires Tidy(p) && Placed(p) && i < |p.core.ths| && p.core.ths[i].status != Run
    ensures GetTask(p, i).Took? ==> Placed(GetTask(p, i).pool)
  {
    if p.core.dispatchs != [] {
      TakeBatchPlaced(p, i);
    } else if !(p.core.paused || p.core.pendings == 0) {
      ChooseFinds(p);
      if Choose(p).Some? { TakePlaced(p, i, Choose(p).value); }
    }
  }

  // ---- completing ----

  lemma GiveSlotTally(p: Pool, i: nat, g: nat, s: Sel)
    requires Shaped(p) && i < |p.core.ths| && g < |p.entries|
    requires p.core.ths[i].current.Some?
    ensures var k := TallyOf(p, s);
      TallyOf(GiveSlot(p, i, g), s) == k.(runs := k.runs - Bit(Selects(s, p.core.ths[i].current.value)))
  {
    var u := p.core.ths[i].(current := None);
    CountUpdate(p.core.ths, i, u, Runs(s));
    CountUpdate(p.core.ths, i, u, Batches(s));
    SumUpdate(p.entries, g, GiveSlot(p, i, g).entries[g], Queued(s));
  }

  lemma GiveBatchTally(p: Pool, i: nat, g: nat, s: Sel)
    requires Shaped(p) && i < |p.core.ths| && g < |p.entries|
    requires p.core.ths[i].batch != []
    ensures var k := TallyOf(p, s);
      TallyOf(GiveBatch(p, i, g), s) == k.(doomed := k.doomed - Bit(Selects(s, p.core.ths[i].batch[0])))
  {
    var u := p.core.ths[i].(batch := p.core.ths[i].batch[1..]);
    CountUpdate(p.core.ths, i, u, Runs(s));
    CountUpdate(p.core.ths, i, u, Batches(s));
    SumUpdate(p.entries, g, GiveBatch(p, i, g).entries[g], Queued(s));
  }

  lemma CompleteTally(p: Pool, i: nat, s: Sel)
    requires Shaped(p) && i < |p.core.ths|
    ensures TallyOf(CompleteIfIdle(p, i), s) == TallyOf(p, s)
  {
    var c := ToComplete(p.core, i);
    SameLoad(p.core.ths, c.ths, Runs(s));
    SameLoad(p.core.ths, c.ths, Batches(s));
  }

  /** Where the task that a running thread holds is recorded to be. */
  function JobPlace(t: Thread): Place { if t.batch == [] then Scheduling else Dispatching }

  lemma HeldIsRecorded(p: Pool, i: nat)
    requires Placed(p) && i < |p.core.ths| && Job(p.core.ths[i]).Some?
    ensures Whereabouts(p, Job(p.core.ths[i]).value.id) == Some(JobPlace(p.core.ths[i]))
  {
    var t := Job(p.core.ths[i]).value;
    assert JobOk(p.core.ths[i]);
    assert TallyOf(p, WithId(t.id)) == PlaceTally(p.stat, t.id);
    if p.core.ths[i].batch == [] {
      CountMember(p.core.ths, i, Runs(WithId(t.id)));
    } else {
      MatchingMember(p.core.ths[i].batch, 0, WithId(t.id));
      CountMember(p.core.ths, i, Batches(WithId(t.id)));
    }
  }

  lemma ReleasedTally(p: Pool, i: nat, s: Sel)
    requires Shaped(p) && i < |p.core.ths| && Job(p.core.ths[i]).Some?
    requires Job(p.core.ths[i]).value.gid < |p.entries|
    ensures var t := Job(p.core.ths[i]).value;
      TallyOf(CompleteIfIdle(Release(p, i, t.gid), i), s) ==
        Shift(TallyOf(p, s), Selects(s, t), Some(JobPlace(p.core.ths[i])), None)
  {
    var g := Job(p.core.ths[i]).value.gid;
    if p.core.ths[i].batch == [] { GiveSlotTally(p, i, g, s); } else { GiveBatchTally(p, i, g, s); }
    CompleteTally(Release(p, i, g), i, s);
  }

  lemma ReleasedJobs(p: Pool, i: nat, g: nat)
    requires Shaped(p) && JobsOk(p.core) && i < |p.core.ths| && Job(p.core.ths[i]).Some? && g < |p.entries|
    ensures JobsOk(CompleteIfIdle(Release(p, i, g), i).core)
  {
    var t := p.core.ths[i];
    var r := CompleteIfIdle(Release(p, i, g), i).core;
    assert JobOk(t);
    assert r.ths == p.core.ths[i := r.ths[i]];
    assert JobOk(r.ths[i]);
  }

  lemma CompleteLeaves(p: Pool, i: nat)
    requires Shaped(p) && i < |p.core.ths|
    ensures var r := CompleteIfIdle(p, i); r == p.(core := r.core) && r.core.dispatchs == p.core.dispatchs
  {
  }

  /** What giving up the slot or the place in the batch does to the group's books and the pool's. */
  ghost predicate GivenUp(p: Pool, r: Pool, g: nat, from: Place)
  {
    && g < |p.entries| == |r.entries| && r.entries == p.entries[g := r.entries[g]]
    && EntryTally(r.entries[g]) == Left(EntryTally(p.entries[g]), Some(from))
    && r.entries[g].ntraces == p.entries[g].ntraces && r.ntraces == p.ntraces
    && r.ndispatchings == p.ndispatchings - Bit(from == Dispatching) && r.core.dispatchs == p.core.dispatchs
    && r.stat == p.stat && r.seqno == p.seqno
  }

  lemma ReleaseGivesUp(p: Pool, i: nat, g: nat)
    requires Shaped(p) && i < |p.core.ths| && g < |p.entries|
    ensures GivenUp(p, Release(p, i, g), g, JobPlace(p.core.ths[i]))
  {
  }

  lemma ReleasedBooks(p: Pool, i: nat)
    requires Shaped(p) && i < |p.core.ths| && Job(p.core.ths[i]).Some?
    requires Job(p.core.ths[i]).value.gid < |p.entries|
    ensures var g := Job(p.core.ths[i]).value.gid;
      GivenUp(p, CompleteIfIdle(Release(p, i, g), i), g, JobPlace(p.core.ths[i]))
  {
    var g := Job(p.core.ths[i]).value.gid;
    ReleaseGivesUp(p, i, g);
    CompleteLeaves(Release(p, i, g), i);
  }

  lemma ReleasedTakesOut(p: Pool, i: nat)
    requires Shaped(p) && Placed(p) && i < |p.core.ths| && Job(p.core.ths[i]).Some?
    requires Job(p.core.ths[i]).value.gid < |p.entries|
    ensures var t := Job(p.core.ths[i]).value;
      TakenOut(p, CompleteIfIdle(Release(p, i, t.gid), i), t, Some(JobPlace(p.core.ths[i])))
  {
    var t := Job(p.core.ths[i]).value;
    HeldIsRecorded(p, i);
    ReleasedBooks(p, i);
    var p1 := CompleteIfIdle(Release(p, i, t.gid), i);
    forall s ensures TallyOf(p1, s) == Shift(TallyOf(p, s), Selects(s, t), Some(JobPlace(p.core.ths[i])), None) {
      ReleasedTally(p, i, s);
    }
  }

  lemma UntracePlaced(p: Pool, p1: Pool, t: Task, from: Option<Place>)
    requires Shaped(p1) && Placed(p) && JobsOk(p1.core) && from.Some? && TakenOut(p, p1, t, from)
    ensures Placed(Untrace(p1, t.gid, t.id))
  {
    var r := Untrace(p1, t.gid, t.id);
    forall s ensures TallyOf(r, s) == Shift(TallyOf(p, s), Selects(s, t), from, None) {
      UntraceTally(p1, t.gid, t.id, s);
    }
    assert r.entries == p.entries[t.gid := r.entries[t.gid]];
    SeqsDrop(p, r);
    ShiftKeepsPlaced(p, r, t, from, None);
  }

  /** The trace record may be dropped before or after the thread's status changes. */
  lemma UntraceCompletes(p: Pool, i: nat, g: nat, id: nat)
    requires Shaped(p) && i < |p.core.ths| && g < |p.entries|
    ensures CompleteIfIdle(Untrace(p, g, id), i) == Untrace(CompleteIfIdle(p, i), g, id)
  {
  }

  lemma FinishPlaced(p: Pool, i: nat, detached: bool)
    requires Shaped(p) && Placed(p) && i < |p.core.ths| && Job(p.core.ths[i]).Some?
    requires Job(p.core.ths[i]).value.gid < |p.entries|
    ensures Placed(Finish(p, i, detached))
  {
    var t := Job(p.core.ths[i]).value;
    var from := Some(JobPlace(p.core.ths[i]));
    var p1 := CompleteIfIdle(Release(p, i, t.gid), i);
    ReleasedTakesOut(p, i);
    ReleasedJobs(p, i, t.gid);
    if detached || !WantsAgain(p, t.id) {
      UntracePlaced(p, p1, t, from);
      UntraceCompletes(Release(p, i, t.gid), i, t.gid, t.id);
    } else {
      var u := NiceAdjust(t);
      assert forall s :: Selects(s, u) == Selects(s, t);
      DeliverPlaced(p, p1, u, from);
    }
  }

  lemma HandledTakesOut(p: Pool, t: Task)
    requires Shaped(p) && Placed(p) && t.gid < |p.entries| && t in p.removing
    ensures TakenOut(p, Handled(p, t), t, Some(Dispatching)) && JobsOk(Handled(p, t).core)
  {
    var p1 := Handled(p, t);
    forall s ensures TallyOf(p1, s) == Shift(TallyOf(p, s), Selects(s, t), Some(Dispatching), None) {
      MatchingRemove(p.removing, t, s);
      SumUpdate(p.entries, t.gid, p1.entries[t.gid], Queued(s));
    }
    var k :| 0 <= k < |p.removing| && p.removing[k] == t;
    MatchingMember(p.removing, k, WithId(t.id));
    assert TallyOf(p, WithId(t.id)) == PlaceTally(p.stat, t.id);
  }

  lemma DispatchedPlaced(p: Pool, t: Task, detached: bool)
    requires Shaped(p) && Placed(p) && t.gid < |p.entries| && t in p.removing
    ensures Placed(Dispatched(p, t, detached))
  {
    HandledTakesOut(p, t);
    if detached || !WantsAgain(p, t.id) {
      UntracePlaced(p, Handled(p, t), t, Some(Dispatching));
    } else {
      DeliverPlaced(p, Handled(p, t), t, Some(Dispatching));
    }
  }

  // ---- removing ----

  lemma DisposeTally(p: Pool, t: Task, byPool: bool, s: Sel)
    requires Shaped(p) && t.gid < |p.entries|
    ensures var k := TallyOf(p, s);
      TallyOf(Dispose(p, t, byPool), s) == k.(doomed := k.doomed + Bit(t.handler && Selects(s, t)))
  {
    var r := Dispose(p, t, byPool);
    SumUpdate(p.entries, t.gid, r.entries[t.gid], Queued(s));
    MatchingConcat(p.core.dispatchs, [t], s);
    MatchingConcat(p.removing, [t], s);
  }

  lemma UnqueueTally(p: Pool, t: Task, s: Sel)
    requires Shaped(p) && t.gid < |p.entries| && t in p.entries[t.gid].queue
    ensures var k := TallyOf(p, s);
      TallyOf(Unqueue(p, t), s) == k.(waits := k.waits - Bit(Selects(s, t)))
  {
    MatchingRemove(p.entries[t.gid].queue, t, s);
    SumUpdate(p.entries, t.gid, Erased(p.entries[t.gid], t), Queued(s));
  }

  lemma RemoveWaitingPlaced(p: Pool, t: Task, byPool: bool)
    requires Shaped(p) && Placed(p) && t.gid < |p.entries| && t in p.entries[t.gid].queue
    ensures Placed(RemoveWaiting(p, t, byPool))
  {
    var p1 := Dispose(p, t, byPool);
    var r := Unqueue(p1, t);
    var to := if t.handler then Some(Dispatching) else None;
    forall s ensures TallyOf(r, s) == Shift(TallyOf(p, s), Selects(s, t), Some(Waiting), to) {
      DisposeTally(p, t, byPool, s);
      UnqueueTally(p1, t, s);
    }
    var k :| 0 <= k < |p.entries[t.gid].queue| && p.entries[t.gid].queue[k] == t;
    QueuedIsWaiting(p, t.gid, k);
    RemovedShifts(p, p1, r, t, byPool, to);
    SeqsDrop(p, r);
    ShiftKeepsPlaced(p, r, t, Some(Waiting), to);
  }

  /** What removing a waiting task does to the group's books and the pool's. */
  lemma RemovedBooks(p: Pool, t: Task, byPool: bool)
    requires Shaped(p) && t.gid < |p.entries|
    ensures var r := RemoveWaiting(p, t, byPool); var e, f := p.entries[t.gid], r.entries[t.gid];
      && r.entries == p.entries[t.gid := f]
      && EntryTally(f) == Tally(e.npendings - 1, e.nrunnings, e.ndispatchings + Bit(t.handler))
      && f.ntraces == e.ntraces + Bit(t.handler) - 1 && r.ntraces == p.ntraces + Bit(t.handler) - 1
      && r.ndispatchings + |r.core.dispatchs| == p.ndispatchings + |p.core.dispatchs| + Bit(t.handler)
      && r.seqno == p.seqno && r.core.ths == p.core.ths
  {
  }

  lemma RemovedShifts(p: Pool, p1: Pool, r: Pool, t: Task, byPool: bool, to: Option<Place>)
    requires Shaped(p) && t.gid < |p.entries| && p1 == Dispose(p, t, byPool) && r == Unqueue(p1, t)
    requires to == if t.handler then Some(Dispatching) else None
    requires forall s :: TallyOf(r, s) == Shift(TallyOf(p, s), Selects(s, t), Some(Waiting), to)
    ensures Shifted(p, r, t, Some(Waiting), to) && r.seqno == p.seqno && r.core.ths == p.core.ths
  {
    RemovedBooks(p, t, byPool);
  }

  lemma RemoveTaskPlaced(p: Pool, t: Task, byPool: bool)
    requires Shaped(p) && Placed(p) && t.gid < |p.entries|
    requires t.id in p.stat && p.stat[t.id].place == Waiting ==> t in p.entries[t.gid].queue
    ensures Placed(RemoveTask(p, t, byPool).0)
  {
    if t.id in p.stat && p.stat[t.id].place == Waiting {
      RemoveWaitingPlaced(p, t, byPool);
      var p1 := RemoveWaiting(p, t, byPool);
      EnsureJobs(p1.core);
      SameJobsPlaced(p1, p1.(core := Ensure(p1.core)));
    }
  }

  // ---- what follows ----

  lemma {:induction false} HeldNextGroup(ths: seq<Thread>, n: nat)
    ensures Count(ths, Runs(BelowGroup(n + 1))) == Count(ths, Runs(BelowGroup(n))) + Count(ths, Runs(InGroup(n)))
    ensures Count(ths, Batches(BelowGroup(n + 1))) ==
      Count(ths, Batches(BelowGroup(n))) + Count(ths, Batches(InGroup(n)))
  {
    if ths != [] {
      HeldNextGroup(ths[..|ths| - 1], n);
      MatchingNextGroup(ths[|ths| - 1].batch, n);
    }
  }

  lemma {:induction false} HeldBelowZero(ths: seq<Thread>)
    ensures Count(ths, Runs(BelowGroup(0))) == 0 && Count(ths, Batches(BelowGroup(0))) == 0
  {
    if ths != [] {
      HeldBelowZero(ths[..|ths| - 1]);
      MatchingBelowZero(ths[|ths| - 1].batch);
    }
  }

  lemma {:induction false} MatchingBelowZero(q: seq<Task>)
    ensures Matching(q, BelowGroup(0)) == 0
  {
    if q != [] { MatchingBelowZero(q[1..]); }
  }

  /** Group by group, the counters add up to the tasks of all groups below `n`. */
  lemma {:induction false} TallyBelow(p: Pool, n: nat)
    requires GroupsCounted(p) && n <= |p.entries|
    ensures Sum(p.entries[..n], InRun) == TallyOf(p, BelowGroup(n)).runs
    ensures Sum(p.entries[..n], InDispatch) == TallyOf(p, BelowGroup(n)).doomed
  {
    if n == 0 {
      HeldBelowZero(p.core.ths);
      MatchingBelowZero(p.core.dispatchs);
      MatchingBelowZero(p.removing);
    } else {
      TallyBelow(p, n - 1);
      assert p.entries[..n][..n - 1] == p.entries[..n - 1];
      HeldNextGroup(p.core.ths, n - 1);
      MatchingNextGroup(p.core.dispatchs, n - 1);
      MatchingNextGroup(p.removing, n - 1);
      assert TallyOf(p, InGroup(n - 1)) == EntryTally(p.entries[n - 1]);
    }
  }

  ghost predicate AllSelected(q: seq<Task>, s: Sel) { forall i :: 0 <= i < |q| ==> Selects(s, q[i]) }

  lemma {:induction false} HeldAll(ths: seq<Thread>, s: Sel)
    requires forall i :: 0 <= i < |ths| ==>
      (ths[i].current.Some? ==> Selects(s, ths[i].current.value)) && AllSelected(ths[i].batch, s)
    ensures Count(ths, Runs(s)) == Count(ths, Runs(Every)) && Count(ths, Batches(s)) == Count(ths, Batches(Every))
  {
    if ths != [] {
      HeldAll(ths[..|ths| - 1], s);
      assert AllSelected(ths[|ths| - 1].batch, s);
      MatchingAll(ths[|ths| - 1].batch, s);
    }
  }

  /** No task belongs to a group that does not exist. */
  lemma GroupsExist(p: Pool)
    requires GroupsCounted(p)
    ensures var s := BelowGroup(|p.entries|);
      TallyOf(p, s).runs == TallyOf(p, Every).runs && TallyOf(p, s).doomed == TallyOf(p, Every).doomed
  {
    var s := BelowGroup(|p.entries|);
    assert forall g: nat :: g >= |p.entries| ==> TallyOf(p, InGroup(g)) == Tally(0, 0, 0);
    GroupExists(p, p.core.dispatchs);
    GroupExists(p, p.removing);
    assert AllSelected(p.core.dispatchs, s) && AllSelected(p.removing, s);
    MatchingAll(p.core.dispatchs, s);
    MatchingAll(p.removing, s);
    forall i | 0 <= i < |p.core.ths|
      ensures (p.core.ths[i].current.Some? ==> Selects(s, p.core.ths[i].current.value))
      ensures AllSelected(p.core.ths[i].batch, s)
    {
      ThreadGroupExists(p, i);
    }
    HeldAll(p.core.ths, s);
  }

  lemma GroupExists(p: Pool, q: seq<Task>)
    requires q == p.core.dispatchs || q == p.removing
    requires forall g: nat :: g >= |p.entries| ==> TallyOf(p, InGroup(g)) == Tally(0, 0, 0)
    ensures AllSelected(q, BelowGroup(|p.entries|))
  {
    forall i | 0 <= i < |q| ensures Selects(BelowGroup(|p.entries|), q[i]) {
      MatchingMember(q, i, InGroup(q[i].gid));
      assert TallyOf(p, InGroup(q[i].gid)).doomed >= 1;
    }
  }

  lemma ThreadGroupExists(p: Pool, i: nat)
    requires i < |p.core.ths|
    requires forall g: nat :: g >= |p.entries| ==> TallyOf(p, InGroup(g)) == Tally(0, 0, 0)
    ensures p.core.ths[i].current.Some? ==> Selects(BelowGroup(|p.entries|), p.core.ths[i].current.value)
    ensures AllSelected(p.core.ths[i].batch, BelowGroup(|p.entries|))
  {
    var t := p.core.ths[i];
    if t.current.Some? {
      CountMember(p.core.ths, i, Runs(InGroup(t.current.value.gid)));
      assert TallyOf(p, InGroup(t.current.value.gid)).runs >= 1;
    }
    forall j | 0 <= j < |t.batch| ensures Selects(BelowGroup(|p.entries|), t.batch[j]) {
      MatchingMember(t.batch, j, InGroup(t.batch[j].gid));
      CountMember(p.core.ths, i, Batches(InGroup(t.batch[j].gid)));
      assert TallyOf(p, InGroup(t.batch[j].gid)).doomed >= 1;
    }
  }

  /**
   The conservation laws across modules: the thread manager's running count is the groups' running
   tasks plus the threads that hold a batch, and the groups' dispatching counts add up to the
   pool's plus the queue of removed tasks.
   */
  lemma Conserved(p: Pool)
    requires Placed(p) && Drift(p.core, Running) == 0
    ensures p.core.running == Sum(p.entries, InRun) + Count(p.core.ths, HoldsBatch)
    ensures Sum(p.entries, InDispatch) == p.ndispatchings + |p.core.dispatchs|
    ensures p.ntraces == Sum(p.entries, Traced)
  {
    GroupsExist(p);
    TallyBelow(p, |p.entries|);
    assert p.entries[..|p.entries|] == p.entries;
    RunningSplit(p.core.ths);
  }
}
