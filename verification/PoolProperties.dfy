/** What the invariant means for a user of the pool. */
module PoolProperties {
  import opened PoolModel
  import opened PoolSafety

  // ----- progress

  predicate WorkerEvent(e: Event) {
    e.Acquire? || e.FinishJob? || e.RetireTest?
  }

  lemma NonEmpty<X>(all: set<X>) returns (x: X)
    requires |all| > 0
    ensures x in all
  {
    x :| x in all;
  }

  lemma InThose(threads: map<Tid, Phase>, t: Tid, kind: Kind)
    ensures t in Those(threads, kind) <==> t in threads && Has(threads[t], kind)
  {}

  lemma EmptyThose(threads: map<Tid, Phase>, t: Tid, kind: Kind)
    requires |Those(threads, kind)| == 0 && t in threads
    ensures !Has(threads[t], kind)
  {
    assert t !in Those(threads, kind);
  }

  /** With a job queued and somebody blocked, a woken worker takes the oldest job as its next step. */
  lemma WokenWorkerTakesHead(s: Pool) returns (t: Tid)
    requires Reachable(s) && !s.shutdown && s.queue != [] && |BlockedIn(s)| > 0
    ensures Is(s, t, Signalled) && Enabled(s, Acquire(t))
    ensures Step(s, Acquire(t)).dispatched == s.dispatched + [s.queue[0]]
  {
    hide SlotsOk, Those, Reachable;
    ReachableInv(s);
    t := NonEmpty(SignalledIn(s));
    InThose(s.threads, t, IsSignalled);
  }

  /** With a job queued, some worker can move, whatever the others do. */
  lemma SomeWorkerCanMove(s: Pool) returns (e: Event)
    requires Inv(s) && !s.shutdown && s.queue != []
    ensures WorkerEvent(e) && Enabled(s, e)
  {
    hide SlotsOk, Those;
    if |SignalledIn(s)| > 0 {
      var t := NonEmpty(SignalledIn(s));
      InThose(s.threads, t, IsSignalled);
      e := Acquire(t);
    } else {
      var t := NonEmpty(Live(s));
      InThose(s.threads, t, IsLive);
      EmptyThose(s.threads, t, IsSignalled);
      EmptyThose(s.threads, t, IsBlocked);
      e := if s.threads[t].Ready? then Acquire(t) else if s.threads[t].Working? then FinishJob(t) else RetireTest(t);
    }
  }

  /** How many steps the workers can still take before the queue is empty. */
  function Work(s: Pool): nat {
    3 * |s.queue| + 2 * |WorkingIn(s)| + |Those(s.threads, IsFinished)|
  }

  lemma WorkerEventsWorkOff(s: Pool, e: Event)
    requires Inv(s) && !s.shutdown && WorkerEvent(e) && Enabled(s, e)
    ensures var s' := Step(s, e);
      && !s'.shutdown
      && s'.dispatched + s'.queue == s.dispatched + s.queue
      && (s.queue == [] ==> s'.queue == [])
      && (s.queue != [] ==> Work(s') == Work(s) - 1)
  {
    hide SlotsOk, Those;
    SetCounts(s.threads, e.t, Step(s, e).threads[e.t]);
  }

  lemma {:induction false} WorkersWorkOff(s: Pool, run: seq<Event>, s': Pool)
    requires Inv(s) && !s.shutdown && Leads(s, run, s') && forall e :: e in run ==> WorkerEvent(e)
    ensures s'.dispatched + s'.queue == s.dispatched + s.queue
    ensures s'.queue != [] ==> s.queue != [] && Work(s') + |run| == Work(s)
    decreases run
  {
    hide Inv, Step, Enabled, Work, WorkerEvent;
    if run != [] {
      StepInv(s, run[0]);
      WorkerEventsWorkOff(s, run[0]);
      assert forall e :: e in run[1..] ==> e in run;
      WorkersWorkOff(Step(s, run[0]), run[1..], s');
    }
  }

  /** Whatever the workers do, in whatever order, they lose no job and keep the order; and after so many steps the
      queue is empty. */
  lemma WorkersDrainQueue(s: Pool, run: seq<Event>, s': Pool)
    requires Reachable(s) && !s.shutdown && Leads(s, run, s') && forall e :: e in run ==> WorkerEvent(e)
    ensures s'.dispatched + s'.queue == s.dispatched + s.queue
    ensures |run| >= 3 * |s.queue| + 2 * |WorkingIn(s)| + |Those(s.threads, IsFinished)| ==>
      s'.queue == [] && s'.dispatched == s.dispatched + s.queue
  {
    hide Inv, Reachable, Leads, WorkerEvent;
    ReachableInv(s);
    WorkersWorkOff(s, run, s');
  }

  /** And they can take them: from every state before shutdown workers alone have a run to an empty queue. */
  lemma {:induction false} QueueCanDrain(s: Pool) returns (run: seq<Event>, s': Pool)
    requires Inv(s) && !s.shutdown
    ensures Leads(s, run, s') && (forall e :: e in run ==> WorkerEvent(e))
    ensures s'.queue == [] && s'.dispatched == s.dispatched + s.queue
    decreases Work(s)
  {
    hide Inv, Step, Enabled, Work, WorkerEvent;
    if s.queue == [] {
      run, s' := [], s;
    } else {
      var e := SomeWorkerCanMove(s);
      StepInv(s, e);
      WorkerEventsWorkOff(s, e);
      var rest, last := QueueCanDrain(Step(s, e));
      run, s' := [e] + rest, last;
      assert run[1..] == rest;
    }
  }

  // ----- shutdown

  /** Every routine still running in later was already running, with the same job, in earlier. */
  ghost predicate OnlyHeldJobs(earlier: Pool, later: Pool) {
    forall t :: t in later.threads && later.threads[t].Working? ==>
      t in earlier.threads && earlier.threads[t] == later.threads[t]
  }

  lemma ShutdownAdd(s: Pool, job: Job, woken: set<Tid>)
    requires Enabled(s, AddLocked(job, woken))
    ensures var s' := Step(s, AddLocked(job, woken));
      && s'.shutdown == s.shutdown && s'.dispatched == s.dispatched && s'.broadcast == s.broadcast
      && OnlyHeldJobs(s, s')
  {
    hide FirstVacant, Those, BlockedIn, Grow, Awake, SignalMayWake;
    GrowKeepsWork(s);
    AwakeKeepsWork(Enqueue(if s.queueSize >= MAX_ACTIVE then Grow(s) else s, job).threads, woken);
  }

  lemma ShutdownBroadcast(s: Pool)
    requires Enabled(s, Broadcast)
    ensures OnlyHeldJobs(s, Step(s, Broadcast))
  {
    hide Those, BlockedIn, Awake;
    AwakeKeepsWork(s.threads, BlockedIn(s));
  }

  lemma ShutdownStep(s: Pool, e: Event)
    requires s.shutdown && Enabled(s, e)
    ensures var s' := Step(s, e);
      s'.shutdown && s'.dispatched == s.dispatched && OnlyHeldJobs(s, s') && (s.broadcast ==> s'.broadcast)
  {
    hide FirstVacant, Those, BlockedIn, Grow, Awake, SignalMayWake;
    match e
    case AddLocked(job, woken) => ShutdownAdd(s, job, woken);
    case Broadcast => ShutdownBroadcast(s);
    case AddBegin =>
    case AddReject =>
    case Acquire(_) =>
    case FinishJob(_) =>
    case RetireTest(_) =>
    case Spurious(_) =>
    case SetShutdown =>
    case FreeOne =>
  }

  lemma AwakeKeepsWork(threads: map<Tid, Phase>, woken: set<Tid>)
    ensures forall t :: t in Awake(threads, woken) && Awake(threads, woken)[t].Working? ==>
      t in threads && threads[t] == Awake(threads, woken)[t]
  {}

  lemma GrowKeepsWork(s: Pool)
    ensures OnlyHeldJobs(s, Grow(s))
    ensures Grow(s).shutdown == s.shutdown && Grow(s).broadcast == s.broadcast && Grow(s).dispatched == s.dispatched
  {
    hide FirstVacant;
  }

  lemma {:induction false} ShutdownRun(s: Pool, run: seq<Event>, s': Pool)
    requires Inv(s) && s.shutdown && Leads(s, run, s')
    ensures Inv(s') && s'.shutdown && s'.dispatched == s.dispatched && OnlyHeldJobs(s, s')
    ensures s.broadcast ==> s'.broadcast
    decreases run
  {
    hide Inv, Step, Enabled;
    if run != [] {
      StepInv(s, run[0]);
      ShutdownStep(s, run[0]);
      ShutdownRun(Step(s, run[0]), run[1..], s');
    }
  }

  /** After the shutdown flag no job is dispatched, and the workers finish at most the jobs they hold. */
  lemma ShutdownFinishesHeldJobs(s: Pool, run: seq<Event>, s': Pool)
    requires Reachable(s) && s.shutdown && Leads(s, run, s')
    ensures s'.dispatched == s.dispatched && OnlyHeldJobs(s, s')
    ensures |s'.finished| - |s.finished| == |WorkingIn(s)| - |WorkingIn(s')|
  {
    hide SlotsOk, Reachable, WorkingIn, OnlyHeldJobs;
    ReachableInv(s);
    ShutdownRun(s, run, s');
  }

  /** From the broadcast on nobody is blocked, now or later. */
  lemma BroadcastUnblocks(s: Pool, run: seq<Event>, s': Pool)
    requires Reachable(s) && s.broadcast && Leads(s, run, s')
    ensures BlockedIn(s) == {} && BlockedIn(s') == {}
  {
    hide SlotsOk, Reachable, BlockedIn;
    ReachableInv(s);
    ShutdownRun(s, run, s');
  }

  // ----- jobs and counters

  /** What was dispatched is the front of what was added, in order, and only freed or waiting jobs come after. */
  lemma JobsInOrder(s: Pool)
    requires Reachable(s)
    ensures s.dispatched <= s.added
    ensures |s.added| == |s.dispatched| + |s.freed| + |s.queue|
    ensures s.added[|s.dispatched|..] == s.freed + s.queue
    ensures !s.broadcast ==> s.freed == []
  {
    hide SlotsOk, CountersOk, NoLostWakeup, Reachable;
    ReachableInv(s);
    assert s.added == s.dispatched + (s.freed + s.queue);
  }

  /** queue_size is what it is taken for exactly as long as no add has been rejected. */
  lemma QueueSizeIsExactIff(s: Pool)
    requires Reachable(s) && !s.broadcast
    ensures s.queueSize == s.adding + |s.queue| + |WorkingIn(s)| <==> s.rejected == 0
  {
    hide SlotsOk, NoLostWakeup, Reachable, WorkingIn;
    ReachableInv(s);
  }

  /** From 32 rejected adds on the retire test never fires again. */
  lemma RejectedAddsStopRetiring(s: Pool, t: Tid)
    requires Enabled(s, RetireTest(t)) && s.rejected >= 32 && Reachable(s)
    ensures Step(s, RetireTest(t)) == Move(s, t, Ready)
  {
    hide SlotsOk, NoLostWakeup, Reachable, WorkingIn, JobsOk;
    ReachableInv(s);
  }

  // ----- slots

  lemma {:induction false} ElementsAtMost<X>(s: seq<X>, all: set<X>)
    requires forall x :: x in all ==> x in s
    ensures |all| <= |s|
  {
    if s == [] {
      assert all == {};
    } else {
      var rest := all - {s[0]};
      ElementsAtMost(s[1..], rest);
      InsertRemove(all, s[0]);
    }
  }

  lemma {:induction false} SlotsFixed(s: Pool, run: seq<Event>, s': Pool)
    requires Leads(s, run, s')
    ensures |s'.slots| == |s.slots|
    decreases run
  {
    if run != [] {
      SlotsFixed(Step(s, run[0]), run[1..], s');
    }
  }

  lemma SlotsCoverLive(s: Pool)
    requires SlotsOk(s.slots, s.threads, s.started)
    ensures |Live(s)| <= |s.slots|
  {
    hide Those;
    forall t | t in Live(s)
      ensures t in s.slots
    {
      InThose(s.threads, t, IsLive);
    }
    ElementsAtMost(s.slots, Live(s));
  }

  /** Live workers own distinct slots, so there are never more than tpool_create allowed, nor fewer than ten. */
  lemma LiveWorkersBounded(maxThreads: nat, run: seq<Event>, s: Pool)
    requires maxThreads >= FIRST_WORKERS && Leads(Initial(maxThreads), run, s)
    ensures |Live(s)| <= maxThreads
    ensures !s.shutdown ==> s.nowThreads == |Live(s)| >= 10
  {
    hide Live, Leads, SlotsOk, JobsOk, NoLostWakeup, InitialThreads;
    InitialInv(maxThreads);
    RunInv(Initial(maxThreads), run, s);
    SlotsFixed(Initial(maxThreads), run, s);
    SlotsCoverLive(s);
  }
}
