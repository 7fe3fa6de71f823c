/** What every reachable state of the pool satisfies. */
module PoolSafety {
  import opened PoolModel

  /** Slots: every thread id was handed out, no two slots share one, and every live worker is in a slot. */
  ghost predicate SlotsOk(slots: seq<Tid>, threads: map<Tid, Phase>, started: nat) {
    && (forall t :: t in threads <==> 1 <= t <= started)
    && (forall i :: 0 <= i < |slots| ==> slots[i] <= started)
    && (forall i, j :: 0 <= i < j < |slots| && slots[i] != 0 ==> slots[i] != slots[j])
    && (forall t :: t in threads && !threads[t].Exited? ==> t in slots)
  }

  /** Counters, exactly: a rejected add leaves its increment behind, a freed job too. */
  ghost predicate CountersOk(s: Pool) {
    && s.queueSize == s.adding + |s.queue| + |WorkingIn(s)| + s.rejected + |s.freed|
    && |s.dispatched| == |s.finished| + |WorkingIn(s)|
    && (!s.shutdown ==> s.nowThreads == |Live(s)|)
    && |Live(s)| <= s.nowThreads
    && s.nowThreads >= FIRST_WORKERS
  }

  /** First in, first out, nothing lost: what was added is what left, in order, followed by what waits. */
  ghost predicate JobsOk(s: Pool) {
    && s.added == s.dispatched + s.freed + s.queue
    && (s.freed != [] ==> s.broadcast)
    && (s.broadcast ==> s.shutdown)
  }

  /** While somebody is blocked, there are woken workers enough for every queued job. */
  ghost predicate NoLostWakeup(s: Pool) {
    && (!s.shutdown && |BlockedIn(s)| > 0 ==> |s.queue| <= |SignalledIn(s)|)
    && (s.broadcast ==> |BlockedIn(s)| == 0)
  }

  ghost predicate Inv(s: Pool) {
    SlotsOk(s.slots, s.threads, s.started) && CountersOk(s) && JobsOk(s) && NoLostWakeup(s)
  }

  function Count(p: bool): nat { if p then 1 else 0 }

  lemma InsertRemove<X>(all: set<X>, t: X)
    ensures |all + {t}| == |all| + Count(t !in all)
    ensures |all - {t}| == |all| - Count(t in all)
  {
    if t in all {
      assert all + {t} == all;
    } else {
      assert all - {t} == all;
    }
  }

  lemma SetThose(threads: map<Tid, Phase>, t: Tid, p: Phase, kind: Kind)
    ensures Those(threads[t := p], kind)
         == if Has(p, kind) then Those(threads, kind) + {t} else Those(threads, kind) - {t}
    ensures t in Those(threads, kind) <==> t in threads && Has(threads[t], kind)
  {
    hide Has;
  }

  /** How setting one worker's phase, new or old, changes the number of workers of a kind. */
  lemma SetCount(threads: map<Tid, Phase>, t: Tid, p: Phase, kind: Kind)
    ensures |Those(threads[t := p], kind)|
         == |Those(threads, kind)| - Count(t in threads && Has(threads[t], kind)) + Count(Has(p, kind))
  {
    hide Those, Has;
    SetThose(threads, t, p, kind);
    InsertRemove(Those(threads, kind), t);
  }

  lemma SetCounts(threads: map<Tid, Phase>, t: Tid, p: Phase)
    ensures forall kind ::
      |Those(threads[t := p], kind)|
        == |Those(threads, kind)| - Count(t in threads && Has(threads[t], kind)) + Count(Has(p, kind))
  {
    hide Those, Has, Count;
    forall kind {
      SetCount(threads, t, p, kind);
    }
  }

  lemma WakeThose(threads: map<Tid, Phase>, woken: set<Tid>)
    requires woken <= Those(threads, IsBlocked)
    ensures Those(Awake(threads, woken), IsBlocked) == Those(threads, IsBlocked) - woken
    ensures Those(Awake(threads, woken), IsSignalled) == Those(threads, IsSignalled) + woken
    ensures Those(threads, IsSignalled) !! woken
    ensures Those(Awake(threads, woken), IsWorking) == Those(threads, IsWorking)
    ensures Those(Awake(threads, woken), IsLive) == Those(threads, IsLive)
    ensures Awake(threads, woken).Keys == threads.Keys
  {}

  /** Waking moves workers from blocked to signalled. */
  lemma WakeCounts(threads: map<Tid, Phase>, woken: set<Tid>)
    requires woken <= Those(threads, IsBlocked)
    ensures |Those(Awake(threads, woken), IsBlocked)| == |Those(threads, IsBlocked)| - |woken|
    ensures |Those(Awake(threads, woken), IsSignalled)| == |Those(threads, IsSignalled)| + |woken|
    ensures Those(Awake(threads, woken), IsWorking) == Those(threads, IsWorking)
    ensures Those(Awake(threads, woken), IsLive) == Those(threads, IsLive)
    ensures Awake(threads, woken).Keys == threads.Keys
  {
    hide Those, Awake;
    WakeThose(threads, woken);
  }

  // ----- slots

  lemma SlotsMove(slots: seq<Tid>, threads: map<Tid, Phase>, started: nat, t: Tid, p: Phase)
    requires SlotsOk(slots, threads, started) && t in threads && !threads[t].Exited?
    ensures SlotsOk(slots, threads[t := p], started)
  {}

  lemma SlotsWake(slots: seq<Tid>, threads: map<Tid, Phase>, started: nat, woken: set<Tid>)
    requires SlotsOk(slots, threads, started) && woken <= Those(threads, IsBlocked)
    ensures SlotsOk(slots, Awake(threads, woken), started)
  {}

  /** A new worker only ever takes a slot whose old thread, if any, is gone. */
  lemma SlotsGrow(slots: seq<Tid>, threads: map<Tid, Phase>, started: nat, k: nat)
    requires SlotsOk(slots, threads, started) && k < |slots| && Vacant(slots[k], threads)
    ensures SlotsOk(slots[k := started + 1], threads[started + 1 := Ready], started + 1)
  {
    var slots' := slots[k := started + 1];
    forall u | u in threads && !threads[u].Exited?
      ensures u in slots'
    {
      var i :| 0 <= i < |slots| && slots[i] == u;
      assert slots'[i] == u;
    }
    assert slots'[k] == started + 1;
  }

  function Grown(s: Pool): Pool { if s.queueSize >= MAX_ACTIVE then Grow(s) else s }

  /** Growing touches the slots, the threads and their number. */
  lemma GrownRest(s: Pool)
    ensures var g := Grown(s);
      g == s.(slots := g.slots, threads := g.threads, started := g.started, nowThreads := g.nowThreads)
  {
    hide FirstVacant;
  }

  lemma GrownSlots(s: Pool)
    requires SlotsOk(s.slots, s.threads, s.started)
    ensures SlotsOk(Grown(s).slots, Grown(s).threads, Grown(s).started)
  {
    hide SlotsOk, Vacant;
    var k := FirstVacant(s.slots, s.threads, 0);
    if k < |s.slots| {
      SlotsGrow(s.slots, s.threads, s.started, k);
    }
  }

  lemma NextIsNew(slots: seq<Tid>, threads: map<Tid, Phase>, started: nat)
    requires SlotsOk(slots, threads, started)
    ensures started + 1 !in threads
  {}

  /** One more thread, ready: nobody else is blocked, woken or working for it. */
  lemma NewCounts(threads: map<Tid, Phase>, t: Tid)
    requires t !in threads
    ensures var more := threads[t := Ready];
      && Those(threads, IsBlocked) <= Those(more, IsBlocked)
      && |Those(more, IsBlocked)| == |Those(threads, IsBlocked)|
      && |Those(more, IsSignalled)| == |Those(threads, IsSignalled)|
      && |Those(more, IsWorking)| == |Those(threads, IsWorking)|
      && |Those(more, IsLive)| == |Those(threads, IsLive)| + 1
  {
    hide Those;
    SetThose(threads, t, Ready, IsBlocked);
    SetCount(threads, t, Ready, IsBlocked);
    SetCount(threads, t, Ready, IsSignalled);
    SetCount(threads, t, Ready, IsWorking);
    SetCount(threads, t, Ready, IsLive);
  }

  /** Growing wakes nobody, and counts the worker it adds. */
  lemma GrownNumbers(s: Pool)
    requires SlotsOk(s.slots, s.threads, s.started)
    ensures var g := Grown(s);
      && Those(s.threads, IsBlocked) <= Those(g.threads, IsBlocked)
      && |BlockedIn(g)| == |BlockedIn(s)| && |SignalledIn(g)| == |SignalledIn(s)| && |WorkingIn(g)| == |WorkingIn(s)|
      && |Live(g)| - |Live(s)| == g.nowThreads - s.nowThreads >= 0
  {
    hide SlotsOk, FirstVacant, Those;
    NextIsNew(s.slots, s.threads, s.started);
    NewCounts(s.threads, s.started + 1);
  }

  lemma StepSlots(s: Pool, e: Event)
    requires SlotsOk(s.slots, s.threads, s.started) && Enabled(s, e)
    ensures var s' := Step(s, e); SlotsOk(s'.slots, s'.threads, s'.started)
  {
    hide SlotsOk, Awake, Those, Grow;
    var s' := Step(s, e);
    match e
    case AddLocked(job, woken) =>
      GrownRest(s);
      GrownSlots(s);
      GrownNumbers(s);
      SlotsWake(Grown(s).slots, Grown(s).threads, Grown(s).started, woken);
    case Acquire(t) => SlotsMove(s.slots, s.threads, s.started, t, s'.threads[t]);
    case FinishJob(t) => SlotsMove(s.slots, s.threads, s.started, t, s'.threads[t]);
    case RetireTest(t) => SlotsMove(s.slots, s.threads, s.started, t, s'.threads[t]);
    case Spurious(t) => SlotsMove(s.slots, s.threads, s.started, t, s'.threads[t]);
    case Broadcast => SlotsWake(s.slots, s.threads, s.started, BlockedIn(s));
    case _ =>
  }

  // ----- numbers of workers

  lemma AddNumbers(s: Pool, job: Job, woken: set<Tid>)
    requires Inv(s) && Enabled(s, AddLocked(job, woken))
    ensures CountersOk(Step(s, AddLocked(job, woken))) && NoLostWakeup(Step(s, AddLocked(job, woken)))
  {
    hide SlotsOk, Awake, Those, Grow, FirstVacant;
    GrownRest(s);
    GrownNumbers(s);
    WakeCounts(Grown(s).threads, woken);
  }

  lemma WakeAllNumbers(s: Pool)
    requires Inv(s) && Enabled(s, Broadcast)
    ensures CountersOk(Step(s, Broadcast)) && NoLostWakeup(Step(s, Broadcast))
  {
    hide SlotsOk, Awake, Those;
    WakeCounts(s.threads, BlockedIn(s));
  }

  lemma AcquireNumbers(s: Pool, t: Tid)
    requires Inv(s) && Enabled(s, Acquire(t))
    ensures CountersOk(Step(s, Acquire(t))) && NoLostWakeup(Step(s, Acquire(t)))
  {
    hide SlotsOk, Those;
    SetCounts(s.threads, t, Step(s, Acquire(t)).threads[t]);
  }

  lemma StepNumbers(s: Pool, e: Event)
    requires Inv(s) && Enabled(s, e)
    ensures CountersOk(Step(s, e)) && NoLostWakeup(Step(s, e))
  {
    hide SlotsOk, Awake, Those, Grow, FirstVacant, SignalMayWake;
    match e
    case AddLocked(job, woken) => AddNumbers(s, job, woken);
    case Acquire(t) => AcquireNumbers(s, t);
    case FinishJob(t) => SetCounts(s.threads, t, Finished);
    case RetireTest(t) =>
      SetCounts(s.threads, t, Exited);
      SetCounts(s.threads, t, Ready);
    case Spurious(t) => SetCounts(s.threads, t, Signalled);
    case Broadcast => WakeAllNumbers(s);
    case AddBegin =>
    case AddReject =>
    case SetShutdown =>
    case FreeOne =>
  }

  // ----- jobs

  lemma AddKeepsJobs(s: Pool, job: Job, woken: set<Tid>)
    requires JobsOk(s) && Enabled(s, AddLocked(job, woken))
    ensures JobsOk(Step(s, AddLocked(job, woken)))
  {
    hide Awake, Those, Grow, SignalMayWake;
    GrownRest(s);
    assert s.dispatched + s.freed + (s.queue + [job]) == s.dispatched + s.freed + s.queue + [job];
  }

  lemma AcquireKeepsJobs(s: Pool, t: Tid)
    requires JobsOk(s) && Enabled(s, Acquire(t))
    ensures JobsOk(Step(s, Acquire(t)))
  {
    if !s.shutdown && s.queue != [] {
      assert s.freed == [] && s.queue == [s.queue[0]] + s.queue[1..];
      assert s.dispatched + [] + s.queue == s.dispatched + [s.queue[0]] + [] + s.queue[1..];
    }
  }

  lemma FreeKeepsJobs(s: Pool)
    requires JobsOk(s) && Enabled(s, FreeOne)
    ensures JobsOk(Step(s, FreeOne))
  {
    assert s.queue == [s.queue[0]] + s.queue[1..];
    assert s.dispatched + s.freed + s.queue == s.dispatched + (s.freed + [s.queue[0]]) + s.queue[1..];
  }

  lemma StepJobs(s: Pool, e: Event)
    requires JobsOk(s) && Enabled(s, e)
    ensures JobsOk(Step(s, e))
  {
    hide Awake, Those, Grow, FirstVacant, SignalMayWake;
    match e
    case AddLocked(job, woken) => AddKeepsJobs(s, job, woken);
    case Acquire(t) => AcquireKeepsJobs(s, t);
    case FreeOne => FreeKeepsJobs(s);
    case AddBegin =>
    case AddReject =>
    case FinishJob(_) =>
    case RetireTest(_) =>
    case Spurious(_) =>
    case SetShutdown =>
    case Broadcast =>
  }

  lemma StepInv(s: Pool, e: Event)
    requires Inv(s) && Enabled(s, e)
    ensures Inv(Step(s, e))
  {
    hide SlotsOk, CountersOk, JobsOk, NoLostWakeup, Step, Enabled;
    StepSlots(s, e);
    StepNumbers(s, e);
    StepJobs(s, e);
  }

  // ----- runs

  lemma InitialThose(n: nat)
    ensures Those(InitialThreads(n), IsLive) == Tids(n)
    ensures Those(InitialThreads(n), IsWorking) == {} && Those(InitialThreads(n), IsBlocked) == {}
  {
    hide Tids;
  }

  lemma InitialSlotsOk(maxThreads: nat)
    requires maxThreads >= FIRST_WORKERS
    ensures SlotsOk(InitialSlots(maxThreads), InitialThreads(FIRST_WORKERS), FIRST_WORKERS)
  {
    hide InitialSlots, Tids;
    var slots := InitialSlots(maxThreads);
    forall t | 1 <= t <= FIRST_WORKERS
      ensures t in slots
    {
      assert slots[t - 1] == t;
    }
  }

  lemma InitialInv(maxThreads: nat)
    requires maxThreads >= FIRST_WORKERS
    ensures Inv(Initial(maxThreads))
  {
    hide SlotsOk, InitialSlots, InitialThreads, Tids, Those;
    InitialSlotsOk(maxThreads);
    InitialThose(FIRST_WORKERS);
  }

  lemma {:induction false} RunInv(s: Pool, run: seq<Event>, s': Pool)
    requires Inv(s) && Leads(s, run, s')
    ensures Inv(s')
    decreases run
  {
    hide Inv, Step, Enabled;
    if run != [] {
      StepInv(s, run[0]);
      RunInv(Step(s, run[0]), run[1..], s');
    }
  }

  /** Every state of every interleaving of adders, workers and the destroyer. */
  lemma ReachableInv(s: Pool)
    requires Reachable(s)
    ensures Inv(s)
  {
    hide Inv, Leads;
    var maxThreads: nat, run: seq<Event> :|
      maxThreads >= FIRST_WORKERS && Leads(Initial(maxThreads), run, s);
    InitialInv(maxThreads);
    RunInv(Initial(maxThreads), run, s);
  }
}
