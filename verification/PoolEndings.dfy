/** How the workers come to rest, when the pool grows and shrinks, and how it shuts down. */
module PoolEndings {
  import opened PoolModel
  import opened PoolSafety
  import opened PoolProperties
  import opened PoolRejections

  // ----- coming to rest

  function FinishedIn(s: Pool): set<Tid> { Those(s.threads, IsFinished) }

  /** How many steps the workers have left. */
  function Effort(s: Pool): nat {
    3 * |s.queue| + 3 * |WorkingIn(s)| + 2 * |FinishedIn(s)| + |Those(s.threads, IsReady)| + |SignalledIn(s)|
  }

  predicate OnlyWorkers(run: seq<Event>) {
    forall e :: e in run ==> WorkerEvent(e)
  }

  lemma EventTakesEffort(s: Pool, e: Event)
    requires WorkerEvent(e) && Enabled(s, e)
    ensures Effort(Step(s, e)) < Effort(s)
    ensures var s' := Step(s, e); s'.shutdown == s.shutdown && s'.broadcast == s.broadcast && s'.added == s.added
  {
    hide Those;
    SetCounts(s.threads, e.t, Step(s, e).threads[e.t]);
  }

  lemma {:induction false} RunTakesEffort(s: Pool, run: seq<Event>, s': Pool)
    requires Inv(s) && Leads(s, run, s') && OnlyWorkers(run)
    ensures |run| + Effort(s') <= Effort(s) && Inv(s')
    ensures s'.shutdown == s.shutdown && s'.broadcast == s.broadcast && s'.added == s.added
    decreases run
  {
    hide Inv, Step, Enabled, Effort, WorkerEvent;
    if run != [] {
      StepInv(s, run[0]);
      EventTakesEffort(s, run[0]);
      RunTakesEffort(Step(s, run[0]), run[1..], s');
    }
  }

  /** No worker can move: everybody waits for a signal or is gone. */
  ghost predicate AtRest(s: Pool) {
    forall e :: WorkerEvent(e) ==> !Enabled(s, e)
  }

  lemma RestIff(s: Pool)
    ensures AtRest(s) <==> forall t :: t in s.threads ==> s.threads[t].Blocked? || s.threads[t].Exited?
  {
    if AtRest(s) {
      forall t | t in s.threads
        ensures s.threads[t].Blocked? || s.threads[t].Exited?
      {
        assert !Enabled(s, Acquire(t)) && !Enabled(s, FinishJob(t)) && !Enabled(s, RetireTest(t));
      }
    }
  }

  lemma RestingPool(s: Pool)
    requires Inv(s) && AtRest(s)
    ensures Live(s) == BlockedIn(s) && SignalledIn(s) == {} && WorkingIn(s) == {} && FinishedIn(s) == {}
    ensures !s.shutdown ==> s.queue == []
    ensures s.broadcast ==> Live(s) == {}
  {
    hide SlotsOk, JobsOk;
    RestIff(s);
  }

  /** Workers left to themselves come to rest, however they are scheduled: before shutdown with nothing queued and
      everybody blocked, after the broadcast with nobody left. */
  lemma WorkersComeToRest(s: Pool, run: seq<Event>, s': Pool)
    requires Reachable(s) && Leads(s, run, s') && OnlyWorkers(run)
    ensures |run| <= Effort(s)
    ensures AtRest(s') ==> Live(s') == BlockedIn(s')
    ensures AtRest(s') && !s.shutdown ==> s'.queue == []
    ensures AtRest(s') && s.broadcast ==> Live(s') == {}
  {
    hide Inv, Reachable, Leads, AtRest, OnlyWorkers, Effort, Live, BlockedIn;
    ReachableInv(s);
    RunTakesEffort(s, run, s');
    if AtRest(s') {
      RestingPool(s');
    }
  }

  /** And they always can. */
  lemma {:induction false} CanRest(s: Pool) returns (run: seq<Event>, s': Pool)
    ensures Leads(s, run, s') && OnlyWorkers(run) && AtRest(s')
    decreases Effort(s)
  {
    hide Step, Enabled, Effort, WorkerEvent;
    if e :| WorkerEvent(e) && Enabled(s, e) {
      EventTakesEffort(s, e);
      var rest;
      rest, s' := CanRest(Step(s, e));
      run := [e] + rest;
      assert run[1..] == rest;
    } else {
      run, s' := [], s;
    }
  }

  // ----- shrinking

  /** Nothing to do: some workers may have yet to take their retire test. */
  predicate Spent(s: Pool) {
    !s.shutdown && s.rejected < 32 && s.adding == 0 && s.queue == [] && |WorkingIn(s)| == 0
  }

  /** What n workers come to when f of them take the test, one after the other. */
  function Remaining(n: nat, f: nat): nat {
    if n <= 32 then n else if n - f > 32 then n - f else 32
  }

  lemma SpentStep(s: Pool, e: Event)
    requires Inv(s) && Spent(s) && WorkerEvent(e) && Enabled(s, e)
    ensures var s' := Step(s, e);
      && Spent(s')
      && Remaining(|Live(s')|, |FinishedIn(s')|) == Remaining(|Live(s)|, |FinishedIn(s)|)
  {
    hide SlotsOk, NoLostWakeup, Those;
    SetCounts(s.threads, e.t, Step(s, e).threads[e.t]);
  }

  lemma {:induction false} SpentRun(s: Pool, run: seq<Event>, s': Pool)
    requires Inv(s) && Spent(s) && Leads(s, run, s') && OnlyWorkers(run)
    ensures Remaining(|Live(s')|, |FinishedIn(s')|) == Remaining(|Live(s)|, |FinishedIn(s)|)
    decreases run
  {
    hide Inv, Step, Enabled, Spent, Remaining, WorkerEvent, Live, FinishedIn;
    if run != [] {
      StepInv(s, run[0]);
      SpentStep(s, run[0]);
      SpentRun(Step(s, run[0]), run[1..], s');
    }
  }

  /** When there is nothing left to do and fewer than 32 adds were ever rejected, each worker still to take its retire
      test retires as long as there are more than 32: 32 are left, or more if fewer took the test, and never less. */
  lemma FinishedWorkersRetire(s: Pool, run: seq<Event>, s': Pool)
    requires Reachable(s) && Leads(s, run, s') && OnlyWorkers(run) && FinishedIn(s') == {}
    requires !s.shutdown && s.rejected < 32 && s.adding == 0 && s.queue == [] && WorkingIn(s) == {}
    ensures var n, f := |Live(s)|, |FinishedIn(s)|;
      |Live(s')| == if n <= 32 then n else if n - f > 32 then n - f else 32
  {
    hide Inv, Reachable, Leads, WorkingIn, Live, FinishedIn, OnlyWorkers;
    ReachableInv(s);
    SpentRun(s, run, s');
  }

  // ----- a busy pool that has grown

  /** Somebody has yet to finish a job or take the test after one. */
  predicate Busy(s: Pool) {
    |s.queue| + |WorkingIn(s)| + |FinishedIn(s)| > 0
  }

  lemma BusyStep(s: Pool, e: Event)
    requires Inv(s) && !s.shutdown && s.rejected < 32 && s.adding == 0 && Busy(s) && |Live(s)| > 32
    requires WorkerEvent(e) && Enabled(s, e)
    ensures var s' := Step(s, e);
      && !s'.shutdown && s'.rejected < 32 && s'.adding == 0
      && ((Busy(s') && |Live(s')| == |Live(s)|) || |Live(s')| == |Live(s)| - 1)
  {
    hide SlotsOk, NoLostWakeup, Those;
    SetCounts(s.threads, e.t, Step(s, e).threads[e.t]);
  }

  lemma LiveOnlyFalls(s: Pool, e: Event)
    requires Inv(s) && !s.shutdown && WorkerEvent(e) && Enabled(s, e)
    ensures |Live(Step(s, e))| <= |Live(s)| && (|Live(s)| >= 32 ==> |Live(Step(s, e))| >= 32)
  {
    hide SlotsOk, Those, NoLostWakeup, JobsOk;
    SetCounts(s.threads, e.t, Step(s, e).threads[e.t]);
  }

  /** Workers only leave, and never the last 32. */
  lemma {:induction false} LiveFalls(s: Pool, run: seq<Event>, s': Pool)
    requires Inv(s) && !s.shutdown && Leads(s, run, s') && OnlyWorkers(run)
    ensures |Live(s')| <= |Live(s)| && (|Live(s)| >= 32 ==> |Live(s')| >= 32)
    decreases run
  {
    hide Inv, Step, Enabled, WorkerEvent, Live;
    if run != [] {
      StepInv(s, run[0]);
      EventTakesEffort(s, run[0]);
      LiveOnlyFalls(s, run[0]);
      LiveFalls(Step(s, run[0]), run[1..], s');
    }
  }

  /** A pool of more than 32 that has any job to finish loses a worker before it comes to rest: the last one to finish
      finds fewer than 32 jobs and retires. */
  lemma {:induction false} BusyPoolShrinks(s: Pool, run: seq<Event>, s': Pool)
    requires Inv(s) && !s.shutdown && s.rejected < 32 && s.adding == 0 && Busy(s) && |Live(s)| > 32
    requires Leads(s, run, s') && OnlyWorkers(run) && AtRest(s')
    ensures |Live(s')| < |Live(s)|
    decreases run
  {
    hide Inv, Step, Enabled, Busy, WorkerEvent, Live, AtRest;
    if run == [] {
      hide *;
      RestIsNotBusy(s);
    } else {
      var t := Step(s, run[0]);
      StepInv(s, run[0]);
      BusyStep(s, run[0]);
      LiveFalls(t, run[1..], s');
      if |Live(t)| == |Live(s)| {
        BusyPoolShrinks(t, run[1..], s');
      }
    }
  }

  lemma RestIsNotBusy(s: Pool)
    requires Inv(s) && !s.shutdown && AtRest(s)
    ensures !Busy(s)
  {
    hide Inv, AtRest;
    RestingPool(s);
  }

  // ----- a pool that grows and shrinks again

  /** How many workers n adds lead to when nobody takes a job meanwhile. */
  function Workers(n: nat): nat {
    if n < 32 then 10 else 10 + (n - 31)
  }

  /** n jobs queued, and every worker there is still about to start. */
  predicate Filled(s: Pool, n: nat) {
    var w := Workers(n);
    && w <= |s.slots| && s.threads == InitialThreads(w) && s.started == w && s.nowThreads == w
    && (forall i :: 0 <= i < |s.slots| ==> s.slots[i] == if i < w then i + 1 else 0)
    && |s.queue| == n && s.queueSize == n && s.adding == 0 && s.rejected == 0 && !s.shutdown
  }

  lemma FreeSlot(s: Pool, n: nat)
    requires Filled(s, n) && Workers(n) < |s.slots|
    ensures FirstVacant(s.slots, s.threads, 0) == Workers(n)
  {
    assert Vacant(s.slots[Workers(n)], s.threads);
    assert forall i :: 0 <= i < Workers(n) ==> !Vacant(s.slots[i], s.threads);
  }

  lemma AddOne(s: Pool, n: nat, job: Job) returns (t: Pool)
    requires Reachable(s) && Filled(s, n) && Workers(n + 1) <= |s.slots|
    ensures Reachable(t) && Filled(t, n + 1) && |t.slots| == |s.slots|
  {
    hide Reachable, InitialThreads, FirstVacant, Those;
    NobodyBlocked(Workers(n));
    NobodyBlocked(Workers(n + 1));
    OneMoreThread(Workers(n));
    ReachableThen(s, AddBegin);
    var u := Step(s, AddBegin);
    if n + 1 >= 32 {
      FreeSlot(s, n);
    }
    ReachableThen(u, AddLocked(job, {}));
    t := Step(u, AddLocked(job, {}));
  }

  lemma {:induction false} AddMany(maxThreads: nat, n: nat, job: Job) returns (t: Pool)
    requires maxThreads >= 10 && Workers(n) <= maxThreads
    ensures Reachable(t) && Filled(t, n) && |t.slots| == maxThreads
    decreases n
  {
    hide Reachable, Filled, InitialThreads, InitialSlots;
    if n == 0 {
      StartIsReachable(maxThreads);
      t := Initial(maxThreads);
      NothingAdded(maxThreads);
    } else {
      var s := AddMany(maxThreads, n - 1, job);
      t := AddOne(s, n - 1, job);
    }
  }

  lemma NothingAdded(maxThreads: nat)
    requires maxThreads >= 10
    ensures Filled(Initial(maxThreads), 0)
  {
    hide InitialThreads;
  }

  lemma FilledLives(s: Pool, n: nat)
    requires Filled(s, n)
    ensures |Live(s)| == Workers(n)
  {
    hide Those, InitialThreads;
    InitialThose(Workers(n));
  }

  /** Every pool with room for 33 workers can come to that and back: 54 adds grow it to 33, and as soon as the workers
      have done the jobs and come to rest, one of them has left. */
  lemma PoolGrowsAndShrinks(maxThreads: nat, job: Job)
    requires maxThreads >= 33
    ensures exists s, run, s' ::
      && Reachable(s) && |Live(s)| == 33 && Leads(s, run, s') && OnlyWorkers(run)
      && AtRest(s') && s'.queue == [] && |Live(s')| == 32
  {
    hide Reachable, Filled, Live, Leads, OnlyWorkers, AtRest, Inv;
    var s := AddMany(maxThreads, 54, job);
    FilledLives(s, 54);
    FilledIsBusy(s, 54);
    var run, s' := CanRest(s);
    ReachableInv(s);
    BusyPoolShrinks(s, run, s');
    LiveFalls(s, run, s');
    WorkersComeToRest(s, run, s');
  }

  lemma FilledIsBusy(s: Pool, n: nat)
    requires Filled(s, n) && n > 0
    ensures Busy(s) && !s.shutdown && s.rejected < 32 && s.adding == 0
  {
    hide WorkingIn, FinishedIn;
  }

  // ----- growing

  lemma {:induction false} DistinctElements(s: seq<Tid>, all: set<Tid>)
    requires forall i, j :: 0 <= i < j < |s| ==> s[i] != s[j]
    requires forall i :: 0 <= i < |s| ==> s[i] in all
    ensures |s| <= |all|
  {
    if s != [] {
      var rest := all - {s[0]};
      InsertRemove(all, s[0]);
      DistinctElements(s[1..], rest);
    }
  }

  lemma VacantSlot(slots: seq<Tid>, live: set<Tid>, k: nat)
    requires k < |slots| && slots[k] !in live && forall t :: t in live ==> t in slots
    ensures |live| < |slots|
  {
    var others := slots[..k] + slots[k + 1..];
    forall t | t in live
      ensures t in others
    {
      var i :| 0 <= i < |slots| && slots[i] == t;
      assert others[if i < k then i else i - 1] == t;
    }
    ElementsAtMost(others, live);
  }

  lemma LiveInSlots(s: Pool)
    requires SlotsOk(s.slots, s.threads, s.started)
    ensures forall t :: t in Live(s) ==> t in s.slots
    ensures forall i :: 0 <= i < |s.slots| ==> (Vacant(s.slots[i], s.threads) <==> s.slots[i] !in Live(s))
  {
    forall i | 0 <= i < |s.slots|
      ensures Vacant(s.slots[i], s.threads) <==> s.slots[i] !in Live(s)
    {
      InThose(s.threads, s.slots[i], IsLive);
    }
  }

  lemma SlotsDiffer(s: Pool)
    requires SlotsOk(s.slots, s.threads, s.started) && forall i :: 0 <= i < |s.slots| ==> s.slots[i] in Live(s)
    ensures |s.slots| <= |Live(s)|
  {
    assert 0 !in Live(s);
    hide Those;
    DistinctElements(s.slots, Live(s));
  }

  /** There is a slot to be had exactly when there are fewer live workers than slots. */
  lemma VacancyIff(s: Pool)
    requires SlotsOk(s.slots, s.threads, s.started)
    ensures FirstVacant(s.slots, s.threads, 0) < |s.slots| <==> |Live(s)| < |s.slots|
  {
    hide SlotsOk, Live, Vacant;
    LiveInSlots(s);
    var k := FirstVacant(s.slots, s.threads, 0);
    if k < |s.slots| {
      VacantSlot(s.slots, Live(s), k);
    } else {
      SlotsDiffer(s);
    }
  }

  /** An add that goes through starts one worker, or none: one exactly when this add, those under way with it, the jobs
      queued, the jobs running and the adds ever rejected are 32 or more, and there are fewer workers than slots. */
  lemma AddGrowsIff(s: Pool, job: Job, woken: set<Tid>)
    requires Reachable(s) && !s.broadcast && Enabled(s, AddLocked(job, woken))
    ensures var s' := Step(s, AddLocked(job, woken));
      |Live(s')| == |Live(s)| +
        (if s.adding + |s.queue| + |WorkingIn(s)| + s.rejected >= 32 && |Live(s)| < |s.slots| then 1 else 0)
  {
    hide Reachable, FirstVacant, SlotsOk, NoLostWakeup, Those, Awake, Grow;
    ReachableInv(s);
    VacancyIff(s);
    GrownNumbers(s);
    GrownRest(s);
    WakeCounts(Grown(s).threads, woken);
    GrowsByOne(s);
  }

  lemma GrowsByOne(s: Pool)
    ensures Grow(s).nowThreads == s.nowThreads + (if FirstVacant(s.slots, s.threads, 0) < |s.slots| then 1 else 0)
  {
    hide FirstVacant;
  }

  // ----- shutting down

  lemma {:induction false} CanFree(s: Pool) returns (run: seq<Event>, s': Pool)
    requires s.broadcast
    ensures Leads(s, run, s') && s' == s.(queue := [], freed := s.freed + s.queue)
    decreases |s.queue|
  {
    if s.queue == [] {
      run, s' := [], s;
      assert s.freed + [] == s.freed;
    } else {
      var t := Step(s, FreeOne);
      var rest;
      rest, s' := CanFree(t);
      run := [FreeOne] + rest;
      assert run[1..] == rest;
      assert t.freed + t.queue == s.freed + s.queue;
    }
  }

  lemma {:induction false} LeadsOn(s: Pool, run: seq<Event>, t: Pool, more: seq<Event>, u: Pool)
    requires Leads(s, run, t) && Leads(t, more, u)
    ensures Leads(s, run + more, u)
    decreases run
  {
    hide Step, Enabled;
    if run == [] {
      assert run + more == more;
    } else {
      LeadsOn(Step(s, run[0]), run[1..], t, more, u);
      assert (run + more)[1..] == run[1..] + more;
    }
  }

  lemma LeadsTwice(s: Pool, d: Event, e: Event)
    requires Enabled(s, d) && Enabled(Step(s, d), e)
    ensures Leads(s, [d, e], Step(Step(s, d), e))
  {
    hide Step, Enabled;
    assert [d, e][1..] == [e] && [e][1..] == [] && [e][0] == e;
    assert Leads(Step(Step(s, d), e), [], Step(Step(s, d), e));
    assert Leads(Step(s, d), [e], Step(Step(s, d), e));
  }

  lemma FlagsRaised(s: Pool)
    ensures Enabled(s, SetShutdown) && Enabled(Step(s, SetShutdown), Broadcast)
    ensures var u := Step(Step(s, SetShutdown), Broadcast); u.broadcast && u.added == s.added
  {
    hide BlockedIn, Awake;
  }

  lemma NobodyLeft(s: Pool)
    requires Inv(s) && Live(s) == {}
    ensures |s.added| == |s.finished| + |s.freed| + |s.queue|
  {
    hide SlotsOk, NoLostWakeup;
    assert WorkingIn(s) <= Live(s);
  }

  /** From every reachable state tpool_destroy can come to its end: the flag, the broadcast, the workers, who leave one
      and all, and the freeing loop. By then every job added has been finished or freed. */
  lemma PoolCanShutDown(s: Pool)
    requires Reachable(s)
    ensures exists run, s' :: Leads(s, run, s') && Live(s') == {} && s'.queue == [] && s'.added == s.added
                           && |s'.added| == |s'.finished| + |s'.freed|
  {
    hide Reachable, Leads, Inv, AtRest, OnlyWorkers, Live, Step, Enabled;
    FlagsRaised(s);
    ReachableThen(s, SetShutdown);
    var t := Step(s, SetShutdown);
    ReachableThen(t, Broadcast);
    var u := Step(t, Broadcast);
    LeadsTwice(s, SetShutdown, Broadcast);
    var run, v := CanRest(u);
    WorkersComeToRest(u, run, v);
    ReachableInv(u);
    RunTakesEffort(u, run, v);
    NobodyLeft(v);
    LeadsOn(s, [SetShutdown, Broadcast], u, run, v);
    var more, s' := CanFree(v);
    LeadsOn(s, [SetShutdown, Broadcast] + run, v, more, s');
    SameLive(v, s');
  }

  lemma SameLive(s: Pool, t: Pool)
    requires t.threads == s.threads
    ensures Live(t) == Live(s)
  {}
}
