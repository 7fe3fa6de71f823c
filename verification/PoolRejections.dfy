/** A pool that has rejected 32 adds: it grows, runs out of work, and keeps every worker. */
module PoolRejections {
  import opened PoolModel
  import opened PoolSafety
  import opened PoolProperties

  lemma LeadsThen(s: Pool, run: seq<Event>, t: Pool, e: Event)
    requires Leads(s, run, t) && Enabled(t, e)
    ensures Leads(s, run + [e], Step(t, e))
    decreases run
  {
    hide Enabled, Step;
    if run == [] {
      assert ([] + [e])[1..] == [] && ([] + [e])[0] == e;
      assert Leads(Step(t, e), [], Step(t, e));
    } else {
      LeadsThen(Step(s, run[0]), run[1..], t, e);
      assert (run + [e])[1..] == run[1..] + [e] && (run + [e])[0] == run[0];
    }
  }

  lemma ReachableThen(t: Pool, e: Event)
    requires Reachable(t) && Enabled(t, e)
    ensures Reachable(Step(t, e))
  {
    hide Enabled, Step, Leads, Initial;
    var maxThreads: nat, run: seq<Event> :| maxThreads >= FIRST_WORKERS && Leads(Initial(maxThreads), run, t);
    LeadsThen(Initial(maxThreads), run, t, e);
  }

  /** n rejected adds, one after the other. */
  lemma {:induction false} Reject(s: Pool, n: nat) returns (t: Pool)
    requires Reachable(s)
    ensures Reachable(t) && t == s.(queueSize := s.queueSize + n, rejected := s.rejected + n)
    decreases n
  {
    hide Reachable;
    t := s;
    if n > 0 {
      var u := Reject(s, n - 1);
      ReachableThen(u, AddBegin);
      ReachableThen(Step(u, AddBegin), AddReject);
      t := Step(Step(u, AddBegin), AddReject);
    }
  }

  /** n workers, all ready, in the first n slots; nothing to do; the counter off by the rejected adds. */
  predicate Resting(s: Pool, n: nat) {
    && FIRST_WORKERS <= n <= |s.slots| && s.threads == InitialThreads(n) && s.started == n && s.nowThreads == n
    && (forall i :: 0 <= i < |s.slots| ==> s.slots[i] == if i < n then i + 1 else 0)
    && s.queue == [] && s.queueSize == s.rejected == MAX_ACTIVE && s.adding == 0 && !s.shutdown
  }

  lemma NextSlot(s: Pool, n: nat)
    requires Resting(s, n) && n < |s.slots|
    ensures FirstVacant(s.slots, s.threads, 0) == n
  {
    assert Vacant(s.slots[n], s.threads);
    assert forall i :: 0 <= i < n ==> !Vacant(s.slots[i], s.threads);
  }

  lemma NobodyBlocked(n: nat)
    ensures Those(InitialThreads(n), IsBlocked) == {} && Those(InitialThreads(n), IsWorking) == {}
    ensures Awake(InitialThreads(n), {}) == InitialThreads(n)
    ensures n > 0 ==> 1 in InitialThreads(n) && InitialThreads(n)[1] == Ready
  {
    InitialThose(n);
  }

  /** An add starts one more worker, and worker 1 takes the job and finishes it. */
  lemma OneMore(s: Pool, n: nat, job: Job) returns (t: Pool)
    requires Reachable(s) && Resting(s, n) && n < |s.slots|
    ensures Reachable(t) && Is(t, 1, Finished) && Resting(Move(t, 1, Ready), n + 1)
    ensures WorkingIn(t) == {} && |t.slots| == |s.slots|
  {
    hide Reachable, InitialThreads, FirstVacant, Those;
    NextSlot(s, n);
    NobodyBlocked(n);
    NobodyBlocked(n + 1);
    OneMoreThread(n);
    ReachableThen(s, AddBegin);
    var u := Step(s, AddBegin);
    ReachableThen(u, AddLocked(job, {}));
    u := Step(u, AddLocked(job, {}));
    assert u.threads == InitialThreads(n + 1) && u.queue == [job];
    ReachableThen(u, Acquire(1));
    u := Step(u, Acquire(1));
    ReachableThen(u, FinishJob(1));
    t := Step(u, FinishJob(1));
    assert t.threads == InitialThreads(n + 1)[1 := Finished];
    SetThose(InitialThreads(n + 1), 1, Finished, IsWorking);
    assert t.threads[1 := Ready] == InitialThreads(n + 1);
  }

  /** Again and again, up to n workers. */
  lemma {:induction false} Grows(s: Pool, m: nat, n: nat, job: Job) returns (t: Pool)
    requires Reachable(s) && Resting(s, m) && m <= n <= |s.slots|
    ensures Reachable(t) && Resting(t, n) && |t.slots| == |s.slots|
    decreases n - m
  {
    hide Reachable, Resting, InitialThreads;
    t := s;
    if m < n {
      var u := OneMore(s, m, job);
      RetireFails(u, m + 1);
      ReachableThen(u, RetireTest(1));
      t := Grows(Step(u, RetireTest(1)), m + 1, n, job);
    }
  }

  lemma RetireFails(s: Pool, n: nat)
    requires Is(s, 1, Finished) && Resting(Move(s, 1, Ready), n)
    ensures Enabled(s, RetireTest(1)) && Step(s, RetireTest(1)) == Move(s, 1, Ready)
  {
    hide InitialThreads;
  }

  /** It comes to that in every pool with room for 33 workers: 32 adds are rejected, 23 accepted and done, and then
      33 workers have nothing to do, and the retire test of worker 1, as of any other, sends it back. */
  lemma IdleWorkersStay(maxThreads: nat, job: Job)
    requires maxThreads > MAX_ACTIVE
    ensures exists s :: Reachable(s) && s.rejected == MAX_ACTIVE && s.nowThreads > MAX_ACTIVE && |s.slots| == maxThreads
                     && s.queue == [] && WorkingIn(s) == {} && s.adding == 0
                     && Enabled(s, RetireTest(1)) && Step(s, RetireTest(1)) == Move(s, 1, Ready)
  {
    hide Reachable, InitialThreads, InitialSlots;
    StartIsReachable(maxThreads);
    var s := Reject(Initial(maxThreads), MAX_ACTIVE);
    var t := Grows(s, FIRST_WORKERS, MAX_ACTIVE, job);
    var u := OneMore(t, MAX_ACTIVE, job);
    RetireFails(u, MAX_ACTIVE + 1);
    assert u.rejected == MAX_ACTIVE;
  }

  lemma StartIsReachable(maxThreads: nat)
    requires maxThreads >= FIRST_WORKERS
    ensures Reachable(Initial(maxThreads))
  {
    assert Leads(Initial(maxThreads), [], Initial(maxThreads));
  }
}
