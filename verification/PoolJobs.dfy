/** Which job each worker runs: every job added is finished, running, freed or queued, once. */
module PoolJobs {
  import opened PoolModel
  import opened PoolSafety

  predicate Runs(threads: map<Tid, Phase>, t: Tid, job: Job) {
    t in threads && threads[t] == Working(job)
  }

  /** How many of the workers 1 to n are running the job. */
  function Runners(threads: map<Tid, Phase>, n: nat, job: Job): nat {
    if n == 0 then 0 else Runners(threads, n - 1, job) + Count(Runs(threads, n, job))
  }

  /** What one worker runs is changed, and nothing else. */
  lemma {:induction false} RunnersMove(threads: map<Tid, Phase>, n: nat, t: Tid, p: Phase, job: Job)
    requires t >= 1
    ensures Runners(threads[t := p], n, job)
         == Runners(threads, n, job) + (if t <= n then Count(p == Working(job)) - Count(Runs(threads, t, job)) else 0)
    decreases n
  {
    hide Count;
    if n > 0 {
      RunnersMove(threads, n - 1, t, p, job);
    }
  }

  lemma {:induction false} RunnersAwake(threads: map<Tid, Phase>, n: nat, woken: set<Tid>, job: Job)
    requires woken <= Those(threads, IsBlocked)
    ensures Runners(Awake(threads, woken), n, job) == Runners(threads, n, job)
    decreases n
  {
    if n > 0 {
      RunnersAwake(threads, n - 1, woken, job);
      StillRuns(threads, woken, n, job);
    }
  }

  lemma StillRuns(threads: map<Tid, Phase>, woken: set<Tid>, t: Tid, job: Job)
    requires woken <= Those(threads, IsBlocked)
    ensures Runs(Awake(threads, woken), t, job) == Runs(threads, t, job)
  {}

  lemma RunnersGrown(s: Pool, job: Job)
    ensures Runners(Grown(s).threads, Grown(s).started, job) == Runners(s.threads, s.started, job)
  {
    hide FirstVacant, Count;
    RunnersMove(s.threads, s.started, s.started + 1, Ready, job);
    NewRunsNothing(s.threads, s.started + 1, job);
  }

  lemma NewRunsNothing(threads: map<Tid, Phase>, t: Tid, job: Job)
    ensures Count(Runs(threads[t := Ready], t, job)) == 0
  {}

  /** Of this job as many have been dispatched as are finished or running. */
  predicate Conserved(s: Pool, job: Job) {
    multiset(s.dispatched)[job] == multiset(s.finished)[job] + Runners(s.threads, s.started, job)
  }

  lemma AddConserves(s: Pool, added: Job, woken: set<Tid>, job: Job)
    requires Conserved(s, job) && SlotsOk(s.slots, s.threads, s.started) && Enabled(s, AddLocked(added, woken))
    ensures Conserved(Step(s, AddLocked(added, woken)), job)
  {
    hide SlotsOk, Awake, Those, Grow, FirstVacant, Runners;
    GrownRest(s);
    GrownNumbers(s);
    RunnersGrown(s, job);
    RunnersAwake(Grown(s).threads, Grown(s).started, woken, job);
  }

  lemma ThreadsKnown(s: Pool, t: Tid)
    requires SlotsOk(s.slots, s.threads, s.started) && t in s.threads
    ensures 1 <= t <= s.started
  {}

  lemma OneMore(s: seq<Job>, x: Job, job: Job)
    ensures multiset(s + [x])[job] == multiset(s)[job] + Count(x == job)
  {}

  lemma AcquireConserves(s: Pool, t: Tid, job: Job)
    requires Conserved(s, job) && SlotsOk(s.slots, s.threads, s.started) && Enabled(s, Acquire(t))
    ensures Conserved(Step(s, Acquire(t)), job)
  {
    hide SlotsOk, Runners;
    ThreadsKnown(s, t);
    RunnersMove(s.threads, s.started, t, Step(s, Acquire(t)).threads[t], job);
    if s.queue != [] {
      OneMore(s.dispatched, s.queue[0], job);
    }
  }

  lemma FinishConserves(s: Pool, t: Tid, job: Job)
    requires Conserved(s, job) && SlotsOk(s.slots, s.threads, s.started) && Enabled(s, FinishJob(t))
    ensures Conserved(Step(s, FinishJob(t)), job)
  {
    hide SlotsOk, Runners;
    ThreadsKnown(s, t);
    RunnersMove(s.threads, s.started, t, Finished, job);
    OneMore(s.finished, s.threads[t].job, job);
  }

  /** A worker that neither took nor finished anything moves on. */
  lemma MoveConserves(s: Pool, e: Event, t: Tid, job: Job)
    requires Conserved(s, job) && SlotsOk(s.slots, s.threads, s.started) && Enabled(s, e)
    requires e == RetireTest(t) || e == Spurious(t)
    ensures Conserved(Step(s, e), job)
  {
    hide SlotsOk, Runners;
    ThreadsKnown(s, t);
    RunnersMove(s.threads, s.started, t, Step(s, e).threads[t], job);
  }

  lemma StepConserves(s: Pool, e: Event, job: Job)
    requires Conserved(s, job) && SlotsOk(s.slots, s.threads, s.started) && Enabled(s, e)
    ensures Conserved(Step(s, e), job)
  {
    hide SlotsOk, Awake, Those, Grow, FirstVacant, Runners, SignalMayWake;
    match e
    case AddLocked(added, woken) => AddConserves(s, added, woken, job);
    case Acquire(t) => AcquireConserves(s, t, job);
    case FinishJob(t) => FinishConserves(s, t, job);
    case RetireTest(t) => MoveConserves(s, e, t, job);
    case Spurious(t) => MoveConserves(s, e, t, job);
    case Broadcast => RunnersAwake(s.threads, s.started, BlockedIn(s), job);
    case AddBegin =>
    case AddReject =>
    case SetShutdown =>
    case FreeOne =>
  }

  lemma {:induction false} RunConserves(s: Pool, run: seq<Event>, s': Pool, job: Job)
    requires Inv(s) && Conserved(s, job) && Leads(s, run, s')
    ensures Conserved(s', job)
    decreases run
  {
    hide CountersOk, JobsOk, NoLostWakeup, SlotsOk, Conserved, Step, Enabled;
    if run != [] {
      StepInv(s, run[0]);
      StepConserves(s, run[0], job);
      RunConserves(Step(s, run[0]), run[1..], s', job);
    }
  }

  lemma {:induction false} NothingRuns(n: nat, m: nat, job: Job)
    ensures Runners(InitialThreads(m), n, job) == 0
    decreases n
  {
    hide Tids;
    if n > 0 {
      NothingRuns(n - 1, m, job);
    }
  }

  /** In every reachable state a job has been added as often as it has been finished, is being run, was freed and
      waits, together: workers run the jobs that were dispatched and no others. */
  lemma JobsRunOnce(s: Pool, job: Job)
    requires Reachable(s)
    ensures multiset(s.dispatched)[job] == multiset(s.finished)[job] + Runners(s.threads, s.started, job)
    ensures multiset(s.added)[job] == multiset(s.finished)[job] + Runners(s.threads, s.started, job)
                                      + multiset(s.freed)[job] + multiset(s.queue)[job]
  {
    hide Inv, Leads, Runners, InitialThreads, InitialSlots;
    var maxThreads: nat, run: seq<Event> :|
      maxThreads >= FIRST_WORKERS && Leads(Initial(maxThreads), run, s);
    InitialInv(maxThreads);
    NothingRuns(FIRST_WORKERS, FIRST_WORKERS, job);
    RunConserves(Initial(maxThreads), run, s, job);
    ReachableInv(s);
    AddedParts(s);
  }

  lemma AddedParts(s: Pool)
    requires Inv(s)
    ensures multiset(s.added) == multiset(s.dispatched) + multiset(s.freed) + multiset(s.queue)
  {
    hide SlotsOk, CountersOk, NoLostWakeup;
  }
}
