/** The work queue of server/thread_pool.c as a transition system over its workers. */
module PoolModel {
  type Tid = nat
  type Job = nat

  const FIRST_WORKERS: nat := 10
  const MAX_ACTIVE: nat := 32

  /** Where a worker is in thread_routine. */
  datatype Phase =
    | Ready               // about to lock: just created, or back from the retire test
    | Blocked             // in pthread_cond_wait, not woken
    | Signalled           // woken, waiting to lock again
    | Working(job: Job)   // running a routine outside the lock
    | Finished            // routine done and counted, retire test to come
    | Exited

  /** The shared variables, and from adding on what has happened so far. */
  datatype Pool = Pool(
    slots: seq<Tid>,
    threads: map<Tid, Phase>,
    started: nat,
    queue: seq<Job>,
    queueSize: int,
    nowThreads: int,
    shutdown: bool,
    broadcast: bool,
    adding: nat,
    rejected: nat,
    added: seq<Job>,
    dispatched: seq<Job>,
    freed: seq<Job>,
    finished: seq<Job>)

  datatype Event =
    | AddBegin                               // queue_size++
    | AddReject                              // no routine, or no memory: return -1
    | AddLocked(job: Job, woken: set<Tid>)   // the locked region of tpool_add_work
    | Acquire(t: Tid)                        // the locked region of thread_routine
    | FinishJob(t: Tid)                      // the routine returns, queue_size--
    | RetireTest(t: Tid)
    | Spurious(t: Tid)                       // a wakeup nobody sent
    | SetShutdown
    | Broadcast
    | FreeOne                                // one turn of the freeing loop of tpool_destroy

  /** The thread ids handed out so far: a new thread gets one never used before. */
  function Tids(n: nat): (tids: set<Tid>)
    ensures forall t :: t in tids <==> 1 <= t <= n
    ensures |tids| == n
  {
    if n == 0 then {} else Tids(n - 1) + {n}
  }

  function InitialThreads(n: nat): map<Tid, Phase> {
    map t | t in Tids(n) :: Ready
  }

  lemma NoThreads()
    ensures InitialThreads(0) == map[]
  {}

  lemma OneMoreThread(n: nat)
    ensures InitialThreads(n + 1) == InitialThreads(n)[n + 1 := Ready]
  {
    hide Tids;
  }

  function InitialSlots(maxThreads: nat): (slots: seq<Tid>)
    requires maxThreads >= FIRST_WORKERS
    ensures |slots| == maxThreads
    ensures forall i :: 0 <= i < maxThreads ==> slots[i] == if i < FIRST_WORKERS then i + 1 else 0
  {
    seq(maxThreads, i => if 0 <= i < FIRST_WORKERS then i + 1 else 0)
  }

  function Initial(maxThreads: nat): Pool
    requires maxThreads >= FIRST_WORKERS
  {
    Pool(InitialSlots(maxThreads), InitialThreads(FIRST_WORKERS), FIRST_WORKERS, [], 0, FIRST_WORKERS, false, false,
         0, 0, [], [], [], [])
  }

  predicate Is(s: Pool, t: Tid, p: Phase) {
    t in s.threads && s.threads[t] == p
  }

  datatype Kind = IsReady | IsBlocked | IsSignalled | IsWorking | IsFinished | IsLive

  predicate Has(p: Phase, kind: Kind) {
    match kind
    case IsReady => p.Ready?
    case IsBlocked => p.Blocked?
    case IsSignalled => p.Signalled?
    case IsWorking => p.Working?
    case IsFinished => p.Finished?
    case IsLive => !p.Exited?
  }

  function Those(threads: map<Tid, Phase>, kind: Kind): set<Tid> {
    set t | t in threads && Has(threads[t], kind)
  }

  function BlockedIn(s: Pool): set<Tid> { Those(s.threads, IsBlocked) }

  function SignalledIn(s: Pool): set<Tid> { Those(s.threads, IsSignalled) }

  function WorkingIn(s: Pool): set<Tid> { Those(s.threads, IsWorking) }

  function Live(s: Pool): set<Tid> { Those(s.threads, IsLive) }

  /** A signal wakes somebody if anybody is blocked, possibly more than one. */
  predicate SignalMayWake(s: Pool, woken: set<Tid>) {
    woken <= BlockedIn(s) && (BlockedIn(s) != {} ==> woken != {})
  }

  function Awake(threads: map<Tid, Phase>, woken: set<Tid>): map<Tid, Phase> {
    map t | t in threads :: if t in woken then Signalled else threads[t]
  }

  function Wake(s: Pool, woken: set<Tid>): Pool {
    s.(threads := Awake(s.threads, woken))
  }

  /** A slot that is empty or whose thread has exited. */
  predicate Vacant(t: Tid, threads: map<Tid, Phase>) {
    t == 0 || (t in threads && threads[t].Exited?)
  }

  function FirstVacant(slots: seq<Tid>, threads: map<Tid, Phase>, i: nat): (k: nat)
    requires i <= |slots|
    ensures i <= k <= |slots|
    ensures k < |slots| ==> Vacant(slots[k], threads)
    ensures forall j :: i <= j < k ==> !Vacant(slots[j], threads)
    decreases |slots| - i
  {
    if i == |slots| || Vacant(slots[i], threads) then i else FirstVacant(slots, threads, i + 1)
  }

  /** The growing branch of tpool_add_work: one new worker in the first vacant slot, if there is one. */
  function Grow(s: Pool): Pool {
    var k := FirstVacant(s.slots, s.threads, 0);
    if k == |s.slots| then s
    else s.(slots := s.slots[k := s.started + 1], threads := s.threads[s.started + 1 := Ready],
            started := s.started + 1, nowThreads := s.nowThreads + 1)
  }

  function Enqueue(s: Pool, job: Job): Pool {
    s.(queue := s.queue + [job], added := s.added + [job])
  }

  function Move(s: Pool, t: Tid, p: Phase): Pool {
    s.(threads := s.threads[t := p])
  }

  predicate Enabled(s: Pool, e: Event) {
    match e
    case AddBegin => true
    case AddReject => s.adding > 0
    case AddLocked(_, woken) => s.adding > 0 && SignalMayWake(s, woken)
    case Acquire(t) => Is(s, t, Ready) || Is(s, t, Signalled)
    case FinishJob(t) => t in s.threads && s.threads[t].Working?
    case RetireTest(t) => Is(s, t, Finished)
    case Spurious(t) => Is(s, t, Blocked)
    case SetShutdown => true
    case Broadcast => s.shutdown
    case FreeOne => s.broadcast && s.queue != []
  }

  function Step(s: Pool, e: Event): Pool
    requires Enabled(s, e)
  {
    match e
    case AddBegin => s.(queueSize := s.queueSize + 1, adding := s.adding + 1)
    case AddReject => s.(adding := s.adding - 1, rejected := s.rejected + 1)
    case AddLocked(job, woken) =>
      Wake(Enqueue(if s.queueSize >= MAX_ACTIVE then Grow(s) else s, job), woken).(adding := s.adding - 1)
    case Acquire(t) =>
      if s.shutdown then Move(s, t, Exited)
      else if s.queue == [] then Move(s, t, Blocked)
      else Move(s, t, Working(s.queue[0])).(queue := s.queue[1..], dispatched := s.dispatched + [s.queue[0]])
    case FinishJob(t) =>
      Move(s, t, Finished).(queueSize := s.queueSize - 1, finished := s.finished + [s.threads[t].job])
    case RetireTest(t) =>
      if s.queueSize < MAX_ACTIVE && s.nowThreads > MAX_ACTIVE
      then Move(s, t, Exited).(nowThreads := s.nowThreads - 1)
      else Move(s, t, Ready)
    case Spurious(t) => Move(s, t, Signalled)
    case SetShutdown => s.(shutdown := true)
    case Broadcast => Wake(s, BlockedIn(s)).(broadcast := true)
    case FreeOne => s.(queue := s.queue[1..], freed := s.freed + [s.queue[0]])
  }

  /** s leads to s' by the events of run, each enabled when its turn comes. */
  predicate Leads(s: Pool, run: seq<Event>, s': Pool)
    decreases run
  {
    if run == [] then s == s'
    else Enabled(s, run[0]) && Leads(Step(s, run[0]), run[1..], s')
  }

  ghost predicate Reachable(s: Pool) {
    exists maxThreads: nat, run: seq<Event> ::
      maxThreads >= FIRST_WORKERS && Leads(Initial(maxThreads), run, s)
  }
}
