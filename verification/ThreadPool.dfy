/** server/thread_pool.c itself: a linked queue, the slot array and the counters, refining PoolModel step by step. */
module ThreadPool {
  import opened PoolModel

  class Work {
    const job: Job
    var next: Work?

    constructor (job: Job)
      ensures this.job == job && next == null
    {
      this.job := job;
      next := null;
    }
  }

  ghost function JobsOf(works: seq<Work>): (jobs: seq<Job>)
    ensures |jobs| == |works|
    ensures forall i :: 0 <= i < |works| ==> jobs[i] == works[i].job
  {
    seq(|works|, i requires 0 <= i < |works| => works[i].job)
  }

  lemma OneMoreJob(works: seq<Work>, work: Work)
    ensures JobsOf(works + [work]) == JobsOf(works) + [work.job]
  {}

  class TPool {
    var queueHead: Work?
    const thrId: array<Tid>
    var queueSize: int
    var nowThreads: int
    var shutdown: bool
    /** What the thread library knows: the threads there have been, and how each one stands. */
    var threads: map<Tid, Phase>
    var started: nat
    ghost var works: seq<Work>
    /** The state of the transition system these fields stand for. */
    ghost var state: Pool

    /** works is the chain of next pointers from queueHead. */
    ghost predicate Linked()
      reads this`queueHead, this`works, works
    {
      && queueHead == (if works == [] then null else works[0])
      && (forall i, j :: 0 <= i < j < |works| ==> works[i] != works[j])
      && forall i {:trigger works[i].next} :: 0 <= i < |works| ==>
           works[i].next == if i == |works| - 1 then null else works[i + 1]
    }

    ghost predicate Valid()
      reads this, thrId, works
    {
      && Linked() && thrId.Length > 0
      && state.slots == thrId[..] && state.threads == threads && state.started == started
      && state.queue == JobsOf(works)
      && state.queueSize == queueSize && state.nowThreads == nowThreads && state.shutdown == shutdown
    }

    /** tpool_create. */
    constructor (maxThreads: nat)
      requires maxThreads >= FIRST_WORKERS
      ensures Valid() && state == Initial(maxThreads) && fresh(thrId)
    {
      hide InitialThreads, InitialSlots, Tids, JobsOf;
      queueHead, queueSize, shutdown := null, 0, false;
      thrId := new Tid[maxThreads];
      threads, started, nowThreads := map[], 0, FIRST_WORKERS;
      works, state := [], Initial(maxThreads);
      new;
      StartWorkers();
    }

    /** Lines 90 to 102 of tpool_create: every slot empty, then the first ten filled. */
    method StartWorkers()
      requires thrId.Length >= FIRST_WORKERS && threads == map[] && started == 0
      modifies thrId, this`threads, this`started
      ensures thrId[..] == InitialSlots(thrId.Length)
      ensures threads == InitialThreads(FIRST_WORKERS) && started == FIRST_WORKERS
    {
      hide InitialThreads, Tids, InitialSlots;
      NoThreads();
      forall i | 0 <= i < thrId.Length {
        thrId[i] := 0;
      }
      for i := 0 to FIRST_WORKERS
        invariant started == i && threads == InitialThreads(i)
        invariant forall j :: 0 <= j < thrId.Length ==> thrId[j] == if j < i then j + 1 else 0
      {
        OneMoreThread(i);
        started := started + 1;
        threads := threads[started := Ready];
        thrId[i] := started;
      }
    }

    /** Lines 181 to 207: the first slot that is empty or whose thread pthread_kill no longer finds. */
    method GrowIfBusy()
      requires Valid()
      modifies this, thrId
      ensures Valid() && works == old(works)
      ensures state == if old(queueSize) >= MAX_ACTIVE then Grow(old(state)) else old(state)
    {
      if queueSize >= MAX_ACTIVE {
        var i := 0;
        ghost var k := FirstVacant(thrId[..], threads, 0);
        while i < thrId.Length && !Vacant(thrId[i], threads)
          invariant 0 <= i <= k
        {
          i := i + 1;
        }
        state := Grow(state);
        if i < thrId.Length {
          started := started + 1;
          threads := threads[started := Ready];
          thrId[i] := started;
          nowThreads := nowThreads + 1;
        }
      }
    }

    /** Lines 167 to 179: to the end of the queue. */
    method Append(work: Work)
      requires Linked() && work !in works && work.next == null
      modifies this`queueHead, this`works, works
      ensures Linked() && works == old(works) + [work]
    {
      var member := queueHead;
      if member == null {
        queueHead := work;
      } else {
        ghost var i := 0;
        while member.next != null
          invariant 0 <= i < |works| && member == works[i]
          decreases |works| - i
        {
          member := member.next;
          i := i + 1;
        }
        member.next := work;
      }
      works := works + [work];
    }

    /** queue_size++, before the arguments are looked at. */
    method BeginAdd()
      requires Valid()
      modifies this
      ensures Valid() && state == Step(old(state), AddBegin)
    {
      queueSize := queueSize + 1;
      state := Step(state, AddBegin);
    }

    /** The early returns: the increment stays. */
    method RejectAdd()
      requires Valid() && Enabled(state, AddReject)
      modifies this
      ensures Valid() && state == Step(old(state), AddReject)
    {
      state := Step(state, AddReject);
    }

    /** The locked region of tpool_add_work; woken is whom its signal happens to wake. */
    method AddWork(job: Job, woken: set<Tid>)
      requires Valid() && Enabled(state, AddLocked(job, woken))
      modifies this, thrId, works
      ensures Valid() && state == Step(old(state), AddLocked(job, woken))
    {
      hide Grow, Awake, SignalMayWake, JobsOf, Linked;
      ghost var before := state;
      var work := new Work(job);
      OneMoreJob(works, work);
      GrowIfBusy();
      Append(work);
      threads := Awake(threads, woken);
      state := Step(before, AddLocked(job, woken));
    }

    /** One pass of worker t through its locked region; the job it leaves with, if any, is in its phase. */
    method AcquireWork(t: Tid)
      requires Valid() && Enabled(state, Acquire(t))
      modifies this
      ensures Valid() && state == Step(old(state), Acquire(t))
    {
      state := Step(state, Acquire(t));
      if shutdown {
        threads := threads[t := Exited];
      } else if queueHead == null {
        threads := threads[t := Blocked];
      } else {
        threads := threads[t := Working(queueHead.job)];
        FirstJob(works);
        queueHead := queueHead.next;
        works := works[1..];
      }
    }

    /** The routine of worker t has returned. */
    method FinishWork(t: Tid)
      requires Valid() && Enabled(state, FinishJob(t))
      modifies this
      ensures Valid() && state == Step(old(state), FinishJob(t))
    {
      threads := threads[t := Finished];
      queueSize := queueSize - 1;
      state := Step(state, FinishJob(t));
    }

    /** Lines 40 to 45. */
    method RetireOrLoop(t: Tid)
      requires Valid() && Enabled(state, RetireTest(t))
      modifies this
      ensures Valid() && state == Step(old(state), RetireTest(t))
    {
      state := Step(state, RetireTest(t));
      if queueSize < MAX_ACTIVE && nowThreads > MAX_ACTIVE {
        nowThreads := nowThreads - 1;
        threads := threads[t := Exited];
      } else {
        threads := threads[t := Ready];
      }
    }

    /** tpool_destroy, first half: the flag is set outside the lock. A second call goes no further. */
    method RaiseShutdown() returns (goOn: bool)
      requires Valid()
      modifies this
      ensures Valid() && goOn == !old(shutdown)
      ensures state == if goOn then Step(old(state), SetShutdown) else old(state)
    {
      goOn := !shutdown;
      if goOn {
        shutdown := true;
        state := Step(state, SetShutdown);
      }
    }

    /** tpool_destroy, second half: everybody blocked is woken under the lock. */
    method WakeAll()
      requires Valid() && Enabled(state, Broadcast)
      modifies this
      ensures Valid() && state == Step(old(state), Broadcast)
    {
      threads := Awake(threads, Those(threads, IsBlocked));
      state := Step(state, Broadcast);
    }

    lemma HeadIsNull()
      requires Valid()
      ensures queueHead == null <==> state.queue == []
    {}

    /** One turn of the freeing loop. */
    method FreeHead()
      requires Valid() && Enabled(state, FreeOne)
      modifies this
      ensures Valid() && state == Step(old(state), FreeOne)
    {
      FirstJob(works);
      state := Step(state, FreeOne);
      queueHead := queueHead.next;
      works := works[1..];
    }

    /** The freeing loop of tpool_destroy: every job still queued is freed, oldest first. */
    method FreeQueue()
      requires Valid() && state.broadcast
      modifies this
      ensures Valid() && state == old(state).(queue := [], freed := old(state.freed) + old(state.queue))
    {
      hide JobsOf, Linked;
      ghost var first := state;
      HeadIsNull();
      while queueHead != null
        invariant Valid() && (queueHead == null <==> state.queue == [])
        invariant state == first.(queue := state.queue, freed := state.freed)
        invariant state.freed + state.queue == first.freed + first.queue
        decreases |state.queue|
      {
        ghost var freed, queue := state.freed, state.queue;
        FreeHead();
        HeadIsNull();
        OneFreed(freed, queue);
      }
      assert state.queue == [];
      assert state.freed == state.freed + state.queue;
    }
  }

  lemma OneFreed(freed: seq<Job>, queue: seq<Job>)
    requires queue != []
    ensures (freed + [queue[0]]) + queue[1..] == freed + queue
  {}

  lemma FirstJob(works: seq<Work>)
    requires works != []
    ensures JobsOf(works)[0] == works[0].job && JobsOf(works)[1..] == JobsOf(works[1..])
  {}
}
