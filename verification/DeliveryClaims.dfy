/** The delayed set: who takes an id out of it, how often, and when. */
module DeliveryClaims {
  import opened Redis
  import opened Delivery
  import opened DeliveryPlaces
  import opened DeliverySafety
  import opened Wrappers

  /** A zadd still on a pipe carries the due time of its id, which nobody has taken yet. */
  ghost predicate PipeTimes(pipe: seq<Command>, due: map<Id, int>, taken: set<Id>) {
    forall i :: 0 <= i < |pipe| && pipe[i].ZAdd? ==>
      pipe[i].id in due && due[pipe[i].id] == pipe[i].score && pipe[i].id !in taken
  }

  ghost predicate PipesTimes(workers: map<WorkerId, Worker>, due: map<Id, int>, taken: set<Id>) {
    forall w :: w in workers ==> PipeTimes(workers[w].pipe, due, taken)
  }

  /** Who waits has its due time as score and was never taken; who was claimed was due by then. */
  ghost predicate TimesOk(delayed: map<Id, int>, due: map<Id, int>, claimed: map<Id, int>, taken: set<Id>, now: int) {
    && (forall id :: id in delayed ==> id in due && delayed[id] == due[id] && id !in taken)
    && (forall id :: id in claimed ==> id in due && due[id] <= claimed[id] <= now && id in taken)
  }

  ghost predicate TimedData(workers: map<WorkerId, Worker>, delayed: map<Id, int>, created: map<Id, Put>,
                            due: map<Id, int>, claimed: map<Id, int>, taken: set<Id>, now: int)
  {
    && PipesTimes(workers, due, taken) && TimesOk(delayed, due, claimed, taken, now)
    && taken <= created.Keys && due.Keys <= created.Keys
  }

  ghost predicate Timed(s: System) {
    TimedData(s.workers, s.delayed, s.created, s.due, s.claimed, s.taken, s.now)
  }

  lemma {:induction false} PendingZAddIsHeld(hand: Option<Id>, watch: Watch, pipe: seq<Command>, i: nat)
    requires PipeOk(hand, watch, pipe) && i < |pipe| && pipe[i].ZAdd?
    ensures hand == Some(pipe[i].id)
    decreases pipe
  {
    if i > 0 {
      if pipe[0].Multi? || pipe[0].QueueZRem? {
        assert pipe[1..][|pipe| - 2] == pipe[|pipe| - 1];
      }
      PendingZAddIsHeld(hand, watch, pipe[1..], i - 1);
    }
  }

  lemma PipesTimesSet(workers: map<WorkerId, Worker>, due: map<Id, int>, taken: set<Id>, w: WorkerId, x: Worker)
    requires PipesTimes(workers, due, taken) && PipeTimes(x.pipe, due, taken)
    ensures PipesTimes(workers[w := x], due, taken)
  {}

  lemma PipeTimesTail(pipe: seq<Command>, due: map<Id, int>, taken: set<Id>)
    requires PipeTimes(pipe, due, taken) && pipe != []
    ensures PipeTimes(pipe[1..], due, taken)
  {}

  lemma PipesTimesNotice(workers: map<WorkerId, Worker>, due: map<Id, int>, taken: set<Id>)
    requires PipesTimes(workers, due, taken)
    ensures PipesTimes(Notice(workers), due, taken)
  {}

  /** Taking an id that is in nobody's hand spoils nobody's zadd. */
  lemma PipesTimesTake(s: System, id: Id)
    requires Placed(s) && PipesTimes(s.workers, s.due, s.taken) && (id in s.place ==> !s.place[id].Held?)
    ensures PipesTimes(s.workers, s.due, s.taken + {id})
  {
    hide ListsOk, DelayedOk, LostOk, WatchesOk;
    forall w, i: nat | w in s.workers && i < |s.workers[w].pipe| && s.workers[w].pipe[i].ZAdd?
      ensures s.workers[w].pipe[i].id != id
    {
      PendingZAddIsHeld(s.workers[w].hand, s.workers[w].watch, s.workers[w].pipe, i);
      assert HandAt(s.workers, w) == s.workers[w].hand;
    }
  }

  lemma PutTimes(p: Put, due: map<Id, int>, taken: set<Id>)
    requires p.id !in taken
    requires Placing(p).ZAdd? ==> p.id in due && due[p.id] == Placing(p).score
    ensures PipeTimes(PutCommands(p), due, taken)
  {
    hide Placing;
    var pipe := PutCommands(p);
    assert pipe == Before(p) + [Placing(p)] + (Record(p) + [ExpireRecord(p.id)]);
    assert forall i :: 0 <= i < |Before(p)| ==> !Before(p)[i].ZAdd?;
    assert forall i :: 0 <= i < |Record(p)| ==> !Record(p)[i].ZAdd?;
    PlacingId(p);
  }

  lemma PlacingId(p: Put)
    ensures (Placing(p).ZAdd? || Placing(p).LPush?) && Placing(p).id == p.id
  {}

  lemma FreshPutTimes(s: System, p: Put, due: map<Id, int>)
    requires Placed(s) && Timed(s) && p.id !in s.created
    requires due == if Placing(p).ZAdd? then s.due[p.id := Placing(p).score] else s.due
    ensures p.id !in s.taken && p.id !in s.delayed && PipesTimes(s.workers, due, s.taken)
    ensures TimesOk(s.delayed, due, s.claimed, s.taken, s.now) && due.Keys <= s.created.Keys + {p.id}
  {
    hide Placing, ListsOk, HandsOk, LostOk, PipesOk, WatchesOk;
    assert p.id !in s.due && p.id !in s.taken && p.id !in s.delayed;
  }

  lemma StartPutTimed(s: System, e: Event)
    requires Placed(s) && Timed(s) && e.StartPut? && Enabled(s, e)
    ensures Timed(Step(s, e))
  {
    hide PutCommands, Placing, Placed, PipesTimes, PipeTimes, TimesOk;
    var s' := Step(s, e);
    FreshPutTimes(s, e.p, s'.due);
    PlacingId(e.p);
    PutTimes(e.p, s'.due, s.taken);
    PipesTimesSet(s.workers, s'.due, s.taken, e.w, WorkerAt(s', e.w));
  }

  lemma RunTimed(s: System, w: WorkerId)
    requires Placed(s) && Timed(s) && s.heeds && Enabled(s, Run(w))
    ensures Timed(Step(s, Run(w)))
  {
    hide Placed, Timed, PipeTimes, RunCommand, WatchOk, DeliveryPlaces.Is;
    WorkerOk(s, w);
    var y := WorkerAt(s, w);
    var x, c := y.(pipe := y.pipe[1..]), y.pipe[0];
    PipeTimesAt(s, w);
    PipeTimesTail(y.pipe, s.due, s.taken);
    match c
    case ZAdd(_, _) => RunZAddTimed(s, w, x, c);
    case RPop(_) => RunRPopTimed(s, w, x, c);
    case Exec(_) => RunExecTimed(s, w, x, c);
    case _ => RunOtherTimed(s, w, x, c);
  }

  lemma RunOtherTimed(s: System, w: WorkerId, x: Worker, c: Command)
    requires Timed(s) && !c.ZAdd? && !c.RPop? && !c.Exec? && PipeTimes(x.pipe, s.due, s.taken)
    ensures Timed(RunCommand(s, w, x, c))
  {
    hide PipesTimes, TimesOk, PipeTimes, Notice, ListAt, Dropping;
    PipesTimesSet(s.workers, s.due, s.taken, w, x);
    PipesTimesSet(s.workers, s.due, s.taken, w, x.(hand := None));
    match c
    case LPush(_, _) =>
    case LRem(_, _) =>
    case HSet(_, _, _) =>
    case ExpireRecord(_) =>
    case Multi =>
    case QueueZRem(_) =>
    case Aside(_) =>
  }

  lemma PipeTimesAt(s: System, w: WorkerId)
    requires Timed(s)
    ensures var pipe := WorkerAt(s, w).pipe;
      PipeTimes(pipe, s.due, s.taken) && (pipe != [] ==> PipeTimes([pipe[0]], s.due, s.taken))
  {}

  lemma RunZAddTimed(s: System, w: WorkerId, x: Worker, c: Command)
    requires Timed(s) && c.ZAdd? && PipeTimes([c], s.due, s.taken) && PipeTimes(x.pipe, s.due, s.taken)
    ensures Timed(RunCommand(s, w, x, c))
  {
    hide PipesTimes, Notice;
    assert [c][0] == c;
    PipesTimesSet(s.workers, s.due, s.taken, w, x.(hand := None));
    PipesTimesNotice(s.workers[w := x.(hand := None)], s.due, s.taken);
  }

  lemma PoppedIsListed(s: System, key: Key)
    requires PlacesOk(s) && ListAt(s.lists, key) != [] && !key.Read?
    ensures var list := ListAt(s.lists, key);
      var id := list[|list| - 1];
      DeliveryPlaces.Is(s.place, id, Listed(key)) && id in s.created && id !in s.delayed
  {
    hide HandsOk, LostOk;
    var list := ListAt(s.lists, key);
    ListsHold(s.lists, s.place, key);
    assert list[|list| - 1] in list;
  }

  lemma RunRPopTimed(s: System, w: WorkerId, x: Worker, c: Command)
    requires Placed(s) && Timed(s) && c.RPop? && !c.key.Read? && x.pipe == []
    ensures Timed(RunCommand(s, w, x, c))
  {
    hide Placed, TimedData;
    var list := ListAt(s.lists, c.key);
    NoZAddTimes([], s.due, s.taken);
    if list == [] {
      KeepTimed(s, w, x);
    } else {
      RPopTimedData(s, w, x.(hand := Some(list[|list| - 1])), c.key);
    }
  }

  lemma RPopTimedData(s: System, w: WorkerId, x: Worker, key: Key)
    requires Placed(s) && Timed(s) && x.pipe == [] && ListAt(s.lists, key) != [] && !key.Read?
    ensures var list := ListAt(s.lists, key);
      TimedData(s.workers[w := x], s.delayed, s.created, s.due, s.claimed, s.taken + {list[|list| - 1]}, s.now)
  {
    hide PlacesOk, PipesOk, WatchesOk, PipesTimes, PipeTimes;
    var list := ListAt(s.lists, key);
    var id := list[|list| - 1];
    PoppedIsListed(s, key);
    PipesTimesTake(s, id);
    NoZAddTimes([], s.due, s.taken + {id});
    PipesTimesSet(s.workers, s.due, s.taken + {id}, w, x);
  }

  lemma RunExecTimed(s: System, w: WorkerId, x: Worker, c: Command)
    requires Placed(s) && Timed(s) && s.heeds && c.Exec? && x.pipe == []
    requires x.watch.Watching? && x.watch.seen == Some(c.id)
    requires WatchOk(x.watch, s.delayed, s.now)
    ensures Timed(RunCommand(s, w, x, c))
  {
    hide Placed, Timed, Take, Claim, SetWorker;
    if x.watch.dirty {
      NoZAddTimes([], s.due, s.taken);
      KeepTimed(s, w, x.(watch := Unwatched));
    } else {
      ClaimTimed(s, w, x.(watch := Unwatched), c.id);
    }
  }

  lemma ClaimTimed(s: System, w: WorkerId, x: Worker, id: Id)
    requires Placed(s) && Timed(s) && x.pipe == [] && id in s.delayed && s.delayed[id] <= s.now
    ensures Timed(Take(Claim(s, id), w, x, id))
  {
    hide ListsOk, HandsOk, LostOk, PipesOk, WatchesOk, PipesTimes, Notice;
    var taken := s.taken + {id};
    assert DeliveryPlaces.Is(s.place, id, Delayed);
    PipesTimesTake(s, id);
    PipesTimesNotice(s.workers, s.due, taken);
    PipesTimesSet(Notice(s.workers), s.due, taken, w, x.(hand := Some(id)));
  }

  lemma KeepTimed(s: System, w: WorkerId, x: Worker)
    requires Timed(s) && PipeTimes(x.pipe, s.due, s.taken)
    ensures Timed(SetWorker(s, w, x))
  {
    hide PipesTimes, TimesOk, PipeTimes;
    PipesTimesSet(s.workers, s.due, s.taken, w, x);
  }

  lemma LoseTimed(s: System, w: WorkerId, x: Worker)
    requires Timed(s) && PipeTimes(x.pipe, s.due, s.taken)
    ensures Timed(Lose(s, w, x))
  {
    hide TimedData;
    KeepTimed(s, w, x);
  }

  lemma NoZAddTimes(pipe: seq<Command>, due: map<Id, int>, taken: set<Id>)
    requires forall i :: 0 <= i < |pipe| ==> !pipe[i].ZAdd?
    ensures PipeTimes(pipe, due, taken)
  {}

  lemma OutsideTimed(s: System, e: Event)
    requires Timed(s) && Enabled(s, e) && (e.Expire? || e.Tick?)
    ensures Timed(Step(s, e))
  {
    hide PipesTimes, PipeTimes;
  }

  /** What only starts something, drops something or lets time pass. */
  lemma RestTimed(s: System, e: Event)
    requires Timed(s) && Enabled(s, e) && !e.StartPut? && !e.Run?
    ensures Timed(Step(s, e))
  {
    hide Timed, PipeTimes, PutCommands, RunCommand, Lose, SetWorker, SentId, Addressee, AckCommands, ClaimCommands;
    hide RecordOf;
    if e.Expire? || e.Tick? {
      OutsideTimed(s, e);
    } else {
      var x := WorkerAt(s, e.w);
      PipeTimesAt(s, e.w);
      NoZAddTimes([], s.due, s.taken);
      match e
      case StartPop(w, key) => StartTimed(s, w, [RPop(key)]);
      case StartAck(w, server, order) =>
        var id, to := SentId(s, x.hand.value, order), Addressee(s, x.hand.value, order);
        var commands := AckCommands(id, to, server);
        AckTimes(id, to, server, s.due, s.taken);
        KeepTimed(s, w, x.(pipe := commands));
        SentTimed(SetWorker(s, w, x.(pipe := commands)), Step(s, e).sent);
        LoseTimed(s, w, x.(pipe := commands).(hand := None));
      case StartSaveInNoread(w, order) =>
        var commands := [LPush(NoRead(Addressee(s, x.hand.value, order)), x.hand.value)];
        StartTimed(s, w, commands);
        SentTimed(SetWorker(s, w, x.(pipe := commands)), Step(s, e).sent);
      case StartSaveInPushlist(w, server) => StartTimed(s, w, [LPush(PushList(server), x.hand.value)]);
      case StartClaim(w) =>
        ClaimTimesNothing(x.watch.seen.value);
        StartTimed(s, w, ClaimCommands(x.watch.seen.value));
      case Drop(w) => LoseTimed(s, w, x.(hand := None));
      case Crash(w) => LoseTimed(s, w, IDLE);
      case StartWatch(w) => KeepTimed(s, w, x.(watch := Watching(x.watch.Watching? && x.watch.dirty, None, s.now)));
      case Range(w, id, at) => KeepTimed(s, w, x.(watch := x.watch.(seen := Some(id), at := at)));
    }
  }

  lemma AckTimes(id: Id, to: Device, server: Server, due: map<Id, int>, taken: set<Id>)
    ensures PipeTimes(AckCommands(id, to, server), due, taken)
  {}

  lemma ClaimTimesNothing(id: Id)
    ensures forall i :: 0 <= i < |ClaimCommands(id)| ==> !ClaimCommands(id)[i].ZAdd?
  {}

  lemma SentTimed(s: System, sent: map<Id, Device>)
    requires Timed(s)
    ensures Timed(s.(sent := sent))
  {
    hide TimedData;
  }

  lemma StartTimed(s: System, w: WorkerId, pipe: seq<Command>)
    requires Timed(s) && forall i :: 0 <= i < |pipe| ==> !pipe[i].ZAdd?
    ensures Timed(SetWorker(s, w, WorkerAt(s, w).(pipe := pipe)))
  {
    hide Timed;
    NoZAddTimes(pipe, s.due, s.taken);
    KeepTimed(s, w, WorkerAt(s, w).(pipe := pipe));
  }

  lemma StepTimed(s: System, e: Event)
    requires Placed(s) && Timed(s) && s.heeds && Enabled(s, e)
    ensures Timed(Step(s, e))
  {
    hide Placed, Timed, Step, Enabled;
    match e
    case StartPut(_, _, _, _) => StartPutTimed(s, e);
    case Run(w) => RunTimed(s, w);
    case _ => RestTimed(s, e);
  }

  lemma {:induction false} RunsTimed(s: System, run: seq<Event>, s': System)
    requires Placed(s) && Timed(s) && s.heeds && Leads(s, run, s')
    ensures Placed(s') && Timed(s') && s'.heeds
    decreases run
  {
    hide Placed, Timed, Step, Enabled;
    if run != [] {
      StepPlaced(s, run[0]);
      StepTimed(s, run[0]);
      RunsTimed(Step(s, run[0]), run[1..], s');
    }
  }

  // ----- claims

  /** With this step a worker gets id out of the transaction and into its hand. */
  predicate Claims(s: System, e: Event, id: Id)
    requires Enabled(s, e)
  {
    e.Run? && WorkerAt(s, e.w).pipe[0] == Exec(id) && HandAt(Step(s, e).workers, e.w) == Some(id)
  }

  function ClaimCount(s: System, run: seq<Event>, id: Id, s': System): nat
    requires Leads(s, run, s')
    decreases run
  {
    if run == [] then 0 else (if Claims(s, run[0], id) then 1 else 0) + ClaimCount(Step(s, run[0]), run[1..], id, s')
  }

  predicate SameTimes(s: System, s': System) {
    s'.delayed == s.delayed && s'.claimed == s.claimed && s'.due == s.due
  }

  lemma SetWorkerTimes(s: System, w: WorkerId, x: Worker)
    ensures SameTimes(s, SetWorker(s, w, x)) && HandAt(SetWorker(s, w, x).workers, w) == x.hand
  {}

  lemma TakeTimes(s: System, w: WorkerId, x: Worker, id: Id)
    ensures SameTimes(s, Take(s, w, x, id)) && HandAt(Take(s, w, x, id).workers, w) == Some(id)
  {}

  lemma ClaimTimes(s: System, id: Id)
    ensures var s' := Claim(s, id);
      s'.delayed == s.delayed - {id} && s'.claimed == s.claimed[id := s.now] && s'.due == s.due
  {}

  lemma PushTimes(s: System, w: WorkerId, x: Worker, key: Key, id: Id)
    ensures SameTimes(s, Push(s, w, x, key, id))
  {}

  lemma PopTimes(s: System, w: WorkerId, x: Worker, key: Key)
    ensures SameTimes(s, Pop(s, w, x, key))
  {
    hide Take, SetWorker;
    var list := ListAt(s.lists, key);
    if list == [] {
      SetWorkerTimes(s, w, x);
    } else {
      TakeTimes(s.(lists := s.lists[key := list[..|list| - 1]]), w, x, list[|list| - 1]);
    }
  }

  lemma CommandTimes(s: System, w: WorkerId, x: Worker, c: Command)
    requires !c.ZAdd? && !c.Exec?
    ensures SameTimes(s, RunCommand(s, w, x, c))
  {
    hide Push, Pop, Delay, Execute, Dropping;
    match c
    case LPush(key, id) => PushTimes(s, w, x, key, id);
    case RPop(key) => PopTimes(s, w, x, key);
    case LRem(_, _) =>
    case HSet(_, _, _) =>
    case ExpireRecord(_) =>
    case Multi =>
    case QueueZRem(_) =>
    case Aside(_) =>
  }

  /** The delayed set shrinks by claims alone; nothing is claimed again, nor before its due time, which stays. */
  lemma StepClaims(s: System, e: Event, id: Id)
    requires Placed(s) && Timed(s) && s.heeds && Enabled(s, e)
    ensures var s' := Step(s, e);
      && (id in s.delayed && id !in s'.delayed <==> Claims(s, e, id))
      && (Claims(s, e, id) ==>
            id !in s.claimed && id in s.due && s.due[id] <= s.now && IsEarliest(s.delayed, id))
      && (id in s'.claimed <==> id in s.claimed || Claims(s, e, id))
      && (id in s'.claimed ==> s'.claimed[id] == if id in s.claimed then s.claimed[id] else s.now)
      && (id in s.due ==> id in s'.due && s'.due[id] == s.due[id])
  {
    hide Placed, TimedData, Enabled;
    match e
    case StartPut(_, _, _, _) => PutClaims(s, e);
    case Run(w) => RunClaims(s, w, id);
    case _ => RestKeeps(s, e);
  }

  lemma PutClaims(s: System, e: Event)
    requires Timed(s) && e.StartPut? && Enabled(s, e)
    ensures var s' := Step(s, e);
      && s'.delayed == s.delayed && s'.claimed == s.claimed
      && forall id :: id in s.due ==> id in s'.due && s'.due[id] == s.due[id]
  {
    hide PipesTimes, TimesOk, PutCommands, Placing;
  }

  lemma RunClaims(s: System, w: WorkerId, id: Id)
    requires Placed(s) && Timed(s) && s.heeds && Enabled(s, Run(w))
    ensures var s' := Step(s, Run(w));
      && (id in s.delayed && id !in s'.delayed <==> Claims(s, Run(w), id))
      && (Claims(s, Run(w), id) ==>
            id !in s.claimed && id in s.due && s.due[id] <= s.now && IsEarliest(s.delayed, id))
      && (id in s'.claimed <==> id in s.claimed || Claims(s, Run(w), id))
      && (id in s'.claimed ==> s'.claimed[id] == if id in s.claimed then s.claimed[id] else s.now)
      && s'.due == s.due
  {
    hide PlacesOk, PipesOk, WatchesOk, PipesTimes, Notice, RunCommand;
    WorkerOk(s, w);
    var y := WorkerAt(s, w);
    var x, c := y.(pipe := y.pipe[1..]), y.pipe[0];
    match c
    case ZAdd(_, _) => ZAddTimes(s, w, x, c);
    case Exec(_) => ExecTimes(s, w, x, c);
    case _ => CommandTimes(s, w, x, c);
  }

  lemma ZAddTimes(s: System, w: WorkerId, x: Worker, c: Command)
    requires c.ZAdd?
    ensures var s' := RunCommand(s, w, x, c);
      s'.delayed == s.delayed[c.id := c.score] && s'.claimed == s.claimed && s'.due == s.due
  {
    hide Notice, Push, Pop, Execute, Write;
  }

  lemma ExecTimes(s: System, w: WorkerId, x: Worker, c: Command)
    requires c.Exec? && s.heeds && x.hand == None && x.watch.Watching?
    ensures var s' := RunCommand(s, w, x, c);
      && s'.due == s.due
      && if x.watch.dirty then SameTimes(s, s') && HandAt(s'.workers, w) == None
         else
           && s'.delayed == s.delayed - {c.id} && s'.claimed == s.claimed[c.id := s.now]
           && HandAt(s'.workers, w) == Some(c.id)
  {
    hide SetWorker, Take, Claim, Push, Pop, Delay, Write;
    var x' := x.(watch := Unwatched);
    ClaimTimes(s, c.id);
    TakeTimes(Claim(s, c.id), w, x', c.id);
    SetWorkerTimes(s, w, x');
  }

  lemma {:induction false} RunClaimCount(s: System, run: seq<Event>, id: Id, s': System)
    requires Placed(s) && Timed(s) && s.heeds && Leads(s, run, s')
    ensures ClaimCount(s, run, id, s') == if id in s'.claimed && id !in s.claimed then 1 else 0
    ensures id in s.claimed ==> id in s'.claimed && s'.claimed[id] == s.claimed[id]
    ensures id in s.due ==> id in s'.due && s'.due[id] == s.due[id]
    decreases run
  {
    hide Placed, Timed, Step, Enabled, Claims;
    if run != [] {
      StepPlaced(s, run[0]);
      StepTimed(s, run[0]);
      StepClaims(s, run[0], id);
      RunClaimCount(Step(s, run[0]), run[1..], id, s');
    }
  }

  lemma InitialTimed(heeds: bool)
    ensures Timed(Initial(heeds))
  {}

  /** Over any run each delayed id is claimed at most once, and then at its due time or later. */
  lemma ClaimedAtMostOnce(run: seq<Event>, s: System, id: Id)
    requires Leads(Initial(true), run, s)
    ensures ClaimCount(Initial(true), run, id, s) == if id in s.claimed then 1 else 0
    ensures id in s.claimed ==> id in s.due && s.due[id] <= s.claimed[id] <= s.now
  {
    hide Leads, ClaimCount, Placed, PipesTimes;
    InitialPlaced(true);
    InitialTimed(true);
    RunsTimed(Initial(true), run, s);
    RunClaimCount(Initial(true), run, id, s);
  }

  /** A step takes an id out of the delayed set exactly when it puts it into a claimer's hand; and of those waiting it
      is one with the earliest due time. */
  lemma LeavesByClaim(run: seq<Event>, s: System, e: Event, id: Id)
    requires Leads(Initial(true), run, s) && Enabled(s, e)
    ensures id in s.delayed && id !in Step(s, e).delayed <==> Claims(s, e, id)
    ensures Claims(s, e, id) ==> id !in s.claimed && id in s.due && s.due[id] <= s.now
    ensures Claims(s, e, id) ==> forall other :: other in s.delayed ==> s.delayed[id] <= s.delayed[other]
  {
    hide Leads, Placed, Timed, Step, Enabled, Claims;
    InitialPlaced(true);
    InitialTimed(true);
    RunsTimed(Initial(true), run, s);
    StepClaims(s, e, id);
  }

  /** A put with a priority to a device online is due within priority times ten minutes, and not before. */
  lemma PutIsDue(s: System, w: WorkerId, p: Put, priority: int, r: nat)
    requires Enabled(s, StartPut(w, p, priority, r))
    ensures var s' := Step(s, StartPut(w, p, priority, r));
      if p.online.Some? && priority != 0
      then p.id in s'.due && s.now < s'.due[p.id] <= s.now + (if priority > 0 then priority else -priority) * 600
      else s'.due == s.due
  {
    hide PutCommands;
  }

  /** And every time up to then can be its due time. */
  lemma AnyDueTime(s: System, w: WorkerId, p: Put, priority: int, t: int)
    requires Idle(WorkerAt(s, w)) && Real(p.id) && p.id !in s.created && priority != 0
    requires s.now < t <= s.now + (if priority > 0 then priority else -priority) * 600
    ensures exists r: nat :: Enabled(s, StartPut(w, p.(due := Some(t)), priority, r))
  {
    hide Real;
    EveryDelayTime(s.now, priority * 10 * 60, t);
    var r: nat :| DelayTime(s.now, priority * 10 * 60, r) == t;
    assert Enabled(s, StartPut(w, p.(due := Some(t)), priority, r));
  }
}
