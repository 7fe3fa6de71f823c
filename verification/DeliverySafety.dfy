/** The invariant of every run, step by step. */
module DeliverySafety {
  import opened Redis
  import opened Delivery
  import opened DeliveryPlaces
  import opened MessageInfo
  import opened Wrappers

  predicate IsEarliest(delayed: map<Id, int>, id: Id) {
    id in delayed && forall other :: other in delayed ==> delayed[id] <= delayed[other]
  }

  /** A clean watch means that what the range query saw is still there, still the earliest, and was due when it
      looked. */
  predicate WatchOk(watch: Watch, delayed: map<Id, int>, now: int) {
    watch.Watching? && !watch.dirty && watch.seen.Some? ==>
      IsEarliest(delayed, watch.seen.value) && delayed[watch.seen.value] <= watch.at <= now
  }

  ghost predicate WatchesOk(workers: map<WorkerId, Worker>, delayed: map<Id, int>, now: int) {
    forall w :: w in workers ==> WatchOk(workers[w].watch, delayed, now)
  }

  predicate SentIdsOk(fields: map<(Id, Field), Value>) {
    forall k :: k in fields && k.1 == SubMessageId ==> fields[k] == IdText(k.0)
  }

  ghost predicate Placed(s: System) {
    PlacesOk(s) && PipesOk(s.workers) && WatchesOk(s.workers, s.delayed, s.now) && SentIdsOk(s.fields)
  }

  lemma PipesSet(workers: map<WorkerId, Worker>, w: WorkerId, x: Worker)
    requires PipesOk(workers) && PipeOk(x.hand, x.watch, x.pipe)
    ensures PipesOk(workers[w := x])
  {}

  lemma {:induction false} PipeOkWhenDirty(hand: Option<Id>, watch: Watch, pipe: seq<Command>)
    requires PipeOk(hand, watch, pipe) && watch.Watching?
    ensures PipeOk(hand, watch.(dirty := true), pipe)
    decreases pipe
  {
    if pipe != [] && !pipe[0].LPush? && !pipe[0].ZAdd? && !pipe[0].RPop? && !pipe[0].Exec? {
      PipeOkWhenDirty(hand, watch, pipe[1..]);
    }
  }

  lemma NoticeOk(workers: map<WorkerId, Worker>, delayed: map<Id, int>, now: int)
    requires PipesOk(workers)
    ensures PipesOk(Notice(workers)) && WatchesOk(Notice(workers), delayed, now)
  {
    forall w | w in workers
      ensures PipeOk(Notice(workers)[w].hand, Notice(workers)[w].watch, Notice(workers)[w].pipe)
    {
      if workers[w].watch.Watching? {
        PipeOkWhenDirty(workers[w].hand, workers[w].watch, workers[w].pipe);
      }
    }
  }

  lemma WatchesSet(workers: map<WorkerId, Worker>, delayed: map<Id, int>, now: int, w: WorkerId, x: Worker)
    requires WatchesOk(workers, delayed, now) && WatchOk(x.watch, delayed, now)
    ensures WatchesOk(workers[w := x], delayed, now)
  {}

  lemma WorkerOk(s: System, w: WorkerId)
    requires Placed(s)
    ensures var x := WorkerAt(s, w);
      && PipeOk(x.hand, x.watch, x.pipe) && WatchOk(x.watch, s.delayed, s.now)
      && HandAt(s.workers, w) == x.hand
      && (x.hand.Some? ==> DeliveryPlaces.Is(s.place, x.hand.value, Held(w)))
  {
    assert HandAt(s.workers, w) == WorkerAt(s, w).hand;
  }

  /** A worker that keeps its hand may change everything else about itself. */
  lemma KeepHand(s: System, w: WorkerId, x: Worker)
    requires Placed(s) && x.hand == WorkerAt(s, w).hand
    requires PipeOk(x.hand, x.watch, x.pipe) && WatchOk(x.watch, s.delayed, s.now)
    ensures Placed(SetWorker(s, w, x))
  {
    hide ListsOk, DelayedOk, HandsOk, LostOk, PipesOk, PipeOk, WatchesOk, WatchOk, SentIdsOk;
    WorkerOk(s, w);
    HandsSame(s.workers, s.place, w, x);
    PipesSet(s.workers, w, x);
    WatchesSet(s.workers, s.delayed, s.now, w, x);
  }

  lemma RunLPush(s: System, w: WorkerId, x: Worker, key: Key, id: Id)
    requires Placed(s) && WorkerAt(s, w).hand == Some(id) && Real(id) && x.watch == WorkerAt(s, w).watch
    requires PipeOk(None, x.watch, x.pipe)
    ensures Placed(Push(s, w, x, key, id))
  {
    hide ListsOk, DelayedOk, HandsOk, LostOk, PipesOk, PipeOk, WatchesOk, WatchOk, SentIdsOk;
    WorkerOk(s, w);
    var x' := x.(hand := None);
    ListsGain(s.lists, s.place, id, key);
    DelayedElsewhere(s.delayed, s.place, id, Listed(key));
    HandsLose(s.workers, s.place, w, x', id, Listed(key));
    LostElsewhere(s.lost, s.place, id, Listed(key));
    PipesSet(s.workers, w, x');
    WatchesSet(s.workers, s.delayed, s.now, w, x');
  }

  lemma RunLPushUnreal(s: System, w: WorkerId, x: Worker, key: Key, id: Id)
    requires Placed(s) && WorkerAt(s, w).hand == x.hand == None && x.watch == WorkerAt(s, w).watch && key.Read?
    requires PipeOk(None, x.watch, x.pipe) && !Real(id)
    ensures Placed(Push(s, w, x, key, id))
  {
    hide ListsOk, DelayedOk, HandsOk, LostOk, PipesOk, PipeOk, WatchesOk, WatchOk, SentIdsOk;
    WorkerOk(s, w);
    KeepHand(s, w, x);
    ListsGainUnreal(s.lists, s.place, id, key);
  }

  lemma RunZAdd(s: System, w: WorkerId, x: Worker, score: int, id: Id)
    requires Placed(s) && WorkerAt(s, w).hand == Some(id) && x.watch == WorkerAt(s, w).watch
    requires PipeOk(None, x.watch, x.pipe)
    ensures Placed(Delay(s, w, x, score, id))
  {
    hide ListsOk, DelayedOk, HandsOk, LostOk, PipesOk, PipeOk, WatchesOk, WatchOk, Notice, SentIdsOk;
    WorkerOk(s, w);
    var x' := x.(hand := None);
    ListsElsewhere(s.lists, s.place, id, Delayed);
    DelayedGain(s.delayed, s.place, id, score);
    HandsLose(s.workers, s.place, w, x', id, Delayed);
    LostElsewhere(s.lost, s.place, id, Delayed);
    PipesSet(s.workers, w, x');
    HandsNotice(s.workers[w := x'], s.place[id := Delayed]);
    NoticeOk(s.workers[w := x'], s.delayed[id := score], s.now);
  }

  lemma LastListed(lists: map<Key, seq<Id>>, place: map<Id, Place>, key: Key)
    requires ListsOk(lists, place) && ListAt(lists, key) != [] && !key.Read?
    ensures var list := ListAt(lists, key); DeliveryPlaces.Is(place, list[|list| - 1], Listed(key))
  {
    ListsHold(lists, place, key);
    var list := ListAt(lists, key);
    assert list[|list| - 1] in list;
  }

  lemma RunRPop(s: System, w: WorkerId, x: Worker, key: Key)
    requires Placed(s) && WorkerAt(s, w).hand == None
    requires x.hand == None && x.watch == WorkerAt(s, w).watch && x.pipe == [] && !key.Read?
    ensures Placed(Pop(s, w, x, key))
  {
    hide ListsOk, DelayedOk, HandsOk, LostOk, PipesOk, WatchesOk, WatchOk, SentIdsOk, Real, Take, SetWorker;
    WorkerOk(s, w);
    var list := ListAt(s.lists, key);
    if list == [] {
      KeepHand(s, w, x);
    } else {
      TakeListed(s, w, x, key);
    }
  }

  lemma TakeListed(s: System, w: WorkerId, x: Worker, key: Key)
    requires Placed(s) && WorkerAt(s, w).hand == None && ListAt(s.lists, key) != []
    requires x.hand == None && x.watch == WorkerAt(s, w).watch && x.pipe == [] && !key.Read?
    ensures var list := ListAt(s.lists, key);
      Placed(Take(s.(lists := s.lists[key := list[..|list| - 1]]), w, x, list[|list| - 1]))
  {
    hide ListsOk, DelayedOk, HandsOk, LostOk, PipesOk, WatchesOk, WatchOk, SentIdsOk, Real;
    WorkerOk(s, w);
    var list := ListAt(s.lists, key);
    var id, x' := list[|list| - 1], x.(hand := Some(list[|list| - 1]));
    LastListed(s.lists, s.place, key);
    ListsLose(s.lists, s.place, key, Held(w));
    DelayedElsewhere(s.delayed, s.place, id, Held(w));
    HandsGain(s.workers, s.place, w, x', id);
    LostElsewhere(s.lost, s.place, id, Held(w));
    PipesSet(s.workers, w, x');
    WatchesSet(s.workers, s.delayed, s.now, w, x');
  }

  lemma RunExec(s: System, w: WorkerId, x: Worker, id: Id)
    requires Placed(s) && s.heeds && WorkerAt(s, w).hand == None && x == WorkerAt(s, w).(pipe := [])
    requires x.watch.Watching? && x.watch.seen == Some(id)
    ensures Placed(Execute(s, w, x, id))
  {
    hide ListsOk, HandsOk, LostOk, PipesOk, WatchesOk, Notice;
    WorkerOk(s, w);
    if x.watch.dirty {
      KeepHand(s, w, x.(watch := Unwatched));
    } else {
      assert id in s.delayed && DeliveryPlaces.Is(s.place, id, Delayed);
      hide DelayedOk;
      var x' := x.(watch := Unwatched, hand := Some(id));
      var noticed := Notice(s.workers);
      ListsElsewhere(s.lists, s.place, id, Held(w));
      DelayedLose(s.delayed, s.place, id, Held(w));
      HandsNotice(s.workers, s.place);
      NoticeHand(s.workers, w);
      HandsGain(noticed, s.place, w, x', id);
      LostElsewhere(s.lost, s.place, id, Held(w));
      NoticeOk(s.workers, s.delayed - {id}, s.now);
      PipesSet(noticed, w, x');
      WatchesSet(noticed, s.delayed - {id}, s.now, w, x');
    }
  }

  lemma NoticeHand(workers: map<WorkerId, Worker>, w: WorkerId)
    ensures HandAt(Notice(workers), w) == HandAt(workers, w)
  {}

  lemma RunLRem(s: System, w: WorkerId, x: Worker, key: Key, id: Id)
    requires Placed(s) && x.hand == WorkerAt(s, w).hand == Grip(id) && x.watch == WorkerAt(s, w).watch && !key.Read?
    requires PipeOk(x.hand, x.watch, x.pipe)
    ensures Placed(RunCommand(s, w, x, LRem(key, id)))
  {
    hide ListsOk, DelayedOk, HandsOk, LostOk, PipesOk, PipeOk, WatchesOk, WatchOk, SentIdsOk;
    WorkerOk(s, w);
    KeepHand(s, w, x);
    ListsDrop(s.lists, s.place, id, key);
  }

  lemma RunWrite(s: System, w: WorkerId, x: Worker, c: Command)
    requires Placed(s) && x.hand == WorkerAt(s, w).hand && x.watch == WorkerAt(s, w).watch
    requires PipeOk(x.hand, x.watch, x.pipe) && c.HSet? && Plain(c)
    ensures Placed(Write(s, w, x, c.id, c.field, c.value))
  {
    hide PipesOk, PipeOk, WatchesOk, WatchOk, ListsOk, DelayedOk, HandsOk, LostOk;
    WorkerOk(s, w);
    KeepHand(s, w, x);
  }

  lemma RunPlain(s: System, w: WorkerId, x: Worker, c: Command)
    requires Placed(s) && x.hand == WorkerAt(s, w).hand && x.watch == WorkerAt(s, w).watch
    requires PipeOk(x.hand, x.watch, x.pipe)
    requires c.ExpireRecord? || c.Aside? || c.Multi? || c.QueueZRem?
    ensures Placed(RunCommand(s, w, x, c))
  {
    hide PipesOk, PipeOk, WatchesOk, WatchOk, ListsOk, DelayedOk, HandsOk, LostOk, SentIdsOk;
    WorkerOk(s, w);
    KeepHand(s, w, x);
  }

  lemma RunPlaced(s: System, w: WorkerId)
    requires Placed(s) && s.heeds && Enabled(s, Run(w))
    ensures Placed(Step(s, Run(w)))
  {
    hide Placed, Push, Pop, Delay, Execute, Write, SetWorker, WatchOk, DeliveryPlaces.Is;
    WorkerOk(s, w);
    var y := WorkerAt(s, w);
    var x, c := y.(pipe := y.pipe[1..]), y.pipe[0];
    match c
    case LPush(key, id) =>
      PlainPipeOk(None, x.watch, x.pipe);
      if Real(id) {
        RunLPush(s, w, x, key, id);
      } else {
        RunLPushUnreal(s, w, x, key, id);
      }
    case ZAdd(score, id) =>
      PlainPipeOk(None, x.watch, x.pipe);
      RunZAdd(s, w, x, score, id);
    case RPop(key) => RunRPop(s, w, x, key);
    case Exec(id) => RunExec(s, w, x, id);
    case LRem(key, id) => RunLRem(s, w, x, key, id);
    case HSet(_, _, _) => RunWrite(s, w, x, c);
    case _ => RunPlain(s, w, x, c);
  }

  lemma PutPipeOk(p: Put, watch: Watch)
    requires Real(p.id)
    ensures PipeOk(Some(p.id), watch, PutCommands(p))
  {
    PlacingPipeOk(p.id, watch, Before(p), Placing(p), Record(p) + [ExpireRecord(p.id)]);
    assert PutCommands(p) == Before(p) + [Placing(p)] + (Record(p) + [ExpireRecord(p.id)]);
  }

  lemma AckPipeOk(id: Id, to: Device, server: Server, watch: Watch)
    ensures PipeOk(Grip(id), watch, AckCommands(id, to, server))
  {
    var before := [HSet(id, State, Number(1)), LRem(PushList(server), id), LRem(NoRead(to), id)];
    PlacingPipeOk(id, watch, before, LPush(Read(to), id), []);
    assert AckCommands(id, to, server) == before + [LPush(Read(to), id)] + [];
  }

  lemma ClaimPipeOk(id: Id, watch: Watch)
    requires watch.Watching? && watch.seen == Some(id)
    ensures PipeOk(None, watch, ClaimCommands(id))
  {
    assert ClaimCommands(id)[1..] == [QueueZRem(id), Exec(id)];
    assert [QueueZRem(id), Exec(id)][1..] == [Exec(id)];
  }

  lemma StartPutPlaced(s: System, e: Event)
    requires Placed(s) && e.StartPut? && Enabled(s, e)
    ensures Placed(Step(s, e))
  {
    hide ListsOk, DelayedOk, HandsOk, LostOk, PipesOk, PipeOk, WatchesOk, WatchOk, PutCommands, Placing;
    WorkerOk(s, e.w);
    var id, x := e.p.id, WorkerAt(s, e.w).(hand := Some(e.p.id), pipe := PutCommands(e.p));
    assert id !in s.place;
    PutPipeOk(e.p, x.watch);
    ListsElsewhere(s.lists, s.place, id, Held(e.w));
    DelayedElsewhere(s.delayed, s.place, id, Held(e.w));
    HandsGain(s.workers, s.place, e.w, x, id);
    LostElsewhere(s.lost, s.place, id, Held(e.w));
    PipesSet(s.workers, e.w, x);
    WatchesSet(s.workers, s.delayed, s.now, e.w, x);
  }

  lemma LosePlaced(s: System, w: WorkerId, x: Worker)
    requires Placed(s) && x.hand == None && PipeOk(None, x.watch, x.pipe)
    requires x.watch == Unwatched || x.watch == WorkerAt(s, w).watch
    ensures Placed(Lose(s, w, x))
  {
    hide ListsOk, DelayedOk, HandsOk, LostOk, PipesOk, WatchesOk;
    WorkerOk(s, w);
    match WorkerAt(s, w).hand
    case None => KeepHand(s, w, x);
    case Some(id) =>
      ListsElsewhere(s.lists, s.place, id, Lost);
      DelayedElsewhere(s.delayed, s.place, id, Lost);
      HandsLose(s.workers, s.place, w, x, id, Lost);
      LostGain(s.lost, s.place, id);
      PipesSet(s.workers, w, x);
      WatchesSet(s.workers, s.delayed, s.now, w, x);
  }

  lemma TickWatches(workers: map<WorkerId, Worker>, delayed: map<Id, int>, now: int, t: int)
    requires WatchesOk(workers, delayed, now) && now <= t
    ensures WatchesOk(workers, delayed, t)
  {}

  lemma KeepHandAt(s: System, w: WorkerId, x: Worker)
    requires Placed(s) && x.hand == WorkerAt(s, w).hand && x.watch == WorkerAt(s, w).watch
    requires PipeOk(x.hand, x.watch, x.pipe)
    ensures Placed(SetWorker(s, w, x))
  {
    hide PlacesOk, PipesOk, WatchesOk, PipeOk, WatchOk;
    WorkerOk(s, w);
    KeepHand(s, w, x);
  }

  /** What getmessageinfo finds as the submessageid of id is id, or no real id. */
  lemma SentIdIs(s: System, id: Id, order: seq<Field>)
    requires Placed(s) && Lists(RecordOf(s, id), order)
    ensures SentId(s, id, order) == id || !Real(SentId(s, id, order))
    ensures Real(SentId(s, id, order)) ==> (id, SubMessageId) in s.fields
  {
    hide PlacesOk, PipesOk, WatchesOk, ReadBack, Lists, NameOf, Got;
    SubMessageIdFound(RecordOf(s, id), order);
  }

  lemma HeldIsReal(s: System, w: WorkerId)
    requires Placed(s) && WorkerAt(s, w).hand.Some?
    ensures WorkerAt(s, w).hand.value in s.created && Real(WorkerAt(s, w).hand.value)
  {
    hide PipesOk, WatchesOk, ListsOk, DelayedOk, LostOk, HandsOk, WatchOk, PipeOk, SentIdsOk;
    WorkerOk(s, w);
  }

  lemma SentDoesNotMatter(s: System, sent: map<Id, Device>)
    requires Placed(s)
    ensures Placed(s.(sent := sent))
  {
    hide PlacesOk, PipesOk, WatchesOk, SentIdsOk;
    assert PlacesOk(s.(sent := sent)) by {
      SamePlaces(s, sent);
    }
  }

  lemma SamePlaces(s: System, sent: map<Id, Device>)
    requires PlacesOk(s)
    ensures PlacesOk(s.(sent := sent))
  {
    hide ListsOk, DelayedOk, HandsOk, LostOk;
  }

  lemma StartAckPlaced(s: System, e: Event)
    requires Placed(s) && e.StartAck? && Enabled(s, e)
    ensures Placed(Step(s, e))
  {
    hide Placed, AckCommands, Addressee, SentId, HasRecord, Lose, SetWorker, Lists, Real, RecordOf;
    var x := WorkerAt(s, e.w);
    var id := x.hand.value;
    var sent, to := SentId(s, id, e.order), Addressee(s, id, e.order);
    var commands := AckCommands(sent, to, e.server);
    SentIdIs(s, id, e.order);
    HeldIsReal(s, e.w);
    AckPipeOk(sent, to, e.server, x.watch);
    if sent == id {
      KeepHandAt(s, e.w, x.(pipe := commands));
      SentDoesNotMatter(SetWorker(s, e.w, x.(pipe := commands)), s.sent[id := to]);
    } else {
      LosePlaced(s, e.w, x.(pipe := commands).(hand := None));
    }
  }

  lemma StartPlaced(s: System, e: Event)
    requires Placed(s) && Enabled(s, e)
    requires e.StartPop? || e.StartSaveInNoread? || e.StartSaveInPushlist? || e.StartClaim?
    ensures Placed(Step(s, e))
  {
    hide Placed, PutCommands, AckCommands, ClaimCommands, Addressee, SetWorker, HasRecord, Lists, Real, RecordOf;
    var x := WorkerAt(s, e.w);
    if x.hand.Some? {
      HeldIsReal(s, e.w);
    }
    match e
    case StartPop(w, key) => KeepHandAt(s, w, x.(pipe := [RPop(key)]));
    case StartSaveInNoread(w, order) =>
      var to := Addressee(s, x.hand.value, order);
      var x' := x.(pipe := [LPush(NoRead(to), x.hand.value)]);
      KeepHandAt(s, w, x');
      SentDoesNotMatter(SetWorker(s, w, x'), s.sent[x.hand.value := to]);
    case StartSaveInPushlist(w, server) => KeepHandAt(s, w, x.(pipe := [LPush(PushList(server), x.hand.value)]));
    case StartClaim(w) =>
      ClaimPipeOk(x.watch.seen.value, x.watch);
      KeepHandAt(s, w, x.(pipe := ClaimCommands(x.watch.seen.value)));
  }

  lemma WatchPlaced(s: System, e: Event)
    requires Placed(s) && Enabled(s, e) && (e.StartWatch? || e.Range?)
    ensures Placed(Step(s, e))
  {
    hide PlacesOk, PipesOk, WatchesOk;
    KeepHand(s, e.w, WorkerAt(Step(s, e), e.w));
  }

  lemma OutsidePlaced(s: System, e: Event)
    requires Placed(s) && Enabled(s, e) && (e.Expire? || e.Tick?)
    ensures Placed(Step(s, e))
  {
    hide PipesOk, WatchesOk, ListsOk, DelayedOk, HandsOk, LostOk;
    if e.Tick? {
      TickWatches(s.workers, s.delayed, s.now, e.t);
    }
  }

  lemma SetWorkerHeeds(s: System, w: WorkerId, x: Worker)
    ensures SetWorker(s, w, x).heeds == s.heeds
  {}

  lemma TakeHeeds(s: System, w: WorkerId, x: Worker, id: Id)
    ensures Take(s, w, x, id).heeds == s.heeds
  {}

  lemma PopHeeds(s: System, w: WorkerId, x: Worker, key: Key)
    ensures Pop(s, w, x, key).heeds == s.heeds
  {
    hide SetWorker, Take;
    var list := ListAt(s.lists, key);
    SetWorkerHeeds(s, w, x);
    if list != [] {
      TakeHeeds(s.(lists := s.lists[key := list[..|list| - 1]]), w, x, list[|list| - 1]);
    }
  }

  lemma ExecuteHeeds(s: System, w: WorkerId, x: Worker, id: Id)
    ensures Execute(s, w, x, id).heeds == s.heeds
  {
    hide SetWorker, Take, Notice;
    var x' := x.(watch := Unwatched);
    TakeHeeds(Claim(s, id), w, x', id);
    TakeHeeds(s, w, x', id);
    SetWorkerHeeds(s, w, x');
  }

  lemma CommandHeeds(s: System, w: WorkerId, x: Worker, c: Command)
    ensures RunCommand(s, w, x, c).heeds == s.heeds
  {
    hide Pop, Execute, Notice, ListAt, Dropping;
    match c
    case LPush(_, _) =>
    case RPop(key) => PopHeeds(s, w, x, key);
    case LRem(_, _) =>
    case ZAdd(_, _) =>
    case HSet(_, _, _) =>
    case ExpireRecord(_) =>
    case Exec(id) => ExecuteHeeds(s, w, x, id);
    case Multi =>
    case QueueZRem(_) =>
    case Aside(_) =>
  }

  lemma PutHeeds(s: System, e: Event)
    requires e.StartPut? && Enabled(s, e)
    ensures Step(s, e).heeds == s.heeds
  {
    hide PutCommands, Placing;
  }

  lemma RunHeeds(s: System, w: WorkerId)
    requires Enabled(s, Run(w))
    ensures Step(s, Run(w)).heeds == s.heeds
  {
    hide RunCommand;
    var x := WorkerAt(s, w);
    CommandHeeds(s, w, x.(pipe := x.pipe[1..]), x.pipe[0]);
  }

  lemma HeedsKept(s: System, e: Event)
    requires Enabled(s, e)
    ensures Step(s, e).heeds == s.heeds
  {
    hide Step, Enabled;
    match e
    case Run(w) => RunHeeds(s, w);
    case StartPut(_, _, _, _) => PutHeeds(s, e);
    case _ => RestKeeps(s, e);
  }

  /** Whatever happens next, every id stays in exactly one place. */
  lemma StepPlaced(s: System, e: Event)
    requires Placed(s) && s.heeds && Enabled(s, e)
    ensures Placed(Step(s, e)) && Step(s, e).heeds
  {
    hide Placed, RunCommand, PutCommands, AckCommands, ClaimCommands;
    HeedsKept(s, e);
    match e
    case StartPut(_, _, _, _) => StartPutPlaced(s, e);
    case StartAck(_, _, _) => StartAckPlaced(s, e);
    case Drop(w) => LosePlaced(s, w, WorkerAt(s, w).(hand := None));
    case Crash(w) => LosePlaced(s, w, IDLE);
    case Run(w) => RunPlaced(s, w);
    case Expire(_) => OutsidePlaced(s, e);
    case Tick(_) => OutsidePlaced(s, e);
    case StartWatch(_) => WatchPlaced(s, e);
    case Range(_, _, _) => WatchPlaced(s, e);
    case _ => StartPlaced(s, e);
  }

  lemma {:induction false} RunsPlaced(s: System, run: seq<Event>, s': System)
    requires Placed(s) && s.heeds && Leads(s, run, s')
    ensures Placed(s')
    decreases run
  {
    hide Placed, Step, Enabled;
    if run != [] {
      StepPlaced(s, run[0]);
      RunsPlaced(Step(s, run[0]), run[1..], s');
    }
  }

  lemma InitialPlaced(heeds: bool)
    ensures Placed(Initial(heeds))
  {}

  // ----- what it means for the data

  /** id is at q, read off the data alone. */
  predicate At(s: System, id: Id, q: Place) {
    match q
    case Listed(key) => id in ListAt(s.lists, key)
    case Delayed => id in s.delayed
    case Held(w) => HandAt(s.workers, w) == Some(id)
    case Lost => id in s.lost
  }

  lemma AtIsPlace(s: System, id: Id, q: Place)
    requires PlacesOk(s) && Real(id)
    ensures At(s, id, q) <==> DeliveryPlaces.Is(s.place, id, q)
  {}

  /** Every id ever created is in exactly one list, in it once, or in the delayed set, in one hand, or lost. What
      is no real id is nowhere but in read lists. */
  lemma ExactlyOnePlace(run: seq<Event>, s: System, id: Id)
    requires Leads(Initial(true), run, s)
    ensures Real(id) ==> (id in s.created <==> exists q :: At(s, id, q))
    ensures Real(id) ==> forall q, r :: At(s, id, q) && At(s, id, r) ==> q == r
    ensures forall key :: Distinct(ListAt(s.lists, key))
    ensures !Real(id) ==> forall q :: At(s, id, q) ==> q.Listed? && q.key.Read?
  {
    hide Leads, PipesOk, WatchesOk, SentIdsOk;
    InitialPlaced(true);
    RunsPlaced(Initial(true), run, s);
    hide DelayedOk, HandsOk, LostOk, At, Real;
    if Real(id) {
      forall q
        ensures At(s, id, q) <==> DeliveryPlaces.Is(s.place, id, q)
      {
        AtIsPlace(s, id, q);
      }
      if id in s.created {
        assert At(s, id, s.place[id]);
      }
    } else {
      forall q
        ensures At(s, id, q) ==> q.Listed? && q.key.Read?
      {
        UnrealIsRead(s, id, q);
      }
    }
  }

  lemma UnrealIsRead(s: System, id: Id, q: Place)
    requires PlacesOk(s) && !Real(id)
    ensures At(s, id, q) ==> q.Listed? && q.key.Read?
  {
    assert !DeliveryPlaces.Is(s.place, id, q);
  }

  /** The lrem commands of an acknowledgement never find anything. */
  lemma AckRemovesNothing(run: seq<Event>, s: System, w: WorkerId)
    requires Leads(Initial(true), run, s) && WorkerAt(s, w).pipe != [] && WorkerAt(s, w).pipe[0].LRem?
    ensures var c := WorkerAt(s, w).pipe[0];
      Dropping(ListAt(s.lists, c.key), c.id) == ListAt(s.lists, c.key)
  {
    hide Leads, PipesOk, WatchesOk, ListsOk, DelayedOk, HandsOk, LostOk, WatchOk, SentIdsOk;
    InitialPlaced(true);
    RunsPlaced(Initial(true), run, s);
    LRemFindsNothing(s, w);
  }

  lemma LRemFindsNothing(s: System, w: WorkerId)
    requires Placed(s) && WorkerAt(s, w).pipe != [] && WorkerAt(s, w).pipe[0].LRem?
    ensures var c := WorkerAt(s, w).pipe[0];
      Dropping(ListAt(s.lists, c.key), c.id) == ListAt(s.lists, c.key)
  {
    hide PipesOk, WatchesOk, ListsOk, DelayedOk, HandsOk, LostOk, WatchOk, SentIdsOk;
    WorkerOk(s, w);
    var c := WorkerAt(s, w).pipe[0];
    NothingToDrop(s.lists, s.place, c.id, c.key);
  }
}
