/** Where a put leaves its message: what nobody has taken yet is where it belongs. */
module DeliveryLanding {
  import opened Redis
  import opened Delivery
  import opened DeliveryPlaces
  import opened DeliverySafety
  import opened MessageInfo
  import opened Wrappers

  /** Where a message waits to be taken: a device offline has an unread list; one online has the push list of its
      server, or the delayed set for a message with a priority. */
  function Landing(p: Put): Place {
    if p.online == None then Listed(NoRead(p.to))
    else if p.due == None then Listed(PushList(p.online.value))
    else Delayed
  }

  predicate Places(c: Command) {
    c.LPush? || c.ZAdd?
  }

  /** Where a command places its id. */
  function Target(c: Command): Place
    requires Places(c)
  {
    if c.LPush? then Listed(c.key) else Delayed
  }

  /** A command that places an id nobody has taken places it where it belongs. */
  predicate CommandLands(c: Command, created: map<Id, Put>, taken: set<Id>) {
    Places(c) && Real(c.id) ==> c.id in created && (c.id in taken || Target(c) == Landing(created[c.id]))
  }

  predicate PlacesId(c: Command, id: Id) {
    Places(c) && c.id == id
  }

  /** Who holds an id nobody has taken is the putter, and has yet to place it. */
  ghost predicate PipeLands(hand: Option<Id>, pipe: seq<Command>, created: map<Id, Put>, taken: set<Id>) {
    && (forall i :: 0 <= i < |pipe| ==> CommandLands(pipe[i], created, taken))
    && (hand.Some? ==>
          && hand.value in created
          && (hand.value in taken || exists i :: 0 <= i < |pipe| && PlacesId(pipe[i], hand.value)))
  }

  ghost predicate PipesLand(workers: map<WorkerId, Worker>, created: map<Id, Put>, taken: set<Id>) {
    forall w :: w in workers ==> PipeLands(workers[w].hand, workers[w].pipe, created, taken)
  }

  predicate LandsAt(created: map<Id, Put>, putter: map<Id, WorkerId>, id: Id, q: Place) {
    id in created && id in putter && (q == Held(putter[id]) || q == Lost || q == Landing(created[id]))
  }

  ghost predicate PlacesLand(created: map<Id, Put>, putter: map<Id, WorkerId>, place: map<Id, Place>, taken: set<Id>) {
    forall id :: id in created && id !in taken ==>
      id in place && LandsAt(created, putter, id, place[id])
  }

  ghost predicate Landed(s: System) {
    PipesLand(s.workers, s.created, s.taken) && PlacesLand(s.created, s.putter, s.place, s.taken)
  }

  // ----- pipes

  lemma PipesLandSet(workers: map<WorkerId, Worker>, created: map<Id, Put>, taken: set<Id>, w: WorkerId, x: Worker)
    requires PipesLand(workers, created, taken) && PipeLands(x.hand, x.pipe, created, taken)
    ensures PipesLand(workers[w := x], created, taken)
  {
    hide PipeLands;
  }

  lemma PipesLandNotice(workers: map<WorkerId, Worker>, created: map<Id, Put>, taken: set<Id>)
    requires PipesLand(workers, created, taken)
    ensures PipesLand(Notice(workers), created, taken)
  {
    hide PipeLands;
  }

  /** More ids created or taken spoil nothing. */
  lemma PipeLandsMore(hand: Option<Id>, pipe: seq<Command>, created: map<Id, Put>, taken: set<Id>,
                      created': map<Id, Put>, taken': set<Id>)
    requires PipeLands(hand, pipe, created, taken) && taken <= taken'
    requires forall id :: id in created ==> id in created' && created'[id] == created[id]
    ensures PipeLands(hand, pipe, created', taken')
  {
    hide Real, Landing;
  }

  lemma PipesLandMore(workers: map<WorkerId, Worker>, created: map<Id, Put>, taken: set<Id>, created': map<Id, Put>,
                      taken': set<Id>)
    requires PipesLand(workers, created, taken) && taken <= taken'
    requires forall id :: id in created ==> id in created' && created'[id] == created[id]
    ensures PipesLand(workers, created', taken')
  {
    hide PipeLands;
    forall w | w in workers
      ensures PipeLands(workers[w].hand, workers[w].pipe, created', taken')
    {
      PipeLandsMore(workers[w].hand, workers[w].pipe, created, taken, created', taken');
    }
  }

  /** The first command is run, and it placed nothing the worker still holds. */
  lemma PipeLandsTail(hand: Option<Id>, pipe: seq<Command>, created: map<Id, Put>, taken: set<Id>)
    requires PipeLands(hand, pipe, created, taken) && pipe != [] && !Places(pipe[0])
    ensures PipeLands(hand, pipe[1..], created, taken)
  {
    hide CommandLands;
    if hand.Some? && hand.value !in taken {
      var i :| 0 <= i < |pipe| && PlacesId(pipe[i], hand.value);
      assert PlacesId(pipe[1..][i - 1], hand.value);
    }
  }

  lemma PipeLandsPlaced(hand: Option<Id>, pipe: seq<Command>, created: map<Id, Put>, taken: set<Id>)
    requires PipeLands(hand, pipe, created, taken) && pipe != []
    ensures PipeLands(None, pipe[1..], created, taken) && CommandLands(pipe[0], created, taken)
  {
    hide CommandLands;
  }

  lemma WorkerLands(s: System, w: WorkerId)
    requires Landed(s)
    ensures var x := WorkerAt(s, w);
      && PipeLands(x.hand, x.pipe, s.created, s.taken)
      && (Holds(x) ==> x.hand.value in s.created && x.hand.value in s.taken)
  {
    hide PlacesLand;
  }

  /** What places nothing needs only a hand that holds nothing, or something taken. */
  lemma QuietLands(hand: Option<Id>, pipe: seq<Command>, created: map<Id, Put>, taken: set<Id>)
    requires hand.Some? ==> hand.value in created && hand.value in taken
    requires forall i :: 0 <= i < |pipe| && Places(pipe[i]) && Real(pipe[i].id) ==>
      pipe[i].id in created && pipe[i].id in taken
    ensures PipeLands(hand, pipe, created, taken)
  {
    hide Real, Landing;
  }

  lemma PutLands(p: Put, created: map<Id, Put>, taken: set<Id>)
    requires p.id in created && created[p.id] == p
    ensures PipeLands(Some(p.id), PutCommands(p), created, taken)
  {
    hide Real;
    var pipe := PutCommands(p);
    assert pipe == Before(p) + [Placing(p)] + (Record(p) + [ExpireRecord(p.id)]);
    assert forall i :: 0 <= i < |Before(p)| ==> !Places(Before(p)[i]);
    assert forall i :: 0 <= i < |Record(p)| ==> !Places(Record(p)[i]);
    assert PlacesId(pipe[|Before(p)|], p.id);
  }

  // ----- steps

  lemma KeepLanded(s: System, w: WorkerId, x: Worker)
    requires Landed(s) && PipeLands(x.hand, x.pipe, s.created, s.taken)
    ensures Landed(SetWorker(s, w, x))
  {
    hide PipesLand, PipeLands, PlacesLand;
    PipesLandSet(s.workers, s.created, s.taken, w, x);
  }

  lemma PlacesLandSet(created: map<Id, Put>, putter: map<Id, WorkerId>, place: map<Id, Place>, taken: set<Id>, id: Id,
                      q: Place)
    requires PlacesLand(created, putter, place, taken)
    requires id in created && id !in taken ==> q == Lost || LandsAt(created, putter, id, q)
    ensures PlacesLand(created, putter, place[id := q], taken)
  {
    hide Landing;
  }

  /** s' has these workers and places, and knows the same of puts and takers as s. */
  predicate Moved(s: System, s': System, workers: map<WorkerId, Worker>, place: map<Id, Place>) {
    && s'.workers == workers && s'.place == place
    && s'.created == s.created && s'.putter == s.putter && s'.taken == s.taken
  }

  lemma LoseMoves(s: System, w: WorkerId, x: Worker)
    ensures var hand := WorkerAt(s, w).hand;
      Moved(s, Lose(s, w, x), s.workers[w := x], if hand.Some? then s.place[hand.value := Lost] else s.place)
  {}

  lemma PushMoves(s: System, w: WorkerId, x: Worker, key: Key, id: Id)
    ensures Moved(s, Push(s, w, x, key, id), s.workers[w := x.(hand := None)],
                  if Real(id) then s.place[id := Listed(key)] else s.place)
  {
    hide Real;
  }

  lemma MovedLanded(s: System, s': System, workers: map<WorkerId, Worker>, place: map<Id, Place>)
    requires Moved(s, s', workers, place)
    requires PipesLand(workers, s.created, s.taken) && PlacesLand(s.created, s.putter, place, s.taken)
    ensures Landed(s')
  {
    hide PipesLand, PlacesLand;
  }

  lemma LoseLanded(s: System, w: WorkerId, x: Worker)
    requires Landed(s) && PipeLands(x.hand, x.pipe, s.created, s.taken)
    ensures Landed(Lose(s, w, x))
  {
    hide PipesLand, PipeLands, PlacesLand, LandsAt, Lose, Moved;
    var hand := WorkerAt(s, w).hand;
    var place := if hand.Some? then s.place[hand.value := Lost] else s.place;
    PipesLandSet(s.workers, s.created, s.taken, w, x);
    if hand.Some? {
      PlacesLandSet(s.created, s.putter, s.place, s.taken, hand.value, Lost);
    }
    LoseMoves(s, w, x);
    MovedLanded(s, Lose(s, w, x), s.workers[w := x], place);
  }

  lemma SentLanded(s: System, sent: map<Id, Device>)
    requires Landed(s)
    ensures Landed(s.(sent := sent))
  {
    hide PipesLand, PlacesLand;
  }

  lemma PlacesLandNew(created: map<Id, Put>, putter: map<Id, WorkerId>, place: map<Id, Place>, taken: set<Id>, p: Put,
                      w: WorkerId)
    requires PlacesLand(created, putter, place, taken) && p.id !in created
    ensures PlacesLand(created[p.id := p], putter[p.id := w], place[p.id := Held(w)], taken)
  {
    hide Landing;
  }

  lemma StartPutLanded(s: System, e: Event)
    requires Placed(s) && Landed(s) && e.StartPut? && Enabled(s, e)
    ensures Landed(Step(s, e))
  {
    var s', p := Step(s, e), e.p;
    hide Placed, PipesLand, PipeLands, PlacesLand, PutCommands, Placing, Real;
    PlacesLandNew(s.created, s.putter, s.place, s.taken, p, e.w);
    PutLands(p, s'.created, s.taken);
    PipesLandMore(s.workers, s.created, s.taken, s'.created, s.taken);
    PipesLandSet(s.workers, s'.created, s.taken, e.w, WorkerAt(s', e.w));
  }

  lemma TargetLands(s: System, c: Command)
    requires Landed(s) && CommandLands(c, s.created, s.taken) && Places(c) && Real(c.id)
    ensures c.id !in s.taken ==> LandsAt(s.created, s.putter, c.id, Target(c))
  {
    hide PipesLand, Real, Landing;
  }

  lemma PushLanded(s: System, w: WorkerId, x: Worker, key: Key, id: Id)
    requires Landed(s) && WorkerAt(s, w).pipe != [] && WorkerAt(s, w).pipe[0] == LPush(key, id)
    requires x == WorkerAt(s, w).(pipe := WorkerAt(s, w).pipe[1..])
    ensures Landed(Push(s, w, x, key, id))
  {
    hide PipesLand, PipeLands, PlacesLand, Real, LandsAt, CommandLands, Push, Moved;
    var workers, place := s.workers[w := x.(hand := None)], if Real(id) then s.place[id := Listed(key)] else s.place;
    WorkerLands(s, w);
    PipeLandsPlaced(WorkerAt(s, w).hand, WorkerAt(s, w).pipe, s.created, s.taken);
    PipesLandSet(s.workers, s.created, s.taken, w, x.(hand := None));
    if Real(id) {
      TargetLands(s, WorkerAt(s, w).pipe[0]);
      PlacesLandSet(s.created, s.putter, s.place, s.taken, id, Listed(key));
    }
    PushMoves(s, w, x, key, id);
    MovedLanded(s, Push(s, w, x, key, id), workers, place);
  }

  lemma DelayLanded(s: System, w: WorkerId, x: Worker, score: int, id: Id)
    requires Landed(s) && WorkerAt(s, w).pipe != [] && WorkerAt(s, w).pipe[0] == ZAdd(score, id) && Real(id)
    requires x == WorkerAt(s, w).(pipe := WorkerAt(s, w).pipe[1..])
    ensures Landed(Delay(s, w, x, score, id))
  {
    hide PipesLand, PipeLands, PlacesLand, Real, LandsAt, CommandLands, Notice;
    WorkerLands(s, w);
    PipeLandsPlaced(WorkerAt(s, w).hand, WorkerAt(s, w).pipe, s.created, s.taken);
    PipesLandSet(s.workers, s.created, s.taken, w, x.(hand := None));
    PipesLandNotice(s.workers[w := x.(hand := None)], s.created, s.taken);
    TargetLands(s, WorkerAt(s, w).pipe[0]);
    PlacesLandSet(s.created, s.putter, s.place, s.taken, id, Delayed);
  }

  lemma TakeLanded(s: System, w: WorkerId, x: Worker, id: Id)
    requires Landed(s) && x.pipe == [] && id in s.created
    ensures Landed(Take(s, w, x, id))
  {
    hide PipesLand, PlacesLand;
    var taken := s.taken + {id};
    PipesLandMore(s.workers, s.created, s.taken, s.created, taken);
    PipesLandSet(s.workers, s.created, taken, w, x.(hand := Some(id)));
    PlacesLandTake(s.created, s.putter, s.place, s.taken, id, Held(w));
  }

  lemma PlacesLandTake(created: map<Id, Put>, putter: map<Id, WorkerId>, place: map<Id, Place>, taken: set<Id>, id: Id,
                       q: Place)
    requires PlacesLand(created, putter, place, taken)
    ensures PlacesLand(created, putter, place[id := q], taken + {id})
  {
    hide Landing;
  }

  lemma ListsLanded(s: System, lists: map<Key, seq<Id>>)
    requires Landed(s)
    ensures Landed(s.(lists := lists))
  {
    hide PipesLand, PlacesLand;
  }

  lemma PopLanded(s: System, w: WorkerId, x: Worker, key: Key)
    requires Placed(s) && Landed(s) && x.pipe == [] && x.hand == None && !key.Read?
    ensures Landed(Pop(s, w, x, key))
  {
    hide PlacesOk, PipesOk, WatchesOk, SentIdsOk, PipesLand, PlacesLand, SetWorker, Take;
    var list := ListAt(s.lists, key);
    if list == [] {
      KeepLanded(s, w, x);
    } else {
      var id := list[|list| - 1];
      PoppedIsCreated(s, key);
      ListsLanded(s, s.lists[key := list[..|list| - 1]]);
      TakeLanded(s.(lists := s.lists[key := list[..|list| - 1]]), w, x, id);
    }
  }

  lemma PoppedIsCreated(s: System, key: Key)
    requires PlacesOk(s) && ListAt(s.lists, key) != [] && !key.Read?
    ensures var list := ListAt(s.lists, key); list[|list| - 1] in s.created
  {
    hide DelayedOk, HandsOk, LostOk;
    var list := ListAt(s.lists, key);
    ListsHold(s.lists, s.place, key);
    assert list[|list| - 1] in list;
  }

  lemma DelayedIsCreated(s: System, id: Id)
    requires PlacesOk(s) && id in s.delayed
    ensures id in s.created
  {
    hide ListsOk, HandsOk, LostOk;
    assert DeliveryPlaces.Is(s.place, id, Delayed);
  }

  lemma ClaimLanded(s: System, id: Id)
    requires Landed(s)
    ensures Landed(Claim(s, id)) && Claim(s, id).created == s.created
  {
    hide PipesLand, PlacesLand, Notice;
    PipesLandNotice(s.workers, s.created, s.taken);
  }

  lemma ExecuteLanded(s: System, w: WorkerId, x: Worker, id: Id)
    requires Placed(s) && Landed(s) && s.heeds && x == WorkerAt(s, w).(pipe := []) && x.hand == None
    requires x.watch.Watching? && x.watch.seen == Some(id)
    ensures Landed(Execute(s, w, x, id))
  {
    hide PlacesOk, PipesOk, WatchesOk, Landed, SetWorker, Take, Claim;
    WorkerOk(s, w);
    if x.watch.dirty {
      KeepLanded(s, w, x.(watch := Unwatched));
    } else {
      DelayedIsCreated(s, id);
      ClaimLanded(s, id);
      TakeLanded(Claim(s, id), w, x.(watch := Unwatched), id);
    }
  }

  lemma WriteLanded(s: System, w: WorkerId, x: Worker, id: Id, field: Field, value: Value)
    requires Landed(SetWorker(s, w, x))
    ensures Landed(Write(s, w, x, id, field, value))
  {
    hide PipesLand, PlacesLand;
  }

  lemma MortalLanded(s: System, mortal: set<Id>)
    requires Landed(s)
    ensures Landed(s.(mortal := mortal))
  {
    hide PipesLand, PlacesLand;
  }

  lemma RunQuietLanded(s: System, w: WorkerId, x: Worker, c: Command)
    requires Landed(s) && WorkerAt(s, w).pipe != [] && WorkerAt(s, w).pipe[0] == c
    requires x == WorkerAt(s, w).(pipe := WorkerAt(s, w).pipe[1..]) && !Places(c) && !c.RPop? && !c.Exec?
    ensures Landed(RunCommand(s, w, x, c))
  {
    hide Landed, PipeLands, SetWorker, Write, Push, Pop, Delay, Execute, Dropping;
    WorkerLands(s, w);
    PipeLandsTail(WorkerAt(s, w).hand, WorkerAt(s, w).pipe, s.created, s.taken);
    KeepLanded(s, w, x);
    match c
    case LRem(key, id) => ListsLanded(SetWorker(s, w, x), s.lists[key := Dropping(ListAt(s.lists, key), id)]);
    case HSet(id, field, value) => WriteLanded(s, w, x, id, field, value);
    case ExpireRecord(id) => MortalLanded(SetWorker(s, w, x), s.mortal + {id});
    case Multi =>
    case QueueZRem(_) =>
    case Aside(_) =>
  }

  lemma RunLanded(s: System, w: WorkerId)
    requires Placed(s) && Landed(s) && s.heeds && Enabled(s, Run(w))
    ensures Landed(Step(s, Run(w)))
  {
    hide Placed, Landed, Push, Pop, Delay, Execute, Write, SetWorker, WatchOk, DeliveryPlaces.Is, Real;
    WorkerOk(s, w);
    var y := WorkerAt(s, w);
    var x, c := y.(pipe := y.pipe[1..]), y.pipe[0];
    match c
    case LPush(key, id) => PushLanded(s, w, x, key, id);
    case ZAdd(score, id) => DelayLanded(s, w, x, score, id);
    case RPop(key) => PopLanded(s, w, x, key);
    case Exec(id) => ExecuteLanded(s, w, x, id);
    case _ => RunQuietLanded(s, w, x, c);
  }

  lemma AckLands(id: Id, to: Device, server: Server, hand: Option<Id>, created: map<Id, Put>, taken: set<Id>)
    requires hand.Some? ==> hand.value in created && hand.value in taken
    requires Real(id) ==> id in created && id in taken
    ensures PipeLands(hand, AckCommands(id, to, server), created, taken)
  {
    hide Real;
    QuietLands(hand, AckCommands(id, to, server), created, taken);
  }

  lemma AckLanded(s: System, e: Event)
    requires Placed(s) && Landed(s) && e.StartAck? && Enabled(s, e)
    ensures Landed(Step(s, e))
  {
    hide Placed, Landed, PipeLands, AckCommands, Addressee, SentId, HasRecord, Lose, SetWorker, Lists, Real, RecordOf;
    var x := WorkerAt(s, e.w);
    var id := x.hand.value;
    var sent, to := SentId(s, id, e.order), Addressee(s, id, e.order);
    SentIdIs(s, id, e.order);
    WorkerLands(s, e.w);
    var commands := AckCommands(sent, to, e.server);
    if sent == id {
      AckLands(sent, to, e.server, x.hand, s.created, s.taken);
      KeepLanded(s, e.w, x.(pipe := commands));
      SentLanded(SetWorker(s, e.w, x.(pipe := commands)), s.sent[id := to]);
    } else {
      AckLands(sent, to, e.server, None, s.created, s.taken);
      LoseLanded(s, e.w, x.(pipe := commands).(hand := None));
    }
  }

  lemma PushLands(key: Key, id: Id, created: map<Id, Put>, taken: set<Id>)
    requires id in created && id in taken
    ensures PipeLands(Some(id), [LPush(key, id)], created, taken)
  {
    hide Real;
    QuietLands(Some(id), [LPush(key, id)], created, taken);
  }

  lemma StartLanded(s: System, e: Event)
    requires Placed(s) && Landed(s) && Enabled(s, e)
    requires e.StartPop? || e.StartSaveInNoread? || e.StartSaveInPushlist? || e.StartClaim?
    ensures Landed(Step(s, e))
  {
    hide Placed, Landed, PipeLands, Addressee, SetWorker, HasRecord, Lists, Real, RecordOf, ClaimCommands;
    var x := WorkerAt(s, e.w);
    WorkerLands(s, e.w);
    match e
    case StartPop(w, key) =>
      QuietLands(None, [RPop(key)], s.created, s.taken);
      KeepLanded(s, w, x.(pipe := [RPop(key)]));
    case StartSaveInNoread(w, order) =>
      var to := Addressee(s, x.hand.value, order);
      PushLands(NoRead(to), x.hand.value, s.created, s.taken);
      KeepLanded(s, w, x.(pipe := [LPush(NoRead(to), x.hand.value)]));
      SentLanded(SetWorker(s, w, x.(pipe := [LPush(NoRead(to), x.hand.value)])), s.sent[x.hand.value := to]);
    case StartSaveInPushlist(w, server) =>
      PushLands(PushList(server), x.hand.value, s.created, s.taken);
      KeepLanded(s, w, x.(pipe := [LPush(PushList(server), x.hand.value)]));
    case StartClaim(w) =>
      ClaimLands(x.watch.seen.value, s.created, s.taken);
      KeepLanded(s, w, x.(pipe := ClaimCommands(x.watch.seen.value)));
  }

  lemma ClaimLands(id: Id, created: map<Id, Put>, taken: set<Id>)
    ensures PipeLands(None, ClaimCommands(id), created, taken)
  {
    hide Real;
    QuietLands(None, ClaimCommands(id), created, taken);
  }

  lemma OutsideLanded(s: System, e: Event)
    requires Landed(s) && Enabled(s, e) && (e.Expire? || e.Tick?)
    ensures Landed(Step(s, e))
  {
    hide PipesLand, PlacesLand;
  }

  lemma WatchLanded(s: System, e: Event)
    requires Landed(s) && Enabled(s, e) && (e.StartWatch? || e.Range?)
    ensures Landed(Step(s, e))
  {
    hide Landed, PipeLands;
    WorkerLands(s, e.w);
    KeepLanded(s, e.w, WorkerAt(Step(s, e), e.w));
  }

  lemma StepLanded(s: System, e: Event)
    requires Placed(s) && Landed(s) && s.heeds && Enabled(s, e)
    ensures Landed(Step(s, e))
  {
    hide Placed, Landed, RunCommand, PutCommands, AckCommands, ClaimCommands, Lose, SetWorker, HasRecord, SentId;
    hide Lists, Real, RecordOf;
    match e
    case StartPut(_, _, _, _) => StartPutLanded(s, e);
    case StartAck(_, _, _) => AckLanded(s, e);
    case Drop(w) =>
      QuietLands(None, [], s.created, s.taken);
      WorkerLands(s, w);
      LoseLanded(s, w, WorkerAt(s, w).(hand := None));
    case Crash(w) =>
      QuietLands(None, [], s.created, s.taken);
      LoseLanded(s, w, IDLE);
    case Run(w) => RunLanded(s, w);
    case Expire(_) => OutsideLanded(s, e);
    case Tick(_) => OutsideLanded(s, e);
    case StartWatch(_) => WatchLanded(s, e);
    case Range(_, _, _) => WatchLanded(s, e);
    case _ => StartLanded(s, e);
  }

  lemma {:induction false} RunsLanded(s: System, run: seq<Event>, s': System)
    requires Placed(s) && Landed(s) && s.heeds && Leads(s, run, s')
    ensures Placed(s') && Landed(s')
    decreases run
  {
    hide Placed, Landed, Step, Enabled;
    if run != [] {
      StepPlaced(s, run[0]);
      StepLanded(s, run[0]);
      RunsLanded(Step(s, run[0]), run[1..], s');
    }
  }

  /** On every run, a message that nobody has taken is in one of three places: still in the hand of the putter, who has
      yet to place it; lost, when the putter crashed; or, for a device offline in its unread list, for one online in
      the push list of its server, or in the delayed set when it has a priority. */
  lemma UntakenIsWhereItBelongs(run: seq<Event>, s: System, id: Id)
    requires Leads(Initial(true), run, s) && id in s.created && id !in s.taken
    ensures var p := s.created[id];
      || (id in s.putter && HandAt(s.workers, s.putter[id]) == Some(id)
          && exists i :: 0 <= i < |WorkerAt(s, s.putter[id]).pipe| && PlacesId(WorkerAt(s, s.putter[id]).pipe[i], id))
      || id in s.lost
      || (if p.online == None then id in ListAt(s.lists, NoRead(p.to))
          else if p.due == None then id in ListAt(s.lists, PushList(p.online.value))
          else id in s.delayed)
  {
    InitialPlaced(true);
    assert Landed(Initial(true));
    hide Placed, Leads, PipesLand, Initial, Real;
    InitialHeedsToo();
    RunsLanded(Initial(true), run, s);
    PlaceIsAt(s, id);
    if id in s.putter {
      WorkerLands(s, s.putter[id]);
    }
  }

  lemma InitialHeedsToo()
    ensures Initial(true).heeds
  {}

  lemma PlaceIsAt(s: System, id: Id)
    requires Placed(s) && id in s.place
    ensures At(s, id, s.place[id])
  {
    hide PipesOk, WatchesOk, SentIdsOk, DelayedOk, HandsOk, LostOk, ListsOk, At, Real;
    AtIsPlace(s, id, s.place[id]);
  }
}
