/** What the state field and the device lists mean, over every run. */
module DeliveryMeaning {
  import opened Redis
  import opened Delivery
  import opened DeliveryPlaces
  import opened DeliverySafety
  import opened DeliveryRecords
  import opened DeliveryUpkeep
  import opened MessageInfo
  import opened Wrappers

  ghost predicate InReadList(s: System, id: Id) {
    exists d :: id in ListAt(s.lists, Read(d))
  }

  /** x has written state 1 for id and not yet pushed it to the read list. */
  predicate HalfAcks(x: Worker, id: Id) {
    x.pipe != [] && !AckWrite(x.pipe[0]) && ReadPush(x.pipe[|x.pipe| - 1], id)
  }

  /** Somebody is between the two. */
  predicate HalfAcked(s: System, id: Id) {
    exists w :: w in s.workers && HalfAcks(s.workers[w], id)
  }

  predicate Cuts(s: System, e: Event, id: Id) {
    e.Crash? && HalfAcks(WorkerAt(s, e.w), id)
  }

  /** Somebody crashed between the two. */
  predicate CutShort(s: System, run: seq<Event>, id: Id, s': System)
    requires Leads(s, run, s')
    decreases run
  {
    run != [] && (Cuts(s, run[0], id) || CutShort(Step(s, run[0]), run[1..], id, s'))
  }

  // ----- who is acknowledged and where

  predicate AckedAndLost(s: System, id: Id) {
    id in s.acked && id in s.lost
  }

  lemma ReadListIsPlace(s: System, id: Id)
    requires PlacesOk(s) && Real(id)
    ensures InReadList(s, id) <==> id in s.place && s.place[id].Listed? && s.place[id].key.Read?
  {
    hide DelayedOk, HandsOk, LostOk;
    if id in s.place && s.place[id].Listed? && s.place[id].key.Read? {
      assert DeliveryPlaces.Is(s.place, id, Listed(Read(s.place[id].key.device)));
      assert id in ListAt(s.lists, Read(s.place[id].key.device));
    }
    if d :| id in ListAt(s.lists, Read(d)) {
      assert DeliveryPlaces.Is(s.place, id, Listed(Read(d)));
    }
  }

  /** For a worker: it half-acknowledges id exactly when it holds it acknowledged. */
  lemma HalfAcksIff(s: System, w: WorkerId, id: Id)
    requires Recorded(s) && Real(id)
    ensures HalfAcks(WorkerAt(s, w), id) <==> WorkerAt(s, w).hand == Some(id) && id in s.acked
  {
    hide RecordData, PipesRecords;
    WorkerRecords(s, w);
    var x := WorkerAt(s, w);
    if x.pipe != [] {
      assert CommandOk(ViewOf(s), w, x.hand, x.pipe, 0) && CommandOk(ViewOf(s), w, x.hand, x.pipe, |x.pipe| - 1);
    }
  }

  lemma HalfAckedIff(s: System, id: Id)
    requires Placed(s) && Recorded(s) && Real(id)
    ensures HalfAcked(s, id) <==> id in s.acked && id in s.place && s.place[id].Held?
  {
    hide Placed, RecordData, PipesRecords, HalfAcks;
    if w :| w in s.workers && HalfAcks(s.workers[w], id) {
      HalfAcksIff(s, w, id);
      HandPlace(s, w);
    }
    if id in s.acked && id in s.place && s.place[id].Held? {
      HolderHolds(s, id);
      HalfAcksIff(s, s.place[id].w, id);
    }
  }

  lemma HolderHolds(s: System, id: Id)
    requires Placed(s) && id in s.place && s.place[id].Held?
    ensures s.place[id].w in s.workers && WorkerAt(s, s.place[id].w).hand == Some(id)
  {
    hide PipesOk, WatchesOk, SentIdsOk, ListsOk, DelayedOk, LostOk;
    assert DeliveryPlaces.Is(s.place, id, Held(s.place[id].w));
    assert HandAt(s.workers, s.place[id].w) == Some(id);
  }

  lemma LostIsPlace(s: System, id: Id)
    requires PlacesOk(s)
    ensures id in s.lost <==> id in s.place && s.place[id].Lost?
  {
    hide ListsOk, DelayedOk, HandsOk;
    assert id in s.lost <==> DeliveryPlaces.Is(s.place, id, Lost);
  }

  /** State 1 means read, half-acknowledged or cut short. */
  lemma StateOneIs(s: System, id: Id)
    requires Placed(s) && Recorded(s) && id in s.created && (id, State) in s.fields
    ensures s.fields[(id, State)] == Number(1) <==> InReadList(s, id) || HalfAcked(s, id) || AckedAndLost(s, id)
    ensures InReadList(s, id) ==> !HalfAcked(s, id) && !AckedAndLost(s, id)
  {
    hide PlacesOk, PipesOk, WatchesOk, SentIdsOk, PipesRecords, InReadList, HalfAcked;
    assert RecordOk(ViewOf(s), s.place[id], id);
    ReadListIsPlace(s, id);
    HalfAckedIff(s, id);
    LostIsPlace(s, id);
  }

  // ----- how an acknowledged id gets lost

  lemma SetWorkerLost(s: System, w: WorkerId, x: Worker)
    ensures SetWorker(s, w, x).lost == s.lost && SetWorker(s, w, x).acked == s.acked
  {}

  lemma TakeLost(s: System, w: WorkerId, x: Worker, id: Id)
    ensures Take(s, w, x, id).lost == s.lost && Take(s, w, x, id).acked == s.acked
  {}

  lemma PopLost(s: System, w: WorkerId, x: Worker, key: Key)
    ensures Pop(s, w, x, key).lost == s.lost && Pop(s, w, x, key).acked == s.acked
  {
    hide SetWorker, Take;
    var list := ListAt(s.lists, key);
    SetWorkerLost(s, w, x);
    if list != [] {
      TakeLost(s.(lists := s.lists[key := list[..|list| - 1]]), w, x, list[|list| - 1]);
    }
  }

  lemma ExecuteLost(s: System, w: WorkerId, x: Worker, id: Id)
    ensures Execute(s, w, x, id).lost == s.lost && Execute(s, w, x, id).acked == s.acked
  {
    hide SetWorker, Take, Notice;
    var x' := x.(watch := Unwatched);
    TakeLost(Claim(s, id), w, x', id);
    TakeLost(s, w, x', id);
    SetWorkerLost(s, w, x');
  }

  /** Commands lose nothing, and acknowledge only by writing state 1. */
  lemma CommandLost(s: System, w: WorkerId, x: Worker, c: Command)
    ensures var s' := RunCommand(s, w, x, c);
      && s'.lost == s.lost
      && s'.acked == if AckWrite(c) && Real(c.id) then s.acked + {c.id} else s.acked
  {
    hide Pop, Execute, Notice, ListAt, Dropping, SetWorker;
    SetWorkerLost(s, w, x);
    SetWorkerLost(s, w, x.(hand := None));
    match c
    case LPush(_, _) =>
    case RPop(key) => PopLost(s, w, x, key);
    case LRem(_, _) =>
    case ZAdd(_, _) =>
    case HSet(_, _, _) =>
    case ExpireRecord(_) =>
    case Exec(id) => ExecuteLost(s, w, x, id);
    case Multi =>
    case QueueZRem(_) =>
    case Aside(_) =>
  }

  lemma LoseLost(s: System, w: WorkerId, x: Worker)
    ensures var s', hand := Lose(s, w, x), WorkerAt(s, w).hand;
      s'.acked == s.acked && s'.lost == if hand.Some? then s.lost + {hand.value} else s.lost
  {
    hide SetWorker;
    SetWorkerLost(s, w, x);
  }

  lemma StepLost(s: System, e: Event)
    requires Enabled(s, e) && !e.Run?
    ensures Step(s, e).acked == s.acked
    ensures Step(s, e).lost == s.lost
         || ((e.Crash? || ((e.Drop? || e.StartAck?) && Holds(WorkerAt(s, e.w)))) && WorkerAt(s, e.w).hand.Some?
             && Step(s, e).lost == s.lost + {WorkerAt(s, e.w).hand.value})
    ensures e.Crash? && WorkerAt(s, e.w).hand.Some? ==> Step(s, e).lost == s.lost + {WorkerAt(s, e.w).hand.value}
  {
    hide RunCommand, SetWorker, Lose, PutCommands, AckCommands, ClaimCommands, Placing, Addressee, SentId, HasRecord;
    hide RecordOf, Lists;
    match e
    case StartPut(w, p, _, _) => SetWorkerLost(s, w, WorkerAt(s, w).(hand := Some(p.id), pipe := PutCommands(p)));
    case Drop(w) => LoseLost(s, w, WorkerAt(s, w).(hand := None));
    case Crash(w) => LoseLost(s, w, IDLE);
    case StartAck(_, _, _) => AckLost(s, e);
    case Expire(_) =>
    case Tick(_) =>
    case _ => StartsKeepTheRest(s, e);
  }

  lemma AckLost(s: System, e: Event)
    requires e.StartAck? && Enabled(s, e)
    ensures var s', id := Step(s, e), WorkerAt(s, e.w).hand.value;
      s'.acked == s.acked && s'.lost == if SentId(s, id, e.order) == id then s.lost else s.lost + {id}
  {
    hide SetWorker, Lose, AckCommands, Addressee, SentId, HasRecord, RecordOf, Lists;
    var id := WorkerAt(s, e.w).hand.value;
    var commands := AckCommands(SentId(s, id, e.order), Addressee(s, id, e.order), e.server);
    var x := WorkerAt(s, e.w).(pipe := commands);
    SetWorkerLost(s, e.w, x);
    LoseLost(s, e.w, x.(hand := None));
  }

  lemma RunCuts(s: System, w: WorkerId, id: Id)
    requires Placed(s) && Recorded(s) && Enabled(s, Run(w)) && Real(id)
    ensures AckedAndLost(Step(s, Run(w)), id) <==> AckedAndLost(s, id)
  {
    hide Placed, RecordData, PipesRecords, RunCommand;
    var y := WorkerAt(s, w);
    CommandLost(s, w, y.(pipe := y.pipe[1..]), y.pipe[0]);
    if AckWrite(y.pipe[0]) && y.pipe[0].id == id {
      WorkerRecords(s, w);
      PipeRecordsAt(ViewOf(s), w, y.hand, y.pipe, 0);
      HandPlace(s, w);
      NotLost(s, id);
    }
  }

  lemma NotLost(s: System, id: Id)
    requires Placed(s) && id in s.place && s.place[id].Held?
    ensures id !in s.lost
  {
    hide PipesOk, WatchesOk, SentIdsOk, ListsOk, DelayedOk, HandsOk;
    LostIsPlace(s, id);
  }

  /** An acknowledged id is lost by a crash between the two commands and by nothing else. */
  lemma StepCuts(s: System, e: Event, id: Id)
    requires Placed(s) && Recorded(s) && Enabled(s, e) && Real(id)
    ensures AckedAndLost(Step(s, e), id) <==> AckedAndLost(s, id) || Cuts(s, e, id)
  {
    hide Placed, Recorded, Step, Enabled, HalfAcks;
    if e.Run? {
      RunCuts(s, e.w, id);
    } else {
      StepLost(s, e);
      if e.Crash? || e.Drop? || e.StartAck? {
        HalfAcksIff(s, e.w, id);
        HoldsIsNotHalf(WorkerAt(s, e.w), id);
      }
    }
  }

  lemma HoldsIsNotHalf(x: Worker, id: Id)
    ensures Holds(x) ==> !HalfAcks(x, id)
  {}

  lemma {:induction false} RunsCuts(s: System, run: seq<Event>, id: Id, s': System)
    requires Placed(s) && Recorded(s) && s.heeds && Leads(s, run, s') && Real(id)
    ensures AckedAndLost(s', id) <==> AckedAndLost(s, id) || CutShort(s, run, id, s')
    decreases run
  {
    hide Placed, Recorded, Step, Enabled, AckedAndLost, Cuts;
    if run != [] {
      StepPlaced(s, run[0]);
      StepRecords(s, run[0]);
      StepCuts(s, run[0], id);
      RunsCuts(Step(s, run[0]), run[1..], id, s');
    }
  }

  lemma InitialKeepsAll()
    ensures Placed(Initial(true)) && Recorded(Initial(true)) && Initial(true).heeds && Initial(true).acked == {}
  {
    InitialPlaced(true);
  }

  /** The state field of an id, where its record has one, is 1 exactly when the id is in a read list: unless, and just
      as long as, somebody is between the first and the last command of acknowledging it, or crashed there. */
  lemma StateMeansRead(run: seq<Event>, s: System, id: Id)
    requires Leads(Initial(true), run, s) && id in s.created && (id, State) in s.fields
    ensures (s.fields[(id, State)] == Number(1) <==> InReadList(s, id))
      <==> !HalfAcked(s, id) && !CutShort(Initial(true), run, id, s)
    ensures InReadList(s, id) ==> s.fields[(id, State)] == Number(1)
  {
    hide Leads, Placed, InReadList, HalfAcked, CutShort, PipesRecords;
    RunKeepsAll(run, s);
    InitialKeepsAll();
    assert Real(id);
    RunsCuts(Initial(true), run, id, s);
    StateOneIs(s, id);
  }

  // ----- whose lists

  /** An acknowledgement is of the id in hand, and goes to the recipient read back, or is of no real id, and then the
      id in hand is lost. It is of the id in hand only if the record fetched has its submessageid; with a clear sender
      just then, and it goes to the id's own device. */
  lemma AckIsOfTheIdIff(run: seq<Event>, s: System, w: WorkerId, server: Server, order: seq<Field>)
    requires Leads(Initial(true), run, s) && Enabled(s, StartAck(w, server, order))
    ensures var s', id := Step(s, StartAck(w, server, order)), WorkerAt(s, w).hand.value;
      var sent, to := SentId(s, id, order), Addressee(s, id, order);
      && id in s.created && WorkerAt(s', w).pipe == AckCommands(sent, to, server)
      && (if sent == id then
            (id, SubMessageId) in s.fields && id !in s'.lost && WorkerAt(s', w).hand == Some(id)
          else
            !Real(sent) && id in s'.lost && id !in s'.acked && WorkerAt(s', w).hand == None)
      && (ClearSender(s.created[id]) ==>
            && (sent == id <==> (id, SubMessageId) in s.fields)
            && (if sent == id then to == s.created[id].to else sent == EMPTY))
  {
    hide Leads, Placed, Recorded, AckCommands, Addressee, SentId, HasRecord, SetWorker, Lose, RecordOf, Lists, Real;
    hide ClearSender;
    RunKeepsAll(run, s);
    var e, x := StartAck(w, server, order), WorkerAt(s, w);
    var id := x.hand.value;
    HeldIsUnacked(s, w);
    SentIdIs(s, id, order);
    if ClearSender(s.created[id]) {
      ClearSenderIsReadBack(s, w, order);
    }
    AckLost(s, e);
    HandPlace(s, w);
    NotLost(s, id);
    var commands := AckCommands(SentId(s, id, order), Addressee(s, id, order), server);
    SetWorkerIs(s, w, x.(pipe := commands), s.sent[id := Addressee(s, id, order)]);
    LoseIs(s, w, x.(pipe := commands).(hand := None));
  }

  lemma SetWorkerIs(s: System, w: WorkerId, x: Worker, sent: map<Id, Device>)
    ensures WorkerAt(SetWorker(s, w, x).(sent := sent), w) == x
  {}

  lemma LoseIs(s: System, w: WorkerId, x: Worker)
    ensures WorkerAt(Lose(s, w, x), w) == x
  {}

  /** An id saved unread goes to the list of the recipient read back: with a clear sender its own device's list when
      the record fetched has a recipient, and the list of nobody otherwise. */
  lemma UnreadGoesHomeIff(run: seq<Event>, s: System, w: WorkerId, order: seq<Field>)
    requires Leads(Initial(true), run, s) && Enabled(s, StartSaveInNoread(w, order))
    ensures var s', id := Step(s, StartSaveInNoread(w, order)), WorkerAt(s, w).hand.value;
      var to := Addressee(s, id, order);
      && id in s.created && WorkerAt(s', w).pipe == [LPush(NoRead(to), id)] && s'.sent == s.sent[id := to]
      && (ClearSender(s.created[id]) ==> to == if (id, To) in s.fields then s.created[id].to else NOBODY)
  {
    hide Leads, Placed, Recorded, Addressee, HasRecord, RecordOf, Lists, ClearSender, SetWorker, Real;
    RunKeepsAll(run, s);
    HeldIsUnacked(s, w);
    var x := WorkerAt(s, w);
    var id := x.hand.value;
    var to := Addressee(s, id, order);
    if ClearSender(s.created[id]) {
      ClearSenderIsReadBack(s, w, order);
    }
    SetWorkerIs(s, w, x.(pipe := [LPush(NoRead(to), id)]), s.sent[id := to]);
  }

  /** The first fields a put writes, in their order, with an address that begins with no name. */
  predicate InOrder(p: Put, order: seq<Field>) {
    |order| >= 3 && order[0] == From && order[1] == To && order[2] == FromIp && Match(p.fromIp) == None
  }

  /** When a record comes back in the order it was written, its submessageid is read back; its recipient is if and only
      if the sender is clear, or the recipient is nobody and the sender does not begin with "to". Otherwise the message
      is for the device called "to", "fromip" or nothing, as RecipientFound says. */
  lemma WrittenGoesHomeIff(run: seq<Event>, s: System, w: WorkerId, order: seq<Field>)
    requires Leads(Initial(true), run, s) && Fetches(s, w, order)
    ensures var id := WorkerAt(s, w).hand.value;
      && id in s.created
      && var p, to := s.created[id], Addressee(s, id, order);
         InOrder(p, order) ==>
           && (to == p.to <==> ClearSender(p) || (p.to == NOBODY && Match(p.from) != Some(ToName)))
           && to.name == RecipientFound(p.from, p.to.name)
           && ((id, SubMessageId) in s.fields ==> SentId(s, id, order) == id)
  {
    hide Leads, Placed, Recorded, Match, ReadBack, Real, Decimal;
    RunKeepsAll(run, s);
    HeldIsUnacked(s, w);
    var id := WorkerAt(s, w).hand.value;
    var record := RecordOf(s, id);
    ReadValues(s, id);
    NumbersAreNoNames(0);
    var p := s.created[id];
    if InOrder(p, order) {
      WrittenIsFound(record, order);
      RecipientIsReadIff(record, order);
      assert order[0] in order && order[1] in order;
      assert (id, From) in s.fields && (id, To) in s.fields;
      assert TextOf(record[To]) == p.to.name && TextOf(record[From]) == p.from;
      NobodyIs(p.to);
    }
  }

  lemma NobodyIs(d: Device)
    ensures d == Device(d.name) && (d.name == "" <==> d == NOBODY)
  {}

  /** A read list, or an unread list, holds the ids whose recipient was last read back as its device, and an unread
      list those that were put there and not read since. So with a clear sender an id in a read list is in its own
      device's, and one in an unread list in its own device's or nobody's. */
  lemma ListsKeepRecipients(run: seq<Event>, s: System, id: Id, d: Device)
    requires Leads(Initial(true), run, s) && Real(id)
    ensures id in ListAt(s.lists, Read(d)) ==>
      && id in s.created && id in s.sent && d == s.sent[id]
      && (ClearSender(s.created[id]) ==> d == s.created[id].to)
    ensures id in ListAt(s.lists, NoRead(d)) ==>
      && id in s.created && d == (if id in s.sent then s.sent[id] else s.created[id].to)
      && (ClearSender(s.created[id]) ==> d == s.created[id].to || d == NOBODY)
  {
    hide Leads, PipesOk, WatchesOk, SentIdsOk, DelayedOk, HandsOk, LostOk, PipesRecords, Real, ClearSender, Record;
    RunKeepsAll(run, s);
    ListsHold(s.lists, s.place, Read(d));
    ListsHold(s.lists, s.place, NoRead(d));
    if id in ListAt(s.lists, Read(d)) || id in ListAt(s.lists, NoRead(d)) {
      assert DeliveryPlaces.Is(s.place, id, Listed(NoRead(d))) || DeliveryPlaces.Is(s.place, id, Listed(Read(d)));
      assert RecordOk(ViewOf(s), s.place[id], id);
    }
  }
}
