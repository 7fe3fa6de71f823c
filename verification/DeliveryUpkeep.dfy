/** The invariant of DeliveryRecords, step by step over every run. */
module DeliveryUpkeep {
  import opened Redis
  import opened Delivery
  import opened DeliveryPlaces
  import opened DeliverySafety
  import opened DeliveryRecords
  import opened MessageInfo
  import opened Wrappers

  // ----- one step of the invariant

  lemma LRemKeeps(s: System, w: WorkerId, x: Worker, key: Key, list: seq<Id>)
    requires Recorded(SetWorker(s, w, x))
    ensures Recorded(SetWorker(s, w, x).(lists := s.lists[key := list]))
  {
    hide Recorded, SetWorker;
    ListsDoNotMatter(SetWorker(s, w, x), s.lists[key := list]);
  }

  lemma RunQuietRecords(s: System, w: WorkerId, x: Worker, c: Command)
    requires Recorded(s) && WorkerAt(s, w).pipe != [] && WorkerAt(s, w).pipe[0] == c && Quiet(c)
    requires x == WorkerAt(s, w).(pipe := WorkerAt(s, w).pipe[1..])
    ensures Recorded(RunCommand(s, w, x, c))
  {
    hide Recorded, PipeRecords, Push, Pop, Delay, Execute, Write, SetWorker, Dropping;
    WorkerRecords(s, w);
    TailQuiet(ViewOf(s), w, WorkerAt(s, w).hand, WorkerAt(s, w).pipe);
    KeepRecords(s, w, x);
    match c
    case LRem(key, id) => LRemKeeps(s, w, x, key, Dropping(ListAt(s.lists, key), id));
    case Aside(_) =>
    case Multi =>
    case QueueZRem(_) =>
  }

  lemma RunRecords(s: System, w: WorkerId)
    requires Placed(s) && Recorded(s) && s.heeds && Enabled(s, Run(w))
    ensures Recorded(Step(s, Run(w)))
  {
    hide Placed, Recorded, PipeRecords, Push, Pop, Delay, Execute, Write, SetWorker, WatchOk, DeliveryPlaces.Is;
    WorkerOk(s, w);
    WorkerRecords(s, w);
    var y := WorkerAt(s, w);
    PipeRecordsAt(ViewOf(s), w, y.hand, y.pipe, 0);
    var x, c := y.(pipe := y.pipe[1..]), y.pipe[0];
    match c
    case LPush(key, id) => RunLPushRecords(s, w, x, key, id);
    case ZAdd(score, id) => RunZAddRecords(s, w, x, score, id);
    case RPop(key) => PopPlacedRecords(s, w, x, key);
    case Exec(id) => ExecuteRecords(s, w, x, id);
    case HSet(_, _, _) => RunHSetRecords(s, w, x, c);
    case ExpireRecord(id) => RunExpireRecordRecords(s, w, x, id);
    case _ => RunQuietRecords(s, w, x, c);
  }

  lemma PopPlacedRecords(s: System, w: WorkerId, x: Worker, key: Key)
    requires Recorded(s) && Placed(s) && !key.Read? && x.pipe == [] && x.hand == None
    ensures Recorded(Pop(s, w, x, key))
  {
    hide Recorded, PlacesOk, Pop;
    PopRecords(s, w, x, key);
  }

  lemma RunHSetRecords(s: System, w: WorkerId, x: Worker, c: Command)
    requires Recorded(s) && Placed(s) && WorkerAt(s, w).pipe != [] && WorkerAt(s, w).pipe[0] == c && c.HSet?
    requires x == WorkerAt(s, w).(pipe := WorkerAt(s, w).pipe[1..])
    ensures Recorded(RunCommand(s, w, x, c))
  {
    hide Placed, Recorded, Write;
    if AckWrite(c) {
      RunAckWriteRecords(s, w, x, c);
    } else {
      RunPutWriteRecords(s, w, x, c);
    }
  }

  predicate PutStep(p: Put, c: Command) {
    c.Aside? || c == Placing(p)
    || (PutWrite(c) && c.id == p.id && c in Record(p) && (c.field == State ==> c.value == Number(0)))
  }

  /** Recipient first, then state 0, then the submessageid, once, and none of them later. */
  predicate WellOrdered(p: Put, pipe: seq<Command>) {
    forall i :: 0 <= i < |pipe| && pipe[i].HSet? && pipe[i].field == SubMessageId ==>
      HSet(p.id, To, DeviceName(p.to)) in pipe[..i] && HSet(p.id, State, Number(0)) in pipe[..i]
      && forall j :: i < j < |pipe| ==> !Early(pipe[j])
  }

  /** Where a put writes the submessageid. */
  function SubMessageAt(p: Put): nat {
    4 + |Payload(p)| + 3
  }

  lemma RecordSteps(p: Put)
    ensures forall i :: 0 <= i < |Record(p)| ==> PutStep(p, Record(p)[i])
    ensures Record(p)[1] == HSet(p.id, To, DeviceName(p.to)) && Record(p)[3] == HSet(p.id, State, Number(0))
    ensures forall i :: 0 <= i < |Record(p)| ==> (Early(Record(p)[i]) ==> i < 4 || i == SubMessageAt(p))
    ensures forall i :: 0 <= i < |Record(p)| ==>
      (Record(p)[i].HSet? && Record(p)[i].field == SubMessageId ==> i == SubMessageAt(p))
  {}

  /** What a put makes of its message: the name of a file stored anew is its content. */
  function ValueOf(p: Put, f: Field): Option<Value> {
    match f
    case From => Some(Text(p.from))
    case To => Some(DeviceName(p.to))
    case FromIp => Some(Text(p.fromIp))
    case State => Some(Number(0))
    case Content => Some(Text(if p.body.TextBody? then p.body.content else p.body.newFileName))
    case OrgFileName => if p.body.FileBody? then Some(Text(p.body.orgFileName)) else None
    case SendTime => Some(Text(p.time))
    case RetryCount => Some(Number(0))
    case MessageType => Some(Number(p.messageType))
    case SubMessageId => Some(IdText(p.id))
    case MessageId => if p.group.Some? then Some(Number(p.group.value)) else None
  }

  lemma RecordValues(p: Put, c: Command)
    requires c in Record(p)
    ensures c.HSet? && c.id == p.id && Some(c.value) == ValueOf(p, c.field)
  {}

  lemma PutIndex(p: Put, i: nat)
    requires i < |PutCommands(p)|
    ensures var pipe, k := PutCommands(p), |Before(p)|;
      && |pipe| == k + 2 + |Record(p)| && pipe[|pipe| - 1] == ExpireRecord(p.id)
      && pipe[i] == if i < k then Before(p)[i] else if i == k then Placing(p)
                    else if i == |pipe| - 1 then ExpireRecord(p.id) else Record(p)[i - k - 1]
  {
    hide Placing, Record, Before;
  }

  /** What a put sends: EXPIRE last, the placing once, and the fields of its record in an order. */
  lemma PutSteps(p: Put)
    ensures var pipe := PutCommands(p);
      && pipe[|pipe| - 1] == ExpireRecord(p.id) && Placing(p) in pipe && WellOrdered(p, pipe)
      && forall i :: 0 <= i < |pipe| - 1 ==> PutStep(p, pipe[i])
  {
    var pipe, k := PutCommands(p), |Before(p)|;
    RecordSteps(p);
    PutIndex(p, 0);
    PutIndex(p, k);
    PutIndex(p, k + 2);
    PutIndex(p, k + 4);
    hide SubMessageAt;
    forall i | 0 <= i < |pipe|
      ensures i < |pipe| - 1 ==> PutStep(p, pipe[i])
      ensures Early(pipe[i]) ==> i < k + 5 || i == k + 1 + SubMessageAt(p)
      ensures pipe[i].HSet? && pipe[i].field == SubMessageId ==> i == k + 1 + SubMessageAt(p)
    {
      PutIndex(p, i);
      BeforeAsides(p);
      PlacingMoves(p);
    }
    hide PutCommands, Record, Placing, Before;
    SubMessageLate(p);
    assert WellOrdered(p, pipe) by {
      forall i | 0 <= i < |pipe| && pipe[i].HSet? && pipe[i].field == SubMessageId
        ensures HSet(p.id, To, DeviceName(p.to)) in pipe[..i] && HSet(p.id, State, Number(0)) in pipe[..i]
      {
        assert pipe[..i][k + 2] == pipe[k + 2] && pipe[..i][k + 4] == pipe[k + 4];
      }
    }
  }

  lemma SubMessageLate(p: Put)
    ensures SubMessageAt(p) > 7
  {}

  lemma BeforeAsides(p: Put)
    ensures forall i :: 0 <= i < |Before(p)| ==> Before(p)[i].Aside?
  {}

  lemma PlacingMoves(p: Put)
    ensures Placing(p).LPush? || Placing(p).ZAdd?
  {}

  lemma PutPipeRecords(v: View, w: WorkerId, p: Put)
    requires p.id in v.created && v.created[p.id] == p && p.id in v.putter && v.putter[p.id] == w && Real(p.id)
    requires p.id !in v.mortal && p.id !in v.acked && p.id !in v.whole && p.id !in v.sent
    ensures PipeRecords(v, w, Some(p.id), PutCommands(p))
  {
    hide PutCommands, Real, Record;
    var pipe := PutCommands(p);
    PutSteps(p);
    forall i | 0 <= i < |pipe|
      ensures CommandOk(v, w, Some(p.id), pipe, i)
    {
      if i < |pipe| - 1 {
        assert PutStep(p, pipe[i]);
        if pipe[i].HSet? && pipe[i].field == SubMessageId {
          var j :| 0 <= j < i && pipe[..i][j] == HSet(p.id, To, DeviceName(p.to));
          assert WritesTo(pipe[j], p.id);
        }
      }
    }
  }

  lemma NewRecord(v: View, place: map<Id, Place>, p: Put, w: WorkerId)
    requires RecordData(v, place) && p.id !in v.created && Real(p.id)
    ensures RecordOk(v.(created := v.created[p.id := p], putter := v.putter[p.id := w]), Held(w), p.id)
  {
    hide Real, Record, ClearSender;
  }

  lemma NewRecordData(v: View, place: map<Id, Place>, p: Put, w: WorkerId)
    requires RecordData(v, place) && p.id !in v.created && Real(p.id)
    ensures RecordData(v.(created := v.created[p.id := p], putter := v.putter[p.id := w]), place[p.id := Held(w)])
  {
    hide Real, RecordOk, Agree;
    var v' := v.(created := v.created[p.id := p], putter := v.putter[p.id := w]);
    NewRecord(v, place, p, w);
    forall i | i in v.created
      ensures Agree(v, v', i)
    {
      NewAgrees(v, p, w, i);
    }
    RecordDataStep(v, v', place, p.id, Held(w));
  }

  lemma NewAgrees(v: View, p: Put, w: WorkerId, i: Id)
    requires i in v.created && p.id !in v.created
    ensures Agree(v, v.(created := v.created[p.id := p], putter := v.putter[p.id := w]), i)
  {}

  lemma NewSpares(v: View, p: Put, w: WorkerId, u: WorkerId, hand: Option<Id>)
    requires p.id !in v.created && p.id !in v.putter
    ensures Spares(v, v.(created := v.created[p.id := p], putter := v.putter[p.id := w]), u, hand)
  {}

  lemma StartPutRecords(s: System, e: Event)
    requires Recorded(s) && e.StartPut? && Enabled(s, e)
    ensures Recorded(Step(s, e))
  {
    var v, p, w := ViewOf(s), e.p, e.w;
    var v' := v.(created := v.created[p.id := p], putter := v.putter[p.id := w]);
    var x := WorkerAt(s, w).(hand := Some(p.id), pipe := PutCommands(p));
    hide Real;
    assert p.id !in v.created && p.id !in v.putter && p.id !in v.mortal + v.acked + v.whole + v.sent.Keys by {
      hide RecordOk, PipesRecords;
    }
    hide PutCommands, Placing, RecordData, PipesRecords, PipeRecords, Spares;
    NewRecordData(v, s.place, p, w);
    PutPipeRecords(v', w, p);
    forall u | u in s.workers && u != w
      ensures Spares(v, v', u, s.workers[u].hand)
    {
      NewSpares(v, p, w, u, s.workers[u].hand);
    }
    PipesStep(v, v', s.workers, w, x);
  }

  // ----- what a worker reads of the id it holds

  /** What there is to know about the id a worker holds between two calls. */
  lemma HeldIsUnacked(s: System, w: WorkerId)
    requires Placed(s) && Recorded(s) && Holds(WorkerAt(s, w))
    ensures var id := WorkerAt(s, w).hand.value;
      && id in s.created && Real(id) && id !in s.acked
      && ((id, SubMessageId) in s.fields ==> id in s.whole && (id, To) in s.fields)
  {
    hide Placed, PipesRecords, Real, Record, ClearSender;
    HeldIsReal(s, w);
    var id := WorkerAt(s, w).hand.value;
    WorkerRecords(s, w);
    assert RecordOk(ViewOf(s), s.place[id], id);
  }

  /** A record holds what was put, and nothing else but the state of an acknowledgement. */
  lemma FieldValues(s: System, id: Id, f: Field)
    requires Recorded(s) && Placed(s) && id in s.created && (id, f) in s.fields
    ensures Some(s.fields[(id, f)]) == ValueOf(s.created[id], f)
         || (f == State && s.fields[(id, f)] == Number(1) && id in s.acked)
  {
    hide PlacesOk, PipesOk, WatchesOk, SentIdsOk, PipesRecords, Real, Record, HomeOk, PlaceAgrees;
    var v, p := ViewOf(s), s.created[id];
    assert RecordOk(v, s.place[id], id);
    if f != State {
      RecordValues(p, HSet(id, f, s.fields[(id, f)]));
    }
  }

  lemma ReadValues(s: System, id: Id)
    requires Recorded(s) && Placed(s) && id in s.created
    ensures var p := s.created[id];
      && ((id, From) in s.fields ==> s.fields[(id, From)] == Text(p.from))
      && ((id, To) in s.fields ==> s.fields[(id, To)] == DeviceName(p.to))
      && ((id, FromIp) in s.fields ==> s.fields[(id, FromIp)] == Text(p.fromIp))
      && ((id, RetryCount) in s.fields ==> s.fields[(id, RetryCount)] == Number(0))
      && ((id, SubMessageId) in s.fields ==> s.fields[(id, SubMessageId)] == IdText(id))
  {
    hide PlacesOk, PipesOk, WatchesOk, Recorded;
    forall f | (id, f) in s.fields
      ensures Some(s.fields[(id, f)]) == ValueOf(s.created[id], f) || f == State
    {
      FieldValues(s, id, f);
    }
  }

  lemma OthersAreEntries(f: Field)
    requires Entry(f) == None
    ensures f == From || f == RetryCount
  {}

  /** Of a message with a clear sender the recipient and the submessageid are read back, in any order of the reply, if
      they are there; of any message when the sender comes last. */
  lemma ClearSenderIsReadBack(s: System, w: WorkerId, order: seq<Field>)
    requires Placed(s) && Recorded(s) && Fetches(s, w, order)
    requires WorkerAt(s, w).hand.value in s.created
    requires ClearSender(s.created[WorkerAt(s, w).hand.value]) || (order != [] && order[|order| - 1] == From)
    ensures var id := WorkerAt(s, w).hand.value;
      && Addressee(s, id, order) == (if (id, To) in s.fields then s.created[id].to else NOBODY)
      && SentId(s, id, order) == (if (id, SubMessageId) in s.fields then id else EMPTY)
  {
    hide Placed, Recorded, ReadBack, Match, Decimal;
    var id := WorkerAt(s, w).hand.value;
    var record := RecordOf(s, id);
    ReadValues(s, id);
    NumbersAreNoNames(0);
    forall i | 0 <= i < |order| - 1 && Entry(order[i]) == None
      ensures Match(TextOf(record[order[i]])) == None
    {
      OthersAreEntries(order[i]);
      assert order[i] in order && order[i] != order[|order| - 1];
    }
    HarmlessIsReadBack(record, order, To);
    HarmlessIsReadBack(record, order, SubMessageId);
  }

  lemma AckPipeRecords(v: View, w: WorkerId, id: Id, to: Device, server: Server)
    requires Real(id) && id in v.created && id in v.whole && id !in v.acked && id in v.sent && v.sent[id] == to
    requires ClearSender(v.created[id]) ==> to == v.created[id].to
    ensures PipeRecords(v, w, Some(id), AckCommands(id, to, server))
  {
    hide Real, ClearSender;
  }

  lemma UnrealAckPipeRecords(v: View, w: WorkerId, id: Id, to: Device, server: Server)
    requires !Real(id)
    ensures PipeRecords(v, w, None, AckCommands(id, to, server))
  {
    hide Real;
  }

  lemma SavePipeRecords(v: View, w: WorkerId, id: Id, key: Key)
    requires id in v.created && id !in v.acked && !key.Read?
    requires key.NoRead? ==> key.device == Home(v, id)
    ensures PipeRecords(v, w, Some(id), [LPush(key, id)])
  {}

  lemma QueryPipeRecords(v: View, w: WorkerId, pipe: seq<Command>)
    requires forall i :: 0 <= i < |pipe| ==> Quiet(pipe[i]) || pipe[i].Exec? || (pipe[i].RPop? && !pipe[i].key.Read?)
    ensures PipeRecords(v, w, None, pipe)
  {}

  lemma StartRecords(s: System, e: Event)
    requires Placed(s) && Recorded(s) && Enabled(s, e) && (e.StartPop? || e.StartSaveInPushlist? || e.StartClaim?)
    ensures Recorded(Step(s, e))
  {
    hide Placed, Recorded, PipeRecords, ClaimCommands, SetWorker, HasRecord, Lists, Real, RecordOf;
    var v, x := ViewOf(s), WorkerAt(s, e.w);
    if Holds(x) {
      HeldIsUnacked(s, e.w);
    }
    match e
    case StartPop(w, key) =>
      QueryPipeRecords(v, w, [RPop(key)]);
      KeepRecords(s, w, x.(pipe := [RPop(key)]));
    case StartSaveInPushlist(w, server) =>
      SavePipeRecords(v, w, x.hand.value, PushList(server));
      KeepRecords(s, w, x.(pipe := [LPush(PushList(server), x.hand.value)]));
    case StartClaim(w) =>
      ClaimPipeRecords(v, w, x.watch.seen.value);
      KeepRecords(s, w, x.(pipe := ClaimCommands(x.watch.seen.value)));
  }

  lemma HandPlace(s: System, w: WorkerId)
    requires Placed(s) && WorkerAt(s, w).hand.Some?
    ensures WorkerAt(s, w).hand.value in s.place && s.place[WorkerAt(s, w).hand.value] == Held(w)
  {
    hide PlacesOk, PipesOk, WatchesOk, WatchOk, PipeOk, SentIdsOk;
    WorkerOk(s, w);
  }

  // ----- sending an id to the recipient read back

  function Sending(v: View, id: Id, to: Device): View {
    v.(sent := v.sent[id := to])
  }

  lemma SendingRecord(v: View, id: Id, to: Device, w: WorkerId)
    requires id in v.created && id !in v.acked && RecordOk(v, Held(w), id)
    requires ClearSender(v.created[id]) ==> to == v.created[id].to || to == NOBODY
    ensures RecordOk(Sending(v, id, to), Held(w), id)
  {
    hide Real, Record, ClearSender;
  }

  lemma SendingData(v: View, place: map<Id, Place>, id: Id, to: Device, w: WorkerId)
    requires RecordData(v, place) && id in v.created && place[id] == Held(w) && id !in v.acked
    requires ClearSender(v.created[id]) ==> to == v.created[id].to || to == NOBODY
    ensures RecordData(Sending(v, id, to), place)
  {
    hide Real, RecordOk, ClearSender;
    var v' := Sending(v, id, to);
    SendingRecord(v, id, to, w);
    RecordDataStep(v, v', place, id, place[id]);
    assert place[id := place[id]] == place;
  }

  lemma SendingSpares(v: View, id: Id, to: Device, u: WorkerId, hand: Option<Id>)
    requires hand != Some(id)
    ensures Spares(v, Sending(v, id, to), u, hand)
  {}

  lemma SendingPipes(s: System, w: WorkerId, x: Worker, id: Id, to: Device)
    requires Placed(s) && Recorded(s) && WorkerAt(s, w).hand == Some(id)
    requires PipeRecords(Sending(ViewOf(s), id, to), w, x.hand, x.pipe)
    ensures PipesRecords(Sending(ViewOf(s), id, to), s.workers[w := x])
  {
    hide PlacesOk, PipesOk, WatchesOk, SentIdsOk, RecordData, PipesRecords, PipeRecords, Spares, Sending;
    forall u | u in s.workers && u != w
      ensures Spares(ViewOf(s), Sending(ViewOf(s), id, to), u, s.workers[u].hand)
    {
      OthersHoldOther(s, w, id, u);
      SendingSpares(ViewOf(s), id, to, u, s.workers[u].hand);
    }
    PipesStep(ViewOf(s), Sending(ViewOf(s), id, to), s.workers, w, x);
  }

  lemma ViewOfSending(s: System, w: WorkerId, x: Worker, id: Id, to: Device)
    ensures var s' := SetWorker(s, w, x).(sent := s.sent[id := to]);
      && ViewOf(s') == Sending(ViewOf(s), id, to) && s'.place == s.place && s'.workers == s.workers[w := x]
  {}

  lemma SendingRecords(s: System, w: WorkerId, x: Worker, id: Id, to: Device)
    requires Placed(s) && Recorded(s) && Holds(WorkerAt(s, w)) && WorkerAt(s, w).hand == Some(id) && id in s.created
    requires ClearSender(s.created[id]) ==> to == s.created[id].to || to == NOBODY
    requires PipeRecords(Sending(ViewOf(s), id, to), w, x.hand, x.pipe)
    ensures Recorded(SetWorker(s, w, x).(sent := s.sent[id := to]))
  {
    hide Placed, RecordData, PipesRecords, PipeRecords, Real, SetWorker, ClearSender, Sending;
    HeldIsUnacked(s, w);
    HandPlace(s, w);
    SendingData(ViewOf(s), s.place, id, to, w);
    SendingPipes(s, w, x, id, to);
    ViewOfSending(s, w, x, id, to);
  }

  lemma StartAckRecords(s: System, e: Event)
    requires Placed(s) && Recorded(s) && e.StartAck? && Enabled(s, e)
    ensures Recorded(Step(s, e))
  {
    hide Placed, Recorded, PipeRecords, AckCommands, SetWorker, Lose, HasRecord, Addressee, SentId, Lists, Real;
    hide ClearSender, RecordOf;
    var x := WorkerAt(s, e.w);
    var id := x.hand.value;
    var sent, to := SentId(s, id, e.order), Addressee(s, id, e.order);
    var commands := AckCommands(sent, to, e.server);
    HeldIsUnacked(s, e.w);
    SentIdIs(s, id, e.order);
    if sent == id {
      if ClearSender(s.created[id]) {
        ClearSenderIsReadBack(s, e.w, e.order);
      }
      AckPipeRecords(Sending(ViewOf(s), id, to), e.w, id, to, e.server);
      SendingRecords(s, e.w, x.(pipe := commands), id, to);
    } else {
      UnrealAckPipeRecords(ViewOf(s), e.w, sent, to, e.server);
      LoseRecords(s, e.w, x.(pipe := commands).(hand := None));
    }
  }

  lemma StartSaveRecords(s: System, e: Event)
    requires Placed(s) && Recorded(s) && e.StartSaveInNoread? && Enabled(s, e)
    ensures Recorded(Step(s, e))
  {
    hide Placed, Recorded, PipeRecords, SetWorker, HasRecord, Addressee, Lists, Real, ClearSender, RecordOf;
    var w, x := e.w, WorkerAt(s, e.w);
    var id := x.hand.value;
    var to := Addressee(s, id, e.order);
    HeldIsUnacked(s, w);
    if ClearSender(s.created[id]) {
      ClearSenderIsReadBack(s, w, e.order);
    }
    SavePipeRecords(Sending(ViewOf(s), id, to), w, id, NoRead(to));
    SendingRecords(s, w, x.(pipe := [LPush(NoRead(to), id)]), id, to);
  }

  lemma ClaimPipeRecords(v: View, w: WorkerId, id: Id)
    ensures PipeRecords(v, w, None, ClaimCommands(id))
  {}

  lemma WatchRecords(s: System, e: Event)
    requires Recorded(s) && Enabled(s, e) && (e.StartWatch? || e.Range?)
    ensures Recorded(Step(s, e))
  {
    hide Recorded, PipeRecords;
    WorkerRecords(s, e.w);
    KeepRecords(s, e.w, WorkerAt(Step(s, e), e.w));
  }

  lemma LoseRecords(s: System, w: WorkerId, x: Worker)
    requires Recorded(s) && Placed(s) && x.hand == None && PipeRecords(ViewOf(s), w, None, x.pipe)
    ensures Recorded(Lose(s, w, x))
  {
    hide Placed, RecordData, PipesRecords, PipeRecords;
    KeepRecords(s, w, x);
    if WorkerAt(s, w).hand.Some? {
      HeldIsReal(s, w);
      RecordDataMoves(ViewOf(s), s.place, WorkerAt(s, w).hand.value, Lost);
    }
  }

  lemma LoseIdleRecords(s: System, w: WorkerId, x: Worker)
    requires Recorded(s) && Placed(s) && x.hand == None && x.pipe == []
    ensures Recorded(Lose(s, w, x))
  {
    hide Placed, Recorded, Lose, CommandOk;
    LoseRecords(s, w, x);
  }

  lemma ExpireSpares(v: View, v': View, id: Id, u: WorkerId, hand: Option<Id>)
    requires id in v.mortal && v' == v.(fields := map k | k in v.fields && k.0 != id :: v.fields[k])
    ensures Spares(v, v', u, hand)
  {}

  function Expired(v: View, id: Id): View {
    v.(fields := map k | k in v.fields && k.0 != id :: v.fields[k])
  }

  lemma ExpiredRecord(v: View, q: Place, id: Id)
    requires id in v.created && RecordOk(v, q, id)
    ensures RecordOk(Expired(v, id), q, id)
  {
    hide Real, Record, ClearSender;
  }

  lemma ExpiredData(v: View, place: map<Id, Place>, id: Id)
    requires RecordData(v, place) && id in v.created
    ensures RecordData(Expired(v, id), place)
  {
    hide Real, RecordOk;
    ExpiredRecord(v, place[id], id);
    RecordDataStep(v, Expired(v, id), place, id, place[id]);
    assert place[id := place[id]] == place;
  }

  lemma ExpireRecords(s: System, id: Id)
    requires Recorded(s) && id in s.mortal
    ensures Recorded(Step(s, Expire(id)))
  {
    var v, v' := ViewOf(s), Expired(ViewOf(s), id);
    hide RecordOk, PipesRecords, PipeRecords, Spares;
    ExpiredData(v, s.place, id);
    hide RecordData;
    forall u | u in s.workers
      ensures PipeRecords(v', u, s.workers[u].hand, s.workers[u].pipe)
    {
      ExpireSpares(v, v', id, u, s.workers[u].hand);
      WorkerRecords(s, u);
      SparesPipe(v, v', u, s.workers[u].hand, s.workers[u].pipe);
    }
    PipesOf(v', s.workers);
  }

  lemma PipesOf(v: View, workers: map<WorkerId, Worker>)
    requires forall u :: u in workers ==> PipeRecords(v, u, workers[u].hand, workers[u].pipe)
    ensures PipesRecords(v, workers)
  {
    hide PipeRecords;
  }

  lemma StepRecords(s: System, e: Event)
    requires Placed(s) && Recorded(s) && s.heeds && Enabled(s, e)
    ensures Recorded(Step(s, e))
  {
    hide Placed, Recorded, RunCommand, PutCommands, AckCommands, ClaimCommands, Lose, SetWorker, HasRecord, SentId;
    hide Lists, Real, RecordOf;
    match e
    case StartPut(_, _, _, _) => StartPutRecords(s, e);
    case StartAck(_, _, _) => StartAckRecords(s, e);
    case StartSaveInNoread(_, _) => StartSaveRecords(s, e);
    case Drop(w) => LoseIdleRecords(s, w, WorkerAt(s, w).(hand := None));
    case Crash(w) => LoseIdleRecords(s, w, IDLE);
    case Run(w) => RunRecords(s, w);
    case Expire(id) => ExpireRecords(s, id);
    case Tick(t) => TickRecords(s, t);
    case StartWatch(_) => WatchRecords(s, e);
    case Range(_, _, _) => WatchRecords(s, e);
    case _ => StartRecords(s, e);
  }

  lemma TickRecords(s: System, t: int)
    requires Recorded(s)
    ensures Recorded(s.(now := t))
  {
    hide RecordData, PipesRecords;
  }

  lemma {:induction false} RunsRecords(s: System, run: seq<Event>, s': System)
    requires Placed(s) && Recorded(s) && s.heeds && Leads(s, run, s')
    ensures Placed(s') && Recorded(s')
    decreases run
  {
    hide Placed, Recorded, Step, Enabled;
    if run != [] {
      StepPlaced(s, run[0]);
      StepRecords(s, run[0]);
      RunsRecords(Step(s, run[0]), run[1..], s');
    }
  }

  lemma RunKeepsAll(run: seq<Event>, s: System)
    requires Leads(Initial(true), run, s)
    ensures Placed(s) && Recorded(s)
  {
    InitialPlaced(true);
    assert Recorded(Initial(true));
    hide Placed, Recorded, Leads, Initial;
    InitialHeeds();
    RunsRecords(Initial(true), run, s);
  }

  lemma InitialHeeds()
    ensures Initial(true).heeds
  {}
}
