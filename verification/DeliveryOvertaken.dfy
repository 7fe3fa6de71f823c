/** What becomes of an id that is taken while its put is still writing the record, of an acknowledgement that does not
    get to its end, and of a sender that is called like a field. */
module DeliveryOvertaken {
  import opened Redis
  import opened Delivery
  import opened DeliveryPlaces
  import opened DeliverySafety
  import opened DeliveryRecords
  import opened DeliveryUpkeep
  import opened DeliveryMeaning
  import opened DeliveryRuns
  import opened MessageInfo
  import opened Wrappers

  function Rest(p: Put): seq<Command> {
    Record(p) + [ExpireRecord(p.id)]
  }

  /** In which order a put writes the fields. */
  lemma RecordLayout(p: Put)
    ensures var rest, k := Rest(p), |Payload(p)|;
      && SubMessageAt(p) < |Record(p)| && Writes(rest[0], (p.id, From)) && Writes(rest[1], (p.id, To))
      && Writes(rest[2], (p.id, FromIp)) && Writes(rest[3], (p.id, State)) && Writes(rest[3 + k], (p.id, Field.Content))
      && Writes(rest[4 + k], (p.id, SendTime)) && Writes(rest[5 + k], (p.id, RetryCount))
      && Writes(rest[6 + k], (p.id, MessageType)) && Writes(rest[SubMessageAt(p)], (p.id, SubMessageId))
      && (p.body.FileBody? ==> Writes(rest[4], (p.id, OrgFileName)))
      && (p.group.Some? ==> |Record(p)| == 9 + k && Writes(rest[8 + k], (p.id, MessageId)))
  {
    var record := Record(p);
    assert p.body.FileBody? ==> record[5] == HSet(p.id, Field.Content, Text(p.body.newFileName));
    assert p.body.TextBody? ==> record[4] == HSet(p.id, Field.Content, Text(p.body.content));
  }

  // ----- overtaken before the record is there

  /** The pusher may come before the first field: it finds no record of the id it holds and lets it go. */
  lemma PutsAreOvertakenAtOnce(p: Put)
    requires p.online.Some? && p.due == None && Real(p.id)
    ensures exists s :: Gets(Initial(true), s) && Enabled(s, Drop(1)) && HandAt(s.workers, 1) == Some(p.id)
                     && !HasRecord(s, p.id) && s.mortal == {}
                     && p.id in Step(s, Drop(1)).lost && HandAt(Step(s, Drop(1)).workers, 1) == None
  {
    hide Gets, Record, Real, Step;
    var t := PutIsOvertaken(p, 0);
    assert HandAt(t.workers, 1) == WorkerAt(t, 1).hand;
    DropLoses(t, 1);
  }

  /** Letting go of an id loses it, and leaves the worker idle and everybody else as they were. */
  lemma DropLoses(s: System, w: WorkerId)
    requires Enabled(s, Drop(w))
    ensures var s' := Step(s, Drop(w));
      && s'.lost == s.lost + {WorkerAt(s, w).hand.value} && Idle(WorkerAt(s', w)) && OthersKeep(s, s', w)
      && HandAt(s'.workers, w) == None
  {
    hide RunCommand, PutCommands, AckCommands, ClaimCommands;
  }

  /** The putter has still to write the submessageid when somebody already holds the id and finds a record of it. */
  predicate Overtaken(s: System, u: WorkerId, v: WorkerId, id: Id) {
    && u != v && Holds(WorkerAt(s, v)) && WorkerAt(s, v).hand == Some(id) && HasRecord(s, id)
    && exists i :: 0 <= i < |WorkerAt(s, u).pipe| && Writes(WorkerAt(s, u).pipe[i], (id, SubMessageId))
  }

  /** The record has the first n fields of the put's pipeline and no others. */
  ghost predicate HasWritten(s: System, p: Put, n: nat)
    requires n <= |Rest(p)|
  {
    forall f :: (p.id, f) in s.fields <==> exists i :: 0 <= i < n && Writes(Rest(p)[i], (p.id, f))
  }

  /** It does happen, to every put for a device online, after each field it writes before the submessageid. */
  lemma PutsAreOvertaken(p: Put, n: nat)
    requires p.online.Some? && p.due == None && Real(p.id) && 0 < n <= SubMessageAt(p)
    ensures exists s :: Gets(Initial(true), s) && Overtaken(s, 0, 1, p.id) && HasWritten(s, p, n)
                     && p.id in s.created && s.created[p.id] == p
  {
    hide Gets, Record, Writes, Real, SubMessageAt;
    RecordLayout(p);
    var t := PutIsOvertaken(p, n);
    assert (p.id, From) in t.fields && (p.id, From).0 == p.id;
    assert WorkerAt(t, 0).pipe[SubMessageAt(p) - n] == Rest(p)[SubMessageAt(p)];
  }

  ghost predicate HasMessage(s: System, id: Id) {
    forall f :: f in {From, To, FromIp, State, Field.Content, SendTime, RetryCount, MessageType} ==> (id, f) in s.fields
  }

  lemma MessageWritten(s: System, p: Put)
    requires SubMessageAt(p) < |Rest(p)| && HasWritten(s, p, SubMessageAt(p))
    ensures HasMessage(s, p.id)
  {
    hide Record, Writes, Payload, Rest;
    RecordLayout(p);
    forall f | f in {From, To, FromIp, State, Field.Content, SendTime, RetryCount, MessageType}
      ensures (p.id, f) in s.fields
    {
      match f
      case From => assert Writes(Rest(p)[0], (p.id, f));
      case To => assert Writes(Rest(p)[1], (p.id, f));
      case FromIp => assert Writes(Rest(p)[2], (p.id, f));
      case State => assert Writes(Rest(p)[3], (p.id, f));
      case Content => assert Writes(Rest(p)[3 + |Payload(p)|], (p.id, f));
      case SendTime => assert Writes(Rest(p)[4 + |Payload(p)|], (p.id, f));
      case RetryCount => assert Writes(Rest(p)[5 + |Payload(p)|], (p.id, f));
      case MessageType => assert Writes(Rest(p)[6 + |Payload(p)|], (p.id, f));
    }
  }

  /** Even when the whole message is there already: content, time and type too. */
  lemma PutsAreOvertakenLate(p: Put)
    requires p.online.Some? && p.due == None && Real(p.id)
    ensures exists s :: Gets(Initial(true), s) && Overtaken(s, 0, 1, p.id) && HasMessage(s, p.id)
  {
    hide Gets, Record, Real, Overtaken, HasWritten, HasMessage, SubMessageAt;
    RecordLayout(p);
    PutsAreOvertaken(p, SubMessageAt(p));
    var s :| Gets(Initial(true), s) && Overtaken(s, 0, 1, p.id) && HasWritten(s, p, SubMessageAt(p));
    MessageWritten(s, p);
  }

  lemma OvertakenHasNoSentId(run: seq<Event>, s: System, u: WorkerId, v: WorkerId, id: Id)
    requires Leads(Initial(true), run, s) && Overtaken(s, u, v, id)
    ensures (id, SubMessageId) !in s.fields
  {
    hide Leads, Placed, PipesRecords, PipeRecords, Real, Record, RecordOk;
    RunKeepsAll(run, s);
    WorkerRecords(s, u);
    var pipe := WorkerAt(s, u).pipe;
    var i :| 0 <= i < |pipe| && Writes(pipe[i], (id, SubMessageId));
    PipeRecordsAt(ViewOf(s), u, WorkerAt(s, u).hand, pipe, i);
    HeldIsUnacked(s, v);
  }

  /** Whenever it happens, acknowledging the message loses it, in whatever order its record is read: what is no real
      id, with a clear sender the empty one, goes to a read list with state 1, and the id that was taken is in no list,
      with no acknowledgement to its name. */
  lemma OvertakenAckLoses(run: seq<Event>, s: System, u: WorkerId, v: WorkerId, id: Id, server: Server,
                          order: seq<Field>)
    requires Leads(Initial(true), run, s) && Overtaken(s, u, v, id) && Lists(RecordOf(s, id), order)
    ensures var sent, to := SentId(s, id, order), Addressee(s, id, order);
      && !Real(sent) && id in s.created && (ClearSender(s.created[id]) ==> sent == EMPTY)
      && exists s' :: Gets(s, s') && id in s'.lost && id !in s'.acked && sent in ListAt(s'.lists, Read(to))
                   && (sent, State) in s'.fields && s'.fields[(sent, State)] == Number(1) && Idle(WorkerAt(s', v))
  {
    hide Leads, Gets, Step, Placed, Recorded, Addressee, SentId, RecordOf, Lists, Real, HasRecord, AckCommands;
    hide ClearSender, Writes;
    OvertakenHasNoSentId(run, s, u, v, id);
    AckIsOfTheIdIff(run, s, v, server, order);
    GetsHere(s);
    GetsThen(s, s, StartAck(v, server, order));
    var t := Step(s, StartAck(v, server, order));
    var t' := AckRunsOut(t, v, SentId(s, id, order), Addressee(s, id, order), server);
    GetsOn(s, t, t');
  }

  // ----- an acknowledgement to its end

  lemma AckFieldStep(s: System, v: WorkerId, id: Id)
    requires WorkerAt(s, v).pipe != [] && WorkerAt(s, v).pipe[0] == HSet(id, State, Number(1))
    ensures Enabled(s, Run(v))
    ensures var t, x := Step(s, Run(v)), WorkerAt(s, v);
      && WorkerAt(t, v) == x.(pipe := x.pipe[1..])
      && t == s.(workers := t.workers, fields := s.fields[(id, State) := Number(1)], acked := t.acked)
      && t.acked == if Real(id) then s.acked + {id} else s.acked
  {
    hide Push, Pop, Delay, Execute, Real;
  }

  lemma AckRunsOut(s: System, v: WorkerId, id: Id, to: Device, server: Server) returns (t: System)
    requires WorkerAt(s, v).pipe == AckCommands(id, to, server)
    ensures Gets(s, t) && id in ListAt(t.lists, Read(to)) && Idle(WorkerAt(t, v))
    ensures (id, State) in t.fields && t.fields[(id, State)] == Number(1)
    ensures t.created == s.created && t.lost == s.lost && (forall k :: k in s.fields ==> k in t.fields)
    ensures t.acked == if Real(id) then s.acked + {id} else s.acked
  {
    hide Gets, Step, Enabled, Real;
    GetsHere(s);
    AckFieldStep(s, v, id);
    GetsThen(s, s, Run(v));
    t := Step(s, Run(v));
    LRemStep(t, v);
    GetsThen(s, t, Run(v));
    t := Step(t, Run(v));
    LRemStep(t, v);
    GetsThen(s, t, Run(v));
    t := Step(t, Run(v));
    PushStep(t, v);
    GetsThen(s, t, Run(v));
    t := Step(t, Run(v));
  }

  // ----- overtaken before the recipient is there

  /** A record of nothing but the sender gives nothing. */
  lemma FromGivesNothing(record: map<Field, Value>, n: Name)
    requires Lists(record, [From])
    ensures Got(ReadBack(record, [From]), n) == ""
  {
    hide Match, NameOf, TextOf;
    EntryIsMatch(From);
    ReplyAt(record, [From], 0);
  }

  lemma FromAlone(s: System, p: Put)
    requires HasWritten(s, p, 1)
    ensures HasRecord(s, p.id) && Lists(RecordOf(s, p.id), [From])
  {
    hide Record;
    RecordLayout(p);
    assert (p.id, From) in s.fields && (p.id, From).0 == p.id;
  }

  lemma MayFetch(s: System, v: WorkerId, server: Server, order: seq<Field>)
    requires Fetches(s, v, order)
    ensures Enabled(s, StartAck(v, server, order)) && Enabled(s, StartSaveInNoread(v, order))
  {}

  lemma GetsBy(s: System, t: System)
    requires Gets(s, t)
    ensures exists run :: Leads(s, run, t)
  {}

  lemma SaveKeeps(s: System, v: WorkerId, order: seq<Field>)
    requires Enabled(s, StartSaveInNoread(v, order))
    ensures var t := Step(s, StartSaveInNoread(v, order)); t == s.(workers := t.workers, sent := t.sent)
  {
    StartsKeepTheRest(s, StartSaveInNoread(v, order));
  }

  lemma Pushed(lists: map<Key, seq<Id>>, key: Key, id: Id)
    ensures id in ListAt(lists[key := [id] + ListAt(lists, key)], key)
  {}

  /** An id saved unread is in the list of the recipient read back. */
  lemma SaveRunsOut(run: seq<Event>, s: System, v: WorkerId, order: seq<Field>) returns (t: System)
    requires Leads(Initial(true), run, s) && Fetches(s, v, order)
    ensures var id := WorkerAt(s, v).hand.value;
      Gets(s, t) && id in ListAt(t.lists, NoRead(Addressee(s, id, order))) && t.created == s.created
  {
    hide Gets, Leads, Enabled, Addressee, ListAt, Real, Step, ClearSender, Lists, RecordOf;
    var e, id := StartSaveInNoread(v, order), WorkerAt(s, v).hand.value;
    MayFetch(s, v, 0, order);
    UnreadGoesHomeIff(run, s, v, order);
    GetsHere(s);
    GetsThen(s, s, e);
    SaveKeeps(s, v, order);
    var u := Step(s, e);
    PushStep(u, v);
    GetsThen(s, u, Run(v));
    t := Step(u, Run(v));
    Pushed(u.lists, NoRead(Addressee(s, id, order)), id);
  }

  /** A put overtaken after its first field and before its recipient can end in the unread list of nobody. */
  lemma OvertakenPutsStray(p: Put)
    requires p.online.Some? && p.due == None && Real(p.id)
    ensures exists s :: Gets(Initial(true), s) && p.id in s.created && s.created[p.id] == p
                     && p.id in ListAt(s.lists, NoRead(NOBODY))
  {
    hide Gets, Record, Leads, Real, ReadBack, ListAt, HasWritten;
    var s := Initial(true);
    RecordLayout(p);
    PutsAreOvertaken(p, 1);
    var t :| Gets(s, t) && Overtaken(t, 0, 1, p.id) && HasWritten(t, p, 1) && p.id in t.created && t.created[p.id] == p;
    FromAlone(t, p);
    FromGivesNothing(RecordOf(t, p.id), ToName);
    GetsBy(s, t);
    var run :| Leads(s, run, t);
    var u := SaveRunsOut(run, t, 1, [From]);
    GetsOn(s, t, u);
  }

  // ----- a sender called like a field

  lemma RestFields(p: Put)
    ensures forall i :: 0 <= i < |Rest(p)| && Rest(p)[i].HSet? ==>
      Rest(p)[i].id == p.id && ValueOf(p, Rest(p)[i].field).Some?
  {
    hide ValueOf, Record;
    forall i | 0 <= i < |Record(p)|
      ensures Record(p)[i].HSet? && Record(p)[i].id == p.id && ValueOf(p, Record(p)[i].field).Some?
    {
      RecordValues(p, Record(p)[i]);
    }
  }

  lemma HasAll(s: System, p: Put)
    requires HasWritten(s, p, |Rest(p)|)
    ensures forall f :: (p.id, f) in s.fields <==> ValueOf(p, f).Some?
  {
    hide Record, Payload, Rest;
    RecordLayout(p);
    RestFields(p);
    forall f | ValueOf(p, f).Some?
      ensures (p.id, f) in s.fields
    {
      WrittenSomewhere(p, f);
    }
  }

  lemma WrittenSomewhere(p: Put, f: Field)
    requires ValueOf(p, f).Some?
    ensures exists i :: 0 <= i < |Rest(p)| && Writes(Rest(p)[i], (p.id, f))
  {
    hide Record, Writes, Payload;
    RecordLayout(p);
    var k := |Payload(p)|;
    match f
    case From => assert Writes(Rest(p)[0], (p.id, f));
    case To => assert Writes(Rest(p)[1], (p.id, f));
    case FromIp => assert Writes(Rest(p)[2], (p.id, f));
    case State => assert Writes(Rest(p)[3], (p.id, f));
    case Content => assert Writes(Rest(p)[3 + k], (p.id, f));
    case OrgFileName => assert Writes(Rest(p)[4], (p.id, f));
    case SendTime => assert Writes(Rest(p)[4 + k], (p.id, f));
    case RetryCount => assert Writes(Rest(p)[5 + k], (p.id, f));
    case MessageType => assert Writes(Rest(p)[6 + k], (p.id, f));
    case SubMessageId => assert Writes(Rest(p)[SubMessageAt(p)], (p.id, f));
    case MessageId => assert Writes(Rest(p)[8 + k], (p.id, f));
  }

  lemma RecordThere(s: System, p: Put)
    requires forall f :: (p.id, f) in s.fields <==> ValueOf(p, f).Some?
    ensures HasRecord(s, p.id)
  {
    assert (p.id, From) in s.fields && (p.id, From).0 == p.id;
  }

  lemma RunValues(run: seq<Event>, s: System, p: Put)
    requires Leads(Initial(true), run, s) && p.id in s.created && s.created[p.id] == p
    requires WorkerAt(s, 1) == IDLE.(hand := Some(p.id))
    ensures forall f :: (p.id, f) in s.fields ==> Some(s.fields[(p.id, f)]) == ValueOf(p, f)
  {
    hide Leads, Placed, Recorded, ValueOf;
    RunKeepsAll(run, s);
    HeldIsUnacked(s, 1);
    forall f | (p.id, f) in s.fields
      ensures Some(s.fields[(p.id, f)]) == ValueOf(p, f)
    {
      FieldValues(s, p.id, f);
    }
  }

  /** The record of p has the fields of p with their values, and no others. */
  ghost predicate HoldsRecord(s: System, p: Put) {
    && (forall f :: (p.id, f) in s.fields <==> ValueOf(p, f).Some?)
    && (forall f :: (p.id, f) in s.fields ==> Some(s.fields[(p.id, f)]) == ValueOf(p, f))
  }

  /** The put runs to its end, and worker 1 holds its id. */
  lemma PutIsTaken(p: Put) returns (t: System)
    requires p.online.Some? && p.due == None && Real(p.id)
    ensures Gets(Initial(true), t) && WorkerAt(t, 1) == IDLE.(hand := Some(p.id)) && HasRecord(t, p.id)
    ensures p.id in t.created && t.created[p.id] == p
    ensures HoldsRecord(t, p)
  {
    hide Gets, Record, Real, Writes, Payload, ValueOf, HasRecord;
    t := PutIsOvertaken(p, |Record(p)| + 1);
    HasAll(t, p);
    RecordThere(t, p);
    GetsBy(Initial(true), t);
    var run :| Leads(Initial(true), run, t);
    RunValues(run, t, p);
  }

  /** Every put for a device online can be run to its end, and leaves just this record. */
  lemma PutsWriteRecords(p: Put)
    requires p.online.Some? && p.due == None && Real(p.id)
    ensures exists s :: Gets(Initial(true), s) && HoldsRecord(s, p)
  {
    hide Gets, Real, ValueOf;
    var t := PutIsTaken(p);
  }

  /** A message whose sender begins with one of the names can end in the lists, read and unread, of a device it was
      never for. */
  lemma SendersSpoilRecipients(p: Put, server: Server)
    requires p.online.Some? && p.due == None && Real(p.id)
    requires !ClearSender(p) && p.to != NOBODY && Match(p.fromIp) == None
    ensures var d := Device(RecipientFound(p.from, p.to.name));
      && d != p.to
      && (exists s :: Gets(Initial(true), s) && p.id in s.created && s.created[p.id] == p
                   && p.id in ListAt(s.lists, Read(d)))
      && (exists s :: Gets(Initial(true), s) && p.id in s.created && s.created[p.id] == p
                   && p.id in ListAt(s.lists, NoRead(d)))
  {
    hide Gets, Leads, Enabled, Step, Real, Match, RecordOf, Lists, Addressee, SentId, AckCommands, HasRecord, ListAt;
    hide RecipientFound;
    var s := Initial(true);
    var t := PutIsTaken(p);
    RecordHas(t, p.id);
    var order := OrderStarting(RecordOf(t, p.id), [From, To, FromIp]);
    assert order[0] == From && order[1] == To && order[2] == FromIp;
    MayFetch(t, 1, server, order);
    GetsBy(s, t);
    var run :| Leads(s, run, t);
    WrittenGoesHomeIff(run, t, 1, order);
    AckIsOfTheIdIff(run, t, 1, server, order);
    var e, to := StartAck(1, server, order), Addressee(t, p.id, order);
    GetsThen(s, t, e);
    AckKeepsCreated(t, e);
    var u := AckRunsOut(Step(t, e), 1, p.id, to, server);
    GetsOn(s, Step(t, e), u);
    var v := SaveRunsOut(run, t, 1, order);
    GetsOn(s, t, v);
  }

  /** And one whose sender begins with "submessageid" can be lost with all of its record in place: its acknowledgement
      is of "to". */
  lemma SendersSpoilIds(p: Put, server: Server)
    requires p.online.Some? && p.due == None && Real(p.id)
    requires Match(p.from) == Some(SubMessageIdName) && Match(p.to.name) == None
    ensures exists s, d :: Gets(Initial(true), s) && (p.id, SubMessageId) in s.fields && p.id in s.lost
                        && p.id !in s.acked && Id("to") in ListAt(s.lists, Read(d))
  {
    hide Gets, Leads, Enabled, Step, Match, Addressee, AckCommands, HasRecord, ListAt, ReadBack, Lists, Real, RecordOf;
    var s := Initial(true);
    var t := PutIsTaken(p);
    RecordHas(t, p.id);
    var order := OrderStarting(RecordOf(t, p.id), [SubMessageId, From, To]);
    MayFetch(t, 1, server, order);
    GetsBy(s, t);
    var run :| Leads(s, run, t);
    assert order[0] == SubMessageId && order[1] == From && order[2] == To;
    SpoilsId(run, t, 1, order);
    AckIsOfTheIdIff(run, t, 1, server, order);
    var e, to := StartAck(1, server, order), Addressee(t, p.id, order);
    GetsThen(s, t, e);
    var u := Step(t, e);
    AckKeepsFields(t, e);
    ToIsNotReal();
    var v := AckRunsOut(u, 1, Id("to"), to, server);
    GetsOn(s, u, v);
    assert Id("to") in ListAt(v.lists, Read(to));
  }

  lemma ToIsNotReal()
    ensures !Real(Id("to"))
  {
    assert Id("to").text == NameOf(To);
  }

  lemma AckKeepsFields(s: System, e: Event)
    requires e.StartAck? && Enabled(s, e)
    ensures Step(s, e).fields == s.fields
  {
    hide Step, Enabled;
    LossKeepsTheRest(s, e);
  }

  lemma SpoilsId(run: seq<Event>, s: System, v: WorkerId, order: seq<Field>)
    requires Leads(Initial(true), run, s) && Fetches(s, v, order)
    requires |order| >= 3 && order[0] == SubMessageId && order[1] == From && order[2] == To
    requires WorkerAt(s, v).hand.value in s.created
    requires var p := s.created[WorkerAt(s, v).hand.value];
      Match(p.from) == Some(SubMessageIdName) && Match(p.to.name) == None
    ensures SentId(s, WorkerAt(s, v).hand.value, order) == Id("to")
  {
    hide Leads, Placed, Recorded, Match, ReadBack, Real, Decimal;
    RunKeepsAll(run, s);
    var id := WorkerAt(s, v).hand.value;
    ReadValues(s, id);
    NumbersAreNoNames(0);
    assert order[1] in order && order[2] in order;
    assert (id, From) in s.fields && (id, To) in s.fields;
    SubMessageIdSpoilt(RecordOf(s, id), order);
  }

  lemma RecordHas(s: System, id: Id)
    ensures forall f :: f in RecordOf(s, id) <==> (id, f) in s.fields
  {}

  /** Everything "tom", or "Tom", sends to a device with an ordinary name can end in the read list of a device called
      "to". */
  lemma TomSpoils(p: Put, server: Server)
    requires p.online.Some? && p.due == None && Real(p.id) && Match(p.fromIp) == None
    requires p.from in {"tom", "Tom"} && p.to != NOBODY && Match(p.to.name) == None
    ensures exists s :: Gets(Initial(true), s) && p.id in s.created && s.created[p.id] == p
                     && p.id in ListAt(s.lists, Read(Device("to")))
  {
    hide Gets, Real;
    TomIsTo();
    SendersSpoilRecipients(p, server);
  }

  lemma TomIsTo()
    ensures Match("tom") == Some(ToName) && Match("Tom") == Some(ToName)
  {
    hide Match, Begins;
    TomBeginsTo();
    MatchIff("tom", ToName);
    MatchIgnoresCase("Tom", "tom");
  }

  lemma TomBeginsTo()
    ensures Begins("tom", "to")
  {}

  // ----- cut short

  lemma {:induction false} CutsLast(s: System, run: seq<Event>, t: System, e: Event, id: Id)
    requires Leads(s, run, t) && Enabled(t, e) && Cuts(t, e, id)
    ensures Leads(s, run + [e], Step(t, e)) && CutShort(s, run + [e], id, Step(t, e))
    decreases run
  {
    hide Step, Enabled, Cuts;
    LeadsOnce(t, e);
    LeadsOn(s, run, t, [e], Step(t, e));
    assert (run + [e])[0] == if run == [] then e else run[0];
    if run != [] {
      CutsLast(Step(s, run[0]), run[1..], t, e, id);
      assert (run + [e])[1..] == run[1..] + [e];
    }
  }

  /** A crash in the middle of an acknowledgement leaves state 1 with an id that is in no read list. */
  lemma AcksAreCutShort(p: Put, server: Server)
    requires p.online.Some? && p.due == None && Real(p.id)
    ensures exists run, s :: Leads(Initial(true), run, s) && CutShort(Initial(true), run, p.id, s)
                          && (p.id, State) in s.fields && s.fields[(p.id, State)] == Number(1) && !InReadList(s, p.id)
  {
    hide Gets, Leads, Enabled, Step, HasRecord, InReadList, CutShort, Real, RecordOf, Lists, Addressee, SentId;
    hide ClearSender;
    var s := Initial(true);
    var t := PutIsTaken(p);
    RecordHas(t, p.id);
    var order := OrderEnding(RecordOf(t, p.id), From);
    MayFetch(t, 1, server, order);
    GetsBy(s, t);
    var run0 :| Leads(s, run0, t);
    SenderLast(run0, t, 1, order);
    AckIsOfTheIdIff(run0, t, 1, server, order);
    var e := StartAck(1, server, order);
    GetsThen(s, t, e);
    AckKeepsCreated(t, e);
    t := Step(t, e);
    AckWriteStep(t, 1, p.id);
    GetsThen(s, t, Run(1));
    t := Step(t, Run(1));
    GetsBy(s, t);
    var run :| Leads(s, run, t);
    CutsLast(s, run, t, Crash(1), p.id);
    CrashKeeps(t, 1);
    StateMeansRead(run + [Crash(1)], Step(t, Crash(1)), p.id);
  }

  lemma SenderLast(run: seq<Event>, s: System, v: WorkerId, order: seq<Field>)
    requires Leads(Initial(true), run, s) && Fetches(s, v, order) && order != [] && order[|order| - 1] == From
    requires (WorkerAt(s, v).hand.value, SubMessageId) in s.fields
    ensures SentId(s, WorkerAt(s, v).hand.value, order) == WorkerAt(s, v).hand.value
  {
    hide Leads, Placed, Recorded, RecordOf, Lists, Real, ReadBack, ClearSender;
    RunKeepsAll(run, s);
    HeldIsUnacked(s, v);
    ClearSenderIsReadBack(s, v, order);
  }

  lemma AckKeepsCreated(s: System, e: Event)
    requires e.StartAck? && Enabled(s, e)
    ensures Step(s, e).created == s.created
  {
    hide Step, Enabled;
    LossKeepsTheRest(s, e);
  }

  lemma CrashKeeps(s: System, v: WorkerId)
    ensures Enabled(s, Crash(v))
    ensures Step(s, Crash(v)).created == s.created && Step(s, Crash(v)).fields == s.fields
  {
    LossKeepsTheRest(s, Crash(v));
  }

  lemma AckWriteStep(s: System, v: WorkerId, id: Id)
    requires |WorkerAt(s, v).pipe| == 4 && WorkerAt(s, v).pipe[0] == HSet(id, State, Number(1))
    requires WorkerAt(s, v).pipe[1].LRem? && ReadPush(WorkerAt(s, v).pipe[3], id)
    ensures Enabled(s, Run(v))
    ensures var t := Step(s, Run(v));
      && Enabled(t, Crash(v)) && Cuts(t, Crash(v), id) && t.created == s.created
      && (id, State) in t.fields && t.fields[(id, State)] == Number(1)
  {
    hide Push, Pop, Delay, Execute;
    var x := WorkerAt(s, v);
    assert x.pipe[1..][0] == x.pipe[1] && x.pipe[1..][2] == x.pipe[3];
  }
}
