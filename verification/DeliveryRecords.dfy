/** What the records say about the places, whoever took an id and whenever. */
module DeliveryRecords {
  import opened Redis
  import opened Delivery
  import opened DeliveryPlaces
  import opened DeliverySafety
  import opened MessageInfo
  import opened Wrappers

  /** The part of the system the invariant of this module is about. */
  datatype View = View(created: map<Id, Put>, putter: map<Id, WorkerId>, mortal: set<Id>, whole: set<Id>,
                       sent: map<Id, Device>, acked: set<Id>, fields: map<(Id, Field), Value>)

  function ViewOf(s: System): View {
    View(s.created, s.putter, s.mortal, s.whole, s.sent, s.acked, s.fields)
  }

  /** The sender's name begins with none of the names getmessageinfo looks for. */
  predicate ClearSender(p: Put) {
    Match(p.from) == None
  }

  predicate AckWrite(c: Command) {
    c.HSet? && c.field == State && c.value == Number(1)
  }

  predicate ReadPush(c: Command, id: Id) {
    c.LPush? && c.key.Read? && c.id == id
  }

  predicate WritesTo(c: Command, id: Id) {
    c.HSet? && c.field == To && c.id == id
  }

  /** What a put writes up to the submessageid. */
  predicate Early(c: Command) {
    c.HSet? && (c.field == To || c.field == State || c.field == SubMessageId)
  }

  /** Whose list an id is pushed to: the recipient last read back, or before that the one it was put for. */
  function Home(v: View, id: Id): Device
    requires id in v.created
  {
    if id in v.sent then v.sent[id] else v.created[id].to
  }

  /** With a clear sender the recipient read back is the true one, or not there yet. */
  predicate HomeOk(v: View, id: Id)
    requires id in v.created
  {
    ClearSender(v.created[id]) ==>
      && (id in v.sent ==> v.sent[id] == v.created[id].to || v.sent[id] == NOBODY)
      && (id in v.acked ==> Home(v, id) == v.created[id].to)
  }

  /** The submessageid is written once, after the recipient and after state 0. */
  predicate SubMessageOk(v: View, pipe: seq<Command>, i: nat)
    requires i < |pipe| && pipe[i].HSet?
  {
    && ((pipe[i].id, To) in v.fields || exists j :: 0 <= j < i && WritesTo(pipe[j], pipe[i].id))
    && forall j :: i < j < |pipe| ==> !Early(pipe[j])
  }

  /** A put writes its record and ends in EXPIRE, only then is the id mortal; an acknowledgement, but for one of no
      real id, is of an id whose submessageid was written, writes state 1 first and ends in the read list of the device
      it read back; nothing else pushes an acknowledged id anywhere. */
  predicate CommandOk(v: View, w: WorkerId, hand: Option<Id>, pipe: seq<Command>, i: nat)
    requires i < |pipe|
  {
    var c, last := pipe[i], pipe[|pipe| - 1];
    && (AckWrite(c) ==>
          && i == 0 && hand == Grip(c.id) && ReadPush(last, c.id)
          && (Real(c.id) ==>
                && c.id in v.whole && c.id !in v.acked && c.id in v.sent && c.id in v.created
                && (ClearSender(v.created[c.id]) ==> v.sent[c.id] == v.created[c.id].to)))
    && (c.HSet? && !AckWrite(c) ==>
          && last == ExpireRecord(c.id) && c.id in v.created && c.id in v.putter && v.putter[c.id] == w
          && c in Record(v.created[c.id]) && (c.field == State ==> c.value == Number(0))
          && (Early(c) ==> c.id !in v.whole)
          && (c.field == SubMessageId ==> SubMessageOk(v, pipe, i)))
    && (c.ExpireRecord? ==>
          && i == |pipe| - 1 && c.id in v.putter && v.putter[c.id] == w && c.id in v.created && c.id !in v.mortal)
    && (c.LPush? && c.key.Read? ==>
          && i == |pipe| - 1 && hand == Grip(c.id)
          && (Real(c.id) ==>
                && (AckWrite(pipe[0]) || c.id in v.acked)
                && c.id in v.created && c.key.device == Home(v, c.id)))
    && (c.ZAdd? || (c.LPush? && !c.key.Read?) ==>
          && hand == Some(c.id) && c.id !in v.acked && c.id in v.created
          && (c.LPush? && c.key.NoRead? ==> c.key.device == Home(v, c.id)))
    && (c.RPop? ==> !c.key.Read?)
  }

  /** Who holds an acknowledged id is about to push it to its read list. */
  predicate HandOk(v: View, hand: Option<Id>, pipe: seq<Command>) {
    hand.Some? && hand.value in v.acked ==> pipe != [] && ReadPush(pipe[|pipe| - 1], hand.value)
  }

  ghost predicate PipeRecords(v: View, w: WorkerId, hand: Option<Id>, pipe: seq<Command>) {
    HandOk(v, hand, pipe) && forall i :: 0 <= i < |pipe| ==> CommandOk(v, w, hand, pipe, i)
  }

  ghost predicate PipesRecords(v: View, workers: map<WorkerId, Worker>) {
    forall w :: w in workers ==> PipeRecords(v, w, workers[w].hand, workers[w].pipe)
  }

  predicate PlaceAgrees(v: View, q: Place, id: Id)
    requires id in v.created
  {
    match q
    case Listed(key) => (id in v.acked <==> key.Read?) && (key.Read? || key.NoRead? ==> key.device == Home(v, id))
    case Delayed => id !in v.acked
    case Held(_) => true
    case Lost => true
  }

  /** But for the state, a record has nothing in it that its put does not write. */
  ghost predicate FieldsOk(v: View, id: Id)
    requires id in v.created
  {
    && ((id, State) in v.fields ==> v.fields[(id, State)] == Number(if id in v.acked then 1 else 0))
    && forall f :: (id, f) in v.fields && f != State ==> HSet(id, f, v.fields[(id, f)]) in Record(v.created[id])
  }

  ghost predicate RecordOk(v: View, q: Place, id: Id)
    requires id in v.created
  {
    && PlaceAgrees(v, q, id) && FieldsOk(v, id) && HomeOk(v, id)
    && (id in v.acked ==> id in v.whole && id in v.sent)
    && ((id, SubMessageId) in v.fields ==> id in v.whole && (id, To) in v.fields)
  }

  ghost predicate RecordData(v: View, place: map<Id, Place>) {
    && place.Keys == v.created.Keys && (forall id :: id in v.created ==> Real(id))
    && (forall id :: id in v.created ==> RecordOk(v, place[id], id))
    && (forall id, f :: (id, f) in v.fields ==> if Real(id) then id in v.created else f == State)
    && v.mortal + v.whole + v.sent.Keys + v.acked + v.putter.Keys <= v.created.Keys
  }

  ghost predicate Recorded(s: System) {
    RecordData(ViewOf(s), s.place) && PipesRecords(ViewOf(s), s.workers)
  }

  // ----- what one worker does, as the others and the other ids see it

  predicate SameSent(v: View, v': View, id: Id) {
    (id in v.sent <==> id in v'.sent) && (id in v.sent ==> v.sent[id] == v'.sent[id])
  }

  /** What worker u with this hand relies on survives. */
  ghost predicate Spares(v: View, v': View, u: WorkerId, hand: Option<Id>) {
    && (forall i :: i in v.created ==> i in v'.created && v'.created[i] == v.created[i])
    && (forall i :: i in v.putter ==> i in v'.putter && v'.putter[i] == v.putter[i])
    && (forall i :: i in v'.mortal && i !in v.mortal ==> i in v.putter && v.putter[i] != u)
    && (forall i :: i in v'.whole && i !in v.whole ==> i in v.putter && v.putter[i] != u)
    && (forall i :: i in v'.acked && i !in v.acked ==> hand != Some(i))
    && v.acked <= v'.acked && v.whole <= v'.whole
    && (forall i :: hand == Some(i) ==> SameSent(v, v', i))
    && (forall i :: i in v.created && i !in v.mortal && (i, To) in v.fields ==> (i, To) in v'.fields)
  }

  lemma SparesCommand(v: View, v': View, u: WorkerId, hand: Option<Id>, pipe: seq<Command>, i: nat)
    requires i < |pipe| && CommandOk(v, u, hand, pipe, i) && CommandOk(v, u, hand, pipe, |pipe| - 1)
    requires Spares(v, v', u, hand)
    ensures CommandOk(v', u, hand, pipe, i)
  {}

  lemma SparesPipe(v: View, v': View, u: WorkerId, hand: Option<Id>, pipe: seq<Command>)
    requires PipeRecords(v, u, hand, pipe) && Spares(v, v', u, hand)
    ensures PipeRecords(v', u, hand, pipe)
  {
    forall i: nat | i < |pipe|
      ensures CommandOk(v', u, hand, pipe, i)
    {
      SparesCommand(v, v', u, hand, pipe, i);
    }
  }

  lemma PipesStep(v: View, v': View, workers: map<WorkerId, Worker>, w: WorkerId, x: Worker)
    requires PipesRecords(v, workers) && PipeRecords(v', w, x.hand, x.pipe)
    requires forall u :: u in workers && u != w ==> Spares(v, v', u, workers[u].hand)
    ensures PipesRecords(v', workers[w := x])
  {
    hide PipeRecords, Spares;
    var workers' := workers[w := x];
    forall u | u in workers'
      ensures PipeRecords(v', u, workers'[u].hand, workers'[u].pipe)
    {
      if u != w {
        SparesPipe(v, v', u, workers[u].hand, workers[u].pipe);
      }
    }
  }

  lemma PipesNotice(v: View, workers: map<WorkerId, Worker>)
    requires PipesRecords(v, workers)
    ensures PipesRecords(v, Notice(workers))
  {
    hide PipeRecords;
  }

  /** The two views say the same about id. */
  predicate Agree(v: View, v': View, id: Id) {
    && id in v.created && id in v'.created && v.created[id] == v'.created[id]
    && (id in v.whole <==> id in v'.whole) && SameSent(v, v', id)
    && (id in v.acked <==> id in v'.acked)
    && forall f :: ((id, f) in v.fields <==> (id, f) in v'.fields)
                && ((id, f) in v.fields ==> v.fields[(id, f)] == v'.fields[(id, f)])
  }

  lemma AgreeRecord(v: View, v': View, q: Place, id: Id)
    requires Agree(v, v', id) && RecordOk(v, q, id)
    ensures RecordOk(v', q, id)
  {}

  /** A step that touches nothing but one id. */
  lemma RecordDataStep(v: View, v': View, place: map<Id, Place>, id: Id, q: Place)
    requires RecordData(v, place) && id in v'.created && RecordOk(v', q, id)
    requires v'.created.Keys == v.created.Keys + {id}
    requires forall i :: i in v.created && i != id ==> Agree(v, v', i)
    requires Real(id) && forall i, f :: (i, f) in v'.fields ==> if Real(i) then i in v'.created else f == State
    requires v'.mortal + v'.whole + v'.sent.Keys + v'.acked + v'.putter.Keys <= v'.created.Keys
    ensures RecordData(v', place[id := q])
  {
    hide RecordOk, Agree;
    forall i | i in v'.created && i != id
      ensures RecordOk(v', place[i], i)
    {
      AgreeRecord(v, v', place[i], i);
    }
  }

  // ----- a worker's own pipe, one command on

  predicate PutWrite(c: Command) {
    c.HSet? && !AckWrite(c)
  }

  predicate Quiet(c: Command) {
    c.LRem? || c.Aside? || c.Multi? || c.QueueZRem?
  }

  /** Nothing but the first command may rely on the first command. */
  lemma TailCommand(v: View, w: WorkerId, hand: Option<Id>, pipe: seq<Command>, i: nat)
    requires i + 1 < |pipe| && CommandOk(v, w, hand, pipe, i + 1) && !pipe[0].HSet?
    ensures CommandOk(v, w, hand, pipe[1..], i)
  {
    assert pipe[1..][|pipe| - 2] == pipe[|pipe| - 1];
    assert pipe[..i + 1] == [pipe[0]] + pipe[1..][..i];
  }

  lemma TailHand(v: View, hand: Option<Id>, pipe: seq<Command>)
    requires HandOk(v, hand, pipe) && pipe != [] && !pipe[0].LPush? && !pipe[0].ZAdd?
    ensures HandOk(v, hand, pipe[1..])
  {}

  lemma TailQuiet(v: View, w: WorkerId, hand: Option<Id>, pipe: seq<Command>)
    requires PipeRecords(v, w, hand, pipe) && pipe != [] && Quiet(pipe[0])
    ensures PipeRecords(v, w, hand, pipe[1..])
  {
    hide CommandOk, HandOk;
    TailHand(v, hand, pipe);
    forall i: nat | i < |pipe[1..]|
      ensures CommandOk(v, w, hand, pipe[1..], i)
    {
      assert CommandOk(v, w, hand, pipe, i + 1);
      TailCommand(v, w, hand, pipe, i);
    }
  }

  /** The worker lets go of its id, and plain commands follow. */
  lemma TailPlaced(v: View, w: WorkerId, hand: Option<Id>, pipe: seq<Command>)
    requires PipeRecords(v, w, hand, pipe) && pipe != [] && !pipe[0].HSet?
    requires forall i :: 1 <= i < |pipe| ==> Plain(pipe[i])
    ensures PipeRecords(v, w, None, pipe[1..])
  {
    hide CommandOk;
    forall i: nat | i < |pipe[1..]|
      ensures CommandOk(v, w, None, pipe[1..], i)
    {
      assert CommandOk(v, w, hand, pipe, i + 1) && Plain(pipe[i + 1]);
      PlainNeedsNoHand(v, w, hand, pipe, i + 1);
      TailCommand(v, w, None, pipe, i);
    }
  }

  lemma PlainNeedsNoHand(v: View, w: WorkerId, hand: Option<Id>, pipe: seq<Command>, i: nat)
    requires 0 < i < |pipe| && CommandOk(v, w, hand, pipe, i) && Plain(pipe[i])
    ensures CommandOk(v, w, None, pipe, i)
  {}

  function Written(v: View, c: Command): View
    requires c.HSet?
  {
    v.(fields := v.fields[(c.id, c.field) := c.value],
       whole := if c.field == SubMessageId then v.whole + {c.id} else v.whole,
       acked := if AckWrite(c) && Real(c.id) then v.acked + {c.id} else v.acked)
  }

  lemma PutWriteSpares(v: View, c: Command, u: WorkerId, hand: Option<Id>)
    requires PutWrite(c) && c.id in v.created && c.id in v.putter && v.putter[c.id] != u
    ensures Spares(v, Written(v, c), u, hand)
  {}

  /** A put's own pipe after it has written one field. */
  lemma TailPutWriteCommand(v: View, w: WorkerId, hand: Option<Id>, pipe: seq<Command>, i: nat)
    requires i + 1 < |pipe| && PutWrite(pipe[0]) && CommandOk(v, w, hand, pipe, 0)
    requires CommandOk(v, w, hand, pipe, i + 1)
    ensures CommandOk(Written(v, pipe[0]), w, hand, pipe[1..], i)
  {
    assert pipe[1..][|pipe| - 2] == pipe[|pipe| - 1];
    assert pipe[..i + 1] == [pipe[0]] + pipe[1..][..i];
  }

  lemma TailPutWriteHand(v: View, hand: Option<Id>, pipe: seq<Command>)
    requires HandOk(v, hand, pipe) && pipe != [] && PutWrite(pipe[0])
    ensures HandOk(Written(v, pipe[0]), hand, pipe[1..])
  {}

  lemma TailPutWrite(v: View, w: WorkerId, hand: Option<Id>, pipe: seq<Command>)
    requires PipeRecords(v, w, hand, pipe) && pipe != [] && PutWrite(pipe[0])
    ensures PipeRecords(Written(v, pipe[0]), w, hand, pipe[1..])
  {
    hide CommandOk, HandOk, Written, AckWrite;
    TailPutWriteHand(v, hand, pipe);
    forall i: nat | i < |pipe[1..]|
      ensures CommandOk(Written(v, pipe[0]), w, hand, pipe[1..], i)
    {
      assert CommandOk(v, w, hand, pipe, 0) && CommandOk(v, w, hand, pipe, i + 1);
      TailPutWriteCommand(v, w, hand, pipe, i);
    }
  }

  lemma AckWriteTail(v: View, w: WorkerId, hand: Option<Id>, pipe: seq<Command>, i: nat)
    requires pipe != [] && AckWrite(pipe[0]) && CommandOk(v, w, hand, pipe, 0)
    requires i + 1 < |pipe| && CommandOk(v, w, hand, pipe, i + 1) && !pipe[i + 1].ZAdd? && !pipe[i + 1].HSet?
    requires pipe[i + 1].LPush? ==> pipe[i + 1].key.Read?
    ensures CommandOk(Written(v, pipe[0]), w, hand, pipe[1..], i)
  {
    assert pipe[1..][|pipe| - 2] == pipe[|pipe| - 1];
  }

  /** After state 1 is written only the rest of the acknowledgement follows. */
  lemma AckWriteRest(v: View, w: WorkerId, hand: Option<Id>, watch: Watch, pipe: seq<Command>, i: nat)
    requires PipeRecords(v, w, hand, pipe) && pipe != [] && AckWrite(pipe[0]) && PipeOk(hand, watch, pipe)
    requires i + 1 < |pipe|
    ensures !pipe[i + 1].ZAdd? && !pipe[i + 1].HSet? && (pipe[i + 1].LPush? ==> pipe[i + 1].key.Read?)
  {
    assert CommandOk(v, w, hand, pipe, 0) && CommandOk(v, w, hand, pipe, i + 1);
    assert ReadPush(pipe[|pipe| - 1], pipe[0].id);
    if (pipe[i + 1].ZAdd? || pipe[i + 1].LPush?) && i + 1 < |pipe| - 1 {
      OnePlacing(hand, watch, pipe, i + 1, |pipe| - 1);
    }
  }

  lemma {:induction false} OnePlacing(hand: Option<Id>, watch: Watch, pipe: seq<Command>, i: nat, j: nat)
    requires PipeOk(hand, watch, pipe) && i < j < |pipe| && (pipe[i].LPush? || pipe[i].ZAdd?)
    ensures Plain(pipe[j])
    decreases pipe
  {
    if i > 0 {
      if pipe[0].Multi? || pipe[0].QueueZRem? {
        assert pipe[1..][|pipe| - 2] == pipe[|pipe| - 1];
      }
      OnePlacing(hand, watch, pipe[1..], i - 1, j - 1);
    }
  }

  lemma TailAckWrite(v: View, w: WorkerId, hand: Option<Id>, watch: Watch, pipe: seq<Command>)
    requires PipeRecords(v, w, hand, pipe) && pipe != [] && AckWrite(pipe[0]) && PipeOk(hand, watch, pipe)
    ensures PipeRecords(Written(v, pipe[0]), w, hand, pipe[1..])
  {
    var v' := Written(v, pipe[0]);
    assert CommandOk(v, w, hand, pipe, 0);
    assert pipe[1..] != [] && pipe[1..][|pipe| - 2] == pipe[|pipe| - 1];
    assert HandOk(v', hand, pipe[1..]);
    hide CommandOk, HandOk, Written, PipeOk;
    forall i: nat | i < |pipe[1..]|
      ensures CommandOk(v', w, hand, pipe[1..], i)
    {
      AckWriteRest(v, w, hand, watch, pipe, i);
      assert CommandOk(v, w, hand, pipe, i + 1);
      AckWriteTail(v, w, hand, pipe, i);
    }
  }

  // ----- the records, one command on

  lemma KeepRecords(s: System, w: WorkerId, x: Worker)
    requires Recorded(s) && PipeRecords(ViewOf(s), w, x.hand, x.pipe)
    ensures Recorded(SetWorker(s, w, x))
  {
    hide RecordData, PipesRecords, PipeRecords, Spares;
    PipesSetRecords(ViewOf(s), s.workers, w, x);
  }

  lemma PipesSetRecords(v: View, workers: map<WorkerId, Worker>, w: WorkerId, x: Worker)
    requires PipesRecords(v, workers) && PipeRecords(v, w, x.hand, x.pipe)
    ensures PipesRecords(v, workers[w := x])
  {
    hide PipeRecords;
  }

  lemma WorkerRecords(s: System, w: WorkerId)
    requires Recorded(s)
    ensures PipeRecords(ViewOf(s), w, WorkerAt(s, w).hand, WorkerAt(s, w).pipe)
  {
    hide RecordData, CommandOk;
  }

  /** An id moves and nothing else changes. */
  lemma RecordDataMoves(v: View, place: map<Id, Place>, id: Id, q: Place)
    requires RecordData(v, place) && id in v.created && PlaceAgrees(v, q, id)
    ensures RecordData(v, place[id := q])
  {
    hide PlaceAgrees;
    assert RecordOk(v, place[id], id);
    var v' := v.(created := v.created);
    assert RecordOk(v, q, id);
    forall i | i in v.created
      ensures RecordOk(v, place[id := q][i], i)
    {
      assert RecordOk(v, place[i], i);
    }
  }

  lemma LPushRest(hand: Option<Id>, watch: Watch, pipe: seq<Command>)
    requires PipeOk(hand, watch, pipe) && pipe != [] && pipe[0].LPush?
    ensures forall i :: 1 <= i < |pipe| ==> Plain(pipe[i])
  {}

  lemma RunLPushRecords(s: System, w: WorkerId, x: Worker, key: Key, id: Id)
    requires Recorded(s) && WorkerAt(s, w).pipe != [] && WorkerAt(s, w).pipe[0] == LPush(key, id)
    requires x == WorkerAt(s, w).(pipe := WorkerAt(s, w).pipe[1..])
    requires PipeOk(WorkerAt(s, w).hand, x.watch, WorkerAt(s, w).pipe)
    ensures Recorded(Push(s, w, x, key, id))
  {
    var v, pipe, hand := ViewOf(s), WorkerAt(s, w).pipe, WorkerAt(s, w).hand;
    hide RecordData, PipesRecords, PipeRecords, PlaceAgrees, CommandOk, Push, ViewOf, PipeOk;
    ViewOfPush(s, w, x, key, id);
    WorkerRecords(s, w);
    PipeRecordsAt(v, w, hand, pipe, 0);
    LPushRest(hand, x.watch, pipe);
    TailPlaced(v, w, hand, pipe);
    PipesSetRecords(v, s.workers, w, x.(hand := None));
    if Real(id) {
      PushAgrees(v, w, hand, pipe);
      RecordDataMoves(v, s.place, id, Listed(key));
    }
  }

  lemma PipeRecordsAt(v: View, w: WorkerId, hand: Option<Id>, pipe: seq<Command>, i: nat)
    requires PipeRecords(v, w, hand, pipe) && i < |pipe|
    ensures HandOk(v, hand, pipe) && CommandOk(v, w, hand, pipe, i)
  {}

  lemma PushAgrees(v: View, w: WorkerId, hand: Option<Id>, pipe: seq<Command>)
    requires pipe != [] && pipe[0].LPush? && Real(pipe[0].id) && CommandOk(v, w, hand, pipe, 0)
    ensures pipe[0].id in v.created && PlaceAgrees(v, Listed(pipe[0].key), pipe[0].id)
  {}

  lemma RunZAddRecords(s: System, w: WorkerId, x: Worker, score: int, id: Id)
    requires Recorded(s) && WorkerAt(s, w).pipe != [] && WorkerAt(s, w).pipe[0] == ZAdd(score, id)
    requires x == WorkerAt(s, w).(pipe := WorkerAt(s, w).pipe[1..])
    requires PipeOk(WorkerAt(s, w).hand, x.watch, WorkerAt(s, w).pipe)
    ensures Recorded(Delay(s, w, x, score, id))
  {
    var v, pipe, hand := ViewOf(s), WorkerAt(s, w).pipe, WorkerAt(s, w).hand;
    hide RecordData, PipesRecords, PipeRecords, Notice;
    WorkerRecords(s, w);
    PipeRecordsAt(v, w, hand, pipe, 0);
    TailPlaced(v, w, hand, pipe);
    PipesSetRecords(v, s.workers, w, x.(hand := None));
    PipesNotice(v, s.workers[w := x.(hand := None)]);
    RecordDataMoves(v, s.place, id, Delayed);
  }

  lemma ViewOfWrite(s: System, w: WorkerId, x: Worker, id: Id, field: Field, value: Value)
    ensures var s' := Write(s, w, x, id, field, value);
      && ViewOf(s') == Written(ViewOf(s), HSet(id, field, value))
      && s'.place == s.place && s'.workers == s.workers[w := x]
  {}

  lemma ViewOfPush(s: System, w: WorkerId, x: Worker, key: Key, id: Id)
    ensures var s' := Push(s, w, x, key, id);
      && ViewOf(s') == ViewOf(s) && s'.workers == s.workers[w := x.(hand := None)]
      && s'.place == if Real(id) then s.place[id := Listed(key)] else s.place
  {}

  lemma PutWriteRecord(v: View, w: WorkerId, hand: Option<Id>, pipe: seq<Command>, q: Place)
    requires pipe != [] && PutWrite(pipe[0]) && PipeRecords(v, w, hand, pipe)
    requires pipe[0].id in v.created && RecordOk(v, q, pipe[0].id)
    ensures RecordOk(Written(v, pipe[0]), q, pipe[0].id)
  {
    assert CommandOk(v, w, hand, pipe, 0) && CommandOk(v, w, hand, pipe, |pipe| - 1);
  }

  lemma WrittenElsewhere(v: View, c: Command, i: Id)
    requires c.HSet? && i in v.created && i != c.id
    ensures Agree(v, Written(v, c), i)
  {}

  lemma WrittenData(v: View, c: Command, place: map<Id, Place>)
    requires c.HSet? && RecordData(v, place) && c.id in v.created && RecordOk(Written(v, c), place[c.id], c.id)
    ensures RecordData(Written(v, c), place)
  {
    hide RecordOk, Agree;
    forall i | i in v.created && i != c.id
      ensures Agree(v, Written(v, c), i)
    {
      WrittenElsewhere(v, c, i);
    }
    RecordDataStep(v, Written(v, c), place, c.id, place[c.id]);
    assert place[c.id := place[c.id]] == place;
  }

  lemma RunPutWriteRecords(s: System, w: WorkerId, x: Worker, c: Command)
    requires Recorded(s) && WorkerAt(s, w).pipe != [] && WorkerAt(s, w).pipe[0] == c && PutWrite(c)
    requires x == WorkerAt(s, w).(pipe := WorkerAt(s, w).pipe[1..])
    ensures Recorded(Write(s, w, x, c.id, c.field, c.value))
  {
    var v, pipe, hand := ViewOf(s), WorkerAt(s, w).pipe, WorkerAt(s, w).hand;
    WorkerRecords(s, w);
    assert CommandOk(v, w, hand, pipe, 0);
    hide CommandOk, PipesRecords, PipeRecords, RecordOk, Spares, Written, AckWrite, Write;
    PutWriteRecord(v, w, hand, pipe, s.place[c.id]);
    WrittenData(v, c, s.place);
    TailPutWrite(v, w, hand, pipe);
    forall u | u in s.workers && u != w
      ensures Spares(v, Written(v, c), u, s.workers[u].hand)
    {
      PutWriteSpares(v, c, u, s.workers[u].hand);
    }
    PipesStep(v, Written(v, c), s.workers, w, x);
    ViewOfWrite(s, w, x, c.id, c.field, c.value);
  }

  lemma AckWriteSpares(v: View, c: Command, u: WorkerId, hand: Option<Id>)
    requires AckWrite(c) && (Real(c.id) ==> hand != Some(c.id))
    ensures Spares(v, Written(v, c), u, hand)
  {}

  lemma AckWriteRecord(v: View, c: Command, w: WorkerId)
    requires AckWrite(c) && Real(c.id) && c.id in v.created && RecordOk(v, Held(w), c.id)
    requires c.id in v.whole && c.id in v.sent && (ClearSender(v.created[c.id]) ==> v.sent[c.id] == v.created[c.id].to)
    ensures RecordOk(Written(v, c), Held(w), c.id)
  {}

  lemma OthersHoldOther(s: System, w: WorkerId, id: Id, u: WorkerId)
    requires PlacesOk(s) && WorkerAt(s, w).hand == Some(id) && u in s.workers && u != w
    ensures s.workers[u].hand != Some(id) && id in s.place && s.place[id] == Held(w)
  {
    hide ListsOk, DelayedOk, LostOk;
    assert HandAt(s.workers, w) == Some(id) && HandAt(s.workers, u) == s.workers[u].hand;
    assert DeliveryPlaces.Is(s.place, id, Held(w));
  }

  lemma UnrealWriteData(v: View, c: Command, place: map<Id, Place>)
    requires AckWrite(c) && !Real(c.id) && RecordData(v, place)
    ensures RecordData(Written(v, c), place)
  {
    hide RecordOk, Agree;
    forall i | i in v.created
      ensures RecordOk(Written(v, c), place[i], i)
    {
      WrittenElsewhere(v, c, i);
      AgreeRecord(v, Written(v, c), place[i], i);
    }
  }

  lemma AckWrittenData(s: System, w: WorkerId, c: Command)
    requires Recorded(s) && Placed(s) && AckWrite(c) && WorkerAt(s, w).hand == Grip(c.id)
    requires WorkerAt(s, w).pipe != [] && WorkerAt(s, w).pipe[0] == c
    ensures RecordData(Written(ViewOf(s), c), s.place)
  {
    var v := ViewOf(s);
    hide PlacesOk, PipesOk, WatchesOk, PipesRecords, PipeRecords, RecordOk, Written, WatchOk, SentIdsOk, PipeOk;
    hide Real, Record, ClearSender;
    WorkerRecords(s, w);
    PipeRecordsAt(v, w, WorkerAt(s, w).hand, WorkerAt(s, w).pipe, 0);
    if !Real(c.id) {
      UnrealWriteData(v, c, s.place);
    } else {
      WorkerOk(s, w);
      HeldIsReal(s, w);
      AckWriteRecord(v, c, w);
      WrittenData(v, c, s.place);
    }
  }

  lemma AckWrittenPipes(s: System, w: WorkerId, x: Worker, c: Command)
    requires Recorded(s) && Placed(s) && WorkerAt(s, w).pipe != [] && WorkerAt(s, w).pipe[0] == c && AckWrite(c)
    requires x == WorkerAt(s, w).(pipe := WorkerAt(s, w).pipe[1..]) && WorkerAt(s, w).hand == Grip(c.id)
    ensures PipesRecords(Written(ViewOf(s), c), s.workers[w := x])
  {
    var v, pipe, hand := ViewOf(s), WorkerAt(s, w).pipe, WorkerAt(s, w).hand;
    hide PlacesOk, PipesOk, WatchesOk, WatchOk, SentIdsOk, PipeOk;
    hide RecordData, PipesRecords, PipeRecords, Spares, Written;
    WorkerRecords(s, w);
    WorkerOk(s, w);
    TailAckWrite(v, w, hand, x.watch, pipe);
    forall u | u in s.workers && u != w
      ensures Spares(v, Written(v, c), u, s.workers[u].hand)
    {
      if Real(c.id) {
        OthersHoldOther(s, w, c.id, u);
      }
      AckWriteSpares(v, c, u, s.workers[u].hand);
    }
    PipesStep(v, Written(v, c), s.workers, w, x);
  }

  lemma RunAckWriteRecords(s: System, w: WorkerId, x: Worker, c: Command)
    requires Recorded(s) && Placed(s) && WorkerAt(s, w).pipe != [] && WorkerAt(s, w).pipe[0] == c && AckWrite(c)
    requires x == WorkerAt(s, w).(pipe := WorkerAt(s, w).pipe[1..])
    ensures Recorded(Write(s, w, x, c.id, c.field, c.value))
  {
    hide Placed, RecordData, PipesRecords, PipeRecords, Written, Write, ViewOf;
    WorkerRecords(s, w);
    PipeRecordsAt(ViewOf(s), w, WorkerAt(s, w).hand, WorkerAt(s, w).pipe, 0);
    AckWrittenData(s, w, c);
    AckWrittenPipes(s, w, x, c);
    ViewOfWrite(s, w, x, c.id, c.field, c.value);
  }

  lemma RunExpireRecordRecords(s: System, w: WorkerId, x: Worker, id: Id)
    requires Recorded(s) && WorkerAt(s, w).pipe != [] && WorkerAt(s, w).pipe[0] == ExpireRecord(id)
    requires x == WorkerAt(s, w).(pipe := WorkerAt(s, w).pipe[1..])
    ensures Recorded(SetWorker(s, w, x).(mortal := s.mortal + {id}))
  {
    var v, pipe, hand := ViewOf(s), WorkerAt(s, w).pipe, WorkerAt(s, w).hand;
    var v' := v.(mortal := s.mortal + {id});
    hide RecordData, PipesRecords, PipeRecords, RecordOk, HandOk, Spares;
    WorkerRecords(s, w);
    PipeRecordsAt(v, w, hand, pipe, 0);
    assert pipe == [ExpireRecord(id)] && pipe[1..] == [];
    MortalData(v, id, s.place);
    assert PipeRecords(v', w, hand, []) by {
      TailHand(v, hand, pipe);
      HandOkOf(v, v', hand, []);
      EmptyPipeRecords(v', w, hand);
    }
    forall u | u in s.workers && u != w
      ensures Spares(v, v', u, s.workers[u].hand)
    {
      MortalSpares(v, id, u, s.workers[u].hand);
    }
    PipesStep(v, v', s.workers, w, x);
  }

  lemma EmptyPipeRecords(v: View, w: WorkerId, hand: Option<Id>)
    requires HandOk(v, hand, [])
    ensures PipeRecords(v, w, hand, [])
  {}

  lemma MortalSpares(v: View, id: Id, u: WorkerId, hand: Option<Id>)
    requires id in v.putter && v.putter[id] != u
    ensures Spares(v, v.(mortal := v.mortal + {id}), u, hand)
  {}

  lemma MortalData(v: View, id: Id, place: map<Id, Place>)
    requires RecordData(v, place) && id in v.created
    ensures RecordData(v.(mortal := v.mortal + {id}), place)
  {
    hide RecordOk, Agree;
    var v' := v.(mortal := v.mortal + {id});
    forall i | i in v.created
      ensures RecordOk(v', place[i], i)
    {
      MortalAgrees(v, id, i);
      AgreeRecord(v, v', place[i], i);
    }
  }

  lemma HandOkOf(v: View, v': View, hand: Option<Id>, pipe: seq<Command>)
    requires HandOk(v, hand, pipe) && v'.acked == v.acked
    ensures HandOk(v', hand, pipe)
  {}

  lemma MortalAgrees(v: View, id: Id, i: Id)
    requires i in v.created
    ensures Agree(v, v.(mortal := v.mortal + {id}), i)
  {}

  // ----- taking an id

  lemma TakeRecords(s: System, w: WorkerId, x: Worker, id: Id)
    requires Recorded(s) && id in s.created && id !in s.acked && x.pipe == []
    ensures Recorded(Take(s, w, x, id))
  {
    hide RecordData, PipesRecords, CommandOk;
    RecordDataMoves(ViewOf(s), s.place, id, Held(w));
    PipesSetRecords(ViewOf(s), s.workers, w, x.(hand := Some(id)));
  }

  lemma UnackedAt(s: System, id: Id)
    requires Recorded(s) && id in s.place
    requires s.place[id].Delayed? || (s.place[id].Listed? && !s.place[id].key.Read?)
    ensures id in s.created && id !in s.acked
  {
    hide PipesRecords;
    assert RecordOk(ViewOf(s), s.place[id], id);
  }

  lemma PopRecords(s: System, w: WorkerId, x: Worker, key: Key)
    requires Recorded(s) && PlacesOk(s) && !key.Read? && x.pipe == [] && x.hand == None
    ensures Recorded(Pop(s, w, x, key))
  {
    hide Recorded, ListsOk, DelayedOk, HandsOk, LostOk, Take, SetWorker;
    var list := ListAt(s.lists, key);
    if list == [] {
      IdleRecords(s, w, x);
    } else {
      var id := list[|list| - 1];
      LastIsListed(s, key);
      UnackedAt(s, id);
      var s' := s.(lists := s.lists[key := list[..|list| - 1]]);
      ListsDoNotMatter(s, s'.lists);
      TakeRecords(s', w, x, id);
    }
  }

  lemma LastIsListed(s: System, key: Key)
    requires PlacesOk(s) && ListAt(s.lists, key) != [] && !key.Read?
    ensures var list := ListAt(s.lists, key); DeliveryPlaces.Is(s.place, list[|list| - 1], Listed(key))
  {
    hide DelayedOk, HandsOk, LostOk;
    var list := ListAt(s.lists, key);
    ListsHold(s.lists, s.place, key);
    assert list[|list| - 1] in list;
  }

  lemma ListsDoNotMatter(s: System, lists: map<Key, seq<Id>>)
    requires Recorded(s)
    ensures Recorded(s.(lists := lists))
  {
    hide RecordData, PipesRecords;
  }

  lemma IdleRecords(s: System, w: WorkerId, x: Worker)
    requires Recorded(s) && x.pipe == [] && x.hand == None
    ensures Recorded(SetWorker(s, w, x))
  {
    hide Recorded, CommandOk;
    KeepRecords(s, w, x);
  }

  lemma ClaimRecords(s: System, id: Id)
    requires Recorded(s)
    ensures Recorded(Claim(s, id))
  {
    hide RecordData, PipesRecords, Notice;
    PipesNotice(ViewOf(s), s.workers);
  }

  lemma ExecuteRecords(s: System, w: WorkerId, x: Worker, id: Id)
    requires Recorded(s) && Placed(s) && s.heeds && x == WorkerAt(s, w).(pipe := []) && x.hand == None
    requires x.watch.Watching? && x.watch.seen == Some(id)
    ensures Recorded(Execute(s, w, x, id))
  {
    hide Recorded, PlacesOk, PipesOk, WatchesOk, Take, Claim, SetWorker;
    WorkerOk(s, w);
    if x.watch.dirty {
      IdleRecords(s, w, x.(watch := Unwatched));
    } else {
      DelayedPlace(s, id);
      UnackedAt(s, id);
      ClaimRecords(s, id);
      ClaimKeeps(s, id);
      TakeRecords(Claim(s, id), w, x.(watch := Unwatched), id);
    }
  }

  lemma ClaimKeeps(s: System, id: Id)
    ensures Claim(s, id).created == s.created && Claim(s, id).acked == s.acked
  {}

  lemma DelayedPlace(s: System, id: Id)
    requires PlacesOk(s) && id in s.delayed
    ensures DeliveryPlaces.Is(s.place, id, Delayed)
  {
    hide ListsOk, HandsOk, LostOk;
  }
}
