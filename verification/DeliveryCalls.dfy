/** What workers start is what the storage functions send. */
module DeliveryCalls {
  import opened Redis
  import opened Delivery
  import opened MessageInfo
  import opened MessageStorage
  import opened Wrappers

  predicate Starts(e: Event) {
    e.StartPut? || e.StartPop? || e.StartAck? || e.StartSaveInNoread? || e.StartSaveInPushlist? || e.StartClaim?
  }

  /** The storage function behind an event, with its arguments. */
  function CallOf(s: System, e: Event): Call
    requires Enabled(s, e) && Starts(e)
  {
    match e
    case StartPut(_, p, _, _) => if p.group.Some? then PutMessageInfo2(p) else PutMessageInfo(p)
    case StartPop(_, key) =>
      if key.PushList? then NextMessageId(key.server) else NextNoReadMessageId(key.device)
    case StartAck(w, server, order) =>
      var id := WorkerAt(s, w).hand.value;
      MessageIsSendOK(SentId(s, id, order), Addressee(s, id, order), server)
    case StartSaveInNoread(w, order) =>
      var id := WorkerAt(s, w).hand.value;
      SaveInNoread(Addressee(s, id, order), id)
    case StartSaveInPushlist(w, server) => SaveInPushlist(server, WorkerAt(s, w).hand.value)
    case StartClaim(w) => DelayedMessage(Some(WorkerAt(s, w).watch.seen.value))
  }

  lemma SetWorkerSets(s: System, w: WorkerId, x: Worker, sent: map<Id, Device>)
    ensures WorkerAt(SetWorker(s, w, x), w) == x && WorkerAt(SetWorker(s, w, x).(sent := sent), w) == x
  {}

  lemma LoseSets(s: System, w: WorkerId, x: Worker)
    ensures WorkerAt(Lose(s, w, x), w) == x
  {}

  lemma PutSets(s: System, e: Event)
    requires e.StartPut? && Enabled(s, e)
    ensures WorkerAt(Step(s, e), e.w).pipe == PutCommands(e.p)
  {
    hide PutCommands, Real;
  }

  lemma AckSets(s: System, e: Event)
    requires e.StartAck? && Enabled(s, e)
    ensures var id := WorkerAt(s, e.w).hand.value;
      WorkerAt(Step(s, e), e.w).pipe == AckCommands(SentId(s, id, e.order), Addressee(s, id, e.order), e.server)
  {
    hide AckCommands, Addressee, SentId, Lists, RecordOf, HasRecord, WorkerAt, SetWorker, Lose;
    var id := WorkerAt(s, e.w).hand.value;
    var to := Addressee(s, id, e.order);
    var x := WorkerAt(s, e.w).(pipe := AckCommands(SentId(s, id, e.order), to, e.server));
    SetWorkerSets(s, e.w, x, s.sent[id := to]);
    LoseSets(s, e.w, x.(hand := None));
  }

  /** The pipe a worker starts is what the function sends, but for the watch and the range query of a claim, which are
      events of their own. */
  lemma StartsSendCalls(s: System, e: Event)
    requires Enabled(s, e) && Starts(e)
    ensures var pipe := WorkerAt(Step(s, e), e.w).pipe;
      Commands(CallOf(s, e)) == (if e.StartClaim? then Asides(["watch", "zrangebyscore"]) else []) + pipe
  {
    hide PutCommands, AckCommands, ClaimCommands, Asides, Addressee, SentId, Lists, RecordOf, HasRecord, Real;
    hide SetWorker, Lose, WorkerAt;
    var x := WorkerAt(s, e.w);
    match e
    case StartPut(_, _, _, _) => PutSets(s, e);
    case StartPop(w, key) => SetWorkerSets(s, w, x.(pipe := [RPop(key)]), s.sent);
    case StartAck(_, _, _) => AckSets(s, e);
    case StartSaveInNoread(w, order) =>
      var to := Addressee(s, x.hand.value, order);
      SetWorkerSets(s, w, x.(pipe := [LPush(NoRead(to), x.hand.value)]), s.sent[x.hand.value := to]);
    case StartSaveInPushlist(w, server) =>
      SetWorkerSets(s, w, x.(pipe := [LPush(PushList(server), x.hand.value)]), s.sent);
    case StartClaim(w) => SetWorkerSets(s, w, x.(pipe := ClaimCommands(x.watch.seen.value)), s.sent);
  }

  /** A record expires only once its put has run to the end, whole, and no other with it. */
  lemma ExpiryForgets(s: System, id: Id)
    requires Enabled(s, Expire(id))
    ensures var s' := Step(s, Expire(id));
      && id in s.mortal && !HasRecord(s', id)
      && forall i: Id, f :: i != id ==>
           && ((i, f) in s'.fields <==> (i, f) in s.fields)
           && ((i, f) in s.fields ==> s'.fields[(i, f)] == s.fields[(i, f)])
  {}
}
