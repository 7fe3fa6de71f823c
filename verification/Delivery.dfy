/** Many workers on one store, one Redis command at a time. */
module Delivery {
  import opened MessageInfo
  import opened Redis
  import opened Wrappers

  type WorkerId = nat

  /** What a connection has watched: whether the key changed since, and the id its range query returned when. */
  datatype Watch = Unwatched | Watching(dirty: bool, seen: Option<Id>, at: int)

  /** hand is the id the worker holds, pipe what it has sent and Redis has not yet run. */
  datatype Worker = Worker(hand: Option<Id>, pipe: seq<Command>, watch: Watch)

  const IDLE: Worker := Worker(None, [], Unwatched)

  /** Where an id is. */
  datatype Place = Listed(key: Key) | Delayed | Held(w: WorkerId) | Lost

  /** The store and the workers, and from created on what has happened so far: the put of each id and who put it;
      where it is, which the invariant ties to the data; mortal are the ids whose put has run to its last command,
      whole those whose submessageid field was written; sent has, for the ids that were acknowledged or saved unread,
      the recipient last read back; taken are those somebody took, acked those whose state was set to 1; due and
      claimed are the times of the delayed ones. heeds says whether a claim looks at EXEC's reply. */
  datatype System = System(
    heeds: bool,
    lists: map<Key, seq<Id>>,
    delayed: map<Id, int>,
    fields: map<(Id, Field), Value>,
    workers: map<WorkerId, Worker>,
    now: int,
    lost: set<Id>,
    created: map<Id, Put>,
    putter: map<Id, WorkerId>,
    place: map<Id, Place>,
    mortal: set<Id>,
    whole: set<Id>,
    sent: map<Id, Device>,
    taken: set<Id>,
    acked: set<Id>,
    due: map<Id, int>,
    claimed: map<Id, int>)

  function Initial(heeds: bool): System {
    System(heeds, map[], map[], map[], map[], 0, {}, map[], map[], map[], {}, {}, map[], {}, {}, map[], map[])
  }

  datatype Event =
    | StartPut(w: WorkerId, p: Put, priority: int, r: nat)
    | StartPop(w: WorkerId, key: Key)                       // getNextMessageId, getNextNoReadMessageId
    | StartAck(w: WorkerId, server: Server, order: seq<Field>)  // getmessageinfo, messageIsSendOK2 for the id it found
    | StartSaveInNoread(w: WorkerId, order: seq<Field>)     // getmessageinfo, then saveInNoread
    | StartSaveInPushlist(w: WorkerId, server: Server)
    | Drop(w: WorkerId)                                     // the caller goes on without the id it holds
    | Crash(w: WorkerId)
    | StartWatch(w: WorkerId)
    | Range(w: WorkerId, id: Id, at: int)                   // the range query at time at returns id
    | StartClaim(w: WorkerId)
    | Run(w: WorkerId)                                      // Redis runs the worker's oldest command
    | Expire(id: Id)                                        // the record of id times out
    | Tick(t: int)

  function WorkerAt(s: System, w: WorkerId): Worker {
    if w in s.workers then s.workers[w] else IDLE
  }

  predicate Idle(x: Worker) {
    x.hand == None && x.pipe == []
  }

  predicate Holds(x: Worker) {
    x.hand.Some? && x.pipe == []
  }

  /** getmessageinfo finds a record when any field of it is there. */
  predicate HasRecord(s: System, id: Id) {
    exists k :: k in s.fields && k.0 == id
  }

  function RecordOf(s: System, id: Id): map<Field, Value> {
    map f: Field | (id, f) in s.fields :: s.fields[(id, f)]
  }

  /** The device getmessageinfo reports when HGETALL lists the record in this order. */
  function Addressee(s: System, id: Id, order: seq<Field>): Device
    requires Lists(RecordOf(s, id), order)
  {
    Device(Got(ReadBack(RecordOf(s, id), order), ToName))
  }

  /** The submessageid it reports. */
  function SentId(s: System, id: Id, order: seq<Field>): Id
    requires Lists(RecordOf(s, id), order)
  {
    Id(Got(ReadBack(RecordOf(s, id), order), SubMessageIdName))
  }

  /** Worker w holds an id with a record, and HGETALL lists it in this order. */
  predicate Fetches(s: System, w: WorkerId, order: seq<Field>) {
    && Holds(WorkerAt(s, w)) && HasRecord(s, WorkerAt(s, w).hand.value)
    && Lists(RecordOf(s, WorkerAt(s, w).hand.value), order)
  }

  predicate Enabled(s: System, e: Event) {
    match e
    case StartPut(w, p, priority, r) =>
      Idle(WorkerAt(s, w)) && Real(p.id) && p.id !in s.created
      && p.due == if priority == 0 then None else Some(DelayTime(s.now, priority * 10 * 60, r))
    case StartPop(w, key) => Idle(WorkerAt(s, w)) && !key.Read?
    case StartAck(w, _, order) => Fetches(s, w, order)
    case StartSaveInNoread(w, order) => Fetches(s, w, order)
    case StartSaveInPushlist(w, _) => Holds(WorkerAt(s, w))
    case Drop(w) => Holds(WorkerAt(s, w))
    case Crash(w) => true
    case StartWatch(w) => Idle(WorkerAt(s, w))
    case Range(w, id, at) =>
      Idle(WorkerAt(s, w)) && WorkerAt(s, w).watch.Watching? && at <= s.now
      && id in s.delayed && s.delayed[id] <= at
      && forall other :: other in s.delayed ==> s.delayed[id] <= s.delayed[other]
    case StartClaim(w) =>
      Idle(WorkerAt(s, w)) && WorkerAt(s, w).watch.Watching? && WorkerAt(s, w).watch.seen.Some?
    case Run(w) => WorkerAt(s, w).pipe != []
    case Expire(id) => id in s.mortal
    case Tick(t) => s.now <= t
  }

  function SetWorker(s: System, w: WorkerId, x: Worker): System {
    s.(workers := s.workers[w := x])
  }

  function Lose(s: System, w: WorkerId, x: Worker): System {
    var s' := SetWorker(s, w, x);
    match WorkerAt(s, w).hand
    case Some(id) => s'.(lost := s.lost + {id}, place := s.place[id := Lost])
    case None => s'
  }

  /** A change of the delayed set is noticed by everybody who watches it. */
  function Notice(workers: map<WorkerId, Worker>): map<WorkerId, Worker> {
    map w | w in workers ::
      if workers[w].watch.Watching? then workers[w].(watch := workers[w].watch.(dirty := true)) else workers[w]
  }

  /** w has taken id into its hand. */
  function Take(s: System, w: WorkerId, x: Worker, id: Id): System {
    s.(workers := s.workers[w := x.(hand := Some(id))], place := s.place[id := Held(w)], taken := s.taken + {id})
  }

  function Push(s: System, w: WorkerId, x: Worker, key: Key, id: Id): System {
    SetWorker(s, w, x.(hand := None)).(lists := s.lists[key := [id] + ListAt(s.lists, key)],
                                       place := if Real(id) then s.place[id := Listed(key)] else s.place)
  }

  function Pop(s: System, w: WorkerId, x: Worker, key: Key): System {
    var list := ListAt(s.lists, key);
    if list == [] then SetWorker(s, w, x)
    else Take(s.(lists := s.lists[key := list[..|list| - 1]]), w, x, list[|list| - 1])
  }

  function Delay(s: System, w: WorkerId, x: Worker, score: int, id: Id): System {
    s.(workers := Notice(s.workers[w := x.(hand := None)]), delayed := s.delayed[id := score],
       place := s.place[id := Delayed])
  }

  function Claim(s: System, id: Id): System {
    s.(workers := Notice(s.workers), delayed := s.delayed - {id}, claimed := s.claimed[id := s.now])
  }

  /** EXEC of the transaction that takes id out of the delayed set; it runs unless the watched set has changed. */
  function Execute(s: System, w: WorkerId, x: Worker, id: Id): System {
    if !(x.watch.Watching? && x.watch.dirty) then Take(Claim(s, id), w, x.(watch := Unwatched), id)
    else if s.heeds then SetWorker(s, w, x.(watch := Unwatched))
    else Take(s, w, x.(watch := Unwatched), id)
  }

  function Write(s: System, w: WorkerId, x: Worker, id: Id, field: Field, value: Value): System {
    SetWorker(s, w, x).(fields := s.fields[(id, field) := value],
                        whole := if field == SubMessageId then s.whole + {id} else s.whole,
                        acked := if field == State && value == Number(1) && Real(id) then s.acked + {id}
                                 else s.acked)
  }

  /** Redis runs command c of worker w, which is x once c is off its pipe. */
  function RunCommand(s: System, w: WorkerId, x: Worker, c: Command): System {
    match c
    case LPush(key, id) => Push(s, w, x, key, id)
    case RPop(key) => Pop(s, w, x, key)
    case LRem(key, id) => SetWorker(s, w, x).(lists := s.lists[key := Dropping(ListAt(s.lists, key), id)])
    case ZAdd(score, id) => Delay(s, w, x, score, id)
    case HSet(id, field, value) => Write(s, w, x, id, field, value)
    case ExpireRecord(id) => SetWorker(s, w, x).(mortal := s.mortal + {id})
    case Exec(id) => Execute(s, w, x, id)
    case _ => SetWorker(s, w, x)
  }

  function Step(s: System, e: Event): System
    requires Enabled(s, e)
  {
    match e
    case StartPut(w, p, priority, r) =>
      SetWorker(s, w, WorkerAt(s, w).(hand := Some(p.id), pipe := PutCommands(p))).(
        created := s.created[p.id := p], putter := s.putter[p.id := w], place := s.place[p.id := Held(w)],
        due := if Placing(p).ZAdd? then s.due[p.id := Placing(p).score] else s.due)
    case StartPop(w, key) => SetWorker(s, w, WorkerAt(s, w).(pipe := [RPop(key)]))
    case StartAck(w, server, order) =>
      var id := WorkerAt(s, w).hand.value;
      var to := Addressee(s, id, order);
      var x := WorkerAt(s, w).(pipe := AckCommands(SentId(s, id, order), to, server));
      if SentId(s, id, order) == id then SetWorker(s, w, x).(sent := s.sent[id := to])
      else Lose(s, w, x.(hand := None))
    case StartSaveInNoread(w, order) =>
      var id := WorkerAt(s, w).hand.value;
      var to := Addressee(s, id, order);
      SetWorker(s, w, WorkerAt(s, w).(pipe := [LPush(NoRead(to), id)])).(sent := s.sent[id := to])
    case StartSaveInPushlist(w, server) =>
      SetWorker(s, w, WorkerAt(s, w).(pipe := [LPush(PushList(server), WorkerAt(s, w).hand.value)]))
    case Drop(w) => Lose(s, w, WorkerAt(s, w).(hand := None))
    case Crash(w) => Lose(s, w, IDLE)
    case StartWatch(w) =>
      var x := WorkerAt(s, w);
      SetWorker(s, w, x.(watch := Watching(x.watch.Watching? && x.watch.dirty, None, s.now)))
    case Range(w, id, at) =>
      SetWorker(s, w, WorkerAt(s, w).(watch := WorkerAt(s, w).watch.(seen := Some(id), at := at)))
    case StartClaim(w) => SetWorker(s, w, WorkerAt(s, w).(pipe := ClaimCommands(WorkerAt(s, w).watch.seen.value)))
    case Run(w) =>
      var x := WorkerAt(s, w);
      RunCommand(s, w, x.(pipe := x.pipe[1..]), x.pipe[0])
    case Expire(id) => s.(fields := map k | k in s.fields && k.0 != id :: s.fields[k])
    case Tick(t) => s.(now := t)
  }

  predicate Leads(s: System, run: seq<Event>, s': System)
    decreases run
  {
    if run == [] then s == s'
    else Enabled(s, run[0]) && Leads(Step(s, run[0]), run[1..], s')
  }

  ghost predicate Reachable(s: System) {
    exists heeds: bool, run: seq<Event> :: Leads(Initial(heeds), run, s)
  }

  lemma {:induction false} LeadsOn(s: System, run: seq<Event>, t: System, more: seq<Event>, u: System)
    requires Leads(s, run, t) && Leads(t, more, u)
    ensures Leads(s, run + more, u)
    decreases run
  {
    hide Step, Enabled;
    if run == [] {
      assert run + more == more;
    } else {
      LeadsOn(Step(s, run[0]), run[1..], t, more, u);
      assert (run + more)[1..] == run[1..] + more;
    }
  }

  /** What a worker starts touches the worker and, when it has read a record, the history of the id it holds. */
  lemma StartsKeepTheRest(s: System, e: Event)
    requires Enabled(s, e) && !e.StartPut? && !e.Run? && !e.Drop? && !e.Crash? && !e.Expire? && !e.Tick? && !e.StartAck?
    ensures Step(s, e) == s.(workers := Step(s, e).workers, sent := Step(s, e).sent)
    ensures !e.StartSaveInNoread? ==> Step(s, e).sent == s.sent
  {
    hide AckCommands, ClaimCommands, Addressee, WorkerAt, RecordOf, Lists;
    match e
    case StartPop(_, _) =>
    case StartSaveInNoread(_, _) =>
    case StartSaveInPushlist(_, _) =>
    case StartWatch(_) =>
    case Range(_, _, _) =>
    case StartClaim(_) =>
  }

  lemma LoseKeepsTheRest(s: System, w: WorkerId, x: Worker)
    ensures var s' := Lose(s, w, x); s' == s.(workers := s'.workers, lost := s'.lost, place := s'.place)
  {}

  lemma AckKeepsTheRest(s: System, e: Event)
    requires e.StartAck? && Enabled(s, e)
    ensures var s' := Step(s, e);
      s' == s.(workers := s'.workers, lost := s'.lost, place := s'.place, sent := s'.sent)
  {
    hide AckCommands, Addressee, SentId, Lose, RecordOf, Lists;
    var id := WorkerAt(s, e.w).hand.value;
    var commands := AckCommands(SentId(s, id, e.order), Addressee(s, id, e.order), e.server);
    LoseKeepsTheRest(s, e.w, WorkerAt(s, e.w).(pipe := commands).(hand := None));
  }

  lemma LossKeepsTheRest(s: System, e: Event)
    requires Enabled(s, e) && (e.Drop? || e.Crash? || e.StartAck?)
    ensures var s' := Step(s, e);
      s' == s.(workers := s'.workers, lost := s'.lost, place := s'.place, sent := s'.sent)
  {
    hide RunCommand, PutCommands, AckCommands, ClaimCommands, Addressee, SentId, Lose, RecordOf, Lists;
    match e
    case Drop(w) => LoseKeepsTheRest(s, w, WorkerAt(s, w).(hand := None));
    case Crash(w) => LoseKeepsTheRest(s, w, IDLE);
    case StartAck(_, _, _) => AckKeepsTheRest(s, e);
  }

  lemma TimeKeepsTheRest(s: System, e: Event)
    requires Enabled(s, e) && (e.Expire? || e.Tick?)
    ensures var s' := Step(s, e); s' == s.(fields := s'.fields, now := s'.now)
  {
    hide RunCommand, PutCommands, AckCommands, ClaimCommands, Addressee, Lose;
  }

  /** Neither a put nor a command that runs: the lists, the delayed set and who was acknowledged stay as
      they are. */
  lemma RestKeeps(s: System, e: Event)
    requires Enabled(s, e) && !e.Run? && !e.StartPut?
    ensures var s' := Step(s, e);
      && s'.heeds == s.heeds && s'.lists == s.lists && s'.delayed == s.delayed && s'.claimed == s.claimed
      && s'.due == s.due && s'.acked == s.acked
  {
    hide Step, Enabled;
    if e.Drop? || e.Crash? || e.StartAck? {
      LossKeepsTheRest(s, e);
    } else if e.Expire? || e.Tick? {
      TimeKeepsTheRest(s, e);
    } else {
      StartsKeepTheRest(s, e);
    }
  }
}
