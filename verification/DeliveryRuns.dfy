/** Building runs, one step or one stretch of a pipe at a time. */
module DeliveryRuns {
  import opened Redis
  import opened Delivery
  import opened DeliveryPlaces
  import opened Wrappers

  ghost predicate Gets(s: System, s': System) {
    exists run :: Leads(s, run, s')
  }

  lemma GetsHere(s: System)
    ensures Gets(s, s)
  {
    assert Leads(s, [], s);
  }

  lemma LeadsOnce(s: System, e: Event)
    requires Enabled(s, e)
    ensures Leads(s, [e], Step(s, e))
  {
    hide Enabled, Step;
    assert [e][1..] == [] && [e][0] == e;
    assert Leads(Step(s, e), [], Step(s, e));
  }

  lemma GetsThen(s: System, t: System, e: Event)
    requires Gets(s, t) && Enabled(t, e)
    ensures Gets(s, Step(t, e))
  {
    hide Enabled, Step;
    var run :| Leads(s, run, t);
    LeadsOnce(t, e);
    LeadsOn(s, run, t, [e], Step(t, e));
  }

  lemma GetsOn(s: System, t: System, u: System)
    requires Gets(s, t) && Gets(t, u)
    ensures Gets(s, u)
  {
    hide Leads;
    var run :| Leads(s, run, t);
    var more :| Leads(t, more, u);
    LeadsOn(s, run, t, more, u);
  }

  /** Of the workers only w has changed. */
  ghost predicate OthersKeep(s: System, t: System, w: WorkerId) {
    forall v: WorkerId :: v != w ==> WorkerAt(t, v) == WorkerAt(s, v)
  }

  /** What plain commands may change besides the worker: the records and what is said of them. */
  predicate RecordsOnly(s: System, t: System) {
    t == s.(workers := t.workers, fields := t.fields, mortal := t.mortal, whole := t.whole, acked := t.acked)
  }

  predicate Writes(c: Command, k: (Id, Field)) {
    c.HSet? && (c.id, c.field) == k
  }

  lemma WriteKeeps(s: System, w: WorkerId, x: Worker, id: Id, field: Field, value: Value)
    ensures var t := Write(s, w, x, id, field, value);
      && WorkerAt(t, w) == x && OthersKeep(s, t, w) && RecordsOnly(s, t) && t.mortal == s.mortal
      && forall k :: k in t.fields <==> k in s.fields || k == (id, field)
  {}

  lemma ExpireKeeps(s: System, w: WorkerId, x: Worker, id: Id)
    ensures var t := SetWorker(s, w, x).(mortal := s.mortal + {id});
      WorkerAt(t, w) == x && OthersKeep(s, t, w) && RecordsOnly(s, t) && t.fields == s.fields
  {}

  lemma SetWorkerKeeps(s: System, w: WorkerId, x: Worker)
    ensures var t := SetWorker(s, w, x);
      && WorkerAt(t, w) == x && OthersKeep(s, t, w) && RecordsOnly(s, t) && t.fields == s.fields
      && t.mortal == s.mortal
  {}

  lemma PlainStep(s: System, w: WorkerId)
    requires WorkerAt(s, w).pipe != [] && Plain(WorkerAt(s, w).pipe[0])
    ensures Enabled(s, Run(w))
    ensures var t, x := Step(s, Run(w)), WorkerAt(s, w);
      && WorkerAt(t, w) == x.(pipe := x.pipe[1..]) && OthersKeep(s, t, w) && RecordsOnly(s, t)
      && (forall k :: k in t.fields <==> k in s.fields || Writes(x.pipe[0], k))
      && (x.pipe[0].ExpireRecord? || t.mortal == s.mortal)
  {
    hide Push, Pop, Delay, Execute, Write, SetWorker, OthersKeep, RecordsOnly, WorkerAt;
    var x := WorkerAt(s, w);
    var x', c := x.(pipe := x.pipe[1..]), x.pipe[0];
    match c
    case HSet(id, field, value) => WriteKeeps(s, w, x', id, field, value);
    case ExpireRecord(id) => ExpireKeeps(s, w, x', id);
    case Aside(_) => SetWorkerKeeps(s, w, x');
  }

  /** The first n commands of w's pipe, all plain, are run. */
  lemma {:induction false} PlainRun(s: System, w: WorkerId, n: nat) returns (t: System)
    requires n <= |WorkerAt(s, w).pipe| && forall i :: 0 <= i < n ==> Plain(WorkerAt(s, w).pipe[i])
    ensures Gets(s, t)
    ensures var x := WorkerAt(s, w);
      && WorkerAt(t, w) == x.(pipe := x.pipe[n..]) && OthersKeep(s, t, w) && RecordsOnly(s, t)
      && (forall k :: k in t.fields <==> k in s.fields || exists i :: 0 <= i < n && Writes(x.pipe[i], k))
      && ((exists i :: 0 <= i < n && x.pipe[i].ExpireRecord?) || t.mortal == s.mortal)
    decreases n
  {
    hide Step, Enabled, Gets, Plain, Writes;
    var x := WorkerAt(s, w);
    if n == 0 {
      t := s;
      GetsHere(s);
      assert x.pipe[0..] == x.pipe;
    } else {
      var u := PlainRun(s, w, n - 1);
      assert x.pipe[n - 1..][0] == x.pipe[n - 1] && x.pipe[n - 1..][1..] == x.pipe[n..];
      PlainStep(u, w);
      GetsThen(s, u, Run(w));
      t := Step(u, Run(w));
    }
  }

  // ----- the other commands and the starts

  lemma PushStep(s: System, w: WorkerId)
    requires WorkerAt(s, w).pipe != [] && WorkerAt(s, w).pipe[0].LPush?
    ensures Enabled(s, Run(w))
    ensures var t, x, c := Step(s, Run(w)), WorkerAt(s, w), WorkerAt(s, w).pipe[0];
      && WorkerAt(t, w) == x.(hand := None, pipe := x.pipe[1..]) && OthersKeep(s, t, w)
      && t == s.(workers := t.workers, lists := s.lists[c.key := [c.id] + ListAt(s.lists, c.key)], place := t.place)
  {
    hide Pop, Delay, Execute, Write;
  }

  lemma ZAddStep(s: System, w: WorkerId)
    requires WorkerAt(s, w).pipe != [] && WorkerAt(s, w).pipe[0].ZAdd?
    requires forall v: WorkerId :: v != w ==> WorkerAt(s, v) == IDLE
    requires WorkerAt(s, w).watch == Unwatched
    ensures Enabled(s, Run(w))
    ensures var t, x, c := Step(s, Run(w)), WorkerAt(s, w), WorkerAt(s, w).pipe[0];
      && WorkerAt(t, w) == x.(hand := None, pipe := x.pipe[1..]) && OthersKeep(s, t, w)
      && t == s.(workers := t.workers, delayed := s.delayed[c.id := c.score], place := t.place)
  {
    hide Push, Pop, Execute, Write;
    var t, x := Step(s, Run(w)), WorkerAt(s, w);
    var workers := s.workers[w := x.(hand := None, pipe := x.pipe[1..])];
    assert t.workers == Notice(workers);
    forall v: WorkerId | v != w
      ensures WorkerAt(t, v) == WorkerAt(s, v)
    {}
  }

  lemma LRemStep(s: System, w: WorkerId)
    requires WorkerAt(s, w).pipe != [] && WorkerAt(s, w).pipe[0].LRem?
    ensures Enabled(s, Run(w))
    ensures var t, x := Step(s, Run(w)), WorkerAt(s, w);
      && WorkerAt(t, w) == x.(pipe := x.pipe[1..]) && OthersKeep(s, t, w)
      && t == s.(workers := t.workers, lists := t.lists)
  {
    hide Push, Pop, Delay, Execute, Write, Dropping;
  }

  lemma PopStep(s: System, w: WorkerId)
    requires WorkerAt(s, w).pipe != [] && WorkerAt(s, w).pipe[0].RPop?
    requires ListAt(s.lists, WorkerAt(s, w).pipe[0].key) != []
    ensures Enabled(s, Run(w))
    ensures var t, x, list := Step(s, Run(w)), WorkerAt(s, w), ListAt(s.lists, WorkerAt(s, w).pipe[0].key);
      && WorkerAt(t, w) == x.(hand := Some(list[|list| - 1]), pipe := x.pipe[1..]) && OthersKeep(s, t, w)
      && t == s.(workers := t.workers, lists := t.lists, place := t.place, taken := t.taken)
  {
    hide Push, Delay, Execute, Write;
  }

  lemma PutStarts(s: System, w: WorkerId, p: Put, priority: int, r: nat)
    requires Enabled(s, StartPut(w, p, priority, r))
    ensures var t := Step(s, StartPut(w, p, priority, r));
      && WorkerAt(t, w) == WorkerAt(s, w).(hand := Some(p.id), pipe := PutCommands(p)) && OthersKeep(s, t, w)
      && t == s.(workers := t.workers, created := s.created[p.id := p], putter := t.putter, place := t.place,
                 due := t.due)
  {
    hide PutCommands;
  }

  lemma PopStarts(s: System, w: WorkerId, key: Key)
    requires Idle(WorkerAt(s, w)) && !key.Read?
    ensures Enabled(s, StartPop(w, key))
    ensures var t := Step(s, StartPop(w, key));
      && WorkerAt(t, w) == WorkerAt(s, w).(pipe := [RPop(key)]) && OthersKeep(s, t, w) && t == s.(workers := t.workers)
  {}

  // ----- a put as far as its placing, and its taking

  lemma PutParts(p: Put)
    ensures var pipe, k := PutCommands(p), |Before(p)|;
      && k < |pipe| && pipe[k] == Placing(p) && pipe[k..][1..] == Record(p) + [ExpireRecord(p.id)]
      && pipe[k..][0] == Placing(p)
      && (forall i :: 0 <= i < k ==> pipe[i].Aside?)
  {
    hide Placing, Record;
  }

  lemma RecordIsPlain(p: Put)
    ensures var rest := Record(p) + [ExpireRecord(p.id)];
      && forall i :: 0 <= i < |rest| ==> Plain(rest[i])
  {}

  /** From the start, worker 0 puts p as far as the command before its placing. */
  lemma PutRunsToPlacing(heeds: bool, p: Put, priority: int, r: nat) returns (t: System)
    requires Enabled(Initial(heeds), StartPut(0, p, priority, r))
    ensures Gets(Initial(heeds), t) && t.heeds == heeds && t.now == 0 && t.lists == map[] && t.delayed == map[]
    ensures WorkerAt(t, 0).pipe != [] && WorkerAt(t, 0).pipe[0] == Placing(p) && WorkerAt(t, 0).watch == Unwatched
    ensures WorkerAt(t, 0).pipe[1..] == Record(p) + [ExpireRecord(p.id)]
    ensures forall v: WorkerId :: v != 0 ==> WorkerAt(t, v) == IDLE
    ensures p.id in t.created && t.created[p.id] == p && t.fields == map[] && t.mortal == {}
  {
    hide PutCommands, Placing, Gets, Step, Enabled, Record, Before;
    var s := Initial(heeds);
    PutStarts(s, 0, p, priority, r);
    PutParts(p);
    GetsHere(s);
    GetsThen(s, s, StartPut(0, p, priority, r));
    var u := Step(s, StartPut(0, p, priority, r));
    t := PlainRun(u, 0, |Before(p)|);
    GetsOn(s, u, t);
  }

  /** And the placing: an id for a device online is pushed to the list of the device's server. */
  lemma PutRunsToRecord(p: Put) returns (t: System)
    requires p.online.Some? && p.due == None && Real(p.id)
    ensures Gets(Initial(true), t) && t.heeds && t.fields == map[] && t.mortal == {}
    ensures ListAt(t.lists, PushList(p.online.value)) == [p.id]
    ensures forall key :: key != PushList(p.online.value) ==> ListAt(t.lists, key) == []
    ensures WorkerAt(t, 0).pipe == Record(p) + [ExpireRecord(p.id)]
    ensures forall v: WorkerId :: v != 0 ==> WorkerAt(t, v) == IDLE
    ensures p.id in t.created && t.created[p.id] == p
  {
    hide Gets, Step, Record;
    var u := PutRunsToPlacing(true, p, 0, 0);
    PushStep(u, 0);
    GetsThen(Initial(true), u, Run(0));
    t := Step(u, Run(0));
  }

  /** Then the put writes n commands of its record, and worker 1 takes the id from the list. */
  lemma PutIsOvertaken(p: Put, n: nat) returns (t: System)
    requires p.online.Some? && p.due == None && Real(p.id) && n <= |Record(p)| + 1
    ensures Gets(Initial(true), t) && t.heeds
    ensures WorkerAt(t, 0).pipe == (Record(p) + [ExpireRecord(p.id)])[n..]
    ensures WorkerAt(t, 1) == IDLE.(hand := Some(p.id))
    ensures forall k :: k in t.fields <==> exists i :: 0 <= i < n && Writes((Record(p) + [ExpireRecord(p.id)])[i], k)
    ensures p.id in t.created && t.created[p.id] == p && (n <= |Record(p)| ==> t.mortal == {})
  {
    hide Gets, Step, Record, Enabled, Writes, Plain;
    var s := Initial(true);
    var u := PutRunsToRecord(p);
    RecordIsPlain(p);
    RecordNeverExpires(p);
    var key := PushList(p.online.value);
    t := PlainRun(u, 0, n);
    GetsOn(s, u, t);
    PopStarts(t, 1, key);
    GetsThen(s, t, StartPop(1, key));
    t := Step(t, StartPop(1, key));
    PopStep(t, 1);
    GetsThen(s, t, Run(1));
    t := Step(t, Run(1));
  }

  lemma RecordNeverExpires(p: Put)
    ensures forall i :: 0 <= i < |Record(p)| ==> !(Record(p) + [ExpireRecord(p.id)])[i].ExpireRecord?
  {}
}
