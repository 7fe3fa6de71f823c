/** A claim that does not look at the reply of EXEC. */
module DeliveryUnheeded {
  import opened Redis
  import opened Delivery
  import opened DeliveryPlaces
  import opened DeliveryRuns
  import opened DeliverySafety
  import opened Wrappers

  /** w has only to send the transaction for id and see it run. */
  predicate Poised(s: System, w: WorkerId, id: Id) {
    WorkerAt(s, w).pipe == ClaimCommands(id) && WorkerAt(s, w).hand == None && WorkerAt(s, w).watch.Watching?
  }

  lemma SkipCommand(s: System, w: WorkerId, v: WorkerId)
    requires !s.heeds && WorkerAt(s, w).pipe != []
    requires WorkerAt(s, w).pipe[0].Multi? || WorkerAt(s, w).pipe[0].QueueZRem?
    ensures Enabled(s, Run(w))
    ensures var s' := Step(s, Run(w));
      && WorkerAt(s', w) == WorkerAt(s, w).(pipe := WorkerAt(s, w).pipe[1..])
      && (v != w ==> WorkerAt(s', v) == WorkerAt(s, v)) && !s'.heeds
  {
    hide Notice, Push, Pop, Delay, Execute, Write;
  }

  lemma TakeWorkers(s: System, w: WorkerId, x: Worker, id: Id, v: WorkerId)
    requires v != w
    ensures WorkerAt(Take(s, w, x, id), w).hand == Some(id) && WorkerAt(Take(s, w, x, id), v) == WorkerAt(s, v)
  {}

  lemma ClaimWorkers(s: System, id: Id, v: WorkerId)
    ensures var y := WorkerAt(Claim(s, id), v);
      y == WorkerAt(s, v).(watch := y.watch) && (WorkerAt(s, v).watch.Watching? ==> y.watch.Watching?)
  {}

  lemma ExecuteWatch(s: System, w: WorkerId, x: Worker, id: Id, v: WorkerId)
    requires v != w && !s.heeds
    ensures var s' := Execute(s, w, x, id);
      && WorkerAt(s', w).hand == Some(id) && !s'.heeds
      && WorkerAt(s', v) == WorkerAt(s, v).(watch := WorkerAt(s', v).watch)
      && (WorkerAt(s, v).watch.Watching? ==> WorkerAt(s', v).watch.Watching?)
  {
    hide SetWorker, Take, Claim, WorkerAt;
    ExecuteHeeds(s, w, x, id);
    TakeWorkers(Claim(s, id), w, x.(watch := Unwatched), id, v);
    TakeWorkers(s, w, x.(watch := Unwatched), id, v);
    ClaimWorkers(s, id, v);
  }

  lemma LastCommand(s: System, w: WorkerId, id: Id, v: WorkerId)
    requires !s.heeds && WorkerAt(s, w).pipe == [Exec(id)] && v != w
    ensures Enabled(s, Run(w))
    ensures var s' := Step(s, Run(w));
      && HandAt(s'.workers, w) == Some(id) && !s'.heeds
      && HandAt(s'.workers, v) == HandAt(s.workers, v)
      && (Poised(s, v, id) ==> Poised(s', v, id))
  {
    hide Notice, Push, Pop, Delay, Write, Execute;
    ExecuteWatch(s, w, WorkerAt(s, w).(pipe := []), id, v);
    var s' := Step(s, Run(w));
    assert WorkerAt(s, w).pipe[1..] == [] && s' == Execute(s, w, WorkerAt(s, w).(pipe := []), id);
    assert HandAt(s'.workers, w) == WorkerAt(s', w).hand && HandAt(s'.workers, v) == WorkerAt(s', v).hand
        && HandAt(s.workers, v) == WorkerAt(s, v).hand;
  }

  /** Whoever is poised comes to hold the id, whatever has become of it. */
  lemma PoisedClaims(s: System, w: WorkerId, id: Id, v: WorkerId) returns (s': System)
    requires !s.heeds && Poised(s, w, id) && v != w
    ensures Leads(s, [Run(w), Run(w), Run(w)], s')
    ensures HandAt(s'.workers, w) == Some(id) && HandAt(s'.workers, v) == HandAt(s.workers, v) && !s'.heeds
    ensures Poised(s, v, id) ==> Poised(s', v, id)
  {
    hide Step, Enabled;
    SkipCommand(s, w, v);
    var s1 := Step(s, Run(w));
    assert WorkerAt(s1, w).pipe == [QueueZRem(id), Exec(id)];
    SkipCommand(s1, w, v);
    var s2 := Step(s1, Run(w));
    assert WorkerAt(s2, w).pipe == [Exec(id)];
    assert HandAt(s2.workers, v) == HandAt(s.workers, v) by {
      assert HandAt(s2.workers, v) == WorkerAt(s2, v).hand && HandAt(s.workers, v) == WorkerAt(s, v).hand;
    }
    LastCommand(s2, w, id, v);
    s' := Step(s2, Run(w));
    LeadsThrice(s, Run(w), Run(w), Run(w));
  }

  lemma LeadsThrice(s: System, d: Event, e: Event, f: Event)
    requires Enabled(s, d) && Enabled(Step(s, d), e) && Enabled(Step(Step(s, d), e), f)
    ensures Leads(s, [d, e, f], Step(Step(Step(s, d), e), f))
  {
    hide Step, Enabled;
    var s1, s2 := Step(s, d), Step(Step(s, d), e);
    var s3 := Step(s2, f);
    assert Leads(s3, [], s3);
    assert [f][1..] == [] && [f][0] == f;
    assert Leads(s2, [f], s3);
    assert [e, f][1..] == [f] && [e, f][0] == e;
    assert Leads(s1, [e, f], s3);
    assert [d, e, f][1..] == [e, f] && [d, e, f][0] == d;
  }

  lemma BecomesPoised(s: System, w: WorkerId, id: Id, v: WorkerId) returns (s': System)
    requires Idle(WorkerAt(s, w)) && v != w && id in s.delayed && s.delayed[id] <= s.now
    requires forall other :: other in s.delayed ==> s.delayed[id] <= s.delayed[other]
    ensures Leads(s, [StartWatch(w), Range(w, id, s.now), StartClaim(w)], s') && Poised(s', w, id)
    ensures WorkerAt(s', v) == WorkerAt(s, v) && s'.delayed == s.delayed && s'.now == s.now && s'.heeds == s.heeds
  {
    hide RunCommand;
    var s1 := Step(s, StartWatch(w));
    assert Idle(WorkerAt(s1, w)) && WorkerAt(s1, w).watch.Watching?;
    var s2 := Step(s1, Range(w, id, s.now));
    assert Idle(WorkerAt(s2, w)) && WorkerAt(s2, w).watch.Watching? && WorkerAt(s2, w).watch.seen == Some(id);
    s' := Step(s2, StartClaim(w));
    LeadsThrice(s, StartWatch(w), Range(w, id, s.now), StartClaim(w));
  }

  /** As written, with EXEC's reply thrown away: of an id that is due, any two idle workers can both come to hold it. */
  lemma IgnoredReplyClaimsTwice(s: System, v: WorkerId, w: WorkerId, id: Id)
    requires !s.heeds && v != w && Idle(WorkerAt(s, v)) && Idle(WorkerAt(s, w))
    requires id in s.delayed && s.delayed[id] <= s.now
    requires forall other :: other in s.delayed ==> s.delayed[id] <= s.delayed[other]
    ensures exists run, s' :: Leads(s, run, s') && HandAt(s'.workers, v) == HandAt(s'.workers, w) == Some(id)
  {
    hide Leads;
    var s1 := BecomesPoised(s, v, id, w);
    var s2 := BecomesPoised(s1, w, id, v);
    var s3 := PoisedClaims(s2, v, id, w);
    var s4 := PoisedClaims(s3, w, id, v);
    LeadsOn(s, [StartWatch(v), Range(v, id, s.now), StartClaim(v)], s1,
            [StartWatch(w), Range(w, id, s.now), StartClaim(w)], s2);
    LeadsOn(s2, [Run(v), Run(v), Run(v)], s3, [Run(w), Run(w), Run(w)], s4);
    LeadsOn(s,
            [StartWatch(v), Range(v, id, s.now), StartClaim(v)] + [StartWatch(w), Range(w, id, s.now), StartClaim(w)],
            s2, [Run(v), Run(v), Run(v)] + [Run(w), Run(w), Run(w)], s4);
  }

  /** And such a state is reached: a put with a priority runs to its end, and time passes until it is due. */
  lemma DelayedPutsFallDue(p: Put, priority: int, r: nat) returns (t: System)
    requires Enabled(Initial(false), StartPut(0, p, priority, r)) && p.online.Some? && priority != 0
    ensures Gets(Initial(false), t) && !t.heeds
    ensures t.delayed == map[p.id := p.due.value] && t.now == p.due.value
    ensures forall v: WorkerId :: WorkerAt(t, v) == IDLE
  {
    hide Gets, Step, Record, DelayTime;
    var s := Initial(false);
    var u := PutRunsToPlacing(false, p, priority, r);
    assert Placing(p) == ZAdd(p.due.value, p.id);
    ZAddStep(u, 0);
    GetsThen(s, u, Run(0));
    u := Step(u, Run(0));
    RecordIsPlain(p);
    t := PlainRun(u, 0, |Record(p)| + 1);
    assert WorkerAt(u, 0).pipe[|Record(p)| + 1..] == [] && WorkerAt(t, 0) == IDLE;
    GetsOn(s, u, t);
    var due := Tick(p.due.value);
    DueLater(p, priority, r);
    GetsThen(s, t, due);
    TickKeeps(t, p.due.value);
    forall v: WorkerId
      ensures WorkerAt(Step(t, due), v) == IDLE
    {
      assert WorkerAt(Step(t, due), v) == WorkerAt(t, v) && (v != 0 ==> WorkerAt(t, v) == WorkerAt(u, v));
    }
    t := Step(t, due);
  }

  lemma DueLater(p: Put, priority: int, r: nat)
    requires Enabled(Initial(false), StartPut(0, p, priority, r)) && priority != 0
    ensures p.due.Some? && p.due.value > 0
  {}

  lemma TickKeeps(s: System, t: int)
    requires Enabled(s, Tick(t))
    ensures Step(s, Tick(t)) == s.(now := t)
  {}

  /** So one delayed message can end in two hands. */
  lemma TwoHandsHappen(p: Put, priority: int, r: nat)
    requires Enabled(Initial(false), StartPut(0, p, priority, r)) && p.online.Some? && priority != 0
    ensures exists s :: Gets(Initial(false), s) && HandAt(s.workers, 1) == HandAt(s.workers, 2) == Some(p.id)
  {
    hide Leads, Enabled;
    var t := DelayedPutsFallDue(p, priority, r);
    IgnoredReplyClaimsTwice(t, 1, 2, p.id);
    var run, s' :| Leads(t, run, s') && HandAt(s'.workers, 1) == HandAt(s'.workers, 2) == Some(p.id);
    assert Gets(t, s');
    GetsOn(Initial(false), t, s');
  }
}
