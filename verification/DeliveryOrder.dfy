/** Push lists and unread lists are queues: ids come out in the order they went in. */
module DeliveryOrder {
  import opened Redis
  import opened Delivery
  import opened DeliveryPlaces
  import opened DeliverySafety
  import opened Wrappers

  function Reversed(s: seq<Id>): (r: seq<Id>)
    ensures |r| == |s| && forall i :: 0 <= i < |s| ==> r[i] == s[|s| - 1 - i]
  {
    if s == [] then [] else Reversed(s[1..]) + [s[0]]
  }

  /** What a step pushes to a list, and what it hands out from it. */
  function PushedBy(s: System, e: Event, key: Key): seq<Id>
    requires Enabled(s, e)
  {
    if e.Run? then
      var c := WorkerAt(s, e.w).pipe[0];
      if c.LPush? && c.key == key then [c.id] else []
    else []
  }

  function PoppedBy(s: System, e: Event, key: Key): seq<Id>
    requires Enabled(s, e)
  {
    if e.Run? then
      var c, list := WorkerAt(s, e.w).pipe[0], ListAt(s.lists, key);
      if c == RPop(key) && HandAt(Step(s, e).workers, e.w).Some? && list != [] then
        [HandAt(Step(s, e).workers, e.w).value]
      else []
    else []
  }

  function Pushed(s: System, run: seq<Event>, key: Key, s': System): seq<Id>
    requires Leads(s, run, s')
    decreases run
  {
    if run == [] then [] else PushedBy(s, run[0], key) + Pushed(Step(s, run[0]), run[1..], key, s')
  }

  function Popped(s: System, run: seq<Event>, key: Key, s': System): seq<Id>
    requires Leads(s, run, s')
    decreases run
  {
    if run == [] then [] else PoppedBy(s, run[0], key) + Popped(Step(s, run[0]), run[1..], key, s')
  }

  // ----- steps that leave the lists alone

  lemma SetWorkerLists(s: System, w: WorkerId, x: Worker)
    ensures SetWorker(s, w, x).lists == s.lists && HandAt(SetWorker(s, w, x).workers, w) == x.hand
  {}

  lemma TakeLists(s: System, w: WorkerId, x: Worker, id: Id)
    ensures Take(s, w, x, id).lists == s.lists && HandAt(Take(s, w, x, id).workers, w) == Some(id)
  {}

  lemma ExecuteLists(s: System, w: WorkerId, x: Worker, id: Id)
    ensures Execute(s, w, x, id).lists == s.lists
  {
    hide SetWorker, Take, Notice;
    var x' := x.(watch := Unwatched);
    TakeLists(Claim(s, id), w, x', id);
    TakeLists(s, w, x', id);
    SetWorkerLists(s, w, x');
  }

  lemma StillLists(s: System, w: WorkerId, x: Worker, c: Command)
    requires !c.LPush? && !c.RPop? && !c.LRem?
    ensures RunCommand(s, w, x, c).lists == s.lists
  {
    hide Push, Pop, Execute, Notice, SetWorker;
    SetWorkerLists(s, w, x);
    match c
    case ZAdd(_, _) =>
    case HSet(_, _, _) =>
    case ExpireRecord(_) =>
    case Exec(id) => ExecuteLists(s, w, x, id);
    case Multi =>
    case QueueZRem(_) =>
    case Aside(_) =>
  }

  lemma StartLists(s: System, e: Event)
    requires Enabled(s, e) && !e.Run?
    ensures Step(s, e).lists == s.lists
  {
    hide Enabled, PutCommands, Placing;
    if e.StartPut? {
      hide RunCommand;
      SetWorkerLists(s, e.w, WorkerAt(s, e.w).(hand := Some(e.p.id), pipe := PutCommands(e.p)));
    } else {
      RestKeeps(s, e);
    }
  }

  // ----- steps that do not

  lemma PushOrder(s: System, w: WorkerId, x: Worker, k: Key, id: Id, key: Key)
    ensures Reversed(ListAt(Push(s, w, x, k, id).lists, key))
         == Reversed(ListAt(s.lists, key)) + if k == key then [id] else []
  {
    var list := ListAt(s.lists, key);
    assert ([id] + list)[1..] == list;
  }

  lemma PopOrder(s: System, w: WorkerId, x: Worker, k: Key, key: Key)
    requires x.hand == None
    ensures var s', list := Pop(s, w, x, k), ListAt(s.lists, key);
      if k == key && list != [] then
        HandAt(s'.workers, w).Some? && [HandAt(s'.workers, w).value] + Reversed(ListAt(s'.lists, key)) == Reversed(list)
      else ListAt(s'.lists, key) == list
  {
    hide SetWorker, Take;
    var list := ListAt(s.lists, k);
    SetWorkerLists(s, w, x);
    if list != [] {
      var rest := list[..|list| - 1];
      TakeLists(s.(lists := s.lists[k := rest]), w, x, list[|list| - 1]);
    }
  }

  /** What the list key was, with what was pushed to it, is what was handed out from it and what it is then. */
  predicate InStep(s: System, e: Event, key: Key)
    requires Enabled(s, e)
  {
    PoppedBy(s, e, key) + Reversed(ListAt(Step(s, e).lists, key))
      == Reversed(ListAt(s.lists, key)) + PushedBy(s, e, key)
  }

  lemma RunPushOrder(s: System, w: WorkerId, key: Key)
    requires Enabled(s, Run(w)) && WorkerAt(s, w).pipe[0].LPush?
    ensures InStep(s, Run(w), key)
  {
    hide ListAt, Reversed, Push, WorkerAt;
    var y, c := WorkerAt(s, w), WorkerAt(s, w).pipe[0];
    PushOrder(s, w, y.(pipe := y.pipe[1..]), c.key, c.id, key);
  }

  lemma RunPopOrder(s: System, w: WorkerId, key: Key)
    requires Placed(s) && Enabled(s, Run(w)) && WorkerAt(s, w).pipe[0].RPop?
    ensures InStep(s, Run(w), key)
  {
    hide Placed, WatchOk, ListAt, Reversed, Pop, Real;
    WorkerOk(s, w);
    var y := WorkerAt(s, w);
    PopOrder(s, w, y.(pipe := y.pipe[1..]), y.pipe[0].key, key);
  }

  lemma RunOtherOrder(s: System, w: WorkerId, key: Key)
    requires Placed(s) && Enabled(s, Run(w)) && !WorkerAt(s, w).pipe[0].LPush? && !WorkerAt(s, w).pipe[0].RPop?
    ensures InStep(s, Run(w), key)
  {
    hide Placed, WatchOk, ListAt, Reversed, Delay, Execute, Write, SetWorker, Dropping, Real, WorkerAt;
    var y := WorkerAt(s, w);
    var x, c := y.(pipe := y.pipe[1..]), y.pipe[0];
    match c
    case LRem(k, id) =>
      LRemFindsNothing(s, w);
      LRemLists(s, w, x, k, id, key);
    case _ => StillLists(s, w, x, c);
  }

  lemma RunOrder(s: System, w: WorkerId, key: Key)
    requires Placed(s) && Enabled(s, Run(w))
    ensures InStep(s, Run(w), key)
  {
    hide Placed, InStep, Step;
    var c := WorkerAt(s, w).pipe[0];
    if c.LPush? {
      RunPushOrder(s, w, key);
    } else if c.RPop? {
      RunPopOrder(s, w, key);
    } else {
      RunOtherOrder(s, w, key);
    }
  }

  /** lrem finds nothing. */
  lemma LRemLists(s: System, w: WorkerId, x: Worker, k: Key, id: Id, key: Key)
    requires Dropping(ListAt(s.lists, k), id) == ListAt(s.lists, k)
    ensures ListAt(SetWorker(s, w, x).(lists := s.lists[k := Dropping(ListAt(s.lists, k), id)]).lists, key)
         == ListAt(s.lists, key)
  {
    hide SetWorker;
  }

  lemma StepOrder(s: System, e: Event, key: Key)
    requires Placed(s) && s.heeds && Enabled(s, e)
    ensures PoppedBy(s, e, key) + Reversed(ListAt(Step(s, e).lists, key))
         == Reversed(ListAt(s.lists, key)) + PushedBy(s, e, key)
  {
    hide Placed, Step, Enabled, Reversed;
    if e.Run? {
      RunOrder(s, e.w, key);
    } else {
      StartLists(s, e);
    }
  }

  /** One step in front of a run. */
  lemma Onward(first: seq<Id>, pushed: seq<Id>, popped: seq<Id>, next: seq<Id>, morePushed: seq<Id>,
               morePopped: seq<Id>, last: seq<Id>)
    requires popped + next == first + pushed && next + morePushed == morePopped + last
    ensures first + (pushed + morePushed) == (popped + morePopped) + last
  {
    assert first + (pushed + morePushed) == (first + pushed) + morePushed;
    assert (popped + next) + morePushed == popped + (next + morePushed);
    assert popped + (morePopped + last) == (popped + morePopped) + last;
  }

  lemma {:induction false} RunsInOrder(s: System, run: seq<Event>, key: Key, s': System)
    requires Placed(s) && s.heeds && Leads(s, run, s')
    ensures Reversed(ListAt(s.lists, key)) + Pushed(s, run, key, s')
         == Popped(s, run, key, s') + Reversed(ListAt(s'.lists, key))
    decreases run
  {
    hide Placed, Step, Enabled, Reversed, ListAt, PushedBy, PoppedBy;
    if run != [] {
      var e, t := run[0], Step(s, run[0]);
      StepPlaced(s, e);
      StepOrder(s, e, key);
      RunsInOrder(t, run[1..], key, s');
      Onward(Reversed(ListAt(s.lists, key)), PushedBy(s, e, key), PoppedBy(s, e, key), Reversed(ListAt(t.lists, key)),
             Pushed(t, run[1..], key, s'), Popped(t, run[1..], key, s'), Reversed(ListAt(s'.lists, key)));
    }
  }

  lemma NothingListed(key: Key)
    ensures Reversed(ListAt(Initial(true).lists, key)) == []
  {}

  /** What was ever pushed to a list is what was handed out from it, in that order, and then what it still holds,
      oldest at the end where the next one is taken. */
  lemma ListsAreQueues(run: seq<Event>, s: System, key: Key)
    requires Leads(Initial(true), run, s)
    ensures Pushed(Initial(true), run, key, s) == Popped(Initial(true), run, key, s) + Reversed(ListAt(s.lists, key))
  {
    hide Leads, Placed, Pushed, Popped;
    InitialPlaced(true);
    RunsInOrder(Initial(true), run, key, s);
    NothingListed(key);
    assert [] + Pushed(Initial(true), run, key, s) == Pushed(Initial(true), run, key, s);
  }
}
