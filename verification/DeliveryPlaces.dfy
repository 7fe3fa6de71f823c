/** Every id is in exactly one place, whatever the interleaving of commands. */
module DeliveryPlaces {
  import opened Redis
  import opened Delivery
  import opened Wrappers

  // ----- what place says, tied to the data

  /** No real id twice. */
  ghost predicate Distinct(s: seq<Id>) {
    forall i, j :: 0 <= i < j < |s| ==> s[i] != s[j] || !Real(s[i])
  }

  ghost predicate OnlyReal(s: seq<Id>) {
    forall id: Id :: id in s ==> Real(id)
  }

  predicate Is(place: map<Id, Place>, id: Id, q: Place) {
    id in place && place[id] == q
  }

  ghost predicate ListsOk(lists: map<Key, seq<Id>>, place: map<Id, Place>) {
    && (forall key :: Distinct(ListAt(lists, key)))
    && (forall key, id: Id :: Real(id) ==> (id in ListAt(lists, key) <==> Is(place, id, Listed(key))))
    && (forall key :: OnlyReal(ListAt(lists, key)) || key.Read?)
  }

  ghost predicate DelayedOk(delayed: map<Id, int>, place: map<Id, Place>) {
    forall id: Id :: id in delayed <==> Is(place, id, Delayed)
  }

  function HandAt(workers: map<WorkerId, Worker>, w: WorkerId): Option<Id> {
    if w in workers then workers[w].hand else None
  }

  ghost predicate HandsOk(workers: map<WorkerId, Worker>, place: map<Id, Place>) {
    forall w: WorkerId, id: Id :: HandAt(workers, w) == Some(id) <==> Is(place, id, Held(w))
  }

  ghost predicate LostOk(lost: set<Id>, place: map<Id, Place>) {
    forall id: Id :: id in lost <==> Is(place, id, Lost)
  }

  ghost predicate PlacesOk(s: System) {
    && s.place.Keys == s.created.Keys && (forall id :: id in s.place ==> Real(id))
    && ListsOk(s.lists, s.place) && DelayedOk(s.delayed, s.place)
    && HandsOk(s.workers, s.place) && LostOk(s.lost, s.place)
  }

  /** The id was elsewhere, or nowhere, and goes elsewhere. */
  predicate NotListed(place: map<Id, Place>, id: Id) {
    id in place ==> !place[id].Listed?
  }

  lemma ListsElsewhere(lists: map<Key, seq<Id>>, place: map<Id, Place>, id: Id, q: Place)
    requires ListsOk(lists, place) && NotListed(place, id) && !q.Listed?
    ensures ListsOk(lists, place[id := q])
  {
    forall key, i: Id | Real(i)
      ensures i in ListAt(lists, key) <==> Is(place[id := q], i, Listed(key))
    {
      assert i in ListAt(lists, key) <==> Is(place, i, Listed(key));
    }
  }

  /** One list is replaced by another that is free of repetitions and holds what place now says it holds. */
  lemma ListsReplace(lists: map<Key, seq<Id>>, place: map<Id, Place>, key: Key, list: seq<Id>, place': map<Id, Place>)
    requires ListsOk(lists, place) && Distinct(list) && (OnlyReal(list) || key.Read?)
    requires forall i: Id :: Real(i) ==> (i in list <==> Is(place', i, Listed(key)))
    requires forall k, i: Id :: k != key ==> (Is(place', i, Listed(k)) <==> Is(place, i, Listed(k)))
    ensures ListsOk(lists[key := list], place')
  {
    var lists' := lists[key := list];
    forall k, i: Id | Real(i)
      ensures i in ListAt(lists', k) <==> Is(place', i, Listed(k))
    {
      assert i in ListAt(lists, k) <==> Is(place, i, Listed(k));
    }
    forall k
      ensures Distinct(ListAt(lists', k)) && (OnlyReal(ListAt(lists', k)) || k.Read?)
    {
      assert Distinct(ListAt(lists, k)) && (OnlyReal(ListAt(lists, k)) || k.Read?);
    }
  }

  lemma ListsHold(lists: map<Key, seq<Id>>, place: map<Id, Place>, key: Key)
    requires ListsOk(lists, place)
    ensures Distinct(ListAt(lists, key)) && (OnlyReal(ListAt(lists, key)) || key.Read?)
    ensures forall i: Id :: Real(i) ==> (i in ListAt(lists, key) <==> Is(place, i, Listed(key)))
  {}

  lemma ListsGain(lists: map<Key, seq<Id>>, place: map<Id, Place>, id: Id, key: Key)
    requires ListsOk(lists, place) && NotListed(place, id) && Real(id)
    ensures ListsOk(lists[key := [id] + ListAt(lists, key)], place[id := Listed(key)])
  {
    var list := ListAt(lists, key);
    ListsHold(lists, place, key);
    var place' := place[id := Listed(key)];
    forall i: Id | Real(i)
      ensures i in [id] + list <==> Is(place', i, Listed(key))
    {
      assert i in list <==> Is(place, i, Listed(key));
    }
    forall k, i: Id | k != key
      ensures Is(place', i, Listed(k)) <==> Is(place, i, Listed(k))
    {}
    assert id !in list;
    ListsReplace(lists, place, key, [id] + list, place');
  }

  /** What is no real id may be pushed to a read list, any number of times. */
  lemma ListsGainUnreal(lists: map<Key, seq<Id>>, place: map<Id, Place>, id: Id, key: Key)
    requires ListsOk(lists, place) && key.Read? && !Real(id)
    ensures ListsOk(lists[key := [id] + ListAt(lists, key)], place)
  {
    var list := ListAt(lists, key);
    ListsHold(lists, place, key);
    ListsReplace(lists, place, key, [id] + list, place);
  }

  lemma ListsLose(lists: map<Key, seq<Id>>, place: map<Id, Place>, key: Key, q: Place)
    requires ListsOk(lists, place) && ListAt(lists, key) != [] && !key.Read? && !q.Listed?
    ensures var list := ListAt(lists, key);
      && Real(list[|list| - 1])
      && ListsOk(lists[key := list[..|list| - 1]], place[list[|list| - 1] := q])
  {
    var list := ListAt(lists, key);
    var rest, id := list[..|list| - 1], list[|list| - 1];
    ListsHold(lists, place, key);
    assert list == rest + [id] && id in list;
    var place' := place[id := q];
    forall i: Id | Real(i)
      ensures i in rest <==> Is(place', i, Listed(key))
    {
      assert i in list <==> Is(place, i, Listed(key));
    }
    forall k, i: Id | k != key
      ensures Is(place', i, Listed(k)) <==> Is(place, i, Listed(k))
    {}
    ListsReplace(lists, place, key, rest, place');
  }

  /** Nothing is in a list that place does not put there, and what is no real id in none but read lists. */
  lemma NothingToDrop(lists: map<Key, seq<Id>>, place: map<Id, Place>, id: Id, key: Key)
    requires ListsOk(lists, place)
    requires if Real(id) then NotListed(place, id) else !key.Read?
    ensures Dropping(ListAt(lists, key), id) == ListAt(lists, key)
  {
    ListsHold(lists, place, key);
    assert id !in ListAt(lists, key);
  }

  lemma ListsDrop(lists: map<Key, seq<Id>>, place: map<Id, Place>, id: Id, key: Key)
    requires ListsOk(lists, place)
    requires if Real(id) then NotListed(place, id) else !key.Read?
    ensures ListsOk(lists[key := Dropping(ListAt(lists, key), id)], place)
  {
    NothingToDrop(lists, place, id, key);
    ListsHold(lists, place, key);
    ListsReplace(lists, place, key, ListAt(lists, key), place);
  }

  lemma DelayedElsewhere(delayed: map<Id, int>, place: map<Id, Place>, id: Id, q: Place)
    requires DelayedOk(delayed, place) && !Is(place, id, Delayed) && !q.Delayed?
    ensures DelayedOk(delayed, place[id := q])
  {}

  lemma DelayedGain(delayed: map<Id, int>, place: map<Id, Place>, id: Id, score: int)
    requires DelayedOk(delayed, place)
    ensures DelayedOk(delayed[id := score], place[id := Delayed])
  {}

  lemma DelayedLose(delayed: map<Id, int>, place: map<Id, Place>, id: Id, q: Place)
    requires DelayedOk(delayed, place) && !q.Delayed?
    ensures DelayedOk(delayed - {id}, place[id := q])
  {}

  lemma HandsSame(workers: map<WorkerId, Worker>, place: map<Id, Place>, w: WorkerId, x: Worker)
    requires HandsOk(workers, place) && x.hand == HandAt(workers, w)
    ensures HandsOk(workers[w := x], place)
  {}

  lemma HandsGain(workers: map<WorkerId, Worker>, place: map<Id, Place>, w: WorkerId, x: Worker, id: Id)
    requires HandsOk(workers, place) && HandAt(workers, w) == None && x.hand == Some(id)
    requires id in place ==> !place[id].Held?
    ensures HandsOk(workers[w := x], place[id := Held(w)])
  {}

  lemma HandsLose(workers: map<WorkerId, Worker>, place: map<Id, Place>, w: WorkerId, x: Worker, id: Id, q: Place)
    requires HandsOk(workers, place) && HandAt(workers, w) == Some(id) && x.hand == None && !q.Held?
    ensures HandsOk(workers[w := x], place[id := q])
  {}

  lemma HandsNotice(workers: map<WorkerId, Worker>, place: map<Id, Place>)
    requires HandsOk(workers, place)
    ensures HandsOk(Notice(workers), place)
  {
    assert forall w: WorkerId :: HandAt(Notice(workers), w) == HandAt(workers, w);
  }

  lemma LostElsewhere(lost: set<Id>, place: map<Id, Place>, id: Id, q: Place)
    requires LostOk(lost, place) && !Is(place, id, Lost) && !q.Lost?
    ensures LostOk(lost, place[id := q])
  {}

  lemma LostGain(lost: set<Id>, place: map<Id, Place>, id: Id)
    requires LostOk(lost, place)
    ensures LostOk(lost + {id}, place[id := Lost])
  {}

  // ----- pipes

  /** Commands that move no id; the submessageid of a record is its own id. */
  predicate Plain(c: Command) {
    (c.HSet? && (c.field == SubMessageId ==> c.value == IdText(c.id))) || c.ExpireRecord? || c.Aside?
  }

  /** What the hand has to be for a command to place id: only real ids are in hands. */
  function Grip(id: Id): Option<Id> {
    if Real(id) then Some(id) else None
  }

  /** At most one command of a pipe moves an id: it places the one in hand, or pops, or claims the one seen. The
      what is no real id is only ever pushed to a read list, and never sought there. */
  predicate PipeOk(hand: Option<Id>, watch: Watch, pipe: seq<Command>) {
    if pipe == [] then true
    else match pipe[0]
      case LPush(key, id) =>
        hand == Grip(id) && (Real(id) || key.Read?) && forall i :: 1 <= i < |pipe| ==> Plain(pipe[i])
      case ZAdd(_, id) => hand == Some(id) && Real(id) && forall i :: 1 <= i < |pipe| ==> Plain(pipe[i])
      case RPop(key) => hand == None && |pipe| == 1 && !key.Read?
      case LRem(key, id) => hand == Grip(id) && !key.Read? && PipeOk(hand, watch, pipe[1..])
      case Multi => hand == None && |pipe| == 3 && pipe[1].QueueZRem? && PipeOk(hand, watch, pipe[1..])
      case QueueZRem(id) => hand == None && |pipe| == 2 && pipe[1] == Exec(id) && PipeOk(hand, watch, pipe[1..])
      case Exec(id) => hand == None && |pipe| == 1 && watch.Watching? && watch.seen == Some(id)
      case _ => Plain(pipe[0]) && PipeOk(hand, watch, pipe[1..])
  }

  ghost predicate PipesOk(workers: map<WorkerId, Worker>) {
    forall w :: w in workers ==> PipeOk(workers[w].hand, workers[w].watch, workers[w].pipe)
  }

  lemma {:induction false} PlainPipeOk(hand: Option<Id>, watch: Watch, pipe: seq<Command>)
    requires forall i :: 0 <= i < |pipe| ==> Plain(pipe[i])
    ensures PipeOk(hand, watch, pipe)
    decreases pipe
  {
    if pipe != [] {
      PlainPipeOk(hand, watch, pipe[1..]);
    }
  }

  /** A placing command among plain ones, with the id in hand. */
  lemma {:induction false} PlacingPipeOk(id: Id, watch: Watch, before: seq<Command>, c: Command, after: seq<Command>)
    requires (c.LPush? || c.ZAdd?) && c.id == id && (Real(id) || (c.LPush? && c.key.Read?))
    requires forall i :: 0 <= i < |before| ==>
      Plain(before[i]) || (before[i].LRem? && before[i].id == id && !before[i].key.Read?)
    requires forall i :: 0 <= i < |after| ==> Plain(after[i])
    ensures PipeOk(Grip(id), watch, before + [c] + after)
    decreases before
  {
    var pipe := before + [c] + after;
    if before == [] {
      assert pipe[0] == c && pipe[1..] == after;
    } else {
      PlacingPipeOk(id, watch, before[1..], c, after);
      assert pipe[0] == before[0] && pipe[1..] == before[1..] + [c] + after;
    }
  }
}
