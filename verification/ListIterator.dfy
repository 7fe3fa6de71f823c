/** The iterator of server/list_iterator.c, and the searches of server/list.c that use it. */
module ListIterator {
  import opened LinkedList
  import opened Wrappers

  datatype Direction = Head | Tail

  /** The element a traversal of s reaches when n of its elements, this one included, are still to come. */
  function Upcoming<X>(s: seq<X>, direction: Direction, n: nat): X
    requires 0 < n <= |s|
  {
    if direction.Head? then s[|s| - n] else s[n - 1]
  }

  /** All that a traversal with n elements to go will reach, in its order. */
  function Remaining<X>(s: seq<X>, direction: Direction, n: nat): (r: seq<X>)
    requires n <= |s|
    ensures |r| == n
    ensures forall i :: 0 <= i < n ==> r[i] == Upcoming(s, direction, n - i)
  {
    seq(n, i requires 0 <= i < n => Upcoming(s, direction, n - i))
  }

  class Iterator<T(==)> {
    var next: ListNode?<T>
    const direction: Direction

    /** n nodes of list are still to come. */
    ghost predicate Traverses(list: List<T>, n: nat)
      reads this, list
    {
      n <= |list.nodes| && next == if n == 0 then null else Upcoming(list.nodes, direction, n)
    }

    /** From a node of list everything from there on is still to come, from null nothing. */
    constructor FromNode(node: ListNode?<T>, direction: Direction, ghost list: List<T>)
      requires list.Valid()
      ensures this.direction == direction && (node == null ==> Traverses(list, 0))
      ensures forall k :: 0 <= k < |list.nodes| && list.nodes[k] == node ==>
        Traverses(list, if direction.Head? then |list.nodes| - k else k + 1)
    {
      next := node;
      this.direction := direction;
    }

    constructor (list: List<T>, direction: Direction)
      requires list.Valid()
      ensures this.direction == direction && Traverses(list, |list.nodes|)
    {
      next := if direction == Head then list.head else list.tail;
      this.direction := direction;
    }

    method Next(ghost list: List<T>, ghost n: nat) returns (curr: ListNode?<T>)
      requires list.Valid() && Traverses(list, n)
      modifies this
      ensures n == 0 ==> curr == null && Traverses(list, 0)
      ensures n > 0 ==> curr == Upcoming(list.nodes, direction, n) && Traverses(list, n - 1)
    {
      curr := next;
      if curr != null {
        next := if direction == Head then curr.next else curr.prev;
      }
    }
  }

  /** Calling Next until it returns null yields what was still to come. */
  method Drain<T(==)>(list: List<T>, it: Iterator<T>, ghost n: nat) returns (seen: seq<ListNode<T>>)
    requires list.Valid() && it.Traverses(list, n)
    modifies it
    ensures seen == Remaining(list.nodes, it.direction, n) && it.Traverses(list, 0)
  {
    ghost var left := n;
    seen := [];
    var node := it.Next(list, left);
    while node != null
      invariant 0 <= left && left + |seen| == n
      invariant forall i :: 0 <= i < |seen| ==> seen[i] == Upcoming(list.nodes, it.direction, n - i)
      invariant node == if left == 0 then null else Upcoming(list.nodes, it.direction, left)
      invariant it.Traverses(list, if left == 0 then 0 else left - 1)
      decreases left
    {
      seen := seen + [node];
      left := left - 1;
      node := it.Next(list, left);
    }
  }

  /** Walking a list to its end yields all of it, forwards from the head and backwards from the tail. */
  method Walk<T(==)>(list: List<T>, direction: Direction) returns (seen: seq<ListNode<T>>)
    requires list.Valid()
    ensures direction.Head? ==> seen == list.nodes
    ensures direction.Tail? ==>
      |seen| == |list.nodes| && forall i :: 0 <= i < |seen| ==> seen[i] == list.nodes[|seen| - 1 - i]
  {
    var it := new Iterator(list, direction);
    seen := Drain(list, it, |list.nodes|);
  }

  /** Walking from a node yields it and all that lies beyond it. */
  method WalkFrom<T(==)>(list: List<T>, node: ListNode<T>, ghost k: nat, direction: Direction)
    returns (seen: seq<ListNode<T>>)
    requires list.Valid() && k < |list.nodes| && list.nodes[k] == node
    ensures direction.Head? ==> seen == list.nodes[k..]
    ensures direction.Tail? ==> |seen| == k + 1 && forall i :: 0 <= i <= k ==> seen[i] == list.nodes[k - i]
  {
    var it := new Iterator.FromNode(node, direction, list);
    seen := Drain(list, it, if direction.Head? then |list.nodes| - k else k + 1);
  }

  /** The places a traversal with n elements to go has already left. */
  predicate Behind(length: nat, direction: Direction, n: nat, k: nat)
    requires n <= length
  {
    if direction.Head? then k < length - n else n <= k < length
  }

  /** Removal behind a traversal leaves the remaining elements as they were. */
  lemma RemainingWithout<X>(s: seq<X>, direction: Direction, n: nat, k: nat)
    requires n <= |s| && Behind(|s|, direction, n, k)
    ensures n < |s| && Remaining(Without(s, k), direction, n) == Remaining(s, direction, n)
    ensures n > 0 ==> Upcoming(Without(s, k), direction, n) == Upcoming(s, direction, n)
  {
    WithoutAt(s, k);
  }

  /** Every element lies behind or is still to come. */
  lemma BehindOrRemaining<X>(s: seq<X>, direction: Direction, n: nat, k: nat)
    requires n <= |s| && k < |s|
    ensures Behind(|s|, direction, n, k) || s[k] in Remaining(s, direction, n)
  {
    if !Behind(|s|, direction, n, k) {
      var i := if direction.Head? then k - (|s| - n) else n - 1 - k;
      assert Remaining(s, direction, n)[i] == s[k];
    }
  }

  /** Taking out any node that is not still to come, such as the one just returned, changes nothing of what is. */
  method RemoveBehind<T(==)>(list: List<T>, it: Iterator<T>, node: ListNode<T>, ghost n: nat)
    requires list.Valid() && it.Traverses(list, n)
    requires node in list.nodes && node !in Remaining(list.nodes, it.direction, n)
    modifies list, list.nodes
    ensures list.Valid() && it.Traverses(list, n)
    ensures Remaining(list.nodes, it.direction, n) == old(Remaining(list.nodes, it.direction, n))
  {
    ghost var before := list.nodes;
    var _, k := list.Remove(node);
    BehindOrRemaining(before, it.direction, n, k);
    RemainingWithout(before, it.direction, n, k);
  }

  predicate Matches<T(==)>(matcher: Option<(T, T) -> bool>, val: T, x: T) {
    match matcher
    case Some(f) => f(val, x)
    case None => val == x
  }

  /** node is the first of nodes to match, or null when none does. */
  ghost predicate FirstMatch<T>(nodes: seq<ListNode<T>>, matcher: Option<(T, T) -> bool>, val: T,
                                node: ListNode?<T>, i: nat)
    reads nodes
  {
    && i <= |nodes|
    && node == (if i == |nodes| then null else nodes[i])
    && (i < |nodes| ==> Matches(matcher, val, nodes[i].val))
    && forall j :: 0 <= j < i ==> !Matches(matcher, val, nodes[j].val)
  }

  method Find<T(==)>(list: List<T>, val: T) returns (node: ListNode?<T>)
    requires list.Valid()
    ensures exists i: nat :: FirstMatch(list.nodes, list.matcher, val, node, i)
  {
    var it := new Iterator(list, Head);
    ghost var i: nat := 0;
    node := it.Next(list, |list.nodes|);
    while node != null
      invariant fresh(it) && it.direction == Head && i <= |list.nodes|
      invariant node == if i == |list.nodes| then null else list.nodes[i]
      invariant it.Traverses(list, if i == |list.nodes| then 0 else |list.nodes| - i - 1)
      invariant forall j :: 0 <= j < i ==> !Matches(list.matcher, val, list.nodes[j].val)
      decreases |list.nodes| - i
    {
      if list.matcher.Some? {
        if list.matcher.value(val, node.val) {
          assert FirstMatch(list.nodes, list.matcher, val, node, i);
          return;
        }
      } else if val == node.val {
        assert FirstMatch(list.nodes, list.matcher, val, node, i);
        return;
      }
      i := i + 1;
      node := it.Next(list, |list.nodes| - i);
    }
    assert FirstMatch(list.nodes, list.matcher, val, node, i);
  }

  /** Element index of s, counted from the end when negative. */
  function ElementAt<X>(s: seq<X>, index: int): (r: Option<X>) {
    if 0 <= index < |s| then Some(s[index])
    else if -|s| <= index < 0 then Some(s[|s| + index])
    else None
  }

  method At<T(==)>(list: List<T>, index: int) returns (node: ListNode?<T>)
    requires list.Valid()
    ensures match ElementAt(list.nodes, index) case Some(n) => node == n case None => node == null
  {
    var direction, left := Head, index;
    if index < 0 {
      direction := Tail;
      left := -index - 1;
    }
    if left >= list.len {
      return null;
    }
    var it := new Iterator(list, direction);
    ghost var n := |list.nodes|;
    node := it.Next(list, n);
    while left != 0
      invariant fresh(it) && it.direction == direction
      invariant 0 <= left < n <= |list.nodes|
      invariant n - left == |list.nodes| - (if index < 0 then -index - 1 else index)
      invariant node == Upcoming(list.nodes, direction, n) && it.Traverses(list, n - 1)
    {
      left := left - 1;
      n := n - 1;
      node := it.Next(list, n);
    }
  }
}
