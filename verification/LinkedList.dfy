/** The doubly linked list of server/list.c and server/list_node.c. */
module LinkedList {
  import opened Wrappers

  function Without<X>(s: seq<X>, k: nat): (r: seq<X>)
    requires k < |s|
  {
    s[..k] + s[k + 1..]
  }

  lemma WithoutAt<X>(s: seq<X>, k: nat)
    requires k < |s|
    ensures |Without(s, k)| == |s| - 1
    ensures forall i :: 0 <= i < |s| - 1 ==> Without(s, k)[i] == s[if i < k then i else i + 1]
  {}

  class ListNode<T> {
    var prev: ListNode?<T>
    var next: ListNode?<T>
    var val: T

    constructor (val: T)
      ensures this.val == val && prev == null && next == null
    {
      this.val := val;
      prev, next := null, null;
    }
  }

  class List<T(==)> {
    var head: ListNode?<T>
    var tail: ListNode?<T>
    var len: nat
    /** The two callbacks, absent until the caller sets them: free only matters as being there. */
    var hasFree: bool
    var matcher: Option<(T, T) -> bool>
    /** The nodes from head to tail. */
    ghost var nodes: seq<ListNode<T>>

    ghost predicate Valid()
      reads this, nodes
    {
      && len == |nodes|
      && head == (if nodes == [] then null else nodes[0])
      && tail == (if nodes == [] then null else nodes[|nodes| - 1])
      && (forall i, j :: 0 <= i < j < |nodes| ==> nodes[i] != nodes[j])
      && (forall i {:trigger nodes[i].next} :: 0 <= i < |nodes| ==>
            nodes[i].next == if i == |nodes| - 1 then null else nodes[i + 1])
      && (forall i {:trigger nodes[i].prev} :: 0 <= i < |nodes| ==>
            nodes[i].prev == if i == 0 then null else nodes[i - 1])
    }

    constructor ()
      ensures Valid() && nodes == [] && !hasFree && matcher == None
    {
      head, tail, len, hasFree, matcher := null, null, 0, false, None;
      nodes := [];
    }

    method RPush(node: ListNode?<T>) returns (r: ListNode?<T>)
      requires Valid() && node !in nodes
      modifies this, nodes, node
      ensures Valid() && r == node
      ensures nodes == if node == null then old(nodes) else old(nodes) + [node]
      ensures forall n: ListNode<T> :: n in nodes ==> n.val == old(n.val)
    {
      if node == null {
        return null;
      }
      if len != 0 {
        node.prev := tail;
        node.next := null;
        tail.next := node;
        tail := node;
      } else {
        tail := node;
        head := tail;
        node.next := null;
        node.prev := null;
      }
      len := len + 1;
      nodes := nodes + [node];
      r := node;
    }

    method LPush(node: ListNode?<T>) returns (r: ListNode?<T>)
      requires Valid() && node !in nodes
      modifies this, nodes, node
      ensures Valid() && r == node
      ensures nodes == if node == null then old(nodes) else [node] + old(nodes)
      ensures forall n: ListNode<T> :: n in nodes ==> n.val == old(n.val)
    {
      if node == null {
        return null;
      }
      if len != 0 {
        node.next := head;
        node.prev := null;
        head.prev := node;
        head := node;
      } else {
        tail := node;
        head := tail;
        node.next := null;
        node.prev := null;
      }
      len := len + 1;
      nodes := [node] + nodes;
      r := node;
    }

    method RPop() returns (node: ListNode?<T>)
      requires Valid()
      modifies this, nodes
      ensures Valid()
      ensures old(nodes) == [] ==> node == null && nodes == []
      ensures old(nodes) != [] ==>
        && node == old(nodes)[|old(nodes)| - 1] && nodes == old(nodes)[..|old(nodes)| - 1]
        && node.prev == node.next == null
      ensures forall n: ListNode<T> :: n in old(nodes) ==> n.val == old(n.val)
    {
      if len == 0 {
        return null;
      }
      node := tail;
      len := len - 1;
      if len != 0 {
        tail := node.prev;
        tail.next := null;
      } else {
        head := null;
        tail := null;
      }
      node.prev := null;
      node.next := null;
      nodes := nodes[..|nodes| - 1];
    }

    method LPop() returns (node: ListNode?<T>)
      requires Valid()
      modifies this, nodes
      ensures Valid()
      ensures old(nodes) == [] ==> node == null && nodes == []
      ensures old(nodes) != [] ==>
        node == old(nodes)[0] && nodes == old(nodes)[1..] && node.prev == node.next == null
      ensures forall n: ListNode<T> :: n in old(nodes) ==> n.val == old(n.val)
    {
      if len == 0 {
        return null;
      }
      node := head;
      len := len - 1;
      if len != 0 {
        head := node.next;
        head.prev := null;
      } else {
        tail := null;
        head := null;
      }
      node.prev := null;
      node.next := null;
      nodes := nodes[1..];
    }

    /** The pointer half of list_remove: the neighbours of node, or the list's ends, skip it. */
    method Unlink(node: ListNode<T>, ghost k: nat)
      requires Valid() && k < |nodes| && nodes[k] == node
      modifies this`head, this`tail, nodes
      ensures head == if k > 0 then nodes[0] else if |nodes| == 1 then null else nodes[1]
      ensures tail == if k < |nodes| - 1 then nodes[|nodes| - 1] else if k == 0 then null else nodes[k - 1]
      ensures forall i {:trigger nodes[i].next} :: 0 <= i < |nodes| && i != k ==>
        var j := if i + 1 == k then k + 1 else i + 1;
        nodes[i].next == if j == |nodes| then null else nodes[j]
      ensures forall i {:trigger nodes[i].prev} :: 0 <= i < |nodes| && i != k ==>
        var j := if i - 1 == k then k - 1 else i - 1;
        nodes[i].prev == if j == -1 then null else nodes[j]
      ensures forall i {:trigger nodes[i].val} :: 0 <= i < |nodes| ==> nodes[i].val == old(nodes[i].val)
    {
      if node.prev != null {
        node.prev.next := node.next;
      } else {
        head := node.next;
      }
      if node.next != null {
        node.next.prev := node.prev;
      } else {
        tail := node.prev;
      }
    }

    /** Unlinking and then leaving the node out of the sequence gives a list again. */
    method UnlinkAt(node: ListNode<T>, ghost k: nat)
      requires Valid() && k < |nodes| && nodes[k] == node
      modifies this, nodes
      ensures Valid() && nodes == Without(old(nodes), k)
      ensures hasFree == old(hasFree) && matcher == old(matcher)
      ensures forall n: ListNode<T> :: n in old(nodes) ==> n.val == old(n.val)
    {
      ghost var rest := Without(nodes, k);
      WithoutAt(nodes, k);
      hide Without;
      Unlink(node, k);
      len := len - 1;
      nodes := rest;
    }

    /** k is where node was; freed is what the free callback was given. */
    method Remove(node: ListNode<T>) returns (freed: seq<T>, ghost k: nat)
      requires Valid() && node in nodes
      modifies this, nodes
      ensures Valid()
      ensures k < |old(nodes)| && old(nodes)[k] == node
      ensures nodes == Without(old(nodes), k)
      ensures freed == if hasFree then [node.val] else []
      ensures hasFree == old(hasFree) && matcher == old(matcher)
      ensures forall n: ListNode<T> :: n in old(nodes) ==> n.val == old(n.val)
    {
      k :| 0 <= k < |nodes| && nodes[k] == node;
      freed := if hasFree then [node.val] else [];
      UnlinkAt(node, k);
    }

    /** Every node is released once, head first, its value handed to the free callback if there is one. */
    method Destroy() returns (freed: seq<T>, ghost released: seq<ListNode<T>>)
      requires Valid()
      ensures released == nodes
      ensures |freed| == if hasFree then |nodes| else 0
      ensures forall i :: 0 <= i < |freed| ==> freed[i] == nodes[i].val
    {
      var left := len;
      var curr := head;
      freed, released := [], [];
      while left > 0
        invariant 0 <= left <= |nodes| && released == nodes[..|nodes| - left]
        invariant curr == if left == 0 then null else nodes[|nodes| - left]
        invariant |freed| == if hasFree then |nodes| - left else 0
        invariant forall i :: 0 <= i < |freed| ==> freed[i] == nodes[i].val
      {
        left := left - 1;
        var next := curr.next;
        if hasFree {
          freed := freed + [curr.val];
        }
        released := released + [curr];
        curr := next;
      }
    }

    /** next and prev undo each other, and end at the two ends of the list. */
    lemma LinksInvert(node: ListNode<T>)
      requires Valid() && node in nodes
      ensures node.next == null <==> node == tail
      ensures node.prev == null <==> node == head
      ensures node.next != null ==> node.next in nodes && node.next.prev == node
      ensures node.prev != null ==> node.prev in nodes && node.prev.next == node
    {
      var i :| 0 <= i < |nodes| && nodes[i] == node;
      if i < |nodes| - 1 {
        assert nodes[i + 1].prev == nodes[i];
      }
      if i > 0 {
        assert nodes[i - 1].next == nodes[i];
      }
    }

    /** chain is what following next from the head meets, up to null. */
    ghost predicate FromHead(chain: seq<ListNode<T>>)
      reads this`head, chain
    {
      && head == (if chain == [] then null else chain[0])
      && forall j {:trigger chain[j].next} :: 0 <= j < |chain| ==>
           chain[j].next == if j == |chain| - 1 then null else chain[j + 1]
    }

    /** There is one such chain, and it is the list: the pointers alone determine the sequence. */
    lemma ChainIsNodes(chain: seq<ListNode<T>>)
      requires Valid()
      ensures FromHead(chain) <==> chain == nodes
    {
      if FromHead(chain) && chain != [] {
        ChainPrefix(chain, |chain| - 1);
        forall j: nat | j < |chain|
          ensures chain[j] == nodes[j]
        {
          ChainPrefix(chain, j);
        }
      }
    }

    lemma {:induction false} ChainPrefix(chain: seq<ListNode<T>>, i: nat)
      requires Valid() && FromHead(chain) && i < |chain|
      ensures i < |nodes| && chain[i] == nodes[i] && (i == |chain| - 1 ==> |nodes| == |chain|)
      decreases i
    {
      if i > 0 {
        ChainPrefix(chain, i - 1);
        assert chain[i - 1].next == chain[i] && nodes[i - 1].next == chain[i];
      }
      assert chain[i].next == nodes[i].next;
    }
  }
}
