/** The doubly linked list that keeps track of the allocated ops. */
module MemTracker {
  import opened IouTypes

  class Node {
    var allocatedOp: Addr
    var next: Node?
    var prev: Node?

    constructor (a: Addr)
      ensures allocatedOp == a && next == null && prev == null
    {
      allocatedOp, next, prev := a, null, null;
    }
  }

  class Tracker {
    var head: Node?
    var tail: Node?
    ghost var nodes: seq<Node>

    // The two chains run through `nodes`, in both directions, without sharing.
    ghost predicate Valid()
      reads this, nodes
    {
      && (forall i, j :: 0 <= i < j < |nodes| ==> nodes[i] != nodes[j])
      && head == (if nodes == [] then null else nodes[0])
      && tail == (if nodes == [] then null else nodes[|nodes| - 1])
      && (forall i {:trigger nodes[i].prev} :: 0 <= i < |nodes| ==>
            nodes[i].prev == if i == 0 then null else nodes[i - 1])
      && (forall i {:trigger nodes[i].next} :: 0 <= i < |nodes| ==>
            nodes[i].next == if i == |nodes| - 1 then null else nodes[i + 1])
    }

    // mem_t_create
    constructor ()
      ensures Valid() && nodes == []
    {
      head, tail := null, null;
      nodes := [];
    }

    // mem_t_push_back
    method PushBack(node: Node)
      requires Valid() && node !in nodes
      modifies this, nodes, node`next, node`prev
      ensures Valid() && nodes == old(nodes) + [node]
      ensures forall n :: n in nodes ==> n.allocatedOp == old(n.allocatedOp)
    {
      if head == null {
        head, tail := node, node;
        node.next, node.prev := null, null;
      } else {
        node.prev := tail;
        node.next := null;
        tail.next := node;
        tail := node;
      }
      nodes := nodes + [node];
    }

    // mem_t_remove_node, on the node at any position
    method RemoveNode(node: Node, ghost k: nat)
      requires Valid() && k < |nodes| && nodes[k] == node
      modifies this, nodes
      ensures Valid() && nodes == old(nodes)[..k] + old(nodes)[k + 1..]
      ensures node.next == null && node.prev == null
      ensures forall n :: n in old(nodes) ==> n.allocatedOp == old(n.allocatedOp)
    {
      if node.next != null {
        node.next.prev := node.prev;
      }
      if node.prev != null {
        node.prev.next := node.next;
      }
      if node == head {
        head := node.next;
      }
      if node == tail {
        tail := node.prev;
      }
      node.next, node.prev := null, null;
      nodes := nodes[..k] + nodes[k + 1..];
    }
  }
}
