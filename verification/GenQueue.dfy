/** The doubly linked queue of util_queue.c.  The ghost field `nodes` is the sequence it
    refines; `Valid` ties head, tail, links and count to it. */
module GenQueue {
  import opened Proposals

  class Node {
    var data: Proposal
    var prev: Node?
    var next: Node?

    /** gen_queue_node_new */
    constructor (data: Proposal)
      ensures this.data == data && prev == null && next == null
    {
      this.data := data;
      prev, next := null, null;
    }
  }

  /** Each node is linked to its neighbours.  That no node occurs twice follows. */
  ghost predicate Chain(ns: seq<Node>)
    reads ns
  {
    && (forall i {:trigger ns[i].prev} | 0 <= i < |ns| ::
      ns[i].prev == if i == 0 then null else ns[i - 1])
    && (forall i {:trigger ns[i].next} | 0 <= i < |ns| ::
      ns[i].next == if i == |ns| - 1 then null else ns[i + 1])
  }

  lemma {:induction false} OnlyOnce(ns: seq<Node>, i: nat, j: nat)
    requires Chain(ns) && i < j < |ns|
    ensures ns[i] != ns[j]
  {
    if ns[i] == ns[j] {
      assert ns[i].prev == ns[j].prev;
      if i > 0 {
        OnlyOnce(ns, i - 1, j - 1);
      }
    }
  }

  lemma NodesDiffer(ns: seq<Node>)
    requires Chain(ns)
    ensures forall i, j | 0 <= i < j < |ns| :: ns[i] != ns[j]
  {
    forall i, j | 0 <= i < j < |ns|
      ensures ns[i] != ns[j]
    {
      OnlyOnce(ns, i, j);
    }
  }

  lemma OthersRemain(ns: seq<Node>, k: nat, repr: set<Node>)
    requires Chain(ns) && k < |ns| && forall i | 0 <= i < |ns| :: ns[i] in repr
    ensures forall i | 0 <= i < |ns| - 1 :: RemoveAt(ns, k)[i] in repr - {ns[k]}
  {
    NodesDiffer(ns);
  }

  datatype QueueState = Active | NonActive | Cleared

  class Queue {
    var head: Node?
    var tail: Node?
    var nodeCnt: int
    var state: QueueState
    ghost var nodes: seq<Node>
    /** Who may be relinked: the nodes of this queue. */
    ghost var repr: set<Node>

    ghost predicate Valid()
      reads this, repr
    {
      && nodeCnt == |nodes|
      && (forall i | 0 <= i < |nodes| :: nodes[i] in repr)
      && head == (if nodes == [] then null else nodes[0])
      && tail == (if nodes == [] then null else nodes[|nodes| - 1])
      && Chain(nodes)
    }

    /** The records in queue order. */
    ghost function Contents(): (s: seq<Proposal>)
      requires Valid()
      reads this, repr
      ensures |s| == |nodes| && forall i | 0 <= i < |s| :: s[i] == nodes[i].data
    {
      seq(|nodes|, i requires 0 <= i < |nodes| && nodes[i] in repr reads this, repr => nodes[i].data)
    }

    /** calloc followed by gen_queue_init */
    constructor ()
      ensures Valid() && nodes == [] && repr == {} && state == Active
    {
      head, tail, nodeCnt, state, nodes, repr := null, null, 0, Active, [], {};
    }

    /** gen_queue_append */
    method Append(node: Node)
      requires Valid() && node !in repr
      modifies this`head, this`tail, this`nodeCnt, this`nodes, this`repr, node`prev, node`next, repr`next
      ensures Valid() && nodes == old(nodes) + [node]
      ensures Contents() == old(Contents()) + [node.data] && repr == old(repr) + {node}
    {
      NodesDiffer(nodes);
      if head == tail {
        if head == null {
          node.prev, node.next := null, null;
          head, tail := node, node;
        } else {
          node.prev, node.next := tail, null;
          head.next := node;
          tail := node;
        }
      } else {
        node.prev, node.next := tail, null;
        tail.next := node;
        tail := node;
      }
      nodeCnt := nodeCnt + 1;
      nodes, repr := nodes + [node], repr + {node};
    }

    /** gen_queue_remove of a node that is in the queue. */
    method Remove(node: Node, ghost k: nat)
      requires Valid() && k < |nodes| && nodes[k] == node
      modifies this`head, this`tail, this`nodeCnt, this`nodes, this`repr, repr`prev, repr`next
      ensures Valid() && nodes == RemoveAt(old(nodes), k) && Contents() == RemoveAt(old(Contents()), k)
      ensures repr == old(repr) - {node} && node.prev == null && node.next == null
    {
      OthersRemain(nodes, k, repr);
      ghost var rest := RemoveAt(nodes, k);
      Unlink(node, k);
      node.prev, node.next := null, null;
      assert Chain(rest);
      nodeCnt := nodeCnt - 1;
      nodes, repr := rest, repr - {node};
    }

    method Unlink(node: Node, ghost k: nat)
      requires Valid() && k < |nodes| && nodes[k] == node
      modifies this`head, this`tail, repr`prev, repr`next
      ensures var rest := RemoveAt(nodes, k);
        && Chain(rest)
        && head == (if rest == [] then null else rest[0])
        && tail == (if rest == [] then null else rest[|rest| - 1])
    {
      NodesDiffer(nodes);
      if head == tail {
        head, tail := null, null;
      } else if node == head {
        UnlinkHead();
      } else if node == tail {
        UnlinkTail();
      } else {
        Bypass(node, k);
      }
    }

    method UnlinkHead()
      requires Valid() && |nodes| > 1
      modifies this`head, repr`prev
      ensures head == nodes[1] && Chain(RemoveAt(nodes, 0))
    {
      NodesDiffer(nodes);
      head := head.next;
      head.prev := null;
      assert RemoveAt(nodes, 0) == nodes[1..];
    }

    method UnlinkTail()
      requires Valid() && |nodes| > 1
      modifies this`tail, repr`next
      ensures tail == nodes[|nodes| - 2] && Chain(RemoveAt(nodes, |nodes| - 1))
    {
      NodesDiffer(nodes);
      tail := tail.prev;
      tail.next := null;
      assert RemoveAt(nodes, |nodes| - 1) == nodes[..|nodes| - 1];
    }

    /** Links the neighbours of an inner node past it. */
    method Bypass(node: Node, ghost k: nat)
      requires Valid() && 0 < k < |nodes| - 1 && nodes[k] == node
      modifies repr`prev, repr`next
      ensures Chain(RemoveAt(nodes, k))
    {
      NodesDiffer(nodes);
      node.prev.next := node.next;
      node.next.prev := node.prev;
    }

    /** gen_queue_concat: an empty second queue leaves everything as it is. */
    method Concat(q: Queue)
      requires Valid() && q.Valid() && q != this && repr !! q.repr
      modifies this, q, repr`next, q.repr`prev
      ensures Valid() && nodes == old(nodes) + old(q.nodes)
      ensures q.Valid() && q.nodes == []
      ensures repr == old(repr) + old(q.repr) && q.repr == {}
      ensures state == (if old(q.nodes) == [] then old(state) else Active)
      ensures q.state == (if old(q.nodes) == [] then old(q.state) else NonActive)
    {
      if q.head == null {
        assert nodes + q.nodes == nodes;
        repr, q.repr := repr + q.repr, {};
        return;
      }
      ghost var all := Link(q);
      tail := q.tail;
      nodeCnt := nodeCnt + q.nodeCnt;
      state := Active;
      nodes, repr := all, repr + q.repr;
      q.head, q.tail, q.nodeCnt, q.state := null, null, 0, NonActive;
      q.nodes, q.repr := [], {};
    }

    /** Makes one chain of both queues. */
    method Link(q: Queue) returns (ghost all: seq<Node>)
      requires Valid() && q.Valid() && q.nodes != [] && q != this && repr !! q.repr
      modifies this`head, repr`next, q.repr`prev
      ensures all == nodes + q.nodes && Chain(all) && head == all[0]
      ensures forall i | 0 <= i < |all| :: all[i] in repr + q.repr
    {
      all := nodes + q.nodes;
      if head == tail {
        if head == null {
          AdoptHead(q);
        } else {
          Join(head, q);
        }
      } else {
        Join(tail, q);
      }
    }

    /** An empty queue takes over the nodes of `q`. */
    method AdoptHead(q: Queue)
      requires Valid() && q.Valid() && nodes == [] && q.nodes != []
      modifies this`head
      ensures head == q.nodes[0] && Chain(nodes + q.nodes)
    {
      head := q.head;
      assert Chain(q.nodes);
      assert nodes + q.nodes == q.nodes;
    }

    /** Links the last node to the first node of `q`. */
    method Join(last: Node, q: Queue)
      requires Valid() && q.Valid() && nodes != [] && q.nodes != [] && last == nodes[|nodes| - 1]
      requires repr !! q.repr
      modifies repr`next, q.repr`prev
      ensures Chain(nodes + q.nodes)
    {
      NodesDiffer(nodes);
      NodesDiffer(q.nodes);
      last.next := q.head;
      q.head.prev := last;
    }

    /** gen_queue_clear */
    method Clear()
      requires Valid()
      modifies this, repr`prev, repr`next
      ensures Valid() && nodes == [] && repr == {} && state == Cleared
    {
      var cur := head;
      while cur != null
        invariant Valid() && cur == head && repr <= old(repr)
        decreases |nodes|
      {
        var t := cur;
        cur := cur.next;
        Remove(t, 0);
      }
      nodeCnt, repr := 0, {};
      state := Cleared;
    }
  }
}
