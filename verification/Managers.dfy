/** The oldest-record scan shared by both managers, and the execution manager that drains its
    queue through it. */
module Managers {
  import opened Proposals
  import opened GenQueue

  /** LM_get_oldest_record and EM_get_oldest_record: one pass with a moving cursor.  An empty
      or inactive queue yields no record. */
  method GetOldestRecord(q: Queue) returns (oldest: Node?, time: nat, ghost k: nat)
    requires q.Valid()
    ensures oldest == null <==> q.nodes == [] || q.state != Active
    ensures oldest != null ==>
      k < |q.nodes| && oldest == q.nodes[k] && IsFirstOldest(q.Contents(), k) && time == oldest.data.time
  {
    k, time := 0, 0;
    if q.nodeCnt == 0 || q.state != Active {
      return null, 0, 0;
    }
    var cur := q.head;
    oldest := q.head;
    ghost var s, i := q.Contents(), 0;
    while cur != null
      invariant q.nodes != [] && i < |q.nodes| && k <= i
      invariant cur == q.nodes[i] && oldest == q.nodes[k]
      invariant IsFirstOldest(s[..i + 1], k)
      decreases |q.nodes| - i
    {
      if cur.next == null {
        break;
      }
      var next := cur.next;
      ExtendOldest(s, i, k);
      if oldest.data.time > next.data.time {
        oldest, k := next, i + 1;
      } else if oldest.data.time == next.data.time {
        if oldest.data.pid > next.data.pid {
          oldest, k := next, i + 1;
        }
      }
      cur, i := next, i + 1;
    }
    time := oldest.data.time;
    assert s[..i + 1] == s;
  }

  /** What a turn adds to the log and takes from the queue leaves their drained sum alone. */
  lemma TurnKeepsSum(log: seq<Proposal>, s: seq<Proposal>, k: nat)
    requires IsFirstOldest(s, k)
    ensures log + [s[k]] + Drain(RemoveAt(s, k)) == log + Drain(s)
  {
    DrainTakes(s, k);
  }

  class ExecutionManager {
    const queue: Queue
    /** What the execute callback has been called on, in order. */
    var executed: seq<Proposal>

    constructor ()
      ensures fresh(queue) && queue.Valid() && queue.nodes == [] && queue.repr == {}
      ensures queue.state == Active
      ensures executed == []
    {
      queue := new Queue();
      executed := [];
    }

    /** One turn of the drain. */
    method ExecuteOldest() returns (ghost k: nat)
      requires queue.Valid() && queue.state == Active && queue.nodes != []
      modifies this`executed, queue`head, queue`tail, queue`nodeCnt, queue`nodes, queue`repr
      modifies queue.repr`prev, queue.repr`next
      ensures queue.Valid() && queue.repr <= old(queue.repr)
      ensures IsFirstOldest(old(queue.Contents()), k)
      ensures executed == old(executed) + [old(queue.Contents())[k]]
      ensures queue.Contents() == RemoveAt(old(queue.Contents()), k)
    {
      var oldest, t;
      oldest, t, k := GetOldestRecord(queue);
      executed := executed + [oldest.data];
      queue.Remove(oldest, k);
    }

    /** EM_execute_all drains the queue; each node is unlinked after its record ran. */
    method ExecuteAll()
      requires queue.Valid() && queue.state == Active
      modifies this`executed, queue`head, queue`tail, queue`nodeCnt, queue`nodes, queue`repr
      modifies queue.repr`prev, queue.repr`next
      ensures queue.Valid() && queue.nodes == [] && queue.repr <= old(queue.repr)
      ensures executed == old(executed) + Drain(old(queue.Contents()))
    {
      while queue.head != null
        invariant queue.Valid() && queue.state == Active && queue.repr <= old(queue.repr)
        invariant executed + Drain(queue.Contents()) == old(executed) + Drain(old(queue.Contents()))
        decreases |queue.nodes|
      {
        ghost var log, before := executed, queue.Contents();
        ghost var k := ExecuteOldest();
        TurnKeepsSum(log, before, k);
      }
      assert queue.Contents() == [];
    }
  }
}
