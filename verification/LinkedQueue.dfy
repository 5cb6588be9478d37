/** The linked queues of the scheduler files: a sentinel whose `next` chain is relinked in place. */
module LinkedQueue {
  import opened Processes
  import opened ReadyQueue
  import opened Schedulers

  class ProcessNode {
    const initial: ProcessInitial
    var processedTime: nat
    var quantumUsed: nat
    var next: ProcessNode?

    constructor (p: ProcessInitial)
      ensures initial == p && processedTime == 0 && quantumUsed == 0 && next == null
    {
      initial, processedTime, quantumUsed, next := p, 0, 0, null;
    }

    ghost function Value(): Process
      reads this
    {
      Process(initial, processedTime, quantumUsed)
    }
  }

  /** What a list of nodes holds. */
  ghost function Values(nodes: seq<ProcessNode>): (q: seq<Process>)
    reads nodes
    ensures |q| == |nodes|
  {
    seq(|nodes|, i requires 0 <= i < |nodes| reads nodes => nodes[i].Value())
  }

  ghost function LinkOf(cells: seq<ProcessNode>, i: nat): ProcessNode? {
    if i + 1 < |cells| then cells[i + 1] else null
  }

  ghost predicate Unique(cells: seq<ProcessNode>) {
    forall i, j :: 0 <= i < j < |cells| ==> cells[i] != cells[j]
  }

  ghost predicate Linked(cells: seq<ProcessNode>)
    reads cells
  {
    forall i {:trigger cells[i].next} :: 0 <= i < |cells| ==> cells[i].next == LinkOf(cells, i)
  }

  /** Two assignments put n behind cell k of a chain. */
  lemma LinkedInsert(cells: seq<ProcessNode>, k: nat, n: ProcessNode)
    requires k < |cells| && cells[k].next == n && n.next == LinkOf(cells, k)
    requires forall i :: 0 <= i < |cells| && i != k ==> cells[i].next == LinkOf(cells, i)
    ensures Linked(cells[..k + 1] + [n] + cells[k + 1..])
  {
    var cells' := cells[..k + 1] + [n] + cells[k + 1..];
    forall i | 0 <= i < |cells'|
      ensures cells'[i].next == LinkOf(cells', i)
    {
      if i > k + 1 {
        assert cells'[i] == cells[i - 1];
      }
    }
  }

  /** One assignment takes the cell behind k out of it. */
  lemma LinkedRemove(cells: seq<ProcessNode>, k: nat)
    requires k + 1 < |cells| && cells[k].next == LinkOf(cells, k + 1)
    requires forall i :: 0 <= i < |cells| && i != k ==> cells[i].next == LinkOf(cells, i)
    ensures Linked(cells[..k + 1] + cells[k + 2..])
  {
    var cells' := cells[..k + 1] + cells[k + 2..];
    forall i | 0 <= i < |cells'|
      ensures cells'[i].next == LinkOf(cells', i)
    {
      assert cells'[i] == cells[if i <= k then i else i + 1];
    }
  }

  lemma InsertDistinct(cells: seq<ProcessNode>, k: nat, n: ProcessNode)
    requires k < |cells| && n !in cells
    requires Unique(cells)
    ensures Unique(cells[..k + 1] + [n] + cells[k + 1..])
  {
    var cells' := cells[..k + 1] + [n] + cells[k + 1..];
    forall i, j | 0 <= i < j < |cells'|
      ensures cells'[i] != cells'[j]
    {
      assert i != k + 1 ==> cells'[i] == cells[if i <= k then i else i - 1];
      assert j != k + 1 ==> cells'[j] == cells[if j <= k then j else j - 1];
    }
  }

  lemma RemoveDistinct(cells: seq<ProcessNode>, k: nat)
    requires k + 1 < |cells|
    requires Unique(cells)
    ensures Unique(cells[..k + 1] + cells[k + 2..])
    ensures cells[k + 1] !in cells[..k + 1] + cells[k + 2..]
  {
    var cells' := cells[..k + 1] + cells[k + 2..];
    forall i, j | 0 <= i < j < |cells'|
      ensures cells'[i] != cells'[j]
    {
      assert cells'[i] == cells[if i <= k then i else i + 1];
      assert cells'[j] == cells[if j <= k then j else j + 1];
    }
  }

  lemma ValuesInsert(nodes: seq<ProcessNode>, k: nat, n: ProcessNode)
    requires k <= |nodes|
    ensures Values(nodes[..k] + [n] + nodes[k..]) == InsertAt(Values(nodes), k, n.Value())
  {
  }

  lemma ValuesRemove(nodes: seq<ProcessNode>, k: nat)
    requires k < |nodes|
    ensures Values(RemoveAt(nodes, k)) == RemoveAt(Values(nodes), k)
  {
  }

  class ProcessQueue {
    const head: ProcessNode
    ghost var nodes: seq<ProcessNode>
    ghost var contents: seq<Process>
    ghost var Repr: set<object>

    /** The sentinel and what is linked behind it. */
    ghost function Cells(): seq<ProcessNode>
      reads this
    {
      [head] + nodes
    }

    /** The chain from the sentinel is acyclic, visits exactly `nodes` and holds `contents`. */
    ghost predicate Valid()
      reads this, Repr
      ensures Valid() ==> this in Repr && head in Repr && |contents| == |nodes|
      ensures Valid() ==> forall n :: n in nodes ==> n in Repr
    {
      && this in Repr
      && head in Repr
      && (forall n :: n in nodes ==> n in Repr)
      && Linked(Cells()) && Unique(Cells())
      && contents == Values(nodes)
    }

    constructor ()
      ensures Valid() && nodes == [] && contents == [] && fresh(Repr)
    {
      var sentinel := new ProcessNode(ProcessInitial(0, 0, 0));
      head := sentinel;
      nodes, contents := [], [];
      Repr := {this, sentinel};
    }

    /** `add_next`: link n behind end, which is the sentinel or a member of the queue. */
    method AddNext(end: ProcessNode, n: ProcessNode, ghost k: nat)
      requires Valid() && k <= |nodes| && end == Cells()[k] && n !in Repr
      modifies this, end`next, n`next
      ensures Valid() && Repr == old(Repr) + {n}
      ensures nodes == old(nodes)[..k] + [n] + old(nodes)[k..]
      ensures contents == InsertAt(old(contents), k, n.Value())
    {
      ghost var cells, before := Cells(), nodes;
      hide InsertAt;
      nodes := nodes[..k] + [n] + nodes[k..];
      contents := InsertAt(contents, k, n.Value());
      Repr := Repr + {n};
      assert Cells() == cells[..k + 1] + [n] + cells[k + 1..];
      n.next := end.next;
      end.next := n;
      assert contents == Values(nodes) by {
        hide Unique, Linked;
        assert Values(before) == old(contents);
        ValuesInsert(before, k, n);
      }
      assert Linked(Cells()) by {
        hide Values;
        LinkedInsert(cells, k, n);
      }
      assert Unique(Cells()) by {
        hide Values, Linked;
        InsertDistinct(cells, k, n);
      }
    }

    /** The two skip loops of `add_to_ready_queue`, and the link. */
    method InsertSorted(n: ProcessNode)
      requires Valid() && n !in Repr
      modifies this, Repr, n`next
      ensures Valid() && Repr == old(Repr) + {n}
      ensures var k := Position(old(contents), n.Value());
              nodes == old(nodes)[..k] + [n] + old(nodes)[k..]
      ensures contents == Insert(old(contents), n.Value())
      ensures n.Value() == old(n.Value())
    {
      var end := head;
      ghost var q, p := contents, n.Value();
      ghost var k := 0;
      while end.next != null && end.next.initial.arrivalTime < n.initial.arrivalTime
        invariant k <= |nodes| && end == Cells()[k]
        invariant SkipEarlier(q, p, k) == SkipEarlier(q, p, 0)
        decreases |nodes| - k
      {
        end := end.next;
        k := k + 1;
      }
      ghost var k0 := k;
      while end.next != null && end.next.initial.arrivalTime == n.initial.arrivalTime && end.next.initial.pid < n.initial.pid
        invariant k0 <= k <= |nodes| && end == Cells()[k]
        invariant SkipSameTick(q, p, k) == SkipSameTick(q, p, k0)
        decreases |nodes| - k
      {
        end := end.next;
        k := k + 1;
      }
      AddNext(end, n, k);
    }

    /** Finds the end of the list and links n there. */
    method Append(n: ProcessNode)
      requires Valid() && n !in Repr
      modifies this, Repr, n`next
      ensures Valid() && Repr == old(Repr) + {n}
      ensures nodes == old(nodes) + [n]
      ensures contents == old(contents) + [n.Value()] && n.Value() == old(n.Value())
    {
      var end := head;
      ghost var k := 0;
      while end.next != null
        invariant k <= |nodes| && end == Cells()[k]
        decreases |nodes| - k
      {
        end := end.next;
        k := k + 1;
      }
      AddNext(end, n, k);
    }

    /** The link of cell k leads to the node at position k, which holds the k-th process. */
    lemma Follow(k: nat)
      requires Valid() && k <= |nodes|
      ensures Cells()[k].next == if k < |nodes| then nodes[k] else null
      ensures k < |nodes| ==> nodes[k].Value() == contents[k]
    {
    }

    /** The scan of `fcfs.c` for a process that needs more time, and the node in front of it. */
    method FindUnfinished() returns (node: ProcessNode, ghost k: nat)
      requires Valid()
      ensures k == FirstUnfinished(contents, 0) && node == Cells()[k]
    {
      node := head;
      k := 0;
      Follow(0);
      while node.next != null && node.next.processedTime >= node.next.initial.processingTime
        invariant k <= |nodes| && node == Cells()[k]
        invariant FirstUnfinished(contents, k) == FirstUnfinished(contents, 0)
        decreases |nodes| - k
      {
        Follow(k);
        node := node.next;
        k := k + 1;
      }
      Follow(k);
    }

    /** The node in front of a member. */
    method FindBefore(n: ProcessNode, ghost k: nat) returns (prev: ProcessNode)
      requires Valid() && k < |nodes| && n == nodes[k]
      ensures prev == Cells()[k]
    {
      prev := head;
      ghost var j := 0;
      UniqueTail(head, nodes);
      Follow(0);
      while prev.next != n
        invariant j <= k && prev == Cells()[j] && prev.next == nodes[j]
        decreases k - j
      {
        prev := prev.next;
        j := j + 1;
        Follow(j);
      }
    }

    /** `remove_next` of a node that has one: its own link is left as it was. */
    method RemoveNext(prev: ProcessNode, ghost k: nat) returns (n: ProcessNode)
      requires Valid() && k < |nodes| && prev == Cells()[k]
      modifies this, prev`next
      ensures Valid() && n == old(nodes)[k] && nodes == RemoveAt(old(nodes), k)
      ensures n in old(Repr) && Repr == old(Repr) - {n}
      ensures contents == RemoveAt(old(contents), k) && n.Value() == old(contents)[k]
    {
      ghost var cells, before := Cells(), nodes;
      n := prev.next;
      assert n == nodes[k] == cells[k + 1];
      nodes := RemoveAt(nodes, k);
      contents := RemoveAt(contents, k);
      Repr := Repr - {n};
      assert Cells() == cells[..k + 1] + cells[k + 2..];
      prev.next := n.next;
      assert contents == Values(nodes) && n.Value() == old(contents)[k] by {
        hide Unique, Linked;
        assert Values(before) == old(contents);
        ValuesRemove(before, k);
      }
      assert Linked(Cells()) by {
        hide Values;
        LinkedRemove(cells, k);
      }
      assert Unique(Cells()) && n !in Cells() by {
        hide Values, Linked;
        RemoveDistinct(cells, k);
      }
      RemoveMembers(before, k);
    }

    /** One unit of service to the node at position k, where it stands. */
    method ChargeAt(n: ProcessNode, countQuantum: bool, ghost k: nat)
      requires Valid() && k < |nodes| && n == nodes[k]
      modifies this`contents, n`processedTime, n`quantumUsed
      ensures Valid()
      ensures contents == old(contents)[k := if countQuantum then Served(old(contents)[k])
                                             else old(contents)[k].(processedTime := old(contents)[k].processedTime + 1)]
      ensures n.Value() == contents[k]
    {
      ghost var cells, before, p := Cells(), contents, n.Value();
      contents := contents[k := if countQuantum then Served(p) else p.(processedTime := p.processedTime + 1)];
      UniqueTail(head, nodes);
      n.processedTime := n.processedTime + 1;
      if countQuantum {
        n.quantumUsed := n.quantumUsed + 1;
      }
      assert Linked(Cells()) by {
        hide Values, Unique;
      }
      assert contents == Values(nodes) by {
        hide Linked, Unique;
        assert forall i :: 0 <= i < |nodes| && i != k ==> nodes[i].Value() == before[i];
      }
    }
  }

  lemma UniqueTail(head: ProcessNode, nodes: seq<ProcessNode>)
    requires Unique([head] + nodes)
    ensures forall i, j :: 0 <= i < |nodes| && 0 <= j < |nodes| && i != j ==> nodes[i] != nodes[j]
  {
    var cells := [head] + nodes;
    forall i, j | 0 <= i < |nodes| && 0 <= j < |nodes| && i != j
      ensures nodes[i] != nodes[j]
    {
      assert nodes[i] == cells[i + 1] && nodes[j] == cells[j + 1];
    }
  }

  lemma RemoveMembers<T>(q: seq<T>, k: nat)
    requires k < |q|
    ensures forall x :: x in q <==> x in RemoveAt(q, k) || x == q[k]
  {
    assert q == q[..k] + [q[k]] + q[k + 1..];
  }
}
