/** The array of sentinels a scheduler file declares, as one structure: several linked queues
    that share no node. */
module QueueBank {
  import opened Processes
  import opened ReadyQueue
  import opened Schedulers
  import opened LinkedQueue

  class PriorityQueues {
    const queues: seq<ProcessQueue>
    ghost var contents: seq<seq<Process>>
    ghost var members: set<ProcessNode>
    ghost var Repr: set<object>

    ghost predicate Valid()
      reads this, Repr
      ensures Valid() ==> this in Repr && |contents| == |queues| && members <= Repr
    {
      && this in Repr && |contents| == |queues| && members <= Repr
      && (forall i :: 0 <= i < |queues| ==>
            && queues[i] in Repr && queues[i].Repr <= Repr && this !in queues[i].Repr
            && queues[i].Valid() && contents[i] == queues[i].contents)
      && (forall i, j :: 0 <= i < j < |queues| ==> queues[i].Repr !! queues[j].Repr)
      && (forall i, n :: 0 <= i < |queues| && n in queues[i].nodes ==> n in members)
      && (forall n :: n in members ==> exists i :: 0 <= i < |queues| && n in queues[i].nodes)
    }

    constructor (count: nat)
      ensures Valid() && fresh(Repr) && contents == seq(count, _ => []) && members == {}
    {
      var qs: seq<ProcessQueue> := [];
      ghost var repr: set<object> := {};
      while |qs| < count
        invariant |qs| <= count && fresh(repr)
        invariant forall i :: 0 <= i < |qs| ==>
                    qs[i] in repr && qs[i].Repr <= repr && qs[i].Valid() && qs[i].nodes == [] && qs[i].contents == []
        invariant forall i, j :: 0 <= i < j < |qs| ==> qs[i].Repr !! qs[j].Repr
      {
        var q := new ProcessQueue();
        qs := qs + [q];
        repr := repr + q.Repr;
      }
      queues, contents, members := qs, seq(count, _ => []), {};
      Repr := {this} + repr;
    }

    lemma Queue(i: nat)
      requires Valid() && i < |queues|
      ensures queues[i] in Repr && queues[i].Repr <= Repr && this !in queues[i].Repr && queues[i].Valid()
      ensures contents[i] == queues[i].contents
      ensures forall n :: n in queues[i].nodes ==> n in members
    {
    }

    /** `remove_next` in queue i. */
    method RemoveNext(i: nat, prev: ProcessNode, ghost k: nat) returns (n: ProcessNode)
      requires Valid() && i < |queues| && k < |queues[i].nodes| && prev == queues[i].Cells()[k]
      modifies this, queues[i], prev`next
      ensures Valid() && n == old(queues[i].nodes[k]) && n in old(members) && n !in Repr
      ensures Repr == old(Repr) - {n} && members == old(members) - {n}
      ensures k < |old(contents)[i]| && n.Value() == old(contents)[i][k]
      ensures contents == old(contents)[i := RemoveAt(old(contents)[i], k)]
    {
      hide ProcessQueue.Valid;
      n := queues[i].RemoveNext(prev, k);
      contents := contents[i := RemoveAt(contents[i], k)];
      members := members - {n};
      Repr := Repr - {n};
    }

    /** Links a node that is in no queue at the end of queue i. */
    method Append(i: nat, n: ProcessNode)
      requires Valid() && i < |queues| && n !in Repr
      modifies Repr, n`next
      ensures Valid() && Repr == old(Repr) + {n} && members == old(members) + {n}
      ensures n.Value() == old(n.Value())
      ensures contents == old(contents)[i := old(contents)[i] + [n.Value()]]
    {
      hide ProcessQueue.Valid;
      members := members + {n};
      Repr := Repr + {n};
      queues[i].Append(n);
      contents := contents[i := queues[i].contents];
      Placed(i, n, old(queues[i].nodes), |old(queues[i].nodes)|);
    }

    lemma Placed(i: nat, n: ProcessNode, before: seq<ProcessNode>, k: nat)
      requires i < |queues| && k <= |before| && queues[i].nodes == before[..k] + [n] + before[k..]
      ensures forall m :: m in queues[i].nodes <==> m == n || m in before
    {
      assert before == before[..k] + before[k..];
    }

    /** The insertion of a new process into the first queue. */
    method InsertSorted(n: ProcessNode)
      requires Valid() && queues != [] && n !in Repr
      modifies Repr, n`next
      ensures Valid() && Repr == old(Repr) + {n} && members == old(members) + {n}
      ensures n.Value() == old(n.Value())
      ensures contents == old(contents)[0 := Insert(old(contents)[0], n.Value())]
    {
      hide ProcessQueue.Valid, Insert;
      members := members + {n};
      Repr := Repr + {n};
      queues[0].InsertSorted(n);
      contents := contents[0 := queues[0].contents];
      Placed(0, n, old(queues[0].nodes), Position(old(queues[0].contents), n.Value()));
    }

    /** One unit of service to a node where it is queued. */
    method ChargeAt(i: nat, n: ProcessNode, countQuantum: bool, ghost k: nat)
      requires Valid() && i < |queues| && k < |queues[i].nodes| && n == queues[i].nodes[k]
      modifies this`contents, queues`contents, n`processedTime, n`quantumUsed
      ensures Valid() && k < |old(contents)[i]|
      ensures var p := old(contents)[i][k];
              contents == old(contents)[i := old(contents)[i][k := if countQuantum then Served(p)
                                                                   else p.(processedTime := p.processedTime + 1)]]
      ensures n.Value() == contents[i][k]
    {
      hide ProcessQueue.Valid;
      queues[i].ChargeAt(n, countQuantum, k);
      contents := contents[i := queues[i].contents];
    }
  }
}
