/** The scheduler files as they are written: nodes relinked in place behind sentinels, a current
    process held outside the queues, and (custom) histories that alias process fields. The
    methods are proved against the transitions of Schedulers. */
module PointerScheduler {
  import opened Processes
  import opened ReadyQueue
  import opened Schedulers
  import opened LinkedQueue
  import opened QueueBank
  import opened HistoryList

  /** Every live process has a history that points at it, and no history points anywhere else. */
  ghost predicate Aliased(live: set<ProcessNode>, records: seq<HistoryNode>) {
    && (forall n :: n in live ==> exists k :: 0 <= k < |records| && records[k].process == n)
    && (forall k :: 0 <= k < |records| ==>
          var n := records[k].process;
          n != null && n in live && n.initial.pid == records[k].pid)
  }

  class Scheduler {
    const policy: Policy
    const bank: PriorityQueues
    const histories: ProcessHistories
    var current: ProcessNode?
    var level: nat
    ghost var model: State
    ghost var Repr: set<object>

    /** The processes handed over and not yet freed. */
    ghost function Live(): set<ProcessNode>
      reads `current, bank
    {
      bank.members + if current == null then {} else {current}
    }

    /** The current process is in none of the queues, whatever its own link still says. */
    ghost predicate Valid()
      reads this, Repr
    {
      && this in Repr
      && bank in Repr && bank.Repr <= Repr && this !in bank.Repr && bank.Valid()
      && histories in Repr && histories.Repr <= Repr && this !in histories.Repr && histories.Valid()
      && bank.Repr !! histories.Repr
      && (current != null ==> current in Repr && current !in bank.Repr && current !in histories.Repr)
      && |bank.queues| == QueueCount(policy) && level < |bank.queues|
      && model == State(bank.contents, if current == null then None else Some(current.Value()), level, histories.view)
      && (if policy.Custom? then Aliased(Live(), histories.records) else histories.sentinel == null)
    }

    constructor (policy: Policy)
      ensures Valid() && fresh(Repr) && this.policy == policy && model == Initial(policy)
    {
      var b := new PriorityQueues(QueueCount(policy));
      var hs := new ProcessHistories();
      this.policy, bank, histories, current, level := policy, b, hs, null, 0;
      model := Initial(policy);
      Repr := {this} + b.Repr + hs.Repr;
    }

    /** `add_to_ready_queue`. */
    method AddToReadyQueue(p: ProcessInitial)
      requires Valid() && (policy.Custom? ==> p.pid !in model.histories)
      modifies Repr
      ensures Valid() && fresh(Repr - old(Repr))
      ensures model == Add(policy, old(model), p)
    {
      hide Insert, Aliased, PriorityQueues.Valid, ProcessHistories.Valid;
      var n := new ProcessNode(p);
      if policy.Custom? {
        histories.Init(n);
      }
      bank.InsertSorted(n);
      model := Add(policy, model, p);
      Repr := Repr + {n} + histories.Repr;
      if policy.Custom? {
        AliasedAdd(old(Live()), old(histories.records), n, histories.records);
        assert Live() == old(Live()) + {n};
      }
    }

    // ----- steps of get_next_scheduled_process

    /** Takes the node behind prev out of queue i to become the current process. */
    method Take(i: nat, prev: ProcessNode, ghost k: nat)
      requires Valid() && current == null && i < |bank.queues| && k < |bank.queues[i].nodes|
      requires prev == bank.queues[i].Cells()[k]
      modifies Repr
      ensures Valid() && Repr == old(Repr) && current != null
      ensures k < |old(model).queues[i]|
      ensures model == old(model).(queues := old(model).queues[i := RemoveAt(old(model).queues[i], k)],
                                   current := Some(old(model).queues[i][k]), level := i)
    {
      hide Aliased, PriorityQueues.Valid, ProcessHistories.Valid, ProcessQueue.Valid;
      bank.Queue(i);
      current := bank.RemoveNext(i, prev, k);
      level := i;
      model := model.(queues := bank.contents, current := Some(current.Value()), level := i);
      assert Live() == old(Live());
    }

    /** Executes the current process for one unit of time. */
    method Serve()
      requires Valid() && current != null
      modifies Repr
      ensures Valid() && Repr == old(Repr) && current == old(current)
      ensures model == old(model).(current := Some(Served(old(model).current.value)))
    {
      hide Aliased, PriorityQueues.Valid, ProcessHistories.Valid;
      current.processedTime := current.processedTime + 1;
      current.quantumUsed := current.quantumUsed + 1;
      model := model.(current := Some(current.Value()));
    }

    /** Frees the current process, and its history with it. */
    method Finish()
      requires Valid() && current != null
      modifies Repr
      ensures Valid() && Repr == old(Repr)
      ensures model == old(model).(current := None, histories := if policy.Custom? then
                                     old(model).histories - {old(model).current.value.initial.pid} else old(model).histories)
    {
      hide Aliased, PriorityQueues.Valid, ProcessHistories.Valid;
      ghost var n := current;
      if policy.Custom? {
        SentinelThere(current);
        histories.Free(current.initial.pid);
        AliasedFree(old(Live()), old(histories.records), n, histories.records);
      }
      current := null;
      model := model.(current := None, histories := histories.view);
      assert Live() == old(Live()) - {n};
    }

    /** Puts the current process, with a new quantum, at the end of queue i. */
    method Requeue(i: nat)
      requires Valid() && current != null && i < |bank.queues|
      modifies Repr
      ensures Valid() && Repr == old(Repr) && histories.sentinel == old(histories.sentinel)
      ensures model == old(model).(current := None,
                queues := old(model).queues[i := old(model).queues[i] + [old(model).current.value.(quantumUsed := 0)]])
    {
      hide Aliased, PriorityQueues.Valid, ProcessHistories.Valid;
      current.quantumUsed := 0;
      bank.Append(i, current);
      current := null;
      model := model.(current := None, queues := bank.contents);
      assert Live() == old(Live());
    }

    // ----- get_next_scheduled_process, one version for each source file

    method NextFcfs() returns (pid: nat)
      requires Valid() && policy.Fcfs?
      modifies Repr
      ensures Valid() && Repr == old(Repr)
      ensures Slot(model, pid) == Schedulers.NextFcfs(old(model))
    {
      hide Aliased, PriorityQueues.Valid, ProcessHistories.Valid, ProcessQueue.Valid;
      bank.Queue(0);
      var q := bank.queues[0];
      var node, k := q.FindUnfinished();
      q.Follow(k);
      var next := node.next;
      if next == null {
        return 0;
      }
      pid := next.initial.pid;
      bank.ChargeAt(0, next, false, k);
      if next.processedTime == next.initial.processingTime {
        bank.Queue(0);
        var done := bank.RemoveNext(0, node, k);
      }
      model := model.(queues := bank.contents);
    }

    method NextRoundRobin() returns (pid: nat)
      requires Valid() && policy.RoundRobin?
      modifies Repr
      ensures Valid() && Repr == old(Repr)
      ensures Slot(model, pid) == Schedulers.NextRoundRobin(old(model))
    {
      hide Aliased, PriorityQueues.Valid, ProcessHistories.Valid, ProcessQueue.Valid;
      bank.Queue(0);
      var q := bank.queues[0];
      q.Follow(0);
      var first := q.head.next;
      if first == null {
        return 0;
      }
      pid := first.initial.pid;
      bank.ChargeAt(0, first, true, 0);
      bank.Queue(0);
      if first.processedTime == first.initial.processingTime {
        var done := bank.RemoveNext(0, q.head, 0);
      } else if first.quantumUsed == Quantum(RoundRobin, 0) {
        var moved := bank.RemoveNext(0, q.head, 0);
        bank.Append(0, moved);
      }
      model := model.(queues := bank.contents);
      RotationShape(old(model).queues[0], Served(old(model).queues[0][0]));
    }

    method SelectFeedback()
      requires Valid() && (policy.Constant? || policy.Exponential?)
      modifies Repr
      ensures Valid() && Repr == old(Repr)
      ensures model == Schedulers.SelectFeedback(old(model))
    {
      hide Aliased, PriorityQueues.Valid, ProcessHistories.Valid, ProcessQueue.Valid;
      if current == null {
        var i := 0;
        while i < |bank.queues|
          invariant i <= |bank.queues| && Valid() && model == old(model) && Repr == old(Repr) && current == null
          invariant FirstNonEmpty(model.queues, i) == FirstNonEmpty(model.queues, 0)
        {
          var q := bank.queues[i];
          bank.Queue(i);
          q.Follow(0);
          if q.head.next != null {
            Take(i, q.head, 0);
            assert RemoveAt(old(model).queues[i], 0) == old(model).queues[i][1..];
            return;
          }
          i := i + 1;
        }
      }
    }

    method NextFeedback() returns (pid: nat)
      requires Valid() && (policy.Constant? || policy.Exponential?)
      modifies Repr
      ensures Valid() && Repr == old(Repr)
      ensures Slot(model, pid) == Schedulers.NextFeedback(policy, old(model))
    {
      hide Aliased, PriorityQueues.Valid, ProcessHistories.Valid, Schedulers.SelectFeedback;
      SelectFeedback();
      if current == null {
        return 0;
      }
      Serve();
      pid := current.initial.pid;
      if current.processedTime == current.initial.processingTime {
        Finish();
      } else if current.quantumUsed == Quantum(policy, level) {
        Requeue(Min(level + 1, |bank.queues| - 1));
      }
    }

    /** `update_wait_times`. */
    method UpdateWaitTimes()
      requires Valid() && policy.Custom? && histories.sentinel != null
      modifies `model, histories.Repr
      ensures Valid() && histories.sentinel != null && histories.Repr == old(histories.Repr)
      ensures model == old(model).(histories := WaitAll(old(model).queues, old(model).histories, 0))
    {
      hide Aliased, PriorityQueues.Valid, ProcessHistories.Valid, ProcessQueue.Valid, WaitQueue;
      ghost var s := model;
      var i := 0;
      while i < |bank.queues|
        invariant i <= |bank.queues| && Valid() && histories.sentinel != null && histories.Repr == old(histories.Repr)
        invariant model == s.(histories := model.histories)
        invariant WaitAll(s.queues, model.histories, i) == WaitAll(s.queues, s.histories, 0)
      {
        WaitInQueue(i);
        i := i + 1;
      }
    }

    method WaitInQueue(i: nat)
      requires Valid() && policy.Custom? && histories.sentinel != null && i < |bank.queues|
      modifies `model, histories.Repr
      ensures Valid() && histories.sentinel != null && histories.Repr == old(histories.Repr)
      ensures model == old(model).(histories := WaitQueue(old(model).queues[i], old(model).histories, 0))
    {
      hide Aliased, PriorityQueues.Valid, ProcessHistories.Valid, ProcessQueue.Valid;
      ghost var s := model;
      bank.Queue(i);
      var q := bank.queues[i];
      q.Follow(0);
      var node := q.head;
      ghost var k := 0;
      while node.next != null
        invariant Valid() && histories.sentinel != null && histories.Repr == old(histories.Repr)
        invariant model == s.(histories := model.histories)
        invariant q.Valid() && q.contents == s.queues[i]
        invariant k <= |q.nodes| && node == q.Cells()[k] && node.next == if k < |q.nodes| then q.nodes[k] else null
        invariant WaitQueue(q.contents, model.histories, k) == WaitQueue(q.contents, s.histories, 0)
        decreases |q.nodes| - k
      {
        var next := node.next;
        q.Follow(k);
        histories.AddWait(next.initial.pid);
        model := model.(histories := histories.view);
        bank.Queue(i);
        node := next;
        k := k + 1;
        q.Follow(k);
      }
    }

    /** Recalculates the score of a queued process. */
    method ScoreOf(n: ProcessNode) returns (known: bool, score: Option<real>)
      requires Valid() && policy.Custom? && histories.sentinel != null && n in bank.members
      modifies `model, histories.Repr
      ensures Valid() && histories.sentinel != null && histories.Repr == old(histories.Repr)
      ensures known <==> n.initial.pid in old(model).histories
      ensures !known ==> model == old(model)
      ensures var h, pid := old(model).histories, n.initial.pid;
              known ==> score == Some(Score(h[pid], n.Value()))
                        && model == old(model).(histories := h[pid := h[pid].(score := score.value)])
    {
      hide Aliased, PriorityQueues.Valid, ProcessHistories.Valid, Score;
      AliasUnique(Live(), histories.records, n);
      known, score := histories.Rescore(n);
      model := model.(histories := histories.view);
    }

    /** The scan for the highest score. */
    method ScanSmartQueue() returns (best: ProcessNode?, ghost found: Option<nat>)
      requires Valid() && policy.Custom? && histories.sentinel != null && current == null
      modifies `model, histories.Repr
      ensures Valid() && histories.sentinel != null && histories.Repr == old(histories.Repr)
      ensures model == old(model).(histories := RecordScores(old(model).queues[1], old(model).histories, 0))
      ensures found == Scan(old(model).queues[1], old(model).histories, 0, None)
      ensures best == null <==> found.None?
      ensures found.Some? ==> found.value < |bank.queues[1].nodes| && best == bank.queues[1].nodes[found.value]
    {
      hide Aliased, PriorityQueues.Valid, ProcessHistories.Valid, ProcessQueue.Valid, Score, Live, Scanned;
      ghost var s := model;
      bank.Queue(1);
      var q := bank.queues[1];
      q.Follow(0);
      var bestScore := 0.0;
      var node := q.head.next;
      ghost var k := 0;
      best, found := null, None;
      ScannedStart(s.queues[1], s.histories);
      while node != null
        invariant Valid() && histories.sentinel != null && histories.Repr == old(histories.Repr)
        invariant model == s.(histories := model.histories)
        invariant k <= |q.nodes| && node == if k < |q.nodes| then q.nodes[k] else null
        invariant Scanned(s.queues[1], s.histories, model.histories, k, found, bestScore)
        invariant best == null <==> found.None?
        invariant found.Some? ==> found.value < k && best == q.nodes[found.value]
        decreases |q.nodes| - k
      {
        bank.Queue(1);
        q.Follow(k);
        ghost var h := model.histories;
        var known, score := ScoreOf(node);
        if !known {
          break;
        }
        ScannedStep(s.queues[1], s.histories, h, k, found, bestScore, score.value);
        if best == null || score.value > bestScore {
          best, bestScore, found := node, score.value, Some(k);
        }
        k := k + 1;
        bank.Queue(1);
        q.Follow(k);
        node := node.next;
      }
      bank.Queue(1);
      if node != null {
        q.Follow(k);
      }
      ScannedStop(s.queues[1], s.histories, model.histories, k, found, bestScore);
    }

    /** `select_best_process_from_smart_queue`, and the level it is taken from. */
    method SelectBest()
      requires Valid() && policy.Custom? && histories.sentinel != null && current == null
      requires model.queues[0] == [] && model.queues[1] != []
      modifies Repr
      ensures Valid() && Repr == old(Repr)
      ensures model == Schedulers.SelectCustom(old(model))
    {
      hide Aliased, PriorityQueues.Valid, ProcessHistories.Valid, ProcessQueue.Valid, Live, Scan, RecordScores;
      var best, found := ScanSmartQueue();
      level := 1;
      model := model.(level := 1);
      if best != null {
        bank.Queue(1);
        var prev := bank.queues[1].FindBefore(best, found.value);
        Take(1, prev, found.value);
        current.next := null;
      }
    }

    /** The sentinel of the histories is there as soon as there is a process. */
    lemma SentinelThere(n: ProcessNode)
      requires Valid() && policy.Custom? && n in Live()
      ensures histories.sentinel != null
    {
    }

    method SelectCustom()
      requires Valid() && policy.Custom?
      modifies Repr
      ensures Valid() && Repr == old(Repr)
      ensures model == Schedulers.SelectCustom(old(model))
    {
      hide Aliased, PriorityQueues.Valid, ProcessHistories.Valid, ProcessQueue.Valid, Scan, RecordScores;
      if current == null {
        bank.Queue(0);
        bank.Queue(1);
        bank.queues[0].Follow(0);
        bank.queues[1].Follow(0);
        var first := bank.queues[0].head.next;
        if first != null {
          SentinelThere(first);
          Take(0, bank.queues[0].head, 0);
          assert RemoveAt(old(model).queues[0], 0) == old(model).queues[0][1..];
        } else if bank.queues[1].head.next != null {
          SentinelThere(bank.queues[1].head.next);
          SelectBest();
        }
      }
    }

    method CountReschedule(pid: nat)
      requires Valid() && policy.Custom? && histories.sentinel != null
      modifies `model, histories.Repr
      ensures Valid() && histories.Repr == old(histories.Repr)
      ensures model == old(model).(histories := Rescheduled(old(model).histories, pid))
    {
      hide Aliased, PriorityQueues.Valid, ProcessHistories.Valid, Rescheduled;
      histories.AddReschedule(pid);
      model := model.(histories := histories.view);
    }

    method NextCustom() returns (pid: nat)
      requires Valid() && policy.Custom?
      modifies Repr
      ensures Valid() && Repr == old(Repr)
      ensures Slot(model, pid) == Schedulers.NextCustom(old(model))
    {
      hide Aliased, PriorityQueues.Valid, ProcessHistories.Valid, Schedulers.SelectCustom, Rescheduled, WaitAll;
      SelectCustom();
      if current == null {
        return 0;
      }
      SentinelThere(current);
      UpdateWaitTimes();
      Serve();
      pid := current.initial.pid;
      if current.processedTime == current.initial.processingTime {
        Finish();
      } else if current.quantumUsed >= (level + 1) * 2 {
        SentinelThere(current);
        Requeue(1);
        CountReschedule(pid);
      }
    }

    /** `get_next_scheduled_process`, from whichever file was compiled in. */
    method GetNextScheduledProcess() returns (pid: nat)
      requires Valid()
      modifies Repr
      ensures Valid() && Repr == old(Repr)
      ensures Slot(model, pid) == Next(policy, old(model))
    {
      hide Valid, Schedulers.NextFcfs, Schedulers.NextRoundRobin, Schedulers.NextFeedback, Schedulers.NextCustom;
      match policy {
        case Fcfs => pid := NextFcfs();
        case RoundRobin => pid := NextRoundRobin();
        case Constant => pid := NextFeedback();
        case Exponential => pid := NextFeedback();
        case Custom => pid := NextCustom();
      }
    }
  }

  ghost predicate SameButScores(h: map<nat, History>, h': map<nat, History>) {
    && h.Keys == h'.Keys
    && forall pid :: pid in h ==> h'[pid].(score := 0.0) == h[pid].(score := 0.0)
  }

  /** The first k processes of the smart queue have been scored, starting from histories h0. */
  ghost predicate Scanned(q: seq<Process>, h0: map<nat, History>, h: map<nat, History>, k: nat,
        found: Option<nat>, best: real)
  {
    && k <= |q|
    && SameButScores(h0, h)
    && (found.Some? ==>
          && found.value < k && q[found.value].initial.pid in h0
          && best == Score(h0[q[found.value].initial.pid], q[found.value]))
    && Scan(q, h0, k, found) == Scan(q, h0, 0, None)
    && RecordScores(q, h, k) == RecordScores(q, h0, 0)
  }

  lemma ScannedStart(q: seq<Process>, h: map<nat, History>)
    ensures Scanned(q, h, h, 0, None, 0.0)
  {
  }

  lemma ScannedStep(q: seq<Process>, h0: map<nat, History>, h: map<nat, History>, k: nat,
        found: Option<nat>, best: real, score: real)
    requires Scanned(q, h0, h, k, found, best) && k < |q| && q[k].initial.pid in h
    requires score == Score(h[q[k].initial.pid], q[k])
    ensures var pid := q[k].initial.pid;
            var better := found.None? || score > best;
            Scanned(q, h0, h[pid := h[pid].(score := score)], k + 1,
                    if better then Some(k) else found, if better then score else best)
  {
    assert Score(h0[q[k].initial.pid], q[k]) == score;
  }

  lemma ScannedStop(q: seq<Process>, h0: map<nat, History>, h: map<nat, History>, k: nat,
        found: Option<nat>, best: real)
    requires Scanned(q, h0, h, k, found, best) && (k == |q| || q[k].initial.pid !in h)
    ensures found == Scan(q, h0, 0, None) && h == RecordScores(q, h0, 0)
  {
  }

  /** The history found for a live process is the one that points at it. */
  lemma AliasUnique(live: set<ProcessNode>, records: seq<HistoryNode>, n: ProcessNode)
    requires Aliased(live, records) && DistinctPids(records) && n in live
    ensures forall i :: 0 <= i < |records| && records[i].pid == n.initial.pid ==> records[i].process == n
  {
    var k :| 0 <= k < |records| && records[k].process == n;
  }

  lemma RotationShape(q: seq<Process>, p: Process)
    requires q != []
    ensures RemoveAt(q[0 := p], 0) == q[1..] && q[0 := p] == [p] + q[1..]
  {
  }

  lemma AliasedFree(live: set<ProcessNode>, records: seq<HistoryNode>, n: ProcessNode, records': seq<HistoryNode>)
    requires Aliased(live, records) && DistinctPids(records) && n in live
    requires forall r :: r in records' <==> r in records && r.pid != n.initial.pid
    ensures Aliased(live - {n}, records')
  {
    var k :| 0 <= k < |records| && records[k].process == n;
    forall m | m in live - {n}
      ensures exists j :: 0 <= j < |records'| && records'[j].process == m
    {
      var i :| 0 <= i < |records| && records[i].process == m;
      assert records[i] in records';
    }
    forall j | 0 <= j < |records'|
      ensures records'[j].process != null && records'[j].process in live - {n}
      ensures records'[j].process.initial.pid == records'[j].pid
    {
      assert records'[j] in records;
      var i :| 0 <= i < |records| && records[i] == records'[j];
    }
  }

  lemma AliasedAdd(live: set<ProcessNode>, records: seq<HistoryNode>, n: ProcessNode, records': seq<HistoryNode>)
    requires Aliased(live, records) && |records'| == |records| + 1 && records'[1..] == records
    requires records'[0].process == n && records'[0].pid == n.initial.pid
    ensures Aliased(live + {n}, records')
  {
    assert forall k :: 0 <= k < |records| ==> records'[k + 1] == records[k];
  }
}
