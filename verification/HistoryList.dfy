/** The per-PID histories of `custom.c`: a linked list behind a sentinel that is allocated on
    first use, whose entries point at the processes they describe. */
module HistoryList {
  import opened Processes
  import opened Schedulers
  import opened LinkedQueue

  class HistoryNode {
    const pid: nat
    const process: ProcessNode?  // stands for the pointer to its processed_time
    var waitTime: nat
    var rescheduleCount: nat
    var score: real
    var next: HistoryNode?

    constructor (pid: nat, process: ProcessNode?)
      ensures this.pid == pid && this.process == process
      ensures Value() == History(0, 0, 0.0) && next == null
    {
      this.pid, this.process := pid, process;
      waitTime, rescheduleCount, score, next := 0, 0, 0.0, null;
    }

    ghost function Value(): History
      reads this
    {
      History(waitTime, rescheduleCount, score)
    }

    /** `calculate_new_score`, before the score is stored; None stands for -DBL_MAX. */
    method CalculateNewScore(process: ProcessNode) returns (r: Option<real>)
      ensures r.Some? <==> this.process != null
      ensures this.process == process ==> r == Some(Score(Value(), process.Value()))
    {
      if this.process == null {
        return None;
      }
      var waiting := (waitTime + 1) as real;
      var running := (this.process.processedTime + 1) as real;
      var penalty := (rescheduleCount + 1) as real;
      var left := if process.processedTime <= process.initial.processingTime
                  then process.initial.processingTime - process.processedTime else 0;
      var progress := (process.initial.processingTime + 1) as real / (left + 1) as real;
      return Some(waiting / running + progress * 1.2 - penalty * 0.5);
    }
  }

  /** The histories by PID; for a repeated PID the entry nearest the sentinel is the one found. */
  ghost function HistoriesOf(records: seq<HistoryNode>): map<nat, History>
    reads records
  {
    if records == [] then map[] else HistoriesOf(records[1..])[records[0].pid := records[0].Value()]
  }

  ghost predicate DistinctPids(records: seq<HistoryNode>) {
    forall i, j :: 0 <= i < j < |records| ==> records[i].pid != records[j].pid
  }

  ghost function RecordAt(records: seq<HistoryNode>, i: nat): HistoryNode? {
    if i < |records| then records[i] else null
  }

  ghost predicate RecordsLinked(records: seq<HistoryNode>)
    reads records
  {
    forall i {:trigger records[i].next} :: 0 <= i < |records| ==> records[i].next == RecordAt(records, i + 1)
  }

  lemma {:induction false} HistoryAt(records: seq<HistoryNode>, i: nat)
    requires DistinctPids(records) && i < |records|
    ensures records[i].pid in HistoriesOf(records) && HistoriesOf(records)[records[i].pid] == records[i].Value()
  {
    if i > 0 {
      assert records[1..][i - 1] == records[i];
      HistoryAt(records[1..], i - 1);
    }
  }

  lemma {:induction false} HistoryKeys(records: seq<HistoryNode>, pid: nat)
    ensures pid in HistoriesOf(records) <==> exists i :: 0 <= i < |records| && records[i].pid == pid
  {
    if records != [] {
      HistoryKeys(records[1..], pid);
      if i :| 0 <= i < |records[1..]| && records[1..][i].pid == pid {
        assert records[i + 1].pid == pid;
      }
      if i :| 0 <= i < |records| && records[i].pid == pid {
        assert i == 0 || records[1..][i - 1].pid == pid;
      }
    }
  }

  ghost function Pids(records: seq<HistoryNode>): set<nat> {
    set r | r in records :: r.pid
  }

  /** The map h says what the records say, entry by entry. */
  ghost predicate Shows(records: seq<HistoryNode>, h: map<nat, History>)
    reads records
  {
    && h.Keys == Pids(records)
    && (forall i :: 0 <= i < |records| ==> records[i].pid in h && h[records[i].pid] == records[i].Value())
  }

  lemma HistoriesAre(records: seq<HistoryNode>, h: map<nat, History>)
    requires DistinctPids(records) && Shows(records, h)
    ensures HistoriesOf(records) == h
  {
    forall pid
      ensures pid in HistoriesOf(records) <==> pid in h
      ensures pid in h ==> HistoriesOf(records)[pid] == h[pid]
    {
      HistoryKeys(records, pid);
      if pid in h {
        assert pid in Pids(records);
        var i :| 0 <= i < |records| && records[i].pid == pid;
        HistoryAt(records, i);
      }
    }
  }

  lemma HistoriesShown(records: seq<HistoryNode>)
    requires DistinctPids(records)
    ensures Shows(records, HistoriesOf(records))
  {
    forall i | 0 <= i < |records|
      ensures records[i].pid in HistoriesOf(records) && HistoriesOf(records)[records[i].pid] == records[i].Value()
    {
      HistoryAt(records, i);
    }
    forall pid
      ensures pid in HistoriesOf(records) <==> pid in Pids(records)
    {
      HistoryKeys(records, pid);
    }
  }

  lemma NotAmong(records: seq<HistoryNode>, pid: nat)
    requires pid !in HistoriesOf(records)
    ensures forall i :: 0 <= i < |records| ==> records[i].pid != pid
  {
    HistoryKeys(records, pid);
  }

  lemma FreshPid(records: seq<HistoryNode>, r: HistoryNode)
    requires DistinctPids(records) && forall i :: 0 <= i < |records| ==> records[i].pid != r.pid
    ensures DistinctPids([r] + records)
  {
  }

  lemma OthersDiffer(records: seq<HistoryNode>, k: nat)
    requires DistinctPids(records) && k < |records|
    ensures forall i :: 0 <= i < |records| && i != k ==> records[i].pid != records[k].pid
  {
  }

  lemma HistoriesPush(r: HistoryNode, records: seq<HistoryNode>)
    ensures HistoriesOf([r] + records) == HistoriesOf(records)[r.pid := r.Value()]
  {
    assert ([r] + records)[1..] == records;
  }

  class ProcessHistories {
    var sentinel: HistoryNode?
    ghost var records: seq<HistoryNode>
    ghost var view: map<nat, History>
    ghost var Repr: set<object>

    ghost predicate Valid()
      reads this, Repr
      ensures Valid() ==> this in Repr && DistinctPids(records) && (sentinel != null ==> sentinel in Repr)
      ensures Valid() ==> sentinel == null ==> records == []
    {
      && this in Repr
      && (forall r :: r in records ==> r in Repr)
      && (if sentinel == null then records == []
          else sentinel in Repr && sentinel !in records && sentinel.next == RecordAt(records, 0))
      && RecordsLinked(records)
      && DistinctPids(records)
      && view == HistoriesOf(records)
    }

    constructor ()
      ensures Valid() && records == [] && view == map[] && sentinel == null && fresh(Repr)
    {
      sentinel, records, view, Repr := null, [], map[], {this};
    }

    /** Links a record behind the sentinel. */
    method LinkFirst(r: HistoryNode)
      requires Valid() && sentinel != null && r !in Repr && DistinctPids([r] + records)
      modifies this, sentinel`next, r`next
      ensures Valid() && Repr == old(Repr) + {r} && sentinel == old(sentinel)
      ensures records == [r] + old(records) && view == old(view)[r.pid := r.Value()]
    {
      hide HistoriesOf, DistinctPids;
      ghost var before := records;
      records := [r] + before;
      view := view[r.pid := r.Value()];
      Repr := Repr + {r};
      r.next := sentinel.next;
      sentinel.next := r;
      assert RecordsLinked(records);
      assert view == HistoriesOf(records) by {
        hide RecordsLinked;
        assert HistoriesOf(before) == old(view);
        HistoriesPush(r, before);
      }
    }

    /** `init_process_history`. */
    method Init(process: ProcessNode)
      requires Valid() && process.initial.pid !in view
      modifies Repr
      ensures Valid() && fresh(Repr - old(Repr)) && sentinel != null
      ensures |records| == |old(records)| + 1 && records[1..] == old(records)
      ensures records[0].process == process && records[0].pid == process.initial.pid
      ensures view == old(view)[process.initial.pid := History(0, 0, 0.0)]
    {
      hide HistoriesOf, DistinctPids;
      NotAmong(records, process.initial.pid);
      if sentinel == null {
        sentinel := new HistoryNode(0, null);
        Repr := Repr + {sentinel};
      }
      var r := new HistoryNode(process.initial.pid, process);
      FreshPid(records, r);
      LinkFirst(r);
    }

    /** `get_process_history`: the code reads the sentinel's link, so there has to be one. */
    method Get(pid: nat) returns (history: HistoryNode?, ghost k: nat)
      requires Valid() && sentinel != null
      ensures history == null <==> pid !in view
      ensures history != null ==> k < |records| && history == records[k] && history.pid == pid && view[pid] == history.Value()
    {
      history := sentinel.next;
      k := 0;
      while history != null
        invariant k <= |records| && history == RecordAt(records, k)
        invariant forall i :: 0 <= i < k ==> records[i].pid != pid
        decreases |records| - k
      {
        if history.pid == pid {
          HistoryAt(records, k);
          return;
        }
        history := history.next;
        k := k + 1;
      }
      HistoryKeys(records, pid);
    }

    /** The sentinel or the record in front of position k. */
    ghost function Before(k: nat): HistoryNode
      requires sentinel != null && k <= |records|
      reads this
    {
      if k == 0 then sentinel else records[k - 1]
    }

    /** Takes the record behind prev out of the list. */
    method Unlink(prev: HistoryNode, current: HistoryNode, ghost k: nat)
      requires Valid() && sentinel != null && k < |records| && prev == Before(k) && current == records[k]
      modifies this`records, this`view, prev`next
      ensures Valid() && sentinel != null && Repr == old(Repr)
      ensures view == old(view) - {current.pid}
      ensures forall r :: r in records <==> r in old(records) && r.pid != current.pid
    {
      hide HistoriesOf, DistinctPids, RemoveAt, Pids;
      ghost var before := records;
      HistoriesShown(records);
      if k > 0 {
        OthersDiffer(records, k - 1);
      }
      RemovedEntries(before, RemoveAt(before, k), k);
      records := RemoveAt(records, k);
      view := view - {current.pid};
      prev.next := current.next;
      assert RecordsLinked(records) && sentinel.next == RecordAt(records, 0) by {
        hide Shows;
        LinkedWithout(before, k, prev);
      }
      assert DistinctPids(records) && view == HistoriesOf(records) by {
        hide RecordsLinked;
        RemovedView(before, records, k, old(view));
      }
    }

    /** `free_process_history`. */
    method Free(pid: nat)
      requires Valid() && sentinel != null
      modifies Repr
      ensures Valid() && sentinel != null && Repr == old(Repr)
      ensures view == old(view) - {pid}
      ensures forall r :: r in records <==> r in old(records) && r.pid != pid
    {
      var prev := sentinel;
      var current := sentinel.next;
      ghost var k := 0;
      hide DistinctPids, HistoriesOf;
      while current != null
        invariant k <= |records| && prev == Before(k) && current == RecordAt(records, k)
        invariant forall i :: 0 <= i < k ==> records[i].pid != pid
        decreases |records| - k
      {
        if current.pid == pid {
          Unlink(prev, current, k);
          return;
        }
        prev := current;
        current := current.next;
        k := k + 1;
      }
      HistoryKeys(records, pid);
      assert view - {pid} == view;
    }

    /** Rewrites the record at position k. */
    method Update(history: HistoryNode, value: History, ghost k: nat)
      requires Valid() && k < |records| && history == records[k]
      modifies this`view, history`waitTime, history`rescheduleCount, history`score
      ensures Valid() && view == old(view)[history.pid := value]
    {
      hide HistoriesOf, DistinctPids;
      HistoriesShown(records);
      OthersDiffer(records, k);
      view := view[history.pid := value];
      history.waitTime, history.rescheduleCount, history.score := value.waitTime, value.rescheduleCount, value.score;
      assert view == HistoriesOf(records) by {
        hide RecordsLinked;
        ViewUpdated(records, k, old(view));
      }
      assert RecordsLinked(records);
    }

    /** One step of `update_wait_times`: find the history, and count the tick if there is one. */
    method AddWait(pid: nat)
      requires Valid() && sentinel != null
      modifies Repr
      ensures Valid() && Repr == old(Repr) && records == old(records) && sentinel == old(sentinel)
      ensures view == if pid in old(view) then old(view)[pid := Waited(old(view)[pid])] else old(view)
    {
      var history, k := Get(pid);
      if history != null {
        Update(history, History(history.waitTime + 1, history.rescheduleCount, history.score), k);
      }
    }

    /** Counts a reschedule of the process with that PID. */
    method AddReschedule(pid: nat)
      requires Valid() && sentinel != null
      modifies Repr
      ensures Valid() && Repr == old(Repr) && records == old(records) && sentinel == old(sentinel)
      ensures view == Rescheduled(old(view), pid)
    {
      var history, k := Get(pid);
      if history != null {
        Update(history, History(history.waitTime, history.rescheduleCount + 1, history.score), k);
      }
    }

    /** Finds the history of a process and recalculates its score. */
    method Rescore(process: ProcessNode) returns (found: bool, score: Option<real>)
      requires Valid() && sentinel != null
      requires forall i :: 0 <= i < |records| && records[i].pid == process.initial.pid ==> records[i].process == process
      modifies Repr
      ensures Valid() && Repr == old(Repr) && records == old(records) && sentinel == old(sentinel)
      ensures (found <==> process.initial.pid in old(view))
      ensures !found ==> view == old(view)
      ensures var pid := process.initial.pid;
              found ==> && score == Some(Score(old(view)[pid], process.Value()))
                        && view == old(view)[pid := old(view)[pid].(score := score.value)]
    {
      hide Score;
      var history, k := Get(process.initial.pid);
      found, score := history != null, None;
      if history != null {
        score := history.CalculateNewScore(process);
        if score.Some? {
          Update(history, History(history.waitTime, history.rescheduleCount, score.value), k);
        }
      }
    }
  }

  /** Changing what one record says changes the view at its PID. */
  lemma ViewUpdated(records: seq<HistoryNode>, k: nat, h: map<nat, History>)
    requires DistinctPids(records) && k < |records| && h.Keys == Pids(records)
    requires forall i :: 0 <= i < |records| ==> records[i].pid in h
    requires forall i :: 0 <= i < |records| && i != k ==> h[records[i].pid] == records[i].Value()
    ensures HistoriesOf(records) == h[records[k].pid := records[k].Value()]
  {
    HistoriesAre(records, h[records[k].pid := records[k].Value()]);
  }

  /** One assignment takes record k out of the chain. */
  lemma LinkedWithout(records: seq<HistoryNode>, k: nat, prev: HistoryNode)
    requires k < |records| && prev.next == RecordAt(records, k + 1)
    requires k > 0 ==> prev == records[k - 1]
    requires forall i :: 0 <= i < |records| && i + 1 != k ==> records[i].next == RecordAt(records, i + 1)
    ensures RecordsLinked(RemoveAt(records, k))
    ensures RecordAt(RemoveAt(records, k), 0) == if k == 0 then prev.next else records[0]
  {
    var records' := RemoveAt(records, k);
    forall i | 0 <= i < |records'|
      ensures records'[i].next == RecordAt(records', i + 1)
    {
      assert records'[i] == records[if i < k then i else i + 1];
    }
  }

  lemma RemovedEntries(records: seq<HistoryNode>, records': seq<HistoryNode>, k: nat)
    requires DistinctPids(records) && k < |records| && records' == RemoveAt(records, k)
    ensures DistinctPids(records')
    ensures forall r :: r in records' <==> r in records && r.pid != records[k].pid
  {
    assert forall i :: 0 <= i < |records'| ==> records'[i] == records[if i < k then i else i + 1];
    forall i | 0 <= i < |records| && i != k
      ensures records[i] in records'
    {
      assert records[i] == records'[if i < k then i else i - 1];
    }
  }

  lemma RemovedView(records: seq<HistoryNode>, records': seq<HistoryNode>, k: nat, h: map<nat, History>)
    requires DistinctPids(records) && k < |records| && records' == RemoveAt(records, k)
    requires Shows(records, h)
    ensures DistinctPids(records') && HistoriesOf(records') == h - {records[k].pid}
  {
    hide DistinctPids, RemoveAt;
    RemovedEntries(records, records', k);
    forall i | 0 <= i < |records'|
      ensures records'[i] in records && records'[i].pid != records[k].pid
    {
      assert records'[i] in records';
    }
    assert Pids(records') == Pids(records) - {records[k].pid};
    HistoriesAre(records', h - {records[k].pid});
  }
}
