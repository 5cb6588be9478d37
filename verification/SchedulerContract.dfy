/** One contract for all five policies: a scheduler is a work-conserving bank of jobs that
    serves exactly one of them per call, unless it holds none. */
module SchedulerContract {
  import opened Processes
  import opened ReadyQueue
  import opened Schedulers

  /** One job gave way to what is left of it after a unit of service. */
  ghost predicate Exchanges(before: multiset<Job>, after: multiset<Job>, j: Job) {
    j in before && after + multiset{j} == before + AfterService(j)
  }

  /** What a call of Next promises, whatever the policy. */
  ghost predicate ServesOne(policy: Policy, s: State)
    requires |s.queues| == QueueCount(policy)
  {
    var slot := Next(policy, s);
    && Shape(policy, slot.state)
    && match Chosen(policy, s)
       case None => Held(s) == multiset{} && slot == Slot(s, 0)
       case Some(p) =>
         && slot.pid == p.initial.pid
         && Exchanges(Held(s), Held(slot.state), JobOf(p))
  }

  lemma Cancel(a: multiset<Job>, b: multiset<Job>, c: multiset<Job>)
    requires a + c == b + c
    ensures a == b
  {
    assert (a + c) - c == a && (b + c) - c == b;
  }

  lemma Shuffle(a: multiset<Job>, b: multiset<Job>, c: multiset<Job>)
    ensures (a + b) + c == (a + c) + b
    ensures (a + b) + c == a + (b + c)
    ensures a + b == b + a
  {
  }

  lemma QueueMember(s: State, i: nat, p: Process)
    requires i < |s.queues| && p in s.queues[i]
    ensures JobOf(p) in Held(s)
  {
    MemberJob(s.queues, i, p);
  }

  lemma SingleQueue(q: seq<Process>)
    ensures JobsIn([q]) == Jobs(q)
  {
    assert [q][1..] == [];
  }

  lemma {:induction false} HeadUnfinished(q: seq<Process>)
    requires forall p :: p in q ==> Unfinished(JobOf(p))
    ensures FirstUnfinished(q, 0) == 0
  {
    if q != [] {
      assert q[0] in q;
    }
  }

  lemma ReplaceJob(q: seq<Process>, k: nat, p: Process)
    requires k < |q|
    ensures Jobs(q[k := p]) + multiset{JobOf(q[k])} == Jobs(q) + multiset{JobOf(p)}
  {
    JobsSplit(q, k);
    var q' := q[k := p];
    JobsSplit(q', k);
    assert q'[..k] == q[..k] && q'[k + 1..] == q[k + 1..];
  }

  lemma RemoveJob(q: seq<Process>, k: nat)
    requires k < |q|
    ensures Jobs(RemoveAt(q, k)) + multiset{JobOf(q[k])} == Jobs(q)
  {
    JobsSplit(q, k);
    JobsAppend(q[..k], q[k + 1..]);
  }

  lemma PushJob(q: seq<Process>, p: Process)
    ensures Jobs(q + [p]) == Jobs(q) + multiset{JobOf(p)}
  {
    JobsAppend(q, [p]);
    JobsSingleton(p);
  }

  /** The single-queue policies: what is left is the served job's replacement. */
  lemma SingleQueueServes(s: State, e: State, q': seq<Process>, p: Process)
    requires |s.queues| == 1 && s.current.None? && e == s.(queues := [q'])
    requires p in s.queues[0]
    requires Jobs(q') + multiset{JobOf(p)} == Jobs(s.queues[0]) + AfterService(JobOf(p))
    ensures Exchanges(Held(s), Held(e), JobOf(p))
  {
    QueueMember(s, 0, p);
    SingleQueue(q');
    SingleQueue(s.queues[0]);
    assert s.queues == [s.queues[0]];
  }

  lemma EmptyHolds(s: State)
    requires |s.queues| == 1 && s.queues[0] == [] && s.current.None?
    ensures Held(s) == multiset{}
  {
    NoJobs(s.queues);
  }

  lemma FcfsHead(s: State)
    requires Shape(Fcfs, s) && AllUnfinished(Held(s))
    ensures FirstUnfinished(s.queues[0], 0) == 0
    ensures s.queues[0] == [] ==> Held(s) == multiset{}
  {
    forall p | p in s.queues[0]
      ensures Unfinished(JobOf(p))
    {
      QueueMember(s, 0, p);
    }
    HeadUnfinished(s.queues[0]);
    if s.queues[0] == [] {
      EmptyHolds(s);
    }
  }

  lemma HeadServed(q: seq<Process>, p: Process)
    requires q != [] && p.initial == q[0].initial && p.processedTime == q[0].processedTime + 1
    ensures Jobs(if Done(p) then RemoveAt(q, 0) else q[0 := p]) + multiset{JobOf(q[0])}
         == Jobs(q) + AfterService(JobOf(q[0]))
  {
    if Done(p) {
      RemoveJob(q, 0);
    } else {
      ReplaceJob(q, 0, p);
    }
  }

  lemma ServesFcfs(s: State)
    requires Shape(Fcfs, s) && AllUnfinished(Held(s))
    ensures ServesOne(Fcfs, s)
  {
    hide Held, Exchanges, Jobs, AllUnfinished, AfterService;
    FcfsHead(s);
    var q := s.queues[0];
    if q != [] {
      var p := q[0].(processedTime := q[0].processedTime + 1);
      var q' := if Done(p) then RemoveAt(q, 0) else q[0 := p];
      HeadServed(q, p);
      SingleQueueServes(s, s.(queues := [q']), q', q[0]);
      assert NextFcfs(s) == Slot(s.(queues := [q']), p.initial.pid);
    }
  }

  function RoundRobinQueue(q: seq<Process>): seq<Process>
    requires q != []
  {
    NextRoundRobin(State([q], None, 0, map[])).state.queues[0]
  }

  lemma RotationServed(q: seq<Process>)
    requires q != []
    ensures Jobs(RoundRobinQueue(q)) + multiset{JobOf(q[0])} == Jobs(q) + AfterService(JobOf(q[0]))
  {
    hide Jobs;
    var p := Served(q[0]);
    RemoveJob(q, 0);
    assert RemoveAt(q, 0) == q[1..];
    if !Done(p) {
      if p.quantumUsed == Quantum(RoundRobin, 0) {
        PushJob(q[1..], p);
        Shuffle(Jobs(q[1..]), multiset{JobOf(p)}, multiset{JobOf(q[0])});
      } else {
        ReplaceJob(q, 0, p);
        assert q[0 := p] == [p] + q[1..];
      }
    }
  }

  lemma ServesRoundRobin(s: State)
    requires Shape(RoundRobin, s)
    ensures ServesOne(RoundRobin, s)
  {
    hide Held, Exchanges, Jobs, AfterService;
    var q := s.queues[0];
    if q == [] {
      EmptyHolds(s);
    } else {
      RotationServed(q);
      SingleQueueServes(s, s.(queues := [RoundRobinQueue(q)]), RoundRobinQueue(q), q[0]);
    }
  }

  lemma TakeAlgebra(after: multiset<Job>, before: multiset<Job>, q: multiset<Job>, rest: multiset<Job>,
          j: multiset<Job>)
    requires after + q == before + rest && rest + j == q
    ensures after + j == before
  {
    Shuffle(after, j, rest);
    Cancel(after + j, before, rest);
  }

  /** Taking a process out of queue k to become the current one loses nothing. */
  lemma TakeHolds(s: State, d: State, k: nat, i: nat)
    requires s.current.None? && k < |s.queues| && i < |s.queues[k]|
    requires d.queues == s.queues[k := RemoveAt(s.queues[k], i)] && d.current == Some(s.queues[k][i])
    ensures Held(d) == Held(s)
  {
    var q := s.queues[k];
    RemoveJob(q, i);
    JobsInUpdate(s.queues, k, RemoveAt(q, i));
    TakeAlgebra(JobsIn(d.queues), JobsIn(s.queues), Jobs(q), Jobs(RemoveAt(q, i)), CurrentJob(d));
  }

  lemma SelectFeedbackHolds(s: State)
    requires s.queues != []
    ensures Held(SelectFeedback(s)) == Held(s)
    ensures SelectFeedback(s).current.None? ==> Held(s) == multiset{} && SelectFeedback(s) == s
  {
    var k := FirstNonEmpty(s.queues, 0);
    if s.current.None? {
      if k == |s.queues| {
        NoJobs(s.queues);
      } else {
        assert RemoveAt(s.queues[k], 0) == s.queues[k][1..];
        TakeHolds(s, SelectFeedback(s), k, 0);
      }
    }
  }

  lemma PushHolds(queues: seq<seq<Process>>, k: nat, p: Process)
    requires k < |queues|
    ensures JobsIn(queues[k := queues[k] + [p]]) == JobsIn(queues) + multiset{JobOf(p)}
  {
    hide Jobs, JobsIn;
    var q := queues[k];
    PushJob(q, p);
    JobsInUpdate(queues, k, q + [p]);
    Shuffle(JobsIn(queues), multiset{JobOf(p)}, Jobs(q));
    Cancel(JobsIn(queues[k := q + [p]]), JobsIn(queues) + multiset{JobOf(p)}, Jobs(q));
  }

  /** Putting the current process at the end of queue k loses nothing. */
  lemma RequeueHolds(d: State, e: State, k: nat, p: Process)
    requires d.current == Some(p) && k < |d.queues| && !Done(Served(p))
    requires e.queues == d.queues[k := d.queues[k] + [Served(p).(quantumUsed := 0)]] && e.current.None?
    ensures Exchanges(Held(d), Held(e), JobOf(p))
  {
    var p' := Served(p).(quantumUsed := 0);
    PushHolds(d.queues, k, p');
    Shuffle(JobsIn(d.queues), multiset{JobOf(p')}, CurrentJob(d));
  }

  lemma FinishHolds(d: State, e: State, p: Process)
    requires d.current == Some(p) && e.queues == d.queues && e.current.None? && Done(Served(p))
    ensures Exchanges(Held(d), Held(e), JobOf(p))
  {
  }

  lemma ContinueHolds(d: State, e: State, p: Process)
    requires d.current == Some(p) && e.queues == d.queues && e.current == Some(Served(p)) && !Done(Served(p))
    ensures Exchanges(Held(d), Held(e), JobOf(p))
  {
    Shuffle(JobsIn(d.queues), CurrentJob(d), CurrentJob(e));
  }

  lemma ServesFeedback(policy: Policy, s: State)
    requires policy.Constant? || policy.Exponential?
    requires Shape(policy, s)
    ensures ServesOne(policy, s)
  {
    hide Held, Exchanges;
    SelectFeedbackHolds(s);
    var d := SelectFeedback(s);
    if d.current.Some? {
      var p := Served(d.current.value);
      var e := NextFeedback(policy, s).state;
      if Done(p) {
        FinishHolds(d, e, d.current.value);
      } else if p.quantumUsed == Quantum(policy, d.level) {
        RequeueHolds(d, e, Min(d.level + 1, |d.queues| - 1), d.current.value);
      } else {
        ContinueHolds(d, e, d.current.value);
      }
    }
  }

  /** The scan finds a process when every member of the queue has a history. */
  lemma {:induction false} ScanFinds(q: seq<Process>, h: map<nat, History>, k: nat, best: Option<nat>)
    requires k <= |q|
    requires best.Some? ==> best.value < k && q[best.value].initial.pid in h
    requires forall i :: 0 <= i < |q| ==> q[i].initial.pid in h
    requires best.Some? || k < |q|
    ensures Scan(q, h, k, best).Some?
    decreases |q| - k
  {
    if k < |q| {
      if best.None? || Score(h[q[k].initial.pid], q[k]) > Score(h[q[best.value].initial.pid], q[best.value]) {
        ScanFinds(q, h, k + 1, Some(k));
      } else {
        ScanFinds(q, h, k + 1, best);
      }
    }
  }

  lemma HistoryPresent(s: State, i: nat, p: Process)
    requires HistoriesMatch(Custom, s) && i < |s.queues| && p in s.queues[i]
    ensures p.initial.pid in s.histories
  {
    QueueMember(s, i, p);
    assert HasPid(Held(s), p.initial.pid);
  }

  lemma SmartScanFinds(s: State)
    requires Shape(Custom, s) && HistoriesMatch(Custom, s) && s.queues[1] != []
    ensures Scan(s.queues[1], s.histories, 0, None).Some?
  {
    var q := s.queues[1];
    forall i | 0 <= i < |q|
      ensures q[i].initial.pid in s.histories
    {
      HistoryPresent(s, 1, q[i]);
    }
    ScanFinds(q, s.histories, 0, None);
  }

  lemma SelectCustomHolds(s: State)
    requires Shape(Custom, s) && HistoriesMatch(Custom, s)
    ensures Held(SelectCustom(s)) == Held(s)
    ensures SelectCustom(s).histories.Keys == s.histories.Keys
    ensures SelectCustom(s).current.None? ==> Held(s) == multiset{} && SelectCustom(s) == s
  {
    if s.current.None? {
      if s.queues[0] != [] {
        assert RemoveAt(s.queues[0], 0) == s.queues[0][1..];
        TakeHolds(s, SelectCustom(s), 0, 0);
      } else if s.queues[1] != [] {
        SmartScanFinds(s);
        TakeHolds(s, SelectCustom(s), 1, Scan(s.queues[1], s.histories, 0, None).value);
      } else {
        NoJobs(s.queues);
      }
    }
  }

  lemma ServesCustom(s: State)
    requires Shape(Custom, s) && HistoriesMatch(Custom, s)
    ensures ServesOne(Custom, s)
  {
    hide Held, Exchanges;
    SelectCustomHolds(s);
    var d := SelectCustom(s);
    if d.current.Some? {
      var p := Served(d.current.value);
      var e := NextCustom(s).state;
      if Done(p) {
        FinishHolds(d, e, d.current.value);
      } else if p.quantumUsed >= Quantum(Custom, d.level) {
        RequeueHolds(d, e, 1, d.current.value);
      } else {
        ContinueHolds(d, e, d.current.value);
      }
    }
  }

  /** Serving one of a set of distinct jobs: who is left, by PID. */
  lemma ServedJobs(before: multiset<Job>, after: multiset<Job>, j: Job)
    requires AllUnfinished(before) && Distinct(before) && Exchanges(before, after, j)
    ensures AllUnfinished(after) && Distinct(after)
    ensures forall pid :: HasPid(after, pid) <==>
              HasPid(before, pid) && (pid == j.initial.pid ==> j.processedTime + 1 < j.initial.processingTime)
  {
    ExchangedMembers(before, after, j);
    forall pid
      ensures HasPid(after, pid) <==>
              HasPid(before, pid) && (pid == j.initial.pid ==> j.processedTime + 1 < j.initial.processingTime)
    {
      if pid == j.initial.pid {
        assert HasPid(before, pid);
        if j.processedTime + 1 < j.initial.processingTime {
          assert j.(processedTime := j.processedTime + 1) in after;
        }
      } else if HasPid(before, pid) {
        var k :| k in before && k.initial.pid == pid;
        assert k in after;
      }
    }
  }

  lemma ExchangedMembers(before: multiset<Job>, after: multiset<Job>, j: Job)
    requires AllUnfinished(before) && Distinct(before) && Exchanges(before, after, j)
    ensures forall k :: k in after <==> (k in before && k != j) || k in AfterService(j)
    ensures AllUnfinished(after) && Distinct(after)
  {
    var rest := before - multiset{j};
    WithoutOne(before, after, j);
    assert forall k :: k in rest <==> k in before && k != j;
  }

  lemma WithoutOne(before: multiset<Job>, after: multiset<Job>, j: Job)
    requires Exchanges(before, after, j)
    ensures after == (before - multiset{j}) + AfterService(j)
  {
    var rest := before - multiset{j};
    assert before == rest + multiset{j};
    Shuffle(rest, multiset{j}, AfterService(j));
    Cancel(after, rest + AfterService(j), multiset{j});
  }

  lemma HeldPid(jobs: multiset<Job>, j: Job)
    requires j in jobs
    ensures HasPid(jobs, j.initial.pid)
  {
  }

  lemma CustomHistoriesKept(s: State)
    requires Ready(Custom, s) && ServesOne(Custom, s)
    ensures HistoriesMatch(Custom, NextCustom(s).state)
  {
    hide Held, HasPid;
    SelectCustomHolds(s);
    var d := SelectCustom(s);
    if d.current.Some? {
      var p := d.current.value;
      ServedJobs(Held(s), Held(NextCustom(s).state), JobOf(p));
      HeldPid(Held(s), JobOf(p));
    }
  }

  /** The contract of `get_next_scheduled_process`. */
  lemma NextContract(policy: Policy, s: State)
    requires Ready(policy, s)
    ensures ServesOne(policy, s) && Ready(policy, Next(policy, s).state)
  {
    match policy {
      case Fcfs => ServesFcfs(s);
      case RoundRobin => ServesRoundRobin(s);
      case Constant => ServesFeedback(policy, s);
      case Exponential => ServesFeedback(policy, s);
      case Custom => ServesCustom(s); CustomHistoriesKept(s);
    }
    if Chosen(policy, s).Some? {
      ServedJobs(Held(s), Held(Next(policy, s).state), JobOf(Chosen(policy, s).value));
    }
  }

  lemma AddHolds(policy: Policy, s: State, p: ProcessInitial)
    requires s.queues != []
    ensures Held(Add(policy, s, p)) == Held(s) + multiset{Job(p, 0)}
  {
    var s' := Add(policy, s, p);
    var q := s.queues[0];
    InsertJobs(q, NewProcess(p));
    JobsInUpdate(s.queues, 0, Insert(q, NewProcess(p)));
    Shuffle(JobsIn(s.queues), multiset{Job(p, 0)}, Jobs(q));
    Cancel(JobsIn(s'.queues), JobsIn(s.queues) + multiset{Job(p, 0)}, Jobs(q));
    Shuffle(JobsIn(s.queues), multiset{Job(p, 0)}, CurrentJob(s));
  }

  lemma AddedJob(before: multiset<Job>, after: multiset<Job>, p: ProcessInitial)
    requires after == before + multiset{Job(p, 0)}
    requires AllUnfinished(before) && Distinct(before) && p.processingTime > 0 && !HasPid(before, p.pid)
    ensures AllUnfinished(after) && Distinct(after)
    ensures forall pid :: HasPid(after, pid) <==> HasPid(before, pid) || pid == p.pid
  {
    assert Job(p, 0) !in before;
    forall pid
      ensures HasPid(after, pid) <==> HasPid(before, pid) || pid == p.pid
    {
      assert Job(p, 0) in after;
      if HasPid(before, pid) {
        var k :| k in before && k.initial.pid == pid;
        assert k in after;
      }
    }
  }

  /** The contract of `add_to_ready_queue`. */
  lemma AddContract(policy: Policy, s: State, p: ProcessInitial)
    requires Ready(policy, s) && p.processingTime > 0 && !HasPid(Held(s), p.pid)
    ensures Ready(policy, Add(policy, s, p))
    ensures Held(Add(policy, s, p)) == Held(s) + multiset{Job(p, 0)}
  {
    hide Held, HasPid, AllUnfinished, Distinct;
    AddHolds(policy, s, p);
    AddedJob(Held(s), Held(Add(policy, s, p)), p);
  }

  lemma InitialReady(policy: Policy)
    ensures Ready(policy, Initial(policy)) && Held(Initial(policy)) == multiset{}
  {
    NoJobs(Initial(policy).queues);
  }
}
