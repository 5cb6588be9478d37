/** The histories of the custom scheduler: they account for every tick of a process's life, and
    they tie where a process is queued to how often it has been rescheduled. */
module CustomRuns {
  import opened Processes
  import opened ReadyQueue
  import opened Schedulers
  import opened SchedulerContract
  import opened Simulation
  import opened OrderIndependence
  import opened WholeRuns

  // ----- how often a PID is queued

  function CountPid(q: seq<Process>, pid: nat): nat {
    if q == [] then 0 else (if q[0].initial.pid == pid then 1 else 0) + CountPid(q[1..], pid)
  }

  function CountIn(queues: seq<seq<Process>>, pid: nat): nat {
    if queues == [] then 0 else CountPid(queues[0], pid) + CountIn(queues[1..], pid)
  }

  lemma DistinctParts(a: multiset<Job>, b: multiset<Job>)
    requires Distinct(a + b)
    ensures Distinct(a) && Distinct(b)
    ensures forall pid :: !(HasPid(a, pid) && HasPid(b, pid))
  {
    forall j | j in a
      ensures a[j] == 1 && b[j] == 0
    {
      assert j in a + b;
    }
    forall j | j in b
      ensures b[j] == 1
    {
      assert j in a + b;
    }
    forall j, k | j in a && k in b
      ensures j.initial.pid != k.initial.pid
    {
      assert j in a + b && k in a + b;
    }
  }

  lemma SingletonPid(j: Job)
    ensures forall pid :: HasPid(multiset{j}, pid) <==> pid == j.initial.pid
  {
    assert j in multiset{j};
  }

  lemma EitherHas(a: multiset<Job>, b: multiset<Job>)
    ensures forall pid :: HasPid(a + b, pid) <==> HasPid(a, pid) || HasPid(b, pid)
  {
    forall pid
      ensures HasPid(a + b, pid) <==> HasPid(a, pid) || HasPid(b, pid)
    {
      if HasPid(a, pid) {
        var j :| j in a && j.initial.pid == pid;
        assert j in a + b;
      }
      if HasPid(b, pid) {
        var j :| j in b && j.initial.pid == pid;
        assert j in a + b;
      }
    }
  }

  /** With distinct PIDs a queued PID is counted once. */
  lemma {:induction false} CountOnce(q: seq<Process>, pid: nat)
    requires Distinct(Jobs(q))
    ensures CountPid(q, pid) == if HasPid(Jobs(q), pid) then 1 else 0
  {
    if q != [] {
      hide Distinct, HasPid;
      DistinctParts(multiset{JobOf(q[0])}, Jobs(q[1..]));
      SingletonPid(JobOf(q[0]));
      EitherHas(multiset{JobOf(q[0])}, Jobs(q[1..]));
      CountOnce(q[1..], pid);
    } else {
      assert !HasPid(Jobs(q), pid);
    }
  }

  lemma {:induction false} CountOnceIn(queues: seq<seq<Process>>, pid: nat)
    requires Distinct(JobsIn(queues))
    ensures CountIn(queues, pid) == if HasPid(JobsIn(queues), pid) then 1 else 0
  {
    if queues != [] {
      hide Distinct, HasPid, Jobs;
      DistinctParts(Jobs(queues[0]), JobsIn(queues[1..]));
      EitherHas(Jobs(queues[0]), JobsIn(queues[1..]));
      CountOnce(queues[0], pid);
      CountOnceIn(queues[1..], pid);
    } else {
      assert !HasPid(JobsIn(queues), pid);
    }
  }

  // ----- update_wait_times

  ghost predicate WaitedBy(h: map<nat, History>, h': map<nat, History>, pid: nat, n: nat) {
    pid in h ==> pid in h' && h'[pid] == h[pid].(waitTime := h[pid].waitTime + n)
  }

  lemma {:induction false} WaitQueueEffect(q: seq<Process>, h: map<nat, History>, k: nat, pid: nat)
    requires k <= |q|
    ensures WaitedBy(h, WaitQueue(q, h, k), pid, CountPid(q[k..], pid))
    decreases |q| - k
  {
    if k < |q| {
      var p := q[k].initial.pid;
      WaitQueueEffect(q, if p in h then h[p := Waited(h[p])] else h, k + 1, pid);
      assert q[k..][1..] == q[k + 1..];
    }
  }

  /** Every history's wait time grows by the number of queue entries with its PID. */
  lemma {:induction false} WaitAllEffect(queues: seq<seq<Process>>, h: map<nat, History>, k: nat, pid: nat)
    requires k <= |queues|
    ensures WaitedBy(h, WaitAll(queues, h, k), pid, CountIn(queues[k..], pid))
    decreases |queues| - k
  {
    if k < |queues| {
      var h1 := WaitQueue(queues[k], h, 0);
      WaitQueueEffect(queues[k], h, 0, pid);
      assert queues[k][0..] == queues[k];
      WaitAllEffect(queues, h1, k + 1, pid);
      assert queues[k..][1..] == queues[k + 1..];
    }
  }

  ghost predicate SameCounts(h: map<nat, History>, h': map<nat, History>) {
    && h'.Keys == h.Keys
    && forall pid :: pid in h ==> h'[pid].waitTime == h[pid].waitTime && h'[pid].rescheduleCount == h[pid].rescheduleCount
  }

  /** Scoring writes nothing but scores. */
  lemma {:induction false} ScoringKeepsCounts(q: seq<Process>, h: map<nat, History>, k: nat)
    requires k <= |q|
    ensures SameCounts(h, RecordScores(q, h, k))
    decreases |q| - k
  {
    if k < |q| && q[k].initial.pid in h {
      var pid := q[k].initial.pid;
      ScoringKeepsCounts(q, h[pid := h[pid].(score := Score(h[pid], q[k]))], k + 1);
    }
  }

  // ----- the invariant

  /** Wait time, service and arrival time of a live process add up to the tick. */
  ghost predicate InStep(h: map<nat, History>, p: Process, t: nat) {
    p.initial.pid in h && h[p.initial.pid].waitTime + p.processedTime + p.initial.arrivalTime == t
  }

  /** A process in the fast queue (level 0) has not run; one in the smart queue (level 1) has run
      for the 2 units of the fast queue and 4 for each further reschedule. */
  ghost predicate CountsOk(h: map<nat, History>, level: nat, p: Process) {
    && p.initial.pid in h
    && p.quantumUsed <= p.processedTime
    && var n := h[p.initial.pid].rescheduleCount;
       if level == 0 then n == 0 && p.processedTime == p.quantumUsed
       else n >= 1 && p.processedTime - p.quantumUsed == 4 * n - 2
  }

  ghost predicate QueueOk(h: map<nat, History>, level: nat, q: seq<Process>, t: nat) {
    forall i :: 0 <= i < |q| ==> q[i].quantumUsed == 0 && CountsOk(h, level, q[i]) && InStep(h, q[i], t)
  }

  ghost predicate CurrentOk(h: map<nat, History>, level: nat, p: Process, t: nat) {
    p.quantumUsed < (level + 1) * 2 && CountsOk(h, level, p) && InStep(h, p, t)
  }

  ghost predicate CustomOk(s: State, t: nat) {
    && |s.queues| == 2 && s.level < 2
    && QueueOk(s.histories, 0, s.queues[0], t)
    && QueueOk(s.histories, 1, s.queues[1], t)
    && (s.current.Some? ==> CurrentOk(s.histories, s.level, s.current.value, t))
  }

  lemma SameCountsOk(h: map<nat, History>, h': map<nat, History>, s: State, t: nat)
    requires CustomOk(s, t) && h == s.histories && SameCounts(h, h')
    ensures CustomOk(s.(histories := h'), t)
  {
  }

  lemma TakenOk(h: map<nat, History>, level: nat, q: seq<Process>, k: nat, t: nat)
    requires QueueOk(h, level, q, t) && k < |q|
    ensures QueueOk(h, level, RemoveAt(q, k), t) && CurrentOk(h, level, q[k], t)
  {
  }

  lemma SelectedOk(s: State, t: nat)
    requires CustomOk(s, t)
    ensures CustomOk(SelectCustom(s), t)
    ensures SameCounts(s.histories, SelectCustom(s).histories)
  {
    hide QueueOk, CurrentOk;
    if s.current.None? {
      if s.queues[0] != [] {
        TakenOk(s.histories, 0, s.queues[0], 0, t);
        assert RemoveAt(s.queues[0], 0) == s.queues[0][1..];
      } else if s.queues[1] != [] {
        var q := s.queues[1];
        var best := Scan(q, s.histories, 0, None);
        var h := RecordScores(q, s.histories, 0);
        ScoringKeepsCounts(q, s.histories, 0);
        SameCountsOk(s.histories, h, s, t);
        if best.Some? {
          TakenOk(h, 1, q, best.value, t);
        }
      }
    }
  }

  /** After update_wait_times the queues are in step with the next tick... */
  lemma QueueWaits(d: State, level: nat, t: nat)
    requires CustomOk(d, t) && level < 2 && Distinct(Held(d))
    ensures QueueOk(WaitAll(d.queues, d.histories, 0), level, d.queues[level], t + 1)
  {
    hide Held;
    var h := WaitAll(d.queues, d.histories, 0);
    var q := d.queues[level];
    assert QueueOk(d.histories, level, q, t);
    forall i | 0 <= i < |q|
      ensures q[i].quantumUsed == 0 && CountsOk(h, level, q[i]) && InStep(h, q[i], t + 1)
    {
      QueuedOnce(d, level, q[i]);
      WaitAllEffect(d.queues, d.histories, 0, q[i].initial.pid);
      assert d.queues[0..] == d.queues;
    }
  }

  /** ... and the current process is left for the unit it is about to run. */
  lemma CurrentDoesNotWait(d: State)
    requires d.current.Some? && Distinct(Held(d)) && |d.queues| == 2
    ensures var pid := d.current.value.initial.pid;
            pid in d.histories ==> WaitAll(d.queues, d.histories, 0)[pid] == d.histories[pid]
  {
    var pid := d.current.value.initial.pid;
    DistinctParts(JobsIn(d.queues), CurrentJob(d));
    SingletonPid(JobOf(d.current.value));
    CountOnceIn(d.queues, pid);
    WaitAllEffect(d.queues, d.histories, 0, pid);
    assert d.queues[0..] == d.queues;
  }

  lemma QueuedOnce(d: State, level: nat, p: Process)
    requires level < |d.queues| && p in d.queues[level] && Distinct(Held(d))
    ensures CountIn(d.queues, p.initial.pid) == 1
  {
    DistinctParts(JobsIn(d.queues), CurrentJob(d));
    MemberJob(d.queues, level, p);
    assert HasPid(JobsIn(d.queues), p.initial.pid);
    CountOnceIn(d.queues, p.initial.pid);
  }

  /** Removing or rescheduling one PID leaves the others alone. */
  lemma OthersKept(h: map<nat, History>, h': map<nat, History>, pid: nat, level: nat, q: seq<Process>, t: nat)
    requires QueueOk(h, level, q, t)
    requires forall i :: 0 <= i < |q| ==> q[i].initial.pid != pid
    requires forall other :: other != pid && other in h ==> other in h' && h'[other] == h[other]
    ensures QueueOk(h', level, q, t)
  {
  }

  lemma CurrentNotQueued(d: State, level: nat)
    requires d.current.Some? && Distinct(Held(d)) && level < |d.queues|
    ensures forall i :: 0 <= i < |d.queues[level]| ==> d.queues[level][i].initial.pid != d.current.value.initial.pid
  {
    var q := d.queues[level];
    DistinctParts(JobsIn(d.queues), CurrentJob(d));
    SingletonPid(JobOf(d.current.value));
    forall i | 0 <= i < |q|
      ensures q[i].initial.pid != d.current.value.initial.pid
    {
      MemberJob(d.queues, level, q[i]);
      assert HasPid(JobsIn(d.queues), q[i].initial.pid);
    }
  }

  lemma ServedOk(s: State, t: nat)
    requires CustomOk(s, t) && Ready(Custom, s)
    ensures CustomOk(NextCustom(s).state, t + 1)
  {
    hide Ready, Held, Distinct, QueueOk, WaitAll, SelectCustom;
    ReadyParts(s);
    SelectedOk(s, t);
    SelectCustomHolds(s);
    var d := SelectCustom(s);
    if d.current.None? {
      EmptyOk(s, t);
    } else {
      QueueWaits(d, 0, t);
      QueueWaits(d, 1, t);
      CurrentDoesNotWait(d);
      CurrentNotQueued(d, 0);
      CurrentNotQueued(d, 1);
      var h := WaitAll(d.queues, d.histories, 0);
      var pid := d.current.value.initial.pid;
      var p := Served(d.current.value);
      if Done(p) {
        OthersKept(h, h - {pid}, pid, 0, d.queues[0], t + 1);
        OthersKept(h, h - {pid}, pid, 1, d.queues[1], t + 1);
      } else if p.quantumUsed >= Quantum(Custom, d.level) {
        OthersKept(h, Rescheduled(h, pid), pid, 0, d.queues[0], t + 1);
        OthersKept(h, Rescheduled(h, pid), pid, 1, d.queues[1], t + 1);
        RescheduledOk(h, d.level, d.current.value, t);
        RequeuedOk(Rescheduled(h, pid), d.queues[1], p.(quantumUsed := 0), t + 1);
      }
    }
  }

  lemma RescheduledOk(h: map<nat, History>, level: nat, c: Process, t: nat)
    requires level < 2 && CurrentOk(h, level, c, t) && c.quantumUsed + 1 >= Quantum(Custom, level)
    ensures var p := Served(c).(quantumUsed := 0);
            CountsOk(Rescheduled(h, c.initial.pid), 1, p) && InStep(Rescheduled(h, c.initial.pid), p, t + 1)
  {
  }

  lemma ReadyParts(s: State)
    requires Ready(Custom, s)
    ensures Shape(Custom, s) && HistoriesMatch(Custom, s) && Distinct(Held(s))
  {
  }

  lemma EmptyOk(s: State, t: nat)
    requires CustomOk(s, t) && Held(s) == multiset{}
    ensures CustomOk(s, t + 1)
  {
    assert JobsIn(s.queues) <= Held(s) && CurrentJob(s) <= Held(s);
    assert CurrentJob(s) == multiset{};
    NoJobs(s.queues);
  }

  lemma RequeuedOk(h: map<nat, History>, q: seq<Process>, p: Process, t: nat)
    requires QueueOk(h, 1, q, t) && p.quantumUsed == 0 && CountsOk(h, 1, p) && InStep(h, p, t)
    ensures QueueOk(h, 1, q + [p], t)
  {
  }

  // ----- arrivals

  lemma NewcomersOk(s: State, s': State, stats: seq<ProcessStats>, t: nat)
    requires |s.queues| == 2 && s' == Arrive(Custom, s, stats, t)
    requires CustomOk(s, t) && UniquePids(stats) && AllBefore(s.queues[0], t)
    requires forall pid :: pid in s.histories ==> !PidArrives(stats, t, pid)
    ensures CustomOk(s', t)
  {
    hide PidArrives, ArrivesAt;
    ArriveAppends(Custom, s, stats, t);
    ArriveHistories(s, stats, t);
    NewcomersSorted(stats, t);
    var news := Newcomers(stats, t);
    var h := s'.histories;
    forall i | 0 <= i < |news|
      ensures news[i] == NewProcess(news[i].initial) && news[i].initial.arrivalTime == t
      ensures news[i].initial.pid in h && h[news[i].initial.pid] == History(0, 0, 0.0)
    {
      assert news[i] in news;
      ArrivesByPid(stats, t, news[i].initial);
    }
    assert s'.queues[1] == s.queues[1];
  }

  lemma ArrivesByPid(stats: seq<ProcessStats>, t: nat, p: ProcessInitial)
    requires ArrivesAt(stats, t, p)
    ensures PidArrives(stats, t, p.pid)
  {
  }

  /** A PID with a history has already arrived, so it does not arrive now. */
  lemma KnownPidsDoNotArrive(w: World, t: nat)
    requires Agree(Custom, w, t)
    ensures forall pid :: pid in w.sched.histories ==> !PidArrives(w.stats, t, pid)
  {
    forall pid | pid in w.sched.histories
      ensures !PidArrives(w.stats, t, pid)
    {
      assert HasPid(Held(w.sched), pid);
      var j :| j in Held(w.sched) && j.initial.pid == pid;
      var k := PendingIndex(w.stats, t, j);
      forall p | ArrivesAt(w.stats, t, p)
        ensures p.pid != pid
      {
        var i :| 0 <= i < |w.stats| && w.stats[i].initial == p && p.arrivalTime == t;
      }
    }
  }

  lemma StartsOk(procs: seq<ProcessInitial>)
    ensures CustomOk(WorldAt(Custom, procs, 0).sched, 0)
  {
  }

  lemma NextIsCustom(procs: seq<ProcessInitial>, t: nat)
    ensures WorldAt(Custom, procs, t + 1).sched == NextCustom(ArrivedIn(Custom, procs, t)).state
  {
  }

  lemma ArrivedReady(policy: Policy, procs: seq<ProcessInitial>, t: nat)
    requires ValidInput(procs)
    ensures Ready(policy, ArrivedIn(policy, procs, t))
  {
    hide Ready, Held, Agree;
    AgreesAt(policy, procs, t);
    ArrivedContract(policy, WorldAt(policy, procs, t), t);
  }

  /** On every tick, after the arrivals, each live process's history accounts for its whole life,
      and its place in the queues for its service. */
  lemma {:induction false} HistoriesKeepStep(procs: seq<ProcessInitial>, t: nat)
    requires ValidInput(procs)
    ensures CustomOk(WorldAt(Custom, procs, t).sched, t)
    ensures CustomOk(ArrivedIn(Custom, procs, t), t)
  {
    hide WorldAt, Arrive, CustomOk, NextCustom, Agree, Ready, AllBefore, UniquePids;
    if t == 0 {
      StartsOk(procs);
    } else {
      HistoriesKeepStep(procs, t - 1);
      ArrivedReady(Custom, procs, t - 1);
      ServedOk(ArrivedIn(Custom, procs, t - 1), t - 1);
      NextIsCustom(procs, t - 1);
    }
    var w := WorldAt(Custom, procs, t);
    AgreesAt(Custom, procs, t);
    QueueIsOlder(Custom, w, t);
    KnownPidsDoNotArrive(w, t);
    NewcomersOk(w.sched, ArrivedIn(Custom, procs, t), w.stats, t);
  }

  /** When a process completes, the wait time its history holds, just before it is freed, is the
      wait time the simulator reports for it at the end of the run. */
  lemma WaitTimeAtCompletion(procs: seq<ProcessInitial>, i: nat, t: nat)
    requires ValidInput(procs) && i < |procs| && t >= FinishTick(procs)
    ensures var record := WorldAt(Custom, procs, t).stats[i];
            var d := SelectCustom(ArrivedIn(Custom, procs, record.endTime));
            && d.current.Some? && d.current.value.initial == procs[i] && Done(Served(d.current.value))
            && procs[i].pid in d.histories
            && WaitAll(d.queues, d.histories, 0)[procs[i].pid].waitTime == WaitTime(record)
            && procs[i].pid !in NextCustom(ArrivedIn(Custom, procs, record.endTime)).state.histories
  {
    hide WorldAt, PidAt, ArrivedIn, FinishTick, CustomOk, Ready, Held, Distinct, SelectCustom;
    CompletedProcess(Custom, procs, i, t);
    DoneByFinish(Custom, procs, i, t);
    EndTimeIsLastTick(Custom, procs, i, t);
    var end := EndTime(Custom, procs, i, t);
    var s := ArrivedIn(Custom, procs, end);
    HistoriesKeepStep(procs, end);
    ArrivedReady(Custom, procs, end);
    ReadyParts(s);
    SelectCustomHolds(s);
    SelectedOk(s, end);
    var k := ChosenRuns(Custom, procs, end);
    assert procs[i].pid > 0;
    assert k == i;
    CurrentDoesNotWait(SelectCustom(s));
    CurrentInStep(SelectCustom(s), end);
  }

  lemma CurrentInStep(d: State, t: nat)
    requires CustomOk(d, t) && d.current.Some?
    ensures InStep(d.histories, d.current.value, t)
  {
  }
}
