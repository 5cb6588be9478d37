/** FCFS against its closed form: in order of arrival time and PID, each process occupies one
    contiguous block of ticks that starts when it and everything before it is ready. */
module FcfsRuns {
  import opened Processes
  import opened ReadyQueue
  import opened Schedulers
  import opened SchedulerContract
  import opened Simulation
  import opened OrderIndependence
  import opened WholeRuns

  predicate Earlier(p: ProcessInitial, q: ProcessInitial) {
    p.arrivalTime < q.arrivalTime || (p.arrivalTime == q.arrivalTime && p.pid < q.pid)
  }

  ghost predicate InOrder(procs: seq<ProcessInitial>) {
    forall i, j :: 0 <= i < j < |procs| ==> Earlier(procs[i], procs[j])
  }

  function Max(a: nat, b: nat): nat {
    if a < b then b else a
  }

  /** When the k-th process, in order, starts and when the tick after its last one comes. */
  function Start(procs: seq<ProcessInitial>, k: nat): nat
    requires k < |procs|
    decreases k, 0
  {
    if k == 0 then procs[0].arrivalTime else Max(Completion(procs, k - 1), procs[k].arrivalTime)
  }

  function Completion(procs: seq<ProcessInitial>, k: nat): nat
    requires k < |procs|
    decreases k, 1
  {
    Start(procs, k) + procs[k].processingTime
  }

  /** The completion of everything before the k-th process. */
  function Before(procs: seq<ProcessInitial>, k: nat): nat
    requires k <= |procs|
  {
    if k == 0 then 0 else Completion(procs, k - 1)
  }

  lemma {:induction false} CompletionGrows(procs: seq<ProcessInitial>, j: nat, k: nat)
    requires j <= k <= |procs|
    ensures Before(procs, j) <= Before(procs, k)
  {
    if j < k {
      CompletionGrows(procs, j, k - 1);
      assert Start(procs, k - 1) >= Before(procs, k - 1);
    }
  }

  function Untouched(procs: seq<ProcessInitial>): seq<Process> {
    seq(|procs|, i requires 0 <= i < |procs| => NewProcess(procs[i]))
  }

  /** Exactly the first n processes arrive before t. */
  ghost predicate ArrivedBefore(procs: seq<ProcessInitial>, t: nat, n: nat) {
    n <= |procs| && forall i :: 0 <= i < |procs| ==> (procs[i].arrivalTime < t <==> i < n)
  }

  lemma {:induction false} ArrivalCount(procs: seq<ProcessInitial>, t: nat, k: nat) returns (n: nat)
    requires InOrder(procs) && k <= |procs|
    requires forall i :: 0 <= i < k ==> procs[i].arrivalTime < t
    ensures ArrivedBefore(procs, t, n)
    decreases |procs| - k
  {
    if k < |procs| && procs[k].arrivalTime < t {
      n := ArrivalCount(procs, t, k + 1);
    } else {
      n := k;
    }
  }

  /** Processes m..n-1 are queued in order; only the first of them may have run, for d units, and
      it is exactly on schedule for tick t. */
  ghost predicate OnSchedule(procs: seq<ProcessInitial>, q: seq<Process>, m: nat, n: nat, d: nat, t: nat) {
    && m <= n <= |procs|
    && |q| == n - m
    && (forall i :: m < i < n ==> q[i - m] == NewProcess(procs[i]))
    && (m < n ==>
          && q[0] == Process(procs[m], d, 0)
          && d < procs[m].processingTime
          && Start(procs, m) + d == t)
    && (m == n ==> Before(procs, m) <= t)
  }

  lemma {:induction false} ServedOnSchedule(procs: seq<ProcessInitial>, s: State, m: nat, n: nat, d: nat, t: nat)
    requires |s.queues| == 1 && OnSchedule(procs, s.queues[0], m, n, d, t)
    requires ValidInput(procs) && InOrder(procs)
    requires n > 0 ==> procs[n - 1].arrivalTime <= t
    ensures var slot := NextFcfs(s);
            && (m == n ==> slot.pid == 0 && OnSchedule(procs, slot.state.queues[0], m, n, 0, t + 1))
            && (m < n ==>
                  && slot.pid == procs[m].pid
                  && if d + 1 == procs[m].processingTime then OnSchedule(procs, slot.state.queues[0], m + 1, n, 0,
                        t + 1)
                     else OnSchedule(procs, slot.state.queues[0], m, n, d + 1, t + 1))
  {
    var q := s.queues[0];
    if m < n {
      assert FirstUnfinished(q, 0) == 0;
      if d + 1 == procs[m].processingTime && m + 1 < n {
        assert procs[m + 1].arrivalTime <= procs[n - 1].arrivalTime;
        assert NextFcfs(s).state.queues[0] == q[1..];
        assert q[1] == NewProcess(procs[m + 1]);
        assert Start(procs, m + 1) == t + 1;
      }
    }
  }

  /** The next few processes in order, as a tick's block of newcomers. */
  lemma {:induction false} BlockByPid(procs: seq<ProcessInitial>, t: nat, n: nat, n': nat)
    requires InOrder(procs) && n <= n'
    requires ArrivedBefore(procs, t, n) && ArrivedBefore(procs, t + 1, n')
    ensures ByPid(Untouched(procs[n..n']))
  {
    var block := Untouched(procs[n..n']);
    forall i, j | 0 <= i < j < |block|
      ensures block[i].initial.pid < block[j].initial.pid
    {
      assert Earlier(procs[n + i], procs[n + j]);
    }
  }

  lemma {:induction false} BlockMembers(procs: seq<ProcessInitial>, stats: seq<ProcessStats>, t: nat, n: nat, n': nat)
    requires n <= n' && |stats| == |procs| && forall i :: 0 <= i < |procs| ==> stats[i].initial == procs[i]
    requires ArrivedBefore(procs, t, n) && ArrivedBefore(procs, t + 1, n')
    ensures forall x: Process :: x in Untouched(procs[n..n']) <==>
                                 x == NewProcess(x.initial) && ArrivesAt(stats, t, x.initial)
  {
    var block := Untouched(procs[n..n']);
    forall x: Process | x == NewProcess(x.initial) && ArrivesAt(stats, t, x.initial)
      ensures x in block
    {
      var k :| 0 <= k < |stats| && stats[k].initial == x.initial && x.initial.arrivalTime == t;
      assert n <= k < n';
      assert block[k - n] == x;
    }
    forall x: Process | x in block
      ensures ArrivesAt(stats, t, x.initial)
    {
      var k :| 0 <= k < |block| && block[k] == x;
      assert stats[n + k].initial == x.initial;
    }
  }

  /** The arrivals of tick t are the next few processes in order. */
  lemma {:induction false} NewcomersInOrder(procs: seq<ProcessInitial>, stats: seq<ProcessStats>, t: nat, n: nat,
          n': nat)
    requires InOrder(procs) && UniquePids(stats)
    requires |stats| == |procs| && forall i :: 0 <= i < |procs| ==> stats[i].initial == procs[i]
    requires ArrivedBefore(procs, t, n) && ArrivedBefore(procs, t + 1, n')
    ensures n <= n' && Newcomers(stats, t) == Untouched(procs[n..n'])
  {
    hide InOrder, ByPid, ArrivesAt, Untouched, Newcomers;
    if n > 0 {
      assert procs[n - 1].arrivalTime < t;
    }
    NewcomersSorted(stats, t);
    BlockByPid(procs, t, n, n');
    BlockMembers(procs, stats, t, n, n');
    ByPidUnique(Newcomers(stats, t), Untouched(procs[n..n']));
  }

  lemma {:induction false} AppendOnSchedule(procs: seq<ProcessInitial>, q: seq<Process>, m: nat, n: nat, n': nat,
          d: nat, t: nat)
    requires ValidInput(procs) && OnSchedule(procs, q, m, n, d, t) && n <= n' <= |procs|
    requires m == n ==> d == 0
    requires forall i :: n <= i < n' ==> procs[i].arrivalTime == t
    ensures OnSchedule(procs, q + Untouched(procs[n..n']), m, n', d, t)
  {
    var r := q + Untouched(procs[n..n']);
    forall i | m < i < n'
      ensures r[i - m] == NewProcess(procs[i])
    {
      if i >= n {
        assert r[i - m] == Untouched(procs[n..n'])[i - n];
      }
    }
    if m == n && n < n' {
      assert r[0] == NewProcess(procs[m]);
    }
  }

  /** The schedule is kept on every tick, after that tick's arrivals. */
  lemma {:induction false} AlwaysOnSchedule(procs: seq<ProcessInitial>, t: nat) returns (m: nat, n: nat, d: nat)
    requires ValidInput(procs) && InOrder(procs)
    ensures OnSchedule(procs, ArrivedIn(Fcfs, procs, t).queues[0], m, n, d, t)
    ensures ArrivedBefore(procs, t + 1, n)
    ensures m == n ==> PidAt(Fcfs, procs, t) == 0
    ensures m < n ==> PidAt(Fcfs, procs, t) == procs[m].pid
  {
    hide OnSchedule, WorldAt, ArrivedIn, InOrder, ArrivedBefore;
    var n0 := 0;
    m, d := 0, 0;
    if t == 0 {
      EmptyOnSchedule(procs);
    } else {
      m, n0, d := AlwaysOnSchedule(procs, t - 1);
      m, d := ScheduleStep(procs, m, n0, d, t - 1);
    }
    n := ScheduleArrivals(procs, m, n0, d, t);
    ScheduledPid(procs, m, n, d, t);
  }

  lemma {:induction false} ScheduleArrivals(procs: seq<ProcessInitial>, m: nat, n: nat, d: nat,
          t: nat) returns (n': nat)
    requires ValidInput(procs) && InOrder(procs) && ArrivedBefore(procs, t, n)
    requires OnSchedule(procs, WorldAt(Fcfs, procs, t).sched.queues[0], m, n, d, t) && (m == n ==> d == 0)
    ensures ArrivedBefore(procs, t + 1, n')
    ensures OnSchedule(procs, ArrivedIn(Fcfs, procs, t).queues[0], m, n', d, t)
  {
    hide OnSchedule, WorldAt, ArrivedIn, InOrder, Agree, Newcomers;
    var w := WorldAt(Fcfs, procs, t);
    n' := ArrivalCount(procs, t + 1, 0);
    AgreesAt(Fcfs, procs, t);
    AlwaysAgree(Fcfs, procs, t);
    NewcomersGoLast(Fcfs, procs, t);
    NewcomersInOrder(procs, w.stats, t, n, n');
    AppendOnSchedule(procs, w.sched.queues[0], m, n, n', d, t);
  }

  lemma {:induction false} EmptyOnSchedule(procs: seq<ProcessInitial>)
    ensures OnSchedule(procs, WorldAt(Fcfs, procs, 0).sched.queues[0], 0, 0, 0, 0)
    ensures ArrivedBefore(procs, 0, 0)
  {
  }

  lemma {:induction false} ScheduleStep(procs: seq<ProcessInitial>, m: nat, n: nat, d: nat,
          t: nat) returns (m': nat, d': nat)
    requires ValidInput(procs) && InOrder(procs) && ArrivedBefore(procs, t + 1, n)
    requires OnSchedule(procs, ArrivedIn(Fcfs, procs, t).queues[0], m, n, d, t)
    ensures OnSchedule(procs, WorldAt(Fcfs, procs, t + 1).sched.queues[0], m', n, d', t + 1)
    ensures m' == n ==> d' == 0
  {
    hide OnSchedule, ArrivedIn, NextFcfs, InOrder;
    ScheduleSlot(procs, ArrivedIn(Fcfs, procs, t).queues[0], m, n, d, t);
    NextIs(procs, t);
    ServedOnSchedule(procs, ArrivedIn(Fcfs, procs, t), m, n, d, t);
    if m == n {
      m', d' := m, 0;
    } else if d + 1 == procs[m].processingTime {
      m', d' := m + 1, 0;
    } else {
      m', d' := m, d + 1;
    }
  }

  lemma {:induction false} NextIs(procs: seq<ProcessInitial>, t: nat)
    ensures WorldAt(Fcfs, procs, t + 1).sched == NextFcfs(ArrivedIn(Fcfs, procs, t)).state
    ensures PidAt(Fcfs, procs, t) == NextFcfs(ArrivedIn(Fcfs, procs, t)).pid
  {
  }

  lemma {:induction false} ScheduledPid(procs: seq<ProcessInitial>, m: nat, n: nat, d: nat, t: nat)
    requires ValidInput(procs) && InOrder(procs) && ArrivedBefore(procs, t + 1, n)
    requires OnSchedule(procs, ArrivedIn(Fcfs, procs, t).queues[0], m, n, d, t)
    ensures m <= n <= |procs| && PidAt(Fcfs, procs, t) == if m == n then 0 else procs[m].pid
  {
    hide OnSchedule, ArrivedIn, NextFcfs, InOrder;
    ScheduleSlot(procs, ArrivedIn(Fcfs, procs, t).queues[0], m, n, d, t);
    NextIs(procs, t);
    ServedOnSchedule(procs, ArrivedIn(Fcfs, procs, t), m, n, d, t);
  }

  lemma {:induction false} ScheduleSlot(procs: seq<ProcessInitial>, q: seq<Process>, m: nat, n: nat, d: nat, t: nat)
    requires OnSchedule(procs, q, m, n, d, t)
    ensures m <= n <= |procs|
    ensures m < n ==> Start(procs, m) <= t < Completion(procs, m)
    ensures m == n ==> Before(procs, m) <= t
  {
  }

  /** The k-th process in order runs on exactly the ticks from its start to its completion. */
  lemma {:induction false} OccupiesItsBlock(procs: seq<ProcessInitial>, k: nat, t: nat)
    requires ValidInput(procs) && InOrder(procs) && k < |procs|
    ensures PidAt(Fcfs, procs, t) == procs[k].pid <==> Start(procs, k) <= t < Completion(procs, k)
  {
    hide OnSchedule, WorldAt, PidAt, ArrivedIn;
    var m, n, d := AlwaysOnSchedule(procs, t);
    ScheduleSlot(procs, ArrivedIn(Fcfs, procs, t).queues[0], m, n, d, t);
    if k < m {
      CompletionGrows(procs, k + 1, m);
    } else if m < k && m < n {
      CompletionGrows(procs, m + 1, k);
    } else if k == m == n {
      assert procs[k].arrivalTime > t;
    }
  }

  /** The same for input in any order: `order` is the input sorted by arrival time and PID. */
  lemma {:induction false} ClosedForm(procs: seq<ProcessInitial>, order: seq<ProcessInitial>, i: nat, k: nat, t: nat)
    requires ValidInput(procs) && multiset(procs) == multiset(order) && InOrder(order)
    requires i < |procs| && k < |order| && procs[i].pid == order[k].pid
    ensures PidAt(Fcfs, procs, t) == procs[i].pid <==> Start(order, k) <= t < Completion(order, k)
    ensures t >= FinishTick(procs) ==> EndTime(Fcfs, procs, i, t) == Completion(order, k) - 1
  {
    hide WorldAt, PidAt, FinishTick, Completion, Start;
    PermutedValid(procs, order);
    OrderOfInputIsIrrelevant(Fcfs, procs, order, t);
    OccupiesItsBlock(order, k, t);
    if t >= FinishTick(procs) {
      DoneByFinish(Fcfs, procs, i, t);
      EndTimeIsLastTick(Fcfs, procs, i, t);
      LastTickOfBlock(procs, order, i, k, EndTime(Fcfs, procs, i, t));
    }
  }

  lemma {:induction false} LastTickOfBlock(procs: seq<ProcessInitial>, order: seq<ProcessInitial>, i: nat, k: nat,
          end: nat)
    requires ValidInput(procs) && ValidInput(order) && multiset(procs) == multiset(order) && InOrder(order)
    requires i < |procs| && k < |order| && procs[i].pid == order[k].pid
    requires PidAt(Fcfs, procs, end) == procs[i].pid
    requires PidAt(Fcfs, procs, end + 1) != procs[i].pid
    ensures end == Completion(order, k) - 1
  {
    hide WorldAt, PidAt, Completion, Start;
    OrderOfInputIsIrrelevant(Fcfs, procs, order, end);
    OrderOfInputIsIrrelevant(Fcfs, procs, order, end + 1);
    OccupiesItsBlock(order, k, end);
    OccupiesItsBlock(order, k, end + 1);
  }
}
