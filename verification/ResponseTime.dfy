/** How long a newcomer waits for its first tick under the policies with several queues. */
module ResponseTime {
  import opened Processes
  import opened ReadyQueue
  import opened Schedulers
  import opened SchedulerContract
  import opened Simulation
  import opened OrderIndependence
  import opened WholeRuns

  predicate MultiQueue(policy: Policy) {
    policy.Constant? || policy.Exponential? || policy.Custom?
  }

  ghost predicate Rested(q: seq<Process>) {
    forall i :: 0 <= i < |q| ==> q[i].quantumUsed == 0
  }

  /** Queued processes have a whole quantum ahead of them, the current one a started one. */
  ghost predicate Quanta(policy: Policy, s: State) {
    && |s.queues| == QueueCount(policy)
    && (forall k :: 0 <= k < |s.queues| ==> Rested(s.queues[k]))
    && (s.current.Some? ==> s.level < |s.queues| && 0 < s.current.value.quantumUsed < Quantum(policy, s.level))
  }

  /** Ticks the current process can still take. */
  function Residual(policy: Policy, s: State): int {
    if s.current.Some? then Quantum(policy, s.level) - s.current.value.quantumUsed else 0
  }

  /** How one call of Next moves the ready queue and the current process. */
  ghost predicate Advances(policy: Policy, s: State)
    requires |s.queues| == QueueCount(policy)
  {
    var slot := Next(policy, s);
    && Quanta(policy, slot.state)
    && 0 <= Residual(policy, slot.state)
    && if s.current.Some? then
         slot.state.queues[0] == s.queues[0] && Residual(policy, slot.state) < Residual(policy, s)
       else s.queues[0] != [] ==>
              && slot.pid == s.queues[0][0].initial.pid
              && slot.state.queues[0] == s.queues[0][1..]
              && Residual(policy, slot.state) < Quantum(policy, 0)
  }

  lemma QuantumPositive(policy: Policy, level: nat)
    requires MultiQueue(policy)
    ensures Quantum(policy, level) >= 2
  {
  }

  lemma FeedbackAdvances(policy: Policy, s: State)
    requires (policy.Constant? || policy.Exponential?) && Quanta(policy, s)
    ensures Advances(policy, s)
  {
    hide Quantum, Rested;
    QuantumPositive(policy, SelectFeedback(s).level);
    SelectedRested(s);
    var d := SelectFeedback(s);
    if d.current.Some? {
      var level := Min(d.level + 1, |d.queues| - 1);
      RequeuedRested(d.queues[level], Served(d.current.value).(quantumUsed := 0));
    }
  }

  lemma SelectedRested(s: State)
    requires s.queues != [] && forall k :: 0 <= k < |s.queues| ==> Rested(s.queues[k])
    ensures forall k :: 0 <= k < |s.queues| ==> Rested(SelectFeedback(s).queues[k])
    ensures SelectFeedback(s) != s ==> SelectFeedback(s).current.Some? && SelectFeedback(s).current.value.quantumUsed == 0
  {
  }

  lemma RequeuedRested(q: seq<Process>, p: Process)
    requires Rested(q) && p.quantumUsed == 0
    ensures Rested(q + [p])
  {
  }

  lemma CustomAdvances(s: State)
    requires Quanta(Custom, s)
    ensures Advances(Custom, s)
  {
    QuantumPositive(Custom, SelectCustom(s).level);
  }

  lemma NextAdvances(policy: Policy, s: State)
    requires MultiQueue(policy) && Quanta(policy, s)
    ensures Advances(policy, s)
  {
    hide Quanta, Advances;
    if policy.Custom? {
      CustomAdvances(s);
    } else {
      FeedbackAdvances(policy, s);
    }
  }

  lemma NewcomersRested(policy: Policy, s: State, s': State, news: seq<Process>)
    requires Quanta(policy, s) && s.queues != []
    requires s'.queues == s.queues[0 := s.queues[0] + news] && s'.current == s.current && s'.level == s.level
    requires forall x: Process :: x in news ==> x == NewProcess(x.initial)
    ensures Quanta(policy, s')
  {
    assert Rested(s'.queues[0]);
  }

  lemma StartsRested(policy: Policy, procs: seq<ProcessInitial>)
    ensures Quanta(policy, WorldAt(policy, procs, 0).sched)
  {
  }

  lemma {:induction false} AlwaysQuanta(policy: Policy, procs: seq<ProcessInitial>, t: nat)
    requires MultiQueue(policy) && ValidInput(procs)
    ensures Quanta(policy, ArrivedIn(policy, procs, t))
  {
    hide WorldAt, ArrivedIn, Quanta;
    var w := WorldAt(policy, procs, t);
    if t == 0 {
      StartsRested(policy, procs);
    } else {
      AlwaysQuanta(policy, procs, t - 1);
      var i := ChosenRuns(policy, procs, t - 1);
      NextQuanta(policy, ArrivedIn(policy, procs, t - 1));
    }
    NewcomersGoLast(policy, procs, t);
    NewcomersRested(policy, w.sched, ArrivedIn(policy, procs, t), Newcomers(w.stats, t));
  }

  lemma NextQuanta(policy: Policy, s: State)
    requires MultiQueue(policy) && |s.queues| == QueueCount(policy) && Quanta(policy, s)
    ensures Quanta(policy, Next(policy, s).state)
  {
    hide Quanta, Next;
    NextAdvances(policy, s);
  }

  /** Behind k others in the ready queue, a process runs once the current quantum and k quanta of
      the top level are over, whatever arrives meanwhile. */
  lemma {:induction false} FirstRun(policy: Policy, procs: seq<ProcessInitial>, i: nat, t: nat, k: nat) returns (u: nat)
    requires MultiQueue(policy) && ValidInput(procs) && i < |procs|
    requires var q := ArrivedIn(policy, procs, t).queues[0]; k < |q| && q[k].initial == procs[i]
    ensures PidAt(policy, procs, u) == procs[i].pid
    ensures t <= u <= t + Residual(policy, ArrivedIn(policy, procs, t)) + Quantum(policy, 0) * k
    decreases Residual(policy, ArrivedIn(policy, procs, t)) + Quantum(policy, 0) * k, k
  {
    hide WorldAt, PidAt, ArrivedIn, Next, Quanta, Quantum;
    var s := ArrivedIn(policy, procs, t);
    AlwaysQuanta(policy, procs, t);
    NextAdvances(policy, s);
    var r := ChosenRuns(policy, procs, t);
    if s.current.None? && k == 0 {
      u := t;
    } else {
      NewcomersGoLast(policy, procs, t + 1);
      var k' := if s.current.None? then k - 1 else k;
      if s.current.None? {
        assert Quantum(policy, 0) * k == Quantum(policy, 0) * (k - 1) + Quantum(policy, 0);
      }
      u := FirstRun(policy, procs, i, t + 1, k');
    }
  }

  /** The longest a started quantum can still run. */
  function LongestResidual(policy: Policy): nat {
    match policy
    case Constant => 11
    case Exponential => 31
    case Custom => 3
    case Fcfs => 0
    case RoundRobin => 0
  }

  lemma ResidualBound(policy: Policy, s: State)
    requires MultiQueue(policy) && Quanta(policy, s)
    ensures Residual(policy, s) <= LongestResidual(policy)
  {
    if s.current.Some? {
      assert s.level == 0 || s.level == 1 || s.level == 2 || s.level == 3;
    }
  }

  /** A process with k others ahead of it in the ready queue, on the tick it arrives, first runs
      within 11+3k (constant), 31+2k (exponential) or 3+2k (custom) ticks. */
  lemma ResponseBound(policy: Policy, procs: seq<ProcessInitial>, i: nat) returns (k: nat, u: nat)
    requires MultiQueue(policy) && ValidInput(procs) && i < |procs|
    ensures var q := ArrivedIn(policy, procs, procs[i].arrivalTime).queues[0];
            k < |q| && q[k].initial == procs[i]
    ensures procs[i].arrivalTime <= u <= procs[i].arrivalTime + LongestResidual(policy) + Quantum(policy, 0) * k
    ensures PidAt(policy, procs, u) == procs[i].pid && Progress(policy, procs, i, u) == 0
  {
    hide WorldAt, PidAt, ArrivedIn, Quanta;
    var t := procs[i].arrivalTime;
    k := QueuedOnArrival(policy, procs, i);
    AlwaysQuanta(policy, procs, t);
    ResidualBound(policy, ArrivedIn(policy, procs, t));
    var v := FirstRun(policy, procs, i, t, k);
    TickOf(policy, procs, i, v);
    u := UnitTick(policy, procs, i, 0, v + 1);
    TickOf(policy, procs, i, u);
  }

  lemma QueuedOnArrival(policy: Policy, procs: seq<ProcessInitial>, i: nat) returns (k: nat)
    requires ValidInput(procs) && i < |procs|
    ensures var q := ArrivedIn(policy, procs, procs[i].arrivalTime).queues[0];
            k < |q| && q[k].initial == procs[i]
  {
    hide WorldAt, ArrivedIn, Newcomers, Agree;
    var t := procs[i].arrivalTime;
    var w := WorldAt(policy, procs, t);
    AlwaysAgree(policy, procs, t);
    AgreesAt(policy, procs, t);
    NewcomersGoLast(policy, procs, t);
    NewcomersSorted(w.stats, t);
    assert w.stats[i].initial == procs[i];
    assert ArrivesAt(w.stats, t, procs[i]);
    k := IndexIn(w.sched.queues[0], Newcomers(w.stats, t), NewProcess(procs[i]));
  }

  lemma IndexIn(older: seq<Process>, news: seq<Process>, p: Process) returns (k: nat)
    requires p in news
    ensures k < |older + news| && (older + news)[k] == p
  {
    var j :| 0 <= j < |news| && news[j] == p;
    k := |older| + j;
  }
}
