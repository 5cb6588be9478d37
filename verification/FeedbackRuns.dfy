/** The burst law of the two four-level feedback queues: where a process is queued says how much
    it has received, so how often it is dispatched depends on its processing time alone. */
module FeedbackRuns {
  import opened Processes
  import opened ReadyQueue
  import opened Schedulers
  import opened SchedulerContract
  import opened Simulation
  import opened OrderIndependence
  import opened WholeRuns

  predicate FeedbackPolicy(policy: Policy) {
    policy.Constant? || policy.Exponential?
  }

  /** The units received on the way down to a level: one quantum of each level above it. */
  function Base(policy: Policy, level: nat): nat {
    if level == 0 then 0 else Base(policy, level - 1) + Quantum(policy, level - 1)
  }

  /** The units received by a process queued at a level. */
  predicate AtLevel(policy: Policy, level: nat, received: nat) {
    if level < 3 then received == Base(policy, level)
    else received >= Base(policy, 3) && Quantum(policy, 3) > 0 && (received - Base(policy, 3)) % Quantum(policy, 3) == 0
  }

  lemma SumOfSquaresStep(k: int)
    ensures k * (k + 1) * (2 * k + 1) + 6 * ((k + 1) * (k + 1)) == (k + 1) * (k + 2) * (2 * k + 3)
  {
    assert (k + 1) * (k * (2 * k + 1) + 6 * (k + 1)) == (k + 1) * ((k + 2) * (2 * k + 3));
  }

  lemma {:induction false} BaseClosedForm(level: nat)
    ensures 2 * Base(Constant, level) == 3 * (level * (level + 1))
    ensures 3 * Base(Exponential, level) == level * (level + 1) * (2 * level + 1)
  {
    if level > 0 {
      BaseClosedForm(level - 1);
      SumOfSquaresStep(level - 1);
    }
  }

  lemma Constants(policy: Policy)
    requires FeedbackPolicy(policy)
    ensures policy.Constant? ==> Base(policy, 1) == 3 && Base(policy, 2) == 9 && Base(policy, 3) == 18
    ensures policy.Constant? ==> Quantum(policy, 0) == 3 && Quantum(policy, 1) == 6
    ensures policy.Constant? ==> Quantum(policy, 2) == 9 && Quantum(policy, 3) == 12
    ensures policy.Exponential? ==> Base(policy, 1) == 2 && Base(policy, 2) == 10 && Base(policy, 3) == 28
    ensures policy.Exponential? ==> Quantum(policy, 0) == 2 && Quantum(policy, 1) == 8
    ensures policy.Exponential? ==> Quantum(policy, 2) == 18 && Quantum(policy, 3) == 32
    ensures Base(policy, 0) == 0
  {
    assert Base(policy, 0) == 0;
    assert Base(policy, 1) == Quantum(policy, 0);
    assert Base(policy, 2) == Base(policy, 1) + Quantum(policy, 1);
    assert Base(policy, 3) == Base(policy, 2) + Quantum(policy, 2);
  }

  ghost predicate QueueAtLevel(policy: Policy, level: nat, q: seq<Process>) {
    forall i :: 0 <= i < |q| ==> q[i].quantumUsed == 0 && AtLevel(policy, level, q[i].processedTime)
  }

  ghost predicate CurrentAtLevel(policy: Policy, level: nat, p: Process) {
    && level < 4
    && p.quantumUsed < Quantum(policy, level)
    && p.quantumUsed <= p.processedTime
    && AtLevel(policy, level, p.processedTime - p.quantumUsed)
  }

  ghost predicate LevelsOk(policy: Policy, s: State) {
    && |s.queues| == 4
    && (forall k :: 0 <= k < 4 ==> QueueAtLevel(policy, k, s.queues[k]))
    && (s.current.Some? ==> CurrentAtLevel(policy, s.level, s.current.value) && s.current.value.quantumUsed > 0)
  }

  lemma NextQuantum(policy: Policy, level: nat, received: nat)
    requires FeedbackPolicy(policy) && level < 4 && AtLevel(policy, level, received)
    ensures AtLevel(policy, Min(level + 1, 3), received + Quantum(policy, level))
  {
    hide Quantum, Base;
    Constants(policy);
    if level == 3 {
      OnePeriodOn(received - Base(policy, 3), Quantum(policy, 3));
    }
  }

  lemma OnePeriodOn(x: nat, period: nat)
    requires period == 12 || period == 32
    requires x % period == 0
    ensures (x + period) % period == 0
  {
  }

  lemma SelectedAtLevel(policy: Policy, s: State)
    requires FeedbackPolicy(policy) && LevelsOk(policy, s)
    ensures var d := SelectFeedback(s);
            && |d.queues| == 4
            && (forall k :: 0 <= k < 4 ==> QueueAtLevel(policy, k, d.queues[k]))
            && (d.current.Some? ==> CurrentAtLevel(policy, d.level, d.current.value))
            && (d.current.Some? && s.current.None? ==> d.current.value.quantumUsed == 0)
  {
    hide AtLevel;
    Constants(policy);
  }

  lemma LevelsKept(policy: Policy, s: State)
    requires FeedbackPolicy(policy) && LevelsOk(policy, s)
    ensures LevelsOk(policy, NextFeedback(policy, s).state)
  {
    hide AtLevel, SelectFeedback;
    SelectedAtLevel(policy, s);
    var d := SelectFeedback(s);
    if d.current.Some? {
      var c := d.current.value;
      NextQuantum(policy, d.level, c.processedTime - c.quantumUsed);
    }
  }

  lemma ArrivalsAtLevel(policy: Policy, s: State, s': State, news: seq<Process>)
    requires FeedbackPolicy(policy) && LevelsOk(policy, s)
    requires s'.queues == s.queues[0 := s.queues[0] + news] && s'.current == s.current && s'.level == s.level
    requires forall x: Process :: x in news ==> x == NewProcess(x.initial)
    ensures LevelsOk(policy, s')
  {
    Constants(policy);
    assert QueueAtLevel(policy, 0, s'.queues[0]);
  }

  lemma StartsAtLevel(policy: Policy, procs: seq<ProcessInitial>)
    requires FeedbackPolicy(policy)
    ensures LevelsOk(policy, WorldAt(policy, procs, 0).sched)
  {
  }

  lemma NextIsFeedback(policy: Policy, procs: seq<ProcessInitial>, t: nat)
    requires FeedbackPolicy(policy)
    ensures WorldAt(policy, procs, t + 1).sched == NextFeedback(policy, ArrivedIn(policy, procs, t)).state
  {
  }

  /** In every reachable state a process queued at level k has an unused quantum and has received
      exactly the quanta of the levels above it (plus whole last-level quanta at level 3). */
  lemma {:induction false} BurstLaw(policy: Policy, procs: seq<ProcessInitial>, t: nat)
    requires FeedbackPolicy(policy) && ValidInput(procs)
    ensures LevelsOk(policy, ArrivedIn(policy, procs, t))
  {
    hide WorldAt, ArrivedIn, LevelsOk, NextFeedback;
    var w := WorldAt(policy, procs, t);
    if t == 0 {
      StartsAtLevel(policy, procs);
    } else {
      BurstLaw(policy, procs, t - 1);
      LevelsKept(policy, ArrivedIn(policy, procs, t - 1));
      NextIsFeedback(policy, procs, t - 1);
    }
    NewcomersGoLast(policy, procs, t);
    ArrivalsAtLevel(policy, w.sched, ArrivedIn(policy, procs, t), Newcomers(w.stats, t));
  }

  // ----- dispatches

  /** On tick t the scheduler takes a new process out of its queues. */
  predicate Dispatches(policy: Policy, procs: seq<ProcessInitial>, t: nat) {
    WorldAt(policy, procs, t).sched.current.None?
  }

  /** How often the PID is taken out of a queue before tick t. */
  function DispatchCount(policy: Policy, procs: seq<ProcessInitial>, pid: nat, t: nat): nat {
    if t == 0 then 0
    else DispatchCount(policy, procs, pid, t - 1)
         + if PidAt(policy, procs, t - 1) == pid && Dispatches(policy, procs, t - 1) then 1 else 0
  }

  /** The amounts of service after which a process is in some queue. */
  predicate DispatchPoint(policy: Policy, received: nat) {
    AtLevel(policy, 0, received) || AtLevel(policy, 1, received) || AtLevel(policy, 2, received) ||
          AtLevel(policy, 3, received)
  }

  function DispatchPoints(policy: Policy, received: nat): nat {
    if received == 0 then 0
    else DispatchPoints(policy, received - 1) + if DispatchPoint(policy, received - 1) then 1 else 0
  }

  lemma InsideQuantum(policy: Policy, level: nat, start: nat, used: nat)
    requires FeedbackPolicy(policy) && level < 4 && AtLevel(policy, level, start) && 0 < used < Quantum(policy, level)
    ensures !DispatchPoint(policy, start + used)
  {
    Constants(policy);
  }

  lemma AtSomeLevel(policy: Policy, level: nat, received: nat)
    requires level < 4 && AtLevel(policy, level, received)
    ensures DispatchPoint(policy, received)
  {
    assert level == 0 || level == 1 || level == 2 || level == 3;
  }

  /** A running process is being dispatched exactly when what it has received is a dispatch point. */
  lemma DispatchedAtPoint(policy: Policy, procs: seq<ProcessInitial>, i: nat, t: nat)
    requires FeedbackPolicy(policy) && ValidInput(procs) && i < |procs|
    requires PidAt(policy, procs, t) == procs[i].pid
    ensures Dispatches(policy, procs, t) <==> DispatchPoint(policy, Progress(policy, procs, i, t))
  {
    hide WorldAt, PidAt, ArrivedIn, AtLevel, DispatchPoint;
    var s := ArrivedIn(policy, procs, t);
    BurstLaw(policy, procs, t);
    NewcomersGoLast(policy, procs, t);
    SelectedAtLevel(policy, s);
    var k := ChosenRuns(policy, procs, t);
    assert procs[i].pid > 0;
    assert k == i;
    var d := SelectFeedback(s);
    var c := d.current.value;
    if s.current.None? {
      AtSomeLevel(policy, d.level, c.processedTime);
    } else {
      InsideQuantum(policy, d.level, c.processedTime - c.quantumUsed, c.quantumUsed);
    }
  }

  /** So the number of dispatches is a function of the service received, whatever the workload. */
  lemma {:induction false} DispatchLaw(policy: Policy, procs: seq<ProcessInitial>, i: nat, t: nat)
    requires FeedbackPolicy(policy) && ValidInput(procs) && i < |procs|
    ensures DispatchCount(policy, procs, procs[i].pid, t) == DispatchPoints(policy, Progress(policy, procs, i, t))
  {
    hide WorldAt, PidAt, Dispatches, DispatchPoint;
    if t == 0 {
      TickOf(policy, procs, i, 0);
    } else {
      DispatchLaw(policy, procs, i, t - 1);
      TickOf(policy, procs, i, t - 1);
      if PidAt(policy, procs, t - 1) == procs[i].pid {
        DispatchedAtPoint(policy, procs, i, t - 1);
      }
    }
  }

  /** How often a process is dispatched over a whole run, from its processing time alone. */
  function DispatchesFor(policy: Policy, total: nat): nat {
    if total == 0 then 0
    else if total <= Base(policy, 1) then 1
    else if total <= Base(policy, 2) then 2
    else if total <= Base(policy, 3) then 3
    else if Quantum(policy, 3) == 0 then 0
    else 3 + (total - Base(policy, 3) + Quantum(policy, 3) - 1) / Quantum(policy, 3)
  }

  lemma DispatchesForStep(policy: Policy, total: nat)
    requires FeedbackPolicy(policy)
    ensures DispatchesFor(policy, total + 1) == DispatchesFor(policy, total) + if DispatchPoint(policy,
              total) then 1 else 0
  {
    Constants(policy);
  }

  lemma {:induction false} DispatchPointsClosedForm(policy: Policy, total: nat)
    requires FeedbackPolicy(policy)
    ensures DispatchPoints(policy, total) == DispatchesFor(policy, total)
  {
    if total > 0 {
      DispatchPointsClosedForm(policy, total - 1);
      DispatchesForStep(policy, total - 1);
    }
  }

  /** By the finish tick process i has been dispatched DispatchesFor(its processing time) times. */
  lemma DispatchesOverRun(policy: Policy, procs: seq<ProcessInitial>, i: nat, t: nat)
    requires FeedbackPolicy(policy) && ValidInput(procs) && i < |procs| && t >= FinishTick(procs)
    ensures DispatchCount(policy, procs, procs[i].pid, t) == DispatchesFor(policy, procs[i].processingTime)
  {
    hide WorldAt, PidAt, FinishTick;
    DoneByFinish(policy, procs, i, t);
    DispatchLaw(policy, procs, i, t);
    DispatchPointsClosedForm(policy, procs[i].processingTime);
  }
}
