/** What `rr.c` does: it never resets `quantum_used`, so a process is requeued once at most. */
module RoundRobinRuns {
  import opened Processes
  import opened ReadyQueue
  import opened Schedulers
  import opened SchedulerContract
  import opened Simulation
  import opened OrderIndependence
  import opened WholeRuns

  ghost predicate QuantumIsProgress(q: seq<Process>) {
    forall i :: 0 <= i < |q| ==> q[i].quantumUsed == q[i].processedTime
  }

  lemma QuantumKept(s: State)
    requires |s.queues| == 1 && QuantumIsProgress(s.queues[0])
    ensures QuantumIsProgress(NextRoundRobin(s).state.queues[0])
  {
  }

  /** In rr the quantum counter is just a second copy of the progress. */
  lemma {:induction false} QuantumAlwaysProgress(procs: seq<ProcessInitial>, t: nat)
    requires ValidInput(procs)
    ensures QuantumIsProgress(ArrivedIn(RoundRobin, procs, t).queues[0])
  {
    hide QuantumIsProgress, ArrivedIn, Next, WorldAt;
    NewcomersGoLast(RoundRobin, procs, t);
    if t > 0 {
      QuantumAlwaysProgress(procs, t - 1);
      QuantumKept(ArrivedIn(RoundRobin, procs, t - 1));
      NextIs(procs, t - 1);
    } else {
      StartsEmpty(RoundRobin, procs);
    }
    QuantumAppend(WorldAt(RoundRobin, procs, t).sched.queues[0], Newcomers(WorldAt(RoundRobin, procs, t).stats, t));
  }

  lemma StartsEmpty(policy: Policy, procs: seq<ProcessInitial>)
    ensures WorldAt(policy, procs, 0).sched == Initial(policy)
    ensures QuantumIsProgress(Initial(policy).queues[0])
  {
  }

  lemma NextIs(procs: seq<ProcessInitial>, t: nat)
    ensures WorldAt(RoundRobin, procs, t + 1).sched == NextRoundRobin(ArrivedIn(RoundRobin, procs, t)).state
  {
  }

  lemma QuantumAppend(q: seq<Process>, news: seq<Process>)
    requires QuantumIsProgress(q) && forall x: Process :: x in news ==> x == NewProcess(x.initial)
    ensures QuantumIsProgress(q + news)
  {
  }

  /** A process that has neither finished nor just received its third unit runs again at once. */
  lemma KeepsRunning(procs: seq<ProcessInitial>, i: nat, t: nat)
    requires ValidInput(procs) && i < |procs|
    requires PidAt(RoundRobin, procs, t) == procs[i].pid
    requires var d := Progress(RoundRobin, procs, i, t) + 1; d != 3 && d != procs[i].processingTime
    ensures PidAt(RoundRobin, procs, t + 1) == procs[i].pid
  {
    hide WorldAt, PidAt, ArrivedIn;
    var s := ArrivedIn(RoundRobin, procs, t);
    var k := ChosenRuns(RoundRobin, procs, t);
    assert procs[i].pid > 0;
    assert k == i;
    QuantumAlwaysProgress(procs, t);
    assert NextRoundRobin(s).state.queues[0][0].initial == procs[i];
    NewcomersGoLast(RoundRobin, procs, t + 1);
    var k' := ChosenRuns(RoundRobin, procs, t + 1);
  }

  /** n consecutive ticks from a. */
  lemma {:induction false} Burst(procs: seq<ProcessInitial>, i: nat, a: nat, n: nat)
    requires ValidInput(procs) && i < |procs| && n > 0
    requires PidAt(RoundRobin, procs, a) == procs[i].pid
    requires var d := Progress(RoundRobin, procs, i, a); d + n <= procs[i].processingTime && (d + n <= 3 || d >= 3)
    ensures forall u: nat :: a <= u < a + n ==>
              PidAt(RoundRobin, procs, u) == procs[i].pid
              && Progress(RoundRobin, procs, i, u) == Progress(RoundRobin, procs, i, a) + (u - a)
  {
    hide WorldAt, PidAt;
    if n > 1 {
      Burst(procs, i, a, n - 1);
      var u := a + n - 2;
      TickOf(RoundRobin, procs, i, u);
      KeepsRunning(procs, i, u);
    }
  }

  /** The ticks of process i are one burst when it needs at most 3 units, and otherwise a burst of
      exactly 3 followed by one uninterrupted burst of everything else. */
  ghost predicate TwoBursts(procs: seq<ProcessInitial>, i: nat, a: nat, b: nat)
    requires i < |procs|
  {
    var first := Min(3, procs[i].processingTime);
    var second := procs[i].processingTime - first;
    && a + first <= b
    && forall u: nat :: PidAt(RoundRobin, procs, u) == procs[i].pid <==> a <= u < a + first || b <= u < b + second
  }

  lemma BurstLaw(procs: seq<ProcessInitial>, i: nat)
    requires ValidInput(procs) && i < |procs|
    ensures exists a, b :: TwoBursts(procs, i, a, b)
  {
    hide WorldAt, PidAt, FinishTick;
    var end := FinishTick(procs);
    var total := procs[i].processingTime;
    var first := Min(3, total);
    DoneByFinish(RoundRobin, procs, i, end);
    var a := UnitTick(RoundRobin, procs, i, 0, end);
    Burst(procs, i, a, first);
    var b := a + first;
    if total > 3 {
      b := UnitTick(RoundRobin, procs, i, 3, end);
      Burst(procs, i, b, total - 3);
      ThirdBeforeFourth(procs, i, a + 2, b);
    }
    forall u: nat | PidAt(RoundRobin, procs, u) == procs[i].pid
      ensures a <= u < a + first || b <= u < b + (total - first)
    {
      var d := Progress(RoundRobin, procs, i, u);
      TickOf(RoundRobin, procs, i, u);
      var v := if d < first then a + d else b + (d - 3);
      UnitTickUnique(RoundRobin, procs, i, u, v);
    }
    assert TwoBursts(procs, i, a, b);
  }

  lemma ThirdBeforeFourth(procs: seq<ProcessInitial>, i: nat, u: nat, v: nat)
    requires ValidInput(procs) && i < |procs|
    requires PidAt(RoundRobin, procs, u) == procs[i].pid
    requires Progress(RoundRobin, procs, i, u) < Progress(RoundRobin, procs, i, v)
    ensures u < v
  {
    hide WorldAt, PidAt;
    if v <= u {
      ProgressMonotone(RoundRobin, procs, i, v, u);
    }
  }
}
