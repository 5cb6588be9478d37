/** `run_simulation` itself: the time loop over the array of process records, driving whichever
    scheduler was compiled in through its two entry points. */
module Driver {
  import opened Processes
  import opened Schedulers
  import opened SchedulerContract
  import opened Simulation
  import opened OrderIndependence
  import opened WholeRuns
  import opened CustomRuns
  import opened PointerScheduler

  /** The -1 of `get_pid_index`, as an unsigned int. */
  const NOT_FOUND: nat := 0xFFFF_FFFF

  method IsStillRunning(processes: array<ProcessStats>) returns (running: bool)
    ensures running <==> StillRunning(processes[..])
  {
    for i := 0 to processes.Length
      invariant forall k :: 0 <= k < i ==> processes[k].processedTime >= processes[k].initial.processingTime
    {
      if processes[i].processedTime < processes[i].initial.processingTime {
        assert processes[..][i] == processes[i];
        return true;
      }
    }
    return false;
  }

  method GetPidIndex(pid: nat, processes: array<ProcessStats>) returns (index: nat)
    ensures var k := FindPid(processes[..], pid, 0);
            index == if k < processes.Length then k else NOT_FOUND
  {
    for i := 0 to processes.Length
      invariant FindPid(processes[..], pid, i) == FindPid(processes[..], pid, 0)
    {
      if processes[i].initial.pid == pid {
        return i;
      }
    }
    return NOT_FOUND;
  }

  /** A process about to be handed over is new to the scheduler. */
  lemma ArrivalIsNew(policy: Policy, procs: seq<ProcessInitial>, t: nat, i: nat)
    requires ValidInput(procs) && i < |procs| && procs[i].arrivalTime == t
    ensures var w := WorldAt(policy, procs, t);
            policy.Custom? ==> procs[i].pid !in Arrive(policy, w.sched, w.stats[..i], t).histories
  {
    hide WorldAt, Arrive, Agree, Held, HasPid, StatsOk;
    var w := WorldAt(policy, procs, t);
    AlwaysAgree(policy, procs, t);
    AgreeParts(policy, w, t);
    ArriveContract(policy, w.sched, w.stats, i, t);
    NewcomerUnknown(w.stats, i, t);
    if policy.Custom? {
      ReadyParts(Arrive(policy, w.sched, w.stats[..i], t));
    }
  }

  lemma AgreeParts(policy: Policy, w: World, t: nat)
    requires Agree(policy, w, t)
    ensures StatsOk(w.stats, t) && Ready(policy, w.sched) && Held(w.sched) == Pending(w.stats, t)
  {
  }

  /** The inner loop's next step. */
  lemma ArriveStep(policy: Policy, s: State, stats: seq<ProcessStats>, i: nat, t: nat)
    requires |s.queues| == QueueCount(policy) && i < |stats|
    ensures var p := stats[i].initial;
            var s' := Arrive(policy, s, stats[..i], t);
            Arrive(policy, s, stats[..i + 1], t) == if p.arrivalTime == t then Add(policy, s', p) else s'
  {
    assert stats[..i + 1][..i] == stats[..i];
  }

  /** The record a non-zero PID leads to is there, unfinished, and is what Charge updates. */
  lemma ChargedRecord(policy: Policy, procs: seq<ProcessInitial>, t: nat) returns (i: nat)
    requires ValidInput(procs) && PidAt(policy, procs, t) != 0
    ensures var stats := WorldAt(policy, procs, t).stats;
            && i < |stats| && i == FindPid(stats, PidAt(policy, procs, t), 0)
            && stats[i].processedTime < stats[i].initial.processingTime
            && WorldAt(policy, procs, t + 1).stats == stats[i := Bump(stats[i], t)]
  {
    i := SomeoneRuns(policy, procs, t);
    TickOf(policy, procs, i, t);
    AlwaysAgree(policy, procs, t);
  }

  lemma NoCharge(policy: Policy, procs: seq<ProcessInitial>, t: nat)
    requires PidAt(policy, procs, t) == 0
    ensures WorldAt(policy, procs, t + 1).stats == WorldAt(policy, procs, t).stats
  {
  }

  lemma NextTick(policy: Policy, procs: seq<ProcessInitial>, t: nat)
    ensures var slot := Next(policy, ArrivedIn(policy, procs, t));
            slot.pid == PidAt(policy, procs, t) && slot.state == WorldAt(policy, procs, t + 1).sched
  {
  }

  lemma FirstWorld(policy: Policy, procs: seq<ProcessInitial>)
    ensures WorldAt(policy, procs, 0) == World(Fresh(procs), Initial(policy))
  {
  }

  /** Hands over the processes that arrive on this tick. */
  method HandOver(processes: array<ProcessStats>, scheduler: Scheduler, time: nat, ghost procs: seq<ProcessInitial>)
    requires ValidInput(procs) && scheduler.Valid() && processes !in scheduler.Repr
    requires World(processes[..], scheduler.model) == WorldAt(scheduler.policy, procs, time)
    modifies scheduler.Repr
    ensures scheduler.Valid() && fresh(scheduler.Repr - old(scheduler.Repr))
    ensures scheduler.model == ArrivedIn(scheduler.policy, procs, time)
  {
    hide Scheduler.Valid, WorldAt, Arrive, Add;
    ghost var policy, w := scheduler.policy, WorldAt(scheduler.policy, procs, time);
    AlwaysAgree(policy, procs, time);
    ArriveNone(policy, w.sched, w.stats, time);
    for i := 0 to processes.Length
      invariant scheduler.Valid() && fresh(scheduler.Repr - old(scheduler.Repr))
      invariant processes[..] == w.stats
      invariant scheduler.model == Arrive(policy, w.sched, w.stats[..i], time)
    {
      ArriveStep(policy, w.sched, w.stats, i, time);
      if processes[i].initial.arrivalTime == time {
        ArrivalIsNew(policy, procs, time, i);
        scheduler.AddToReadyQueue(processes[i].initial);
      }
    }
    assert w.stats[..processes.Length] == w.stats;
  }

  lemma ArriveNone(policy: Policy, s: State, stats: seq<ProcessStats>, t: nat)
    requires |s.queues| == QueueCount(policy)
    ensures Arrive(policy, s, stats[..0], t) == s
  {
  }

  /** One time unit for the selected process, and its end time if it was the last. */
  method GiveUnit(processes: array<ProcessStats>, index: nat, time: nat)
    requires index < processes.Length
    requires processes[index].processedTime < processes[index].initial.processingTime
    modifies processes
    ensures processes[..] == old(processes[..])[index := Bump(old(processes[index]), time)]
  {
    processes[index] := processes[index].(processedTime := processes[index].processedTime + 1);
    if processes[index].processedTime == processes[index].initial.processingTime {
      processes[index] := processes[index].(endTime := time);
    } else if processes[index].processedTime > processes[index].initial.processingTime {
      assert false;  // "scheduled for too long"
    }
  }

  /** The output is one PID for each tick until the finish tick or the time bound; the result is
      TRUE exactly when the finish tick, which no policy can change, is within the bound. The two
      failure branches of the original are unreachable. */
  method RunSimulation(processes: array<ProcessStats>, timeBound: nat, scheduler: Scheduler,
          ghost procs: seq<ProcessInitial>)
    returns (done: bool, output: seq<nat>)
    requires ValidInput(procs) && processes[..] == Fresh(procs)
    requires scheduler.Valid() && scheduler.model == Initial(scheduler.policy) && processes !in scheduler.Repr
    modifies processes, scheduler.Repr
    ensures done <==> FinishTick(procs) <= timeBound
    ensures |output| == Min(FinishTick(procs), timeBound)
    ensures IsOutput(scheduler.policy, procs, output)
    ensures World(processes[..], scheduler.model) == WorldAt(scheduler.policy, procs, |output|)
  {
    hide Scheduler.Valid, WorldAt, PidAt, FinishTick, ArrivedIn, FindPid;
    ghost var policy := scheduler.policy;
    FirstWorld(policy, procs);
    output := [];
    var time := 0;
    FinishesAt(policy, procs, 0);
    var running := IsStillRunning(processes);
    while time < timeBound && running
      invariant scheduler.Valid() && fresh(scheduler.Repr - old(scheduler.Repr)) && processes !in scheduler.Repr
      invariant time <= timeBound && time == |output| && time <= FinishTick(procs)
      invariant World(processes[..], scheduler.model) == WorldAt(policy, procs, time)
      invariant IsOutput(policy, procs, output)
      invariant running <==> time < FinishTick(procs)
      decreases timeBound - time
    {
      HandOver(processes, scheduler, time, procs);
      var pid := scheduler.GetNextScheduledProcess();
      NextTick(policy, procs, time);
      if pid > 0 {
        var index := GetPidIndex(pid, processes);
        ghost var i := ChargedRecord(policy, procs, time);
        // An unsigned index is never below 0; it is below the length because the PID is known.
        GiveUnit(processes, index, time);
      } else {
        NoCharge(policy, procs, time);
      }
      output := output + [pid];
      time := time + 1;
      FinishesAt(policy, procs, time);
      running := IsStillRunning(processes);
    }
    done := !running;
  }

  // ----- what a completed run reports, in terms of its output alone

  /** How many of the entries a..b-1 of the output name another process. */
  function OthersIn(output: seq<nat>, pid: nat, a: nat, b: nat): nat
    requires b <= |output|
    decreases b
  {
    if b <= a then 0
    else OthersIn(output, pid, a, b - 1) + if output[b - 1] != 0 && output[b - 1] != pid then 1 else 0
  }

  /** The final record of a process against the output. */
  ghost predicate Reported(p: ProcessInitial, r: ProcessStats, output: seq<nat>) {
    && r.initial == p && r.processedTime == p.processingTime
    && multiset(output)[p.pid] == p.processingTime
    && r.endTime < |output| && output[r.endTime] == p.pid
    && (forall u :: 0 <= u < |output| && output[u] == p.pid ==> p.arrivalTime <= u <= r.endTime)
    && (forall u :: p.arrivalTime <= u <= r.endTime ==> output[u] != 0)
    && p.arrivalTime <= r.endTime && TurnaroundTime(r) == |output[p.arrivalTime..r.endTime + 1]|
    && WaitTime(r) == OthersIn(output, p.pid, p.arrivalTime, r.endTime + 1)
  }

  ghost predicate IsOutput(policy: Policy, procs: seq<ProcessInitial>, output: seq<nat>) {
    forall t :: 0 <= t < |output| ==> output[t] == PidAt(policy, procs, t)
  }

  lemma {:induction false} OutputCounts(policy: Policy, procs: seq<ProcessInitial>, output: seq<nat>, pid: nat, n: nat)
    requires IsOutput(policy, procs, output) && n <= |output|
    ensures multiset(output[..n])[pid] == TicksOf(policy, procs, pid, 0, n)
  {
    hide PidAt;
    if n > 0 {
      OutputCounts(policy, procs, output, pid, n - 1);
      assert output[..n] == output[..n - 1] + [output[n - 1]];
    }
  }

  lemma {:induction false} OutputOthers(policy: Policy, procs: seq<ProcessInitial>, output: seq<nat>, pid: nat,
          a: nat, b: nat)
    requires IsOutput(policy, procs, output) && b <= |output|
    ensures OthersIn(output, pid, a, b) == TicksOfOthers(policy, procs, pid, a, b)
    decreases b
  {
    hide PidAt;
    if b > a {
      OutputOthers(policy, procs, output, pid, a, b - 1);
    }
  }

  lemma CompletedReport(policy: Policy, procs: seq<ProcessInitial>, output: seq<nat>, i: nat)
    requires ValidInput(procs) && IsOutput(policy, procs, output) && |output| == FinishTick(procs) && i < |procs|
    ensures Reported(procs[i], WorldAt(policy, procs, |output|).stats[i], output)
  {
    hide WorldAt, PidAt, FinishTick;
    CompletedProcess(policy, procs, i, |output|);
    DoneByFinish(policy, procs, i, |output|);
    EndTimeIsLastTick(policy, procs, i, |output|);
    var end := EndTime(policy, procs, i, |output|);
    OutputCounts(policy, procs, output, procs[i].pid, |output|);
    assert output[..|output|] == output;
    OutputOthers(policy, procs, output, procs[i].pid, procs[i].arrivalTime, end + 1);
    forall u: nat | procs[i].arrivalTime <= u <= end
      ensures PidAt(policy, procs, u) != 0
    {
      TickOf(policy, procs, i, u);
      ProgressMonotone(policy, procs, i, u, end);
    }
  }

  /** The program from its checked input to its output: array, scheduler and simulation. */
  method Simulate(policy: Policy, procs: seq<ProcessInitial>, timeBound: nat)
    returns (done: bool, output: seq<nat>, records: seq<ProcessStats>)
    requires ValidInput(procs)
    ensures done <==> FinishTick(procs) <= timeBound
    ensures |output| == Min(FinishTick(procs), timeBound) && IsOutput(policy, procs, output)
    ensures |records| == |procs|
    ensures done ==> forall i :: 0 <= i < |procs| ==> Reported(procs[i], records[i], output)
  {
    hide WorldAt, PidAt, FinishTick, Scheduler.Valid, Reported;
    var processes := new ProcessStats[|procs|](i requires 0 <= i < |procs| => ProcessStats(procs[i], 0, 0));
    assert processes[..] == Fresh(procs);
    var scheduler := new Scheduler(policy);
    done, output := RunSimulation(processes, timeBound, scheduler, procs);
    records := processes[..];
    if done {
      forall i | 0 <= i < |procs|
        ensures Reported(procs[i], records[i], output)
      {
        CompletedReport(policy, procs, output, i);
      }
    }
  }
}
