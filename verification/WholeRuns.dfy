/** What every run of the simulator does, whichever of the five policies is compiled in. */
module WholeRuns {
  import opened Processes
  import opened ReadyQueue
  import opened Schedulers
  import opened Simulation

  // ----- work, counted from the input alone

  /** The processing time of the first n processes that arrive at or after t. */
  function WorkFrom(procs: seq<ProcessInitial>, t: nat, n: nat): nat
    requires n <= |procs|
  {
    if n == 0 then 0
    else WorkFrom(procs, t, n - 1) + if procs[n - 1].arrivalTime >= t then procs[n - 1].processingTime else 0
  }

  /** All the processing time that arrives at or after t. */
  function Future(procs: seq<ProcessInitial>, t: nat): nat {
    WorkFrom(procs, t, |procs|)
  }

  /** The work left before tick t of a server that idles only when none of it has arrived. */
  function WorkLeft(procs: seq<ProcessInitial>, t: nat): nat {
    if t == 0 then Future(procs, 0)
    else if WorkLeft(procs, t - 1) > Future(procs, t) then WorkLeft(procs, t - 1) - 1
    else WorkLeft(procs, t - 1)
  }

  /** The largest arrival time plus work arriving from then on, over the first n processes. */
  function LatestEnd(procs: seq<ProcessInitial>, n: nat): nat
    requires n <= |procs|
  {
    if n == 0 then 0
    else
      var a := procs[n - 1].arrivalTime;
      var rest := LatestEnd(procs, n - 1);
      if a + Future(procs, a) > rest then a + Future(procs, a) else rest
  }

  function FinishTick(procs: seq<ProcessInitial>): nat {
    LatestEnd(procs, |procs|)
  }

  lemma {:induction false} LatestEndIsMax(procs: seq<ProcessInitial>, n: nat)
    requires n <= |procs|
    ensures forall i :: 0 <= i < n ==> procs[i].arrivalTime + Future(procs, procs[i].arrivalTime) <= LatestEnd(procs, n)
    ensures n > 0 ==> exists i :: 0 <= i < n && procs[i].arrivalTime + Future(procs, procs[i].arrivalTime) == LatestEnd(procs, n)
  {
    if n > 0 {
      LatestEndIsMax(procs, n - 1);
      if n > 1 {
        var i :| 0 <= i < n - 1 &&
              procs[i].arrivalTime + Future(procs, procs[i].arrivalTime) == LatestEnd(procs, n - 1);
      }
    }
  }

  lemma {:induction false} WorkFromStep(procs: seq<ProcessInitial>, t: nat, u: nat, n: nat)
    requires n <= |procs| && t <= u
    ensures WorkFrom(procs, u, n) <= WorkFrom(procs, t, n)
    ensures (forall i :: 0 <= i < n ==> !(t <= procs[i].arrivalTime < u)) ==>
              WorkFrom(procs, u, n) == WorkFrom(procs, t, n)
    ensures forall i :: 0 <= i < n && procs[i].arrivalTime >= t ==> WorkFrom(procs, t, n) >= procs[i].processingTime
  {
    if n > 0 {
      WorkFromStep(procs, t, u, n - 1);
    }
  }

  /** If work is still to come after t, some process starts the rest of it. */
  lemma {:induction false} NextArrival(procs: seq<ProcessInitial>, t: nat, j: nat) returns (i: nat)
    requires j < |procs| && procs[j].arrivalTime >= t
    ensures i < |procs| && procs[i].arrivalTime >= t && Future(procs, procs[i].arrivalTime) == Future(procs, t)
    decreases procs[j].arrivalTime
  {
    if k :| 0 <= k < |procs| && t <= procs[k].arrivalTime < procs[j].arrivalTime {
      i := NextArrival(procs, t, k);
    } else {
      WorkFromStep(procs, t, procs[j].arrivalTime, |procs|);
      i := j;
    }
  }

  lemma {:induction false} NoFuture(procs: seq<ProcessInitial>, t: nat, n: nat)
    requires n <= |procs| && ValidInput(procs)
    ensures WorkFrom(procs, t, n) == 0 <==> forall i :: 0 <= i < n ==> procs[i].arrivalTime < t
  {
    if n > 0 {
      NoFuture(procs, t, n - 1);
    }
  }

  // ----- work, counted in a run

  /** What the first n processes still need before tick t. */
  function Remaining(policy: Policy, procs: seq<ProcessInitial>, t: nat, n: nat): int
    requires n <= |procs|
  {
    if n == 0 then 0
    else Remaining(policy, procs, t, n - 1) + procs[n - 1].processingTime - Progress(policy, procs, n - 1, t)
  }

  ghost predicate AllArrivedDone(policy: Policy, procs: seq<ProcessInitial>, t: nat, u: nat, n: nat)
    requires n <= |procs|
  {
    forall i :: 0 <= i < n && procs[i].arrivalTime < u ==> Progress(policy, procs, i, t) == procs[i].processingTime
  }

  lemma {:induction false} RemainingBounds(policy: Policy, procs: seq<ProcessInitial>, t: nat, u: nat, n: nat)
    requires ValidInput(procs) && n <= |procs| && t <= u <= t + 1
    ensures Remaining(policy, procs, t, n) >= WorkFrom(procs, u, n)
    ensures Remaining(policy, procs, t, n) == WorkFrom(procs, u, n) <==> AllArrivedDone(policy, procs, t, u, n)
  {
    hide WorldAt;
    if n > 0 {
      RemainingBounds(policy, procs, t, u, n - 1);
      TickOf(policy, procs, n - 1, t);
    }
  }

  lemma {:induction false} RemainingStep(policy: Policy, procs: seq<ProcessInitial>, t: nat, n: nat)
    requires ValidInput(procs) && n <= |procs|
    ensures Remaining(policy, procs, t + 1, n) ==
            Remaining(policy, procs, t, n) -
            if exists i :: 0 <= i < n && procs[i].pid == PidAt(policy, procs, t) then 1 else 0
  {
    hide WorldAt, PidAt;
    if n > 0 {
      RemainingStep(policy, procs, t, n - 1);
      TickOf(policy, procs, n - 1, t);
    }
  }

  lemma {:induction false} RemainingAtStart(policy: Policy, procs: seq<ProcessInitial>, n: nat)
    requires n <= |procs|
    ensures Remaining(policy, procs, 0, n) == WorkFrom(procs, 0, n)
  {
    if n > 0 {
      RemainingAtStart(policy, procs, n - 1);
    }
  }

  lemma BusyOrIdle(policy: Policy, procs: seq<ProcessInitial>, t: nat)
    requires ValidInput(procs)
    ensures PidAt(policy, procs, t) == 0 <==> Remaining(policy, procs, t, |procs|) == Future(procs, t + 1)
    ensures Remaining(policy, procs, t + 1, |procs|) ==
            Remaining(policy, procs, t, |procs|) - if PidAt(policy, procs, t) == 0 then 0 else 1
  {
    hide WorldAt, PidAt;
    var n := |procs|;
    RemainingBounds(policy, procs, t, t + 1, n);
    RemainingStep(policy, procs, t, n);
    if PidAt(policy, procs, t) == 0 {
      forall i | 0 <= i < n && procs[i].arrivalTime < t + 1
        ensures Progress(policy, procs, i, t) == procs[i].processingTime
      {
        TickOf(policy, procs, i, t);
      }
    } else {
      var i := SomeoneRuns(policy, procs, t);
      TickOf(policy, procs, i, t);
    }
  }

  /** Before every tick the work left is the same for all policies: each is work-conserving. */
  lemma {:induction false} WorkConserving(policy: Policy, procs: seq<ProcessInitial>, t: nat)
    requires ValidInput(procs)
    ensures Remaining(policy, procs, t, |procs|) == WorkLeft(procs, t)
    ensures PidAt(policy, procs, t) == 0 <==> WorkLeft(procs, t) <= Future(procs, t + 1)
  {
    hide WorldAt, PidAt, Remaining;
    if t == 0 {
      RemainingAtStart(policy, procs, |procs|);
    } else {
      WorkConserving(policy, procs, t - 1);
      BusyOrIdle(policy, procs, t - 1);
      RemainingBounds(policy, procs, t - 1, t, |procs|);
    }
    BusyOrIdle(policy, procs, t);
    RemainingBounds(policy, procs, t, t + 1, |procs|);
  }

  /** Any two of the five policies idle on exactly the same ticks. */
  lemma SameIdleTicks(policy: Policy, other: Policy, procs: seq<ProcessInitial>, t: nat)
    requires ValidInput(procs)
    ensures PidAt(policy, procs, t) == 0 <==> PidAt(other, procs, t) == 0
  {
    hide WorldAt, PidAt;
    WorkConserving(policy, procs, t);
    WorkConserving(other, procs, t);
  }

  // ----- the finish tick

  /** The work left, if any, ends no later than the finish tick, and no gap makes it end earlier. */
  ghost predicate OnCourse(procs: seq<ProcessInitial>, t: nat) {
    var left := WorkLeft(procs, t);
    var end := FinishTick(procs);
    && left >= Future(procs, t)
    && (left == 0 ==> end <= t)
    && (left > 0 ==>
          && t + left <= end
          && (t + left == end ||
              exists i :: 0 <= i < |procs| && procs[i].arrivalTime >= t &&
                          procs[i].arrivalTime + Future(procs, procs[i].arrivalTime) == end))
  }

  lemma OnCourseAtStart(procs: seq<ProcessInitial>)
    requires ValidInput(procs)
    ensures OnCourse(procs, 0)
  {
    LatestEndIsMax(procs, |procs|);
    if |procs| > 0 {
      var i := NextArrival(procs, 0, 0);
    }
  }

  lemma OnCourseStep(procs: seq<ProcessInitial>, t: nat)
    requires ValidInput(procs) && OnCourse(procs, t)
    ensures OnCourse(procs, t + 1)
  {
    hide LatestEnd;
    var n := |procs|;
    var left := WorkLeft(procs, t);
    LatestEndIsMax(procs, n);
    WorkFromStep(procs, t, t + 1, n);
    WorkFromStep(procs, t + 1, t + 1, n);
    NoFuture(procs, t + 1, n);
    if left > 0 && left <= Future(procs, t + 1) {
      // The tick idles: what is left starts with a later arrival.
      var k :| 0 <= k < n && procs[k].arrivalTime >= t + 1;
      var j := NextArrival(procs, t + 1, k);
      var i :| 0 <= i < n && procs[i].arrivalTime >= t &&
            procs[i].arrivalTime + Future(procs, procs[i].arrivalTime) == FinishTick(procs);
      assert Future(procs, t) == Future(procs, t + 1);
      assert procs[i].arrivalTime != t;
    }
  }

  lemma {:induction false} AlwaysOnCourse(procs: seq<ProcessInitial>, t: nat)
    requires ValidInput(procs)
    ensures OnCourse(procs, t)
  {
    hide OnCourse;
    if t == 0 {
      OnCourseAtStart(procs);
    } else {
      AlwaysOnCourse(procs, t - 1);
      OnCourseStep(procs, t - 1);
    }
  }

  predicate StillRunning(stats: seq<ProcessStats>) {
    exists i :: 0 <= i < |stats| && stats[i].processedTime < stats[i].initial.processingTime
  }

  /** Under every policy something is still running before tick t exactly when t is below the
      finish tick, the maximum over all processes of arrival time plus the processing time of
      everything that arrives from then on. */
  lemma FinishesAt(policy: Policy, procs: seq<ProcessInitial>, t: nat)
    requires ValidInput(procs)
    ensures StillRunning(WorldAt(policy, procs, t).stats) <==> t < FinishTick(procs)
  {
    WorkConserving(policy, procs, t);
    AlwaysOnCourse(procs, t);
    RemainingZero(policy, procs, t, |procs|);
    AlwaysAgree(policy, procs, t);
  }

  lemma {:induction false} RemainingZero(policy: Policy, procs: seq<ProcessInitial>, t: nat, n: nat)
    requires ValidInput(procs) && n <= |procs|
    ensures Remaining(policy, procs, t, n) >= 0
    ensures Remaining(policy, procs, t, n) == 0 <==>
            forall i :: 0 <= i < n ==> Progress(policy, procs, i, t) >= procs[i].processingTime
  {
    hide WorldAt;
    if n > 0 {
      RemainingZero(policy, procs, t, n - 1);
      TickOf(policy, procs, n - 1, t);
    }
  }

  // ----- one process over a whole run

  /** On how many of the ticks a..b-1 the PID was printed. */
  function TicksOf(policy: Policy, procs: seq<ProcessInitial>, pid: nat, a: nat, b: nat): nat
    decreases b
  {
    if b <= a then 0
    else TicksOf(policy, procs, pid, a, b - 1) + if PidAt(policy, procs, b - 1) == pid then 1 else 0
  }

  /** On how many of the ticks a..b-1 some other PID was printed. */
  function TicksOfOthers(policy: Policy, procs: seq<ProcessInitial>, pid: nat, a: nat, b: nat): nat
    decreases b
  {
    if b <= a then 0
    else
      var q := PidAt(policy, procs, b - 1);
      TicksOfOthers(policy, procs, pid, a, b - 1) + if q != 0 && q != pid then 1 else 0
  }

  lemma {:induction false} ProgressMonotone(policy: Policy, procs: seq<ProcessInitial>, i: nat, t: nat, u: nat)
    requires ValidInput(procs) && i < |procs| && t <= u
    ensures Progress(policy, procs, i, t) <= Progress(policy, procs, i, u) <= procs[i].processingTime
    decreases u
  {
    hide WorldAt, PidAt;
    TickOf(policy, procs, i, t);
    if t < u {
      ProgressMonotone(policy, procs, i, t, u - 1);
      TickOf(policy, procs, i, u - 1);
      TickOf(policy, procs, i, u);
    }
  }

  /** The output shows a PID exactly as often as the simulator has charged it. */
  lemma {:induction false} TicksAreProgress(policy: Policy, procs: seq<ProcessInitial>, i: nat, t: nat)
    requires ValidInput(procs) && i < |procs|
    ensures TicksOf(policy, procs, procs[i].pid, 0, t) == Progress(policy, procs, i, t)
  {
    hide WorldAt, PidAt;
    if t == 0 {
      TickOf(policy, procs, i, 0);
    } else {
      TicksAreProgress(policy, procs, i, t - 1);
      TickOf(policy, procs, i, t - 1);
    }
  }

  /** The same from its arrival on: it is not printed before. */
  lemma {:induction false} TicksSinceArrival(policy: Policy, procs: seq<ProcessInitial>, i: nat, t: nat)
    requires ValidInput(procs) && i < |procs| && procs[i].arrivalTime <= t
    ensures TicksOf(policy, procs, procs[i].pid, procs[i].arrivalTime, t) == Progress(policy, procs, i, t)
    decreases t
  {
    hide WorldAt, PidAt;
    TickOf(policy, procs, i, t);
    if t > procs[i].arrivalTime {
      TicksSinceArrival(policy, procs, i, t - 1);
      TickOf(policy, procs, i, t - 1);
    }
  }

  /** The recorded end time of a completed process is the tick of its last unit. */
  lemma {:induction false} EndTimeIsLastTick(policy: Policy, procs: seq<ProcessInitial>, i: nat, t: nat)
    requires ValidInput(procs) && i < |procs| && Progress(policy, procs, i, t) == procs[i].processingTime
    ensures var end := EndTime(policy, procs, i, t);
            && procs[i].arrivalTime <= end < t
            && PidAt(policy, procs, end) == procs[i].pid
            && Progress(policy, procs, i, end) + 1 == procs[i].processingTime
            && forall u :: u > end ==> PidAt(policy, procs, u) != procs[i].pid
  {
    hide WorldAt, PidAt;
    TickOf(policy, procs, i, t);
    if t > 0 {
      TickOf(policy, procs, i, t - 1);
      if PidAt(policy, procs, t - 1) == procs[i].pid {
        var end := t - 1;
        forall u | u > end
          ensures PidAt(policy, procs, u) != procs[i].pid
        {
          ProgressMonotone(policy, procs, i, t, u);
          TickOf(policy, procs, i, u);
        }
      } else {
        EndTimeIsLastTick(policy, procs, i, t - 1);
      }
    }
  }

  /** From its arrival until it completes a process is either running or kept waiting by another
      one: no tick idles. */
  lemma {:induction false} RunsOrWaits(policy: Policy, procs: seq<ProcessInitial>, i: nat, t: nat)
    requires ValidInput(procs) && i < |procs| && procs[i].arrivalTime <= t
    requires t == procs[i].arrivalTime || Progress(policy, procs, i, t - 1) < procs[i].processingTime
    ensures TicksOfOthers(policy, procs, procs[i].pid, procs[i].arrivalTime, t) + Progress(policy, procs, i, t)
         == t - procs[i].arrivalTime
    decreases t
  {
    hide WorldAt, PidAt;
    TickOf(policy, procs, i, t);
    if t > procs[i].arrivalTime {
      TickOf(policy, procs, i, t - 1);
      if t - 1 > procs[i].arrivalTime {
        ProgressMonotone(policy, procs, i, t - 2, t - 1);
      }
      RunsOrWaits(policy, procs, i, t - 1);
    }
  }

  /** Every unit below the current progress was run on some earlier tick. */
  lemma {:induction false} UnitTick(policy: Policy, procs: seq<ProcessInitial>, i: nat, d: nat, t: nat) returns (u: nat)
    requires ValidInput(procs) && i < |procs| && d < Progress(policy, procs, i, t)
    ensures u < t && PidAt(policy, procs, u) == procs[i].pid && Progress(policy, procs, i, u) == d
  {
    hide WorldAt, PidAt;
    TickOf(policy, procs, i, t);
    if t == 0 {
      assert false;
    } else {
      TickOf(policy, procs, i, t - 1);
      if Progress(policy, procs, i, t - 1) == d {
        u := t - 1;
      } else {
        u := UnitTick(policy, procs, i, d, t - 1);
      }
    }
  }

  /** And on no other tick. */
  lemma UnitTickUnique(policy: Policy, procs: seq<ProcessInitial>, i: nat, u: nat, v: nat)
    requires ValidInput(procs) && i < |procs|
    requires PidAt(policy, procs, u) == procs[i].pid && PidAt(policy, procs, v) == procs[i].pid
    requires Progress(policy, procs, i, u) == Progress(policy, procs, i, v)
    ensures u == v
  {
    hide WorldAt, PidAt;
    TickOf(policy, procs, i, u);
    TickOf(policy, procs, i, v);
    if u < v {
      ProgressMonotone(policy, procs, i, u + 1, v);
    } else if v < u {
      ProgressMonotone(policy, procs, i, v + 1, u);
    }
  }

  /** By the finish tick every process has all its units. */
  lemma DoneByFinish(policy: Policy, procs: seq<ProcessInitial>, i: nat, t: nat)
    requires ValidInput(procs) && i < |procs| && t >= FinishTick(procs)
    ensures Progress(policy, procs, i, t) == procs[i].processingTime
  {
    hide PidAt;
    FinishesAt(policy, procs, t);
    AlwaysAgree(policy, procs, t);
    TickOf(policy, procs, i, t);
  }

  /** `calculate_turnaround_time` and `calculate_wait_time`, before any unsigned wrap-around. */
  function TurnaroundTime(p: ProcessStats): int {
    p.endTime - p.initial.arrivalTime + 1
  }

  function WaitTime(p: ProcessStats): int {
    TurnaroundTime(p) - p.processedTime
  }

  /** What the final records of a run say about process i. */
  lemma CompletedProcess(policy: Policy, procs: seq<ProcessInitial>, i: nat, t: nat)
    requires ValidInput(procs) && i < |procs| && t >= FinishTick(procs)
    ensures var p := WorldAt(policy, procs, t).stats[i];
            && p.initial == procs[i]
            && TicksOf(policy, procs, p.initial.pid, 0, t) == p.initial.processingTime
            && (forall u: nat :: PidAt(policy, procs, u) == p.initial.pid ==> p.initial.arrivalTime <= u <= p.endTime)
            && PidAt(policy, procs, p.endTime) == p.initial.pid
            && TurnaroundTime(p) == TicksOf(policy, procs, p.initial.pid, p.initial.arrivalTime, p.endTime + 1) +
                                    TicksOfOthers(policy, procs, p.initial.pid, p.initial.arrivalTime, p.endTime + 1)
            && WaitTime(p) == TicksOfOthers(policy, procs, p.initial.pid, p.initial.arrivalTime, p.endTime + 1)
            && 0 <= WaitTime(p) < TurnaroundTime(p)
  {
    hide WorldAt, PidAt;
    DoneByFinish(policy, procs, i, t);
    AlwaysAgree(policy, procs, t);
    TicksAreProgress(policy, procs, i, t);
    EndTimeIsLastTick(policy, procs, i, t);
    var end := EndTime(policy, procs, i, t);
    forall u: nat | PidAt(policy, procs, u) == procs[i].pid
      ensures procs[i].arrivalTime <= u <= end
    {
      TickOf(policy, procs, i, u);
    }
    TickOf(policy, procs, i, end);
    TicksSinceArrival(policy, procs, i, end + 1);
    RunsOrWaits(policy, procs, i, end + 1);
  }
}
