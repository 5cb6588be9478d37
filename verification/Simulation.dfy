/** The simulator composed with a scheduler: the state before every tick and the PID chosen on
    it, and the invariant that ties the two copies of the bookkeeping together. */
module Simulation {
  import opened Processes
  import opened ReadyQueue
  import opened Schedulers
  import opened SchedulerContract

  datatype World = World(stats: seq<ProcessStats>, sched: State)

  /** The records `main` builds from its input. */
  function Fresh(procs: seq<ProcessInitial>): seq<ProcessStats> {
    seq(|procs|, i requires 0 <= i < |procs| => ProcessStats(procs[i], 0, 0))
  }

  /** The inner loop: hand over, in array order, the processes arriving at tick t. */
  function Arrive(policy: Policy, s: State, stats: seq<ProcessStats>, t: nat): (s': State)
    requires |s.queues| == QueueCount(policy)
    ensures |s'.queues| == QueueCount(policy)
  {
    if stats == [] then s else
    var last := stats[|stats| - 1].initial;
    var s' := Arrive(policy, s, stats[..|stats| - 1], t);
    if last.arrivalTime == t then Add(policy, s', last) else s'
  }

  /** `get_pid_index`: the first record with that PID, |stats| when there is none. */
  function FindPid(stats: seq<ProcessStats>, pid: nat, k: nat): (r: nat)
    requires k <= |stats|
    ensures k <= r <= |stats|
    ensures r < |stats| ==> stats[r].initial.pid == pid
    ensures forall i :: k <= i < r ==> stats[i].initial.pid != pid
    decreases |stats| - k
  {
    if k < |stats| && stats[k].initial.pid != pid then FindPid(stats, pid, k + 1) else k
  }

  /** One unit of execution, and the end time when it was the last one. */
  function Bump(p: ProcessStats, t: nat): ProcessStats {
    ProcessStats(p.initial, p.processedTime + 1,
                 if p.processedTime + 1 == p.initial.processingTime then t else p.endTime)
  }

  function Charge(stats: seq<ProcessStats>, pid: nat, t: nat): seq<ProcessStats> {
    var k := FindPid(stats, pid, 0);
    if pid == 0 || k == |stats| then stats else stats[k := Bump(stats[k], t)]
  }

  /** The scheduler's state on tick t of a run, between the arrivals and the choice. */
  function ArrivedIn(policy: Policy, procs: seq<ProcessInitial>, t: nat): (s: State)
    ensures |s.queues| == QueueCount(policy)
  {
    var w := WorldAt(policy, procs, t);
    Arrive(policy, w.sched, w.stats, t)
  }

  function SlotIn(policy: Policy, w: World, t: nat): (slot: Slot)
    requires |w.sched.queues| == QueueCount(policy)
    ensures |slot.state.queues| == QueueCount(policy)
  {
    Next(policy, Arrive(policy, w.sched, w.stats, t))
  }

  /** The state before tick t, had the simulation no time bound. */
  function WorldAt(policy: Policy, procs: seq<ProcessInitial>, t: nat): (w: World)
    ensures |w.sched.queues| == QueueCount(policy)
    ensures |w.stats| == |procs|
  {
    if t == 0 then World(Fresh(procs), Initial(policy))
    else
      var w := WorldAt(policy, procs, t - 1);
      var slot := SlotIn(policy, w, t - 1);
      World(Charge(w.stats, slot.pid, t - 1), slot.state)
  }

  /** The PID printed for tick t (0 for none). */
  function PidAt(policy: Policy, procs: seq<ProcessInitial>, t: nat): nat {
    SlotIn(policy, WorldAt(policy, procs, t), t).pid
  }

  /** How much of process i has run before tick t, in the simulator's copy. */
  function Progress(policy: Policy, procs: seq<ProcessInitial>, i: nat, t: nat): nat
    requires i < |procs|
  {
    WorldAt(policy, procs, t).stats[i].processedTime
  }

  function EndTime(policy: Policy, procs: seq<ProcessInitial>, i: nat, t: nat): nat
    requires i < |procs|
  {
    WorldAt(policy, procs, t).stats[i].endTime
  }

  // ----- the simulator's side of the shared bookkeeping

  predicate IsPending(p: ProcessStats, t: nat) {
    p.initial.arrivalTime < t && p.processedTime < p.initial.processingTime
  }

  function PendingJob(p: ProcessStats, t: nat): multiset<Job> {
    if IsPending(p, t) then multiset{Job(p.initial, p.processedTime)} else multiset{}
  }

  /** The arrived, unfinished processes, as the simulator's records have them. */
  function Pending(stats: seq<ProcessStats>, t: nat): multiset<Job> {
    if stats == [] then multiset{}
    else Pending(stats[..|stats| - 1], t) + PendingJob(stats[|stats| - 1], t)
  }

  ghost predicate UniquePids(stats: seq<ProcessStats>) {
    forall i, j :: 0 <= i < j < |stats| ==> stats[i].initial.pid != stats[j].initial.pid
  }

  ghost predicate RecordOk(p: ProcessStats, t: nat) {
    && p.initial.pid > 0
    && p.processedTime <= p.initial.processingTime
    && p.initial.processingTime > 0
    && (p.initial.arrivalTime >= t ==> p.processedTime == 0)
  }

  ghost predicate StatsOk(stats: seq<ProcessStats>, t: nat) {
    && UniquePids(stats)
    && forall i :: 0 <= i < |stats| ==> RecordOk(stats[i], t)
  }

  /** The composed invariant: the scheduler holds exactly the arrived, unfinished processes, once
      each, with the service the simulator has recorded for them. */
  ghost predicate Agree(policy: Policy, w: World, t: nat) {
    && StatsOk(w.stats, t)
    && Ready(policy, w.sched)
    && Held(w.sched) == Pending(w.stats, t)
  }

  lemma {:induction false} PendingMember(stats: seq<ProcessStats>, t: nat, j: Job)
    ensures j in Pending(stats, t) <==>
            exists i :: 0 <= i < |stats| && IsPending(stats[i], t) && j == Job(stats[i].initial, stats[i].processedTime)
  {
    if stats != [] {
      var front := stats[..|stats| - 1];
      PendingMember(front, t, j);
      assert forall i :: 0 <= i < |front| ==> front[i] == stats[i];
      if j in Pending(front, t) {
        var i :| 0 <= i < |front| && IsPending(front[i], t) && j == Job(front[i].initial, front[i].processedTime);
        assert IsPending(stats[i], t);
      }
    }
  }

  lemma PendingIndex(stats: seq<ProcessStats>, t: nat, j: Job) returns (i: nat)
    requires j in Pending(stats, t)
    ensures i < |stats| && IsPending(stats[i], t) && j == Job(stats[i].initial, stats[i].processedTime)
  {
    PendingMember(stats, t, j);
    i :| 0 <= i < |stats| && IsPending(stats[i], t) && j == Job(stats[i].initial, stats[i].processedTime);
  }

  lemma Swap(a: multiset<Job>, b: multiset<Job>, c: multiset<Job>, d: multiset<Job>, e: multiset<Job>)
    requires a + b == c + d
    ensures (a + e) + b == (c + e) + d
  {
    Shuffle(a, e, b);
    Shuffle(c, e, d);
  }

  lemma {:induction false} PendingUpdate(stats: seq<ProcessStats>, i: nat, p: ProcessStats, t: nat)
    requires i < |stats|
    ensures Pending(stats[i := p], t) + PendingJob(stats[i], t) == Pending(stats, t) + PendingJob(p, t)
  {
    hide PendingJob;
    var n := |stats| - 1;
    var changed := stats[i := p];
    if i == n {
      assert changed[..n] == stats[..n];
      Shuffle(Pending(stats[..n], t), PendingJob(p, t), PendingJob(stats[i], t));
    } else {
      assert changed[..n] == stats[..n][i := p];
      PendingUpdate(stats[..n], i, p, t);
      Swap(Pending(changed[..n], t), PendingJob(stats[i], t), Pending(stats[..n], t), PendingJob(p, t),
           PendingJob(stats[n], t));
    }
  }

  // ----- arrivals

  /** Part-way through the inner loop the scheduler also holds the newcomers already handed over. */
  lemma {:induction false} ArriveContract(policy: Policy, s: State, stats: seq<ProcessStats>, k: nat, t: nat)
    requires k <= |stats| && StatsOk(stats, t)
    requires |s.queues| == QueueCount(policy) && Ready(policy, s) && Held(s) == Pending(stats, t)
    ensures var s' := Arrive(policy, s, stats[..k], t);
            Ready(policy, s') && Held(s') == Pending(stats[..k], t + 1) + Pending(stats[k..], t)
  {
    hide Ready, Held, StatsOk;
    if k == 0 {
      assert stats[0..] == stats;
    } else {
      ArriveContract(policy, s, stats, k - 1, t);
      assert stats[..k][..k - 1] == stats[..k - 1];
      ArriveOne(policy, Arrive(policy, s, stats[..k - 1], t), stats, k - 1, t);
    }
  }

  lemma ArriveOne(policy: Policy, s: State, stats: seq<ProcessStats>, k: nat, t: nat)
    requires k < |stats| && StatsOk(stats, t)
    requires |s.queues| == QueueCount(policy) && Ready(policy, s)
    requires Held(s) == Pending(stats[..k], t + 1) + Pending(stats[k..], t)
    ensures var p := stats[k].initial;
            var s' := if p.arrivalTime == t then Add(policy, s, p) else s;
            Ready(policy, s') && Held(s') == Pending(stats[..k + 1], t + 1) + Pending(stats[k + 1..], t)
  {
    hide Ready, Held;
    var p := stats[k];
    var a, b := Pending(stats[..k], t + 1), Pending(stats[k + 1..], t);
    PendingFront(stats[k..], t);
    assert stats[k..][1..] == stats[k + 1..];
    assert stats[..k + 1][..k] == stats[..k];
    Shuffle(a, PendingJob(p, t + 1), b);
    if p.initial.arrivalTime == t {
      NewcomerUnknown(stats, k, t);
      AddContract(policy, s, p.initial);
    }
  }

  lemma {:induction false} PendingFront(stats: seq<ProcessStats>, t: nat)
    requires stats != []
    ensures Pending(stats, t) == PendingJob(stats[0], t) + Pending(stats[1..], t)
  {
    hide PendingJob;
    var n := |stats| - 1;
    if n > 0 {
      PendingFront(stats[..n], t);
      assert stats[..n][1..] == stats[1..][..n - 1];
      Shuffle(PendingJob(stats[0], t), Pending(stats[1..][..n - 1], t), PendingJob(stats[n], t));
    }
  }

  lemma NewcomerUnknown(stats: seq<ProcessStats>, k: nat, t: nat)
    requires k < |stats| && StatsOk(stats, t) && stats[k].initial.arrivalTime == t
    ensures !HasPid(Pending(stats[..k], t + 1) + Pending(stats[k + 1..], t), stats[k].initial.pid)
    ensures Pending(stats[k..], t) == Pending(stats[k + 1..], t)
  {
    forall j | j in Pending(stats[..k], t + 1) + Pending(stats[k + 1..], t)
      ensures j.initial.pid != stats[k].initial.pid
    {
      if j in Pending(stats[..k], t + 1) {
        var i := PendingIndex(stats[..k], t + 1, j);
      } else {
        var i := PendingIndex(stats[k + 1..], t, j);
        assert stats[k + 1..][i] == stats[k + 1 + i];
      }
    }
    PendingFront(stats[k..], t);
    assert stats[k..][1..] == stats[k + 1..];
  }

  lemma ArrivedContract(policy: Policy, w: World, t: nat)
    requires |w.sched.queues| == QueueCount(policy) && Agree(policy, w, t)
    ensures var s := Arrive(policy, w.sched, w.stats, t);
            Ready(policy, s) && Held(s) == Pending(w.stats, t + 1)
  {
    hide Ready, Held;
    ArriveContract(policy, w.sched, w.stats, |w.stats|, t);
    assert w.stats[..|w.stats|] == w.stats;
  }

  // ----- one tick

  /** Record i is the one that runs on this tick. */
  ghost predicate Runs(stats: seq<ProcessStats>, stats': seq<ProcessStats>, pid: nat, i: nat, t: nat) {
    && i < |stats|
    && stats[i].initial.pid == pid
    && IsPending(stats[i], t + 1)
    && stats' == stats[i := Bump(stats[i], t)]
  }

  ghost predicate Idle(stats: seq<ProcessStats>, t: nat) {
    forall i :: 0 <= i < |stats| ==> !IsPending(stats[i], t + 1)
  }

  lemma FoundAt(stats: seq<ProcessStats>, i: nat)
    requires UniquePids(stats) && i < |stats|
    ensures FindPid(stats, stats[i].initial.pid, 0) == i
  {
    var k := FindPid(stats, stats[i].initial.pid, 0);
    assert k <= i;
  }

  lemma BumpOk(stats: seq<ProcessStats>, i: nat, t: nat)
    requires StatsOk(stats, t) && i < |stats| && IsPending(stats[i], t + 1)
    ensures StatsOk(stats[i := Bump(stats[i], t)], t + 1)
  {
  }

  lemma ServedPending(stats: seq<ProcessStats>, i: nat, t: nat, after: multiset<Job>)
    requires i < |stats| && IsPending(stats[i], t + 1)
    requires Exchanges(Pending(stats, t + 1), after, Job(stats[i].initial, stats[i].processedTime))
    ensures after == Pending(stats[i := Bump(stats[i], t)], t + 1)
  {
    hide Pending, PendingJob, AfterService;
    var p := Bump(stats[i], t);
    var j := Job(stats[i].initial, stats[i].processedTime);
    PendingUpdate(stats, i, p, t + 1);
    BumpedJob(stats[i], t);
    Cancel(after, Pending(stats[i := p], t + 1), multiset{j});
  }

  lemma BumpedJob(p: ProcessStats, t: nat)
    requires IsPending(p, t + 1)
    ensures PendingJob(p, t + 1) == multiset{Job(p.initial, p.processedTime)}
    ensures PendingJob(Bump(p, t), t + 1) == AfterService(Job(p.initial, p.processedTime))
  {
  }

  lemma NothingPending(stats: seq<ProcessStats>, t: nat)
    requires Pending(stats, t + 1) == multiset{}
    ensures Idle(stats, t)
  {
    forall i | 0 <= i < |stats|
      ensures !IsPending(stats[i], t + 1)
    {
      PendingMember(stats, t + 1, Job(stats[i].initial, stats[i].processedTime));
    }
  }

  /** One tick of the composed system keeps the bookkeeping in agreement; the PID it returns is 0
      exactly when nothing is pending, and otherwise names a pending record, which is charged. */
  lemma TickAgrees(policy: Policy, w: World, t: nat)
    requires |w.sched.queues| == QueueCount(policy) && Agree(policy, w, t)
    ensures var slot := SlotIn(policy, w, t);
            var stats' := Charge(w.stats, slot.pid, t);
            && Agree(policy, World(stats', slot.state), t + 1)
            && (slot.pid == 0 <==> Idle(w.stats, t))
            && (slot.pid == 0 ==> stats' == w.stats)
            && (slot.pid != 0 ==> exists i :: Runs(w.stats, stats', slot.pid, i, t))
  {
    hide Ready, Held, Exchanges, Distinct, AllUnfinished, Shape;
    ArrivedContract(policy, w, t);
    var s := Arrive(policy, w.sched, w.stats, t);
    NextContract(policy, s);
    var slot := SlotIn(policy, w, t);
    if Chosen(policy, s).None? {
      NothingPending(w.stats, t);
    } else {
      var p := Chosen(policy, s).value;
      ExchangedMember(Held(s), Held(slot.state), JobOf(p));
      var i := PendingIndex(w.stats, t + 1, JobOf(p));
      FoundAt(w.stats, i);
      BumpOk(w.stats, i, t);
      ServedPending(w.stats, i, t, Held(slot.state));
      assert Runs(w.stats, Charge(w.stats, slot.pid, t), slot.pid, i, t);
    }
  }

  lemma ExchangedMember(before: multiset<Job>, after: multiset<Job>, j: Job)
    requires Exchanges(before, after, j)
    ensures j in before
  {
  }

  lemma {:induction false} NonePendingAtStart(stats: seq<ProcessStats>)
    ensures Pending(stats, 0) == multiset{}
  {
    if stats != [] {
      NonePendingAtStart(stats[..|stats| - 1]);
    }
  }

  lemma AgreeAtStart(policy: Policy, procs: seq<ProcessInitial>)
    requires ValidInput(procs)
    ensures Agree(policy, WorldAt(policy, procs, 0), 0)
  {
    InitialReady(policy);
    NonePendingAtStart(Fresh(procs));
  }

  /** In every reachable state, for every policy and workload, the two copies agree. */
  lemma {:induction false} AlwaysAgree(policy: Policy, procs: seq<ProcessInitial>, t: nat)
    requires ValidInput(procs)
    ensures Agree(policy, WorldAt(policy, procs, t), t)
    ensures forall i :: 0 <= i < |procs| ==> WorldAt(policy, procs, t).stats[i].initial == procs[i]
  {
    hide Agree, SlotIn;
    if t == 0 {
      AgreeAtStart(policy, procs);
    } else {
      AlwaysAgree(policy, procs, t - 1);
      TickAgrees(policy, WorldAt(policy, procs, t - 1), t - 1);
    }
  }

  lemma Runner(stats: seq<ProcessStats>, stats': seq<ProcessStats>, pid: nat, t: nat) returns (i: nat)
    requires exists k :: Runs(stats, stats', pid, k, t)
    ensures i < |stats| && stats[i].initial.pid == pid && IsPending(stats[i], t + 1)
    ensures stats' == stats[i := Bump(stats[i], t)]
  {
    i :| Runs(stats, stats', pid, i, t);
  }

  /** What a tick does to process i: it runs exactly when its PID is the one printed, and then it
      has arrived and is unfinished, so it is never scheduled for too long. */
  lemma TickOf(policy: Policy, procs: seq<ProcessInitial>, i: nat, t: nat)
    requires ValidInput(procs) && i < |procs|
    ensures Progress(policy, procs, i, t) <= procs[i].processingTime
    ensures procs[i].arrivalTime >= t ==> Progress(policy, procs, i, t) == 0
    ensures PidAt(policy, procs, t) == procs[i].pid ==>
              && procs[i].arrivalTime <= t
              && Progress(policy, procs, i, t) < procs[i].processingTime
              && Progress(policy, procs, i, t + 1) == Progress(policy, procs, i, t) + 1
              && EndTime(policy, procs, i, t + 1) ==
                 (if Progress(policy, procs, i, t) + 1 == procs[i].processingTime then t
                  else EndTime(policy, procs, i, t))
    ensures PidAt(policy, procs, t) != procs[i].pid ==>
              && Progress(policy, procs, i, t + 1) == Progress(policy, procs, i, t)
              && EndTime(policy, procs, i, t + 1) == EndTime(policy, procs, i, t)
    ensures PidAt(policy, procs, t) == 0 ==>
              procs[i].arrivalTime > t || Progress(policy, procs, i, t) == procs[i].processingTime
  {
    hide Ready, Held, SlotIn, Charge;
    var w := WorldAt(policy, procs, t);
    AlwaysAgree(policy, procs, t);
    TickAgrees(policy, w, t);
    var stats' := WorldAt(policy, procs, t + 1).stats;
    assert RecordOk(w.stats[i], t);
    if PidAt(policy, procs, t) != 0 {
      var k := Runner(w.stats, stats', PidAt(policy, procs, t), t);
      assert w.stats[k].initial == procs[k];
    }
  }

  /** A non-zero PID always belongs to a process: `get_pid_index` never misses. */
  lemma SomeoneRuns(policy: Policy, procs: seq<ProcessInitial>, t: nat) returns (i: nat)
    requires ValidInput(procs)
    requires PidAt(policy, procs, t) != 0
    ensures i < |procs| && procs[i].pid == PidAt(policy, procs, t)
    ensures FindPid(WorldAt(policy, procs, t).stats, PidAt(policy, procs, t), 0) == i
  {
    hide Ready, Held, SlotIn, Charge;
    var w := WorldAt(policy, procs, t);
    AlwaysAgree(policy, procs, t);
    TickAgrees(policy, w, t);
    assert StatsOk(w.stats, t);
    i := Runner(w.stats, WorldAt(policy, procs, t + 1).stats, PidAt(policy, procs, t), t);
    FoundAt(w.stats, i);
  }

  /** The process a tick charges, in the scheduler's own record of it. */
  lemma ChosenRuns(policy: Policy, procs: seq<ProcessInitial>, t: nat) returns (i: nat)
    requires ValidInput(procs)
    ensures var s := ArrivedIn(policy, procs, t);
            && Next(policy, s).pid == PidAt(policy, procs, t)
            && WorldAt(policy, procs, t + 1).sched == Next(policy, s).state
            && (Chosen(policy, s).None? ==> PidAt(policy, procs, t) == 0 && Next(policy, s).state == s)
            && (Chosen(policy, s).Some? ==>
                  && i < |procs|
                  && procs[i] == Chosen(policy, s).value.initial
                  && PidAt(policy, procs, t) == procs[i].pid
                  && Progress(policy, procs, i, t) == Chosen(policy, s).value.processedTime)
  {
    hide Ready, Held, Exchanges, Shape, Arrive, Chosen, Next;
    i := 0;
    AlwaysAgree(policy, procs, t);
    var w := WorldAt(policy, procs, t);
    ArrivedContract(policy, w, t);
    var s := Arrive(policy, w.sched, w.stats, t);
    NextContract(policy, s);
    if Chosen(policy, s).Some? {
      var j := JobOf(Chosen(policy, s).value);
      ExchangedMember(Held(s), Held(Next(policy, s).state), j);
      i := PendingIndex(w.stats, t + 1, j);
    }
  }
}
