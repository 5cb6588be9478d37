/** Queues are first in, first out: under round robin and the feedback policies a process that has
    used up its quantum runs again only after everything that was waiting beside it. */
module QueueOrder {
  import opened Processes
  import opened ReadyQueue
  import opened Schedulers
  import opened SchedulerContract
  import opened Simulation
  import opened OrderIndependence
  import opened WholeRuns
  import opened CustomRuns
  import opened FeedbackRuns
  import opened RoundRobinRuns

  predicate Fifo(policy: Policy) {
    policy.RoundRobin? || policy.Constant? || policy.Exponential?
  }

  // ----- distinct places hold distinct PIDs

  lemma InFirst(q: seq<Process>, p: Process)
    requires p in q
    ensures HasPid(Jobs(q), p.initial.pid)
  {
    JobsMember(q, JobOf(p));
  }

  lemma TwoInQueue(q: seq<Process>, a: nat, b: nat)
    requires a < b < |q| && Distinct(Jobs(q))
    ensures q[a].initial.pid != q[b].initial.pid
  {
    var front, back := q[..b], q[b..];
    assert q == front + back;
    JobsAppend(front, back);
    DistinctParts(Jobs(front), Jobs(back));
    assert front[a] in front && back[0] in back;
    InFirst(front, q[a]);
    InFirst(back, q[b]);
  }

  lemma QueueDistinct(s: State, k: nat)
    requires k < |s.queues| && Distinct(Held(s))
    ensures Distinct(Jobs(s.queues[k]))
    ensures forall m, x :: 0 <= m < |s.queues| && m != k && x in s.queues[m] ==>
              !HasPid(Jobs(s.queues[k]), x.initial.pid)
  {
    var rest := s.queues[k := []];
    JobsInUpdate(s.queues, k, []);
    assert JobsIn(rest) + Jobs(s.queues[k]) == JobsIn(s.queues) by {
      assert Jobs([]) == multiset{};
    }
    DistinctParts(JobsIn(s.queues), CurrentJob(s));
    DistinctParts(JobsIn(rest), Jobs(s.queues[k]));
    forall m, x | 0 <= m < |s.queues| && m != k && x in s.queues[m]
      ensures HasPid(JobsIn(rest), x.initial.pid)
    {
      assert x in rest[m];
      MemberJob(rest, m, x);
    }
  }

  /** The chosen process is the current one or the head of some queue; it is not at place b > 0. */
  lemma ChosenIsElsewhere(policy: Policy, s: State, k: nat, b: nat)
    requires Fifo(policy) && Shape(policy, s) && Distinct(Held(s)) && k < |s.queues| && 0 < b < |s.queues[k]|
    requires Chosen(policy, s).Some?
    ensures Chosen(policy, s).value.initial.pid != s.queues[k][b].initial.pid
  {
    hide Held, Distinct;
    QueueDistinct(s, k);
    TwoInQueue(s.queues[k], 0, b);
    InFirst(s.queues[k], s.queues[k][b]);
    if s.current.Some? {
      CurrentNotQueued(s, k);
    } else if !policy.RoundRobin? {
      var i := FirstNonEmpty(s.queues, 0);
      if i < |s.queues| && i != k {
        assert s.queues[i][0] in s.queues[i];
      }
    }
  }

  /** How one tick moves queue k: it loses at most its head, to the processor, and what joins it
      joins at the end. */
  ghost predicate Shifts(policy: Policy, s: State, s': State, k: nat, c: nat) {
    && |s.queues| == QueueCount(policy) && k < |s.queues| && k < |s'.queues| && c <= 1 && c <= |s.queues[k]|
    && |s'.queues[k]| >= |s.queues[k]| - c
    && (forall m :: c <= m < |s.queues[k]| ==> s'.queues[k][m - c].initial == s.queues[k][m].initial)
    && (c == 1 ==> Chosen(policy, s) == Some(s.queues[k][0]))
  }

  lemma TickShifts(policy: Policy, s: State, k: nat) returns (c: nat)
    requires Fifo(policy) && |s.queues| == QueueCount(policy) && k < |s.queues|
    ensures Shifts(policy, s, Next(policy, s).state, k, c)
  {
    var s' := Next(policy, s).state;
    if policy.RoundRobin? {
      var q := s.queues[0];
      c := if q != [] && (Done(Served(q[0])) || Served(q[0]).quantumUsed == 3) then 1 else 0;
    } else {
      c := if s.current.None? && FirstNonEmpty(s.queues, 0) == k then 1 else 0;
      assert Shifts(policy, s, SelectFeedback(s), k, c);
    }
  }

  lemma AheadStaysAhead(policy: Policy, procs: seq<ProcessInitial>, t: nat, k: nat, a: nat, b: nat)
    returns (a': nat, b': nat)
    requires Fifo(policy) && ValidInput(procs)
    requires var s := ArrivedIn(policy, procs, t);
             && k < |s.queues| && a < b < |s.queues[k]|
             && (Chosen(policy, s).Some? ==> Chosen(policy, s).value.initial.pid != s.queues[k][a].initial.pid)
    ensures var s, s' := ArrivedIn(policy, procs, t), ArrivedIn(policy, procs, t + 1);
            && k < |s'.queues| && a' < b' < |s'.queues[k]|
            && s'.queues[k][a'].initial == s.queues[k][a].initial
            && s'.queues[k][b'].initial == s.queues[k][b].initial
  {
    hide WorldAt, PidAt, ArrivedIn, Next, Chosen;
    var s := ArrivedIn(policy, procs, t);
    var c := TickShifts(policy, s, k);
    NextTickExtends(policy, procs, t, k);
    a', b' := a - c, b - c;
  }

  lemma NextTickExtends(policy: Policy, procs: seq<ProcessInitial>, t: nat, k: nat)
    requires ValidInput(procs) && k < QueueCount(policy)
    ensures Next(policy, ArrivedIn(policy, procs, t)).state.queues[k] <= ArrivedIn(policy, procs, t + 1).queues[k]
  {
    hide WorldAt, PidAt, ArrivedIn, Next, Chosen;
    var i := ChosenRuns(policy, procs, t);
    NewcomersGoLast(policy, procs, t + 1);
  }

  /** Whoever is ahead in a queue runs first. */
  lemma {:induction false} AheadRunsFirst(policy: Policy, procs: seq<ProcessInitial>, t: nat, k: nat, a: nat,
          b: nat, v: nat)
    returns (u: nat)
    requires Fifo(policy) && ValidInput(procs) && t <= v
    requires var s := ArrivedIn(policy, procs, t);
             && k < |s.queues| && a < b < |s.queues[k]|
             && PidAt(policy, procs, v) == s.queues[k][b].initial.pid
    ensures t <= u < v && PidAt(policy, procs, u) == ArrivedIn(policy, procs, t).queues[k][a].initial.pid
    decreases v - t
  {
    hide WorldAt, PidAt, ArrivedIn, Next, Chosen, Held, Distinct;
    var s := ArrivedIn(policy, procs, t);
    var i := ChosenRuns(policy, procs, t);
    ArrivedReady(policy, procs, t);
    QueuedPid(policy, procs, t, k, b);
    if Chosen(policy, s).Some? {
      ChosenIsElsewhere(policy, s, k, b);
    }
    if Chosen(policy, s).Some? && Chosen(policy, s).value.initial.pid == s.queues[k][a].initial.pid {
      u := t;
    } else {
      var a', b' := AheadStaysAhead(policy, procs, t, k, a, b);
      u := AheadRunsFirst(policy, procs, t + 1, k, a', b', v);
    }
  }

  /** A queued process is one of the input's, so its PID is not 0. */
  lemma QueuedPid(policy: Policy, procs: seq<ProcessInitial>, t: nat, k: nat, b: nat)
    requires ValidInput(procs)
    requires var s := ArrivedIn(policy, procs, t); k < |s.queues| && b < |s.queues[k]|
    ensures ArrivedIn(policy, procs, t).queues[k][b].initial.pid > 0
  {
    hide WorldAt, Arrive, Ready, Held;
    var s := ArrivedIn(policy, procs, t);
    var w := WorldAt(policy, procs, t);
    AlwaysAgree(policy, procs, t);
    ArrivedContract(policy, w, t);
    QueueMember(s, k, s.queues[k][b]);
    var i := PendingIndex(w.stats, t + 1, JobOf(s.queues[k][b]));
  }

  // ----- where a pending process is

  ghost predicate IsAt(policy: Policy, procs: seq<ProcessInitial>, t: nat, j: nat, k: nat, m: nat) {
    var s := ArrivedIn(policy, procs, t);
    && j < |procs| && k < |s.queues| && m < |s.queues[k]|
    && s.queues[k][m].initial == procs[j] && s.queues[k][m].processedTime == Progress(policy, procs, j, t)
  }

  predicate IsWaiting(policy: Policy, procs: seq<ProcessInitial>, t: nat, j: nat)
    requires j < |procs|
  {
    procs[j].arrivalTime <= t && Progress(policy, procs, j, t) < procs[j].processingTime
  }

  lemma PendingIsHeld(policy: Policy, procs: seq<ProcessInitial>, t: nat, j: nat)
    requires ValidInput(procs) && j < |procs| && IsWaiting(policy, procs, t, j)
    ensures Job(procs[j], Progress(policy, procs, j, t)) in Held(ArrivedIn(policy, procs, t))
  {
    hide WorldAt, Arrive, Ready, Held;
    var w := WorldAt(policy, procs, t);
    AlwaysAgree(policy, procs, t);
    ArrivedContract(policy, w, t);
    PendingMember(w.stats, t + 1, Job(procs[j], Progress(policy, procs, j, t)));
    assert IsPending(w.stats[j], t + 1);
  }

  /** A pending process that is not the current one is in some queue. */
  lemma WhereIs(policy: Policy, procs: seq<ProcessInitial>, t: nat, j: nat) returns (k: nat, m: nat)
    requires ValidInput(procs) && j < |procs| && IsWaiting(policy, procs, t, j)
    requires var c := ArrivedIn(policy, procs, t).current; c.Some? ==> c.value.initial != procs[j]
    ensures IsAt(policy, procs, t, j, k, m)
  {
    hide WorldAt, ArrivedIn, JobsIn;
    var s := ArrivedIn(policy, procs, t);
    var job := Job(procs[j], Progress(policy, procs, j, t));
    PendingIsHeld(policy, procs, t, j);
    assert job in JobsIn(s.queues);
    k, m := JobPlace(s.queues, job);
  }

  lemma JobPlace(queues: seq<seq<Process>>, j: Job) returns (k: nat, m: nat)
    requires j in JobsIn(queues)
    ensures k < |queues| && m < |queues[k]| && JobOf(queues[k][m]) == j
  {
    JobsInMember(queues, j);
    var i, p :| 0 <= i < |queues| && p in queues[i] && JobOf(p) == j;
    k := i;
    m :| 0 <= m < |queues[k]| && queues[k][m] == p;
  }

  /** After its third unit a round-robin process that needs more runs again only after every
      process that was pending at the time has run. */
  lemma RoundRobinTurn(procs: seq<ProcessInitial>, i: nat, j: nat, t: nat, v: nat) returns (u: nat)
    requires ValidInput(procs) && i < |procs| && j < |procs| && i != j
    requires PidAt(RoundRobin, procs, t) == procs[i].pid && Progress(RoundRobin, procs, i, t) == 2 &&
              procs[i].processingTime > 3
    requires IsWaiting(RoundRobin, procs, t, j)
    requires t < v && PidAt(RoundRobin, procs, v) == procs[i].pid
    ensures t < u < v && PidAt(RoundRobin, procs, u) == procs[j].pid
  {
    hide WorldAt, PidAt, ArrivedIn, Held, Distinct, IsWaiting;
    var s := ArrivedIn(RoundRobin, procs, t);
    var q := s.queues[0];
    var r := ChosenRuns(RoundRobin, procs, t);
    assert r == i by {
      assert procs[i].pid > 0;
    }
    ArrivedReady(RoundRobin, procs, t);
    QuantumAlwaysProgress(procs, t);
    var k, m := WhereIs(RoundRobin, procs, t, j);
    assert q[0].initial == procs[i] && m > 0;
    NextTickExtends(RoundRobin, procs, t, 0);
    assert Next(RoundRobin, s).state.queues[0] == q[1..] + [Served(q[0])];
    u := AheadRunsFirst(RoundRobin, procs, t + 1, 0, m - 1, |q| - 1, v);
  }

  // ----- the feedback queues

  /** The level a process with that much service queues at. */
  function LevelFor(policy: Policy, received: nat): nat {
    if received < Base(policy, 1) then 0
    else if received < Base(policy, 2) then 1
    else if received < Base(policy, 3) then 2
    else 3
  }

  lemma LevelForAtLevel(policy: Policy, level: nat, received: nat)
    requires FeedbackPolicy(policy) && level < 4 && AtLevel(policy, level, received)
    ensures LevelFor(policy, received) == level
  {
    Constants(policy);
  }

  lemma QueueLevel(policy: Policy, procs: seq<ProcessInitial>, t: nat, j: nat, k: nat, m: nat)
    requires FeedbackPolicy(policy) && ValidInput(procs) && IsAt(policy, procs, t, j, k, m)
    ensures LevelFor(policy, Progress(policy, procs, j, t)) == k
  {
    hide WorldAt, ArrivedIn, AtLevel, LevelFor;
    FeedbackRuns.BurstLaw(policy, procs, t);
    LevelForAtLevel(policy, k, Progress(policy, procs, j, t));
  }

  /** When a process is dispatched, no pending process belongs to a higher level: the least
      served go first. */
  lemma LeastServedFirst(policy: Policy, procs: seq<ProcessInitial>, i: nat, j: nat, t: nat)
    requires FeedbackPolicy(policy) && ValidInput(procs) && i < |procs| && j < |procs|
    requires PidAt(policy, procs, t) == procs[i].pid && Dispatches(policy, procs, t)
    requires IsWaiting(policy, procs, t, j)
    ensures LevelFor(policy, Progress(policy, procs, i, t)) <= LevelFor(policy, Progress(policy, procs, j, t))
  {
    hide WorldAt, PidAt, ArrivedIn, LevelFor, IsWaiting;
    var s := ArrivedIn(policy, procs, t);
    var r := ChosenRuns(policy, procs, t);
    assert r == i by {
      assert procs[i].pid > 0;
    }
    NewcomersGoLast(policy, procs, t);
    var top := FirstNonEmpty(s.queues, 0);
    assert IsAt(policy, procs, t, i, top, 0);
    QueueLevel(policy, procs, t, i, top, 0);
    var k, m := WhereIs(policy, procs, t, j);
    QueueLevel(policy, procs, t, j, k, m);
  }

  /** A process that has neither finished nor used up its quantum runs again at once. */
  lemma NotPreempted(policy: Policy, procs: seq<ProcessInitial>, i: nat, t: nat)
    requires FeedbackPolicy(policy) && ValidInput(procs) && i < |procs|
    requires PidAt(policy, procs, t) == procs[i].pid
    requires var d := Progress(policy, procs, i, t) + 1; d < procs[i].processingTime && !DispatchPoint(policy, d)
    ensures PidAt(policy, procs, t + 1) == procs[i].pid
  {
    hide WorldAt, PidAt, ArrivedIn, DispatchPoint, AtLevel;
    var s := ArrivedIn(policy, procs, t);
    var r := ChosenRuns(policy, procs, t);
    assert r == i by {
      assert procs[i].pid > 0;
    }
    FeedbackRuns.BurstLaw(policy, procs, t);
    SelectedAtLevel(policy, s);
    var d := SelectFeedback(s);
    var c := d.current.value;
    if c.quantumUsed + 1 == Quantum(policy, d.level) {
      NextQuantum(policy, d.level, c.processedTime - c.quantumUsed);
      AtSomeLevel(policy, Min(d.level + 1, 3), c.processedTime + 1);
    }
    NewcomersGoLast(policy, procs, t + 1);
    var r' := ChosenRuns(policy, procs, t + 1);
  }

  /** The queues of a feedback scheduler after the current quantum is used up. */
  lemma QuantumUsedUp(policy: Policy, procs: seq<ProcessInitial>, i: nat, t: nat) returns (level: nat)
    requires FeedbackPolicy(policy) && ValidInput(procs) && i < |procs|
    requires PidAt(policy, procs, t) == procs[i].pid
    requires var d := Progress(policy, procs, i, t) + 1; d < procs[i].processingTime && DispatchPoint(policy, d)
    ensures level < 4 && LevelFor(policy, Progress(policy, procs, i, t) + 1) == level
    ensures var s := ArrivedIn(policy, procs, t);
            var d := Schedulers.SelectFeedback(s);
            && |d.queues| == 4
            && d.current.Some? && d.current.value.initial == procs[i]
            && Next(policy, s).state.queues[level] == d.queues[level] + [Served(d.current.value).(quantumUsed := 0)]
  {
    hide WorldAt, PidAt, ArrivedIn, DispatchPoint, AtLevel, LevelFor;
    var s := ArrivedIn(policy, procs, t);
    var r := ChosenRuns(policy, procs, t);
    assert r == i by {
      assert procs[i].pid > 0;
    }
    FeedbackRuns.BurstLaw(policy, procs, t);
    SelectedAtLevel(policy, s);
    var d := Schedulers.SelectFeedback(s);
    var c := d.current.value;
    var start := c.processedTime - c.quantumUsed;
    if c.quantumUsed + 1 < Quantum(policy, d.level) {
      InsideQuantum(policy, d.level, start, c.quantumUsed + 1);
    }
    level := Min(d.level + 1, 3);
    NextQuantum(policy, d.level, start);
    LevelForAtLevel(policy, level, c.processedTime + 1);
  }

  lemma StillQueued(s: State, k: nat, m: nat, p: ProcessInitial) returns (m': nat)
    requires s.queues != [] && k < |s.queues| && m < |s.queues[k]| && s.queues[k][m].initial != p
    requires var d := SelectFeedback(s); d.current.Some? && d.current.value.initial == p
    ensures var d := SelectFeedback(s);
            k < |d.queues| && m' < |d.queues[k]| && d.queues[k][m'].initial == s.queues[k][m].initial
  {
    m' := if s.current.None? && FirstNonEmpty(s.queues, 0) == k then m - 1 else m;
  }

  /** A feedback process whose quantum is used up runs again only after every process that was
      waiting at the level it moves to has run. */
  lemma FeedbackTurn(policy: Policy, procs: seq<ProcessInitial>, i: nat, j: nat, t: nat, v: nat) returns (u: nat)
    requires FeedbackPolicy(policy) && ValidInput(procs) && i < |procs| && j < |procs| && i != j
    requires PidAt(policy, procs, t) == procs[i].pid
    requires var d := Progress(policy, procs, i, t) + 1;
             && d < procs[i].processingTime && DispatchPoint(policy, d)
             && LevelFor(policy, Progress(policy, procs, j, t)) == LevelFor(policy, d)
    requires IsWaiting(policy, procs, t, j)
    requires t < v && PidAt(policy, procs, v) == procs[i].pid
    ensures t < u < v && PidAt(policy, procs, u) == procs[j].pid
  {
    hide WorldAt, PidAt, ArrivedIn, DispatchPoint, LevelFor, IsWaiting, Next, SelectFeedback;
    var s := ArrivedIn(policy, procs, t);
    var level := QuantumUsedUp(policy, procs, i, t);
    if s.current.Some? {
      CurrentIsChosen(s);
    }
    var k, m := WhereIs(policy, procs, t, j);
    QueueLevel(policy, procs, t, j, k, m);
    var a := StillQueued(s, k, m, procs[i]);
    NextTickExtends(policy, procs, t, level);
    u := AheadRunsFirst(policy, procs, t + 1, level, a, |SelectFeedback(s).queues[level]|, v);
  }

  lemma CurrentIsChosen(s: State)
    requires s.current.Some?
    ensures SelectFeedback(s) == s
  {
  }
}
