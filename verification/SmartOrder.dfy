/** The order of custom's queues: what is requeued goes last, nothing overtakes, and so two equal
    processes are served in the order of their PIDs. */
module SmartOrder {
  import opened Processes
  import opened ReadyQueue
  import opened Schedulers
  import opened SchedulerContract
  import opened Simulation
  import opened OrderIndependence
  import opened WholeRuns
  import opened CustomRuns
  import opened QueueOrder
  import opened SmartQueue

  /** Index m of a queue after entry c has been taken out of it (none if c is past the end). */
  function Closed(m: nat, c: nat): nat {
    if m > c then m - 1 else m
  }

  /** How a call moves queue k: it loses at most the entry c that is chosen, the others keep their
      order, and what joins it joins at the end. */
  ghost predicate Closes(s: State, s': State, k: nat, c: nat) {
    && |s.queues| == 2 && |s'.queues| == 2 && k < 2
    && (forall m :: 0 <= m < |s.queues[k]| && m != c ==>
          Closed(m, c) < |s'.queues[k]| && s'.queues[k][Closed(m, c)] == s.queues[k][m])
    && (c < |s.queues[k]| ==> Chosen(Custom, s) == Some(s.queues[k][c]))
  }

  lemma SelectionCloses(s: State, k: nat) returns (c: nat)
    requires |s.queues| == 2 && k < 2
    ensures Closes(s, SelectCustom(s), k, c)
    ensures c < |s.queues[k]| ==> |SelectCustom(s).queues[k]| == |s.queues[k]| - 1
  {
    hide Score, RecordScores;
    var q := s.queues[k];
    c := |q|;
    if s.current.None? {
      if s.queues[0] != [] {
        c := if k == 0 then 0 else c;
      } else if q != [] {
        var best := Scan(q, s.histories, 0, None);
        c := if best.Some? then best.value else c;
      }
    }
  }

  lemma CallCloses(s: State, k: nat) returns (c: nat)
    requires |s.queues| == 2 && k < 2
    ensures Closes(s, NextCustom(s).state, k, c)
  {
    hide SelectCustom, WaitAll;
    c := SelectionCloses(s, k);
  }

  /** A queued process that does not run stays in its queue. */
  lemma StaysAt(procs: seq<ProcessInitial>, i: nat, t: nat, k: nat, a: nat, c: nat)
    requires ValidInput(procs) && IsAt(Custom, procs, t, i, k, a) && PidAt(Custom, procs, t) != procs[i].pid
    requires var s := ArrivedIn(Custom, procs, t); Closes(s, Next(Custom, s).state, k, c)
    ensures a != c && IsAt(Custom, procs, t + 1, i, k, Closed(a, c))
  {
    hide WorldAt, PidAt, ArrivedIn, Next, Chosen;
    var s := ArrivedIn(Custom, procs, t);
    var r := ChosenRuns(Custom, procs, t);
    TickOf(Custom, procs, i, t);
    NextTickExtends(Custom, procs, t, k);
  }

  /** Two processes in one queue, neither of which runs on a tick, are in that queue in the same
      order on the next one. */
  lemma OrderKept(procs: seq<ProcessInitial>, i: nat, j: nat, t: nat, k: nat, a: nat, b: nat)
    returns (a': nat, b': nat)
    requires ValidInput(procs) && IsAt(Custom, procs, t, i, k, a) && IsAt(Custom, procs, t, j, k, b) && a < b
    requires PidAt(Custom, procs, t) != procs[i].pid && PidAt(Custom, procs, t) != procs[j].pid
    ensures IsAt(Custom, procs, t + 1, i, k, a') && IsAt(Custom, procs, t + 1, j, k, b') && a' < b'
  {
    hide WorldAt, PidAt, ArrivedIn, NextCustom, Closes;
    var c := CallCloses(ArrivedIn(Custom, procs, t), k);
    StaysAt(procs, i, t, k, a, c);
    StaysAt(procs, j, t, k, b, c);
    a', b' := Closed(a, c), Closed(b, c);
  }

  // ----- the end of a quantum

  lemma QuantumEnds(d: State, t: nat)
    requires CustomOk(d, t) && d.current.Some? && d.current.value.processedTime % 4 == 1
    ensures Served(d.current.value).quantumUsed >= Quantum(Custom, d.level)
  {
  }

  /** A process whose new progress is 2, 6, 10, ... units, and not all it needs, goes to the end of
      the smart queue. */
  lemma RequeuedLast(procs: seq<ProcessInitial>, i: nat, t: nat)
    requires ValidInput(procs) && i < |procs| && PidAt(Custom, procs, t) == procs[i].pid
    requires var d := Progress(Custom, procs, i, t) + 1; d < procs[i].processingTime && d % 4 == 2
    ensures var q := ArrivedIn(Custom, procs, t + 1).queues[1];
            |q| > 0 && IsAt(Custom, procs, t + 1, i, 1, |q| - 1)
  {
    hide WorldAt, PidAt, ArrivedIn, SelectCustom, WaitAll;
    var s := ArrivedIn(Custom, procs, t);
    HistoriesKeepStep(procs, t);
    var r := ChosenRuns(Custom, procs, t);
    assert r == i by {
      assert procs[i].pid > 0;
    }
    SelectedOk(s, t);
    QuantumEnds(SelectCustom(s), t);
    TickOf(Custom, procs, i, t);
    NewcomersGoLast(Custom, procs, t + 1);
  }

  // ----- the smart queue is in the order of last service

  /** The tick after the last one before t on which the PID was printed; 0 if there is none. */
  function LastRun(procs: seq<ProcessInitial>, pid: nat, t: nat): nat {
    if t == 0 then 0 else if PidAt(Custom, procs, t - 1) == pid then t else LastRun(procs, pid, t - 1)
  }

  lemma {:induction false} LastRunIsLast(procs: seq<ProcessInitial>, pid: nat, t: nat)
    ensures var r := LastRun(procs, pid, t);
            && r <= t
            && (r > 0 ==> PidAt(Custom, procs, r - 1) == pid)
            && forall u: nat :: r <= u < t ==> PidAt(Custom, procs, u) != pid
  {
    hide PidAt;
    if t > 0 {
      LastRunIsLast(procs, pid, t - 1);
    }
  }

  ghost predicate ByLastRun(procs: seq<ProcessInitial>, q: seq<Process>, t: nat) {
    forall a, b :: 0 <= a < b < |q| ==> LastRun(procs, q[a].initial.pid, t) < LastRun(procs, q[b].initial.pid, t)
  }

  lemma SelectionTakes(s: State) returns (c: nat)
    requires |s.queues| == 2
    ensures var d := SelectCustom(s);
            && |d.queues| == 2
            && d.queues[1] == if c < |s.queues[1]| then RemoveAt(s.queues[1], c) else s.queues[1]
  {
    hide Score, RecordScores, RemoveAt;
    var best := Scan(s.queues[1], s.histories, 0, None);
    c := if s.current.None? && s.queues[0] == [] && best.Some? then best.value else |s.queues[1]|;
  }

  lemma RemovalKeepsOrder(procs: seq<ProcessInitial>, q: seq<Process>, c: nat, t: nat)
    requires c < |q| && ByLastRun(procs, q, t)
    ensures ByLastRun(procs, RemoveAt(q, c), t)
  {
    hide LastRun;
    var rest := RemoveAt(q, c);
    forall a, b | 0 <= a < b < |rest|
      ensures LastRun(procs, rest[a].initial.pid, t) < LastRun(procs, rest[b].initial.pid, t)
    {
      var m, n := if a < c then a else a + 1, if b < c then b else b + 1;
      assert rest[a] == q[m] && rest[b] == q[n];
    }
  }

  /** What a call does to the smart queue after the selection: at most the process that ran joins
      at the end. */
  lemma OneJoins(s: State)
    requires |s.queues| == 2 && SelectCustom(s).current.Some?
    ensures var d, q := SelectCustom(s), NextCustom(s).state.queues[1];
            && |d.queues| == 2 && d.queues[1] <= q && |q| <= |d.queues[1]| + 1
            && (|q| > |d.queues[1]| ==> q[|q| - 1].initial == d.current.value.initial)
  {
    hide SelectCustom, WaitAll;
    var c := SelectionTakes(s);
  }

  lemma JoinKeepsOrder(procs: seq<ProcessInitial>, q: seq<Process>, q': seq<Process>, t: nat)
    requires ByLastRun(procs, q, t) && q <= q' && |q'| <= |q| + 1
    requires forall a :: 0 <= a < |q| ==> q[a].initial.pid != PidAt(Custom, procs, t)
    requires |q'| > |q| ==> q'[|q'| - 1].initial.pid == PidAt(Custom, procs, t)
    ensures ByLastRun(procs, q', t + 1)
  {
    hide PidAt;
    forall a, b | 0 <= a < b < |q'|
      ensures LastRun(procs, q'[a].initial.pid, t + 1) < LastRun(procs, q'[b].initial.pid, t + 1)
    {
      assert q'[a] == q[a];
      LastRunIsLast(procs, q[a].initial.pid, t);
      if b < |q| {
        assert q'[b] == q[b];
      }
    }
  }

  lemma TickKeepsOrder(procs: seq<ProcessInitial>, t: nat)
    requires ValidInput(procs) && ByLastRun(procs, ArrivedIn(Custom, procs, t).queues[1], t)
    ensures ByLastRun(procs, ArrivedIn(Custom, procs, t + 1).queues[1], t + 1)
  {
    hide WorldAt, PidAt, ArrivedIn, NextCustom, SelectCustom, Held, Distinct, ByLastRun, RemoveAt;
    var s := ArrivedIn(Custom, procs, t);
    var r := ChosenRuns(Custom, procs, t);
    NewcomersGoLast(Custom, procs, t + 1);
    ArrivedReady(Custom, procs, t);
    ReadyParts(s);
    SelectCustomHolds(s);
    var c := SelectionTakes(s);
    if c < |s.queues[1]| {
      RemovalKeepsOrder(procs, s.queues[1], c, t);
    }
    if SelectCustom(s).current.Some? {
      CurrentNotQueued(SelectCustom(s), 1);
      OneJoins(s);
    } else {
      IdleQueuesEmpty(s);
    }
    JoinKeepsOrder(procs, SelectCustom(s).queues[1], Next(Custom, s).state.queues[1], t);
  }

  lemma IdleQueuesEmpty(s: State)
    requires |s.queues| == 2 && Held(s) == multiset{}
    ensures s.queues[1] == []
  {
    assert JobsIn(s.queues) <= Held(s);
    NoJobs(s.queues);
  }

  /** In every run the smart queue is in the order in which its members last ran. */
  lemma {:induction false} SmartQueueByLastRun(procs: seq<ProcessInitial>, t: nat)
    requires ValidInput(procs)
    ensures ByLastRun(procs, ArrivedIn(Custom, procs, t).queues[1], t)
  {
    hide ArrivedIn, ByLastRun;
    if t == 0 {
      EmptyAtStart(procs);
    } else {
      SmartQueueByLastRun(procs, t - 1);
      TickKeepsOrder(procs, t - 1);
    }
  }

  lemma EmptyAtStart(procs: seq<ProcessInitial>)
    requires ValidInput(procs)
    ensures ByLastRun(procs, ArrivedIn(Custom, procs, 0).queues[1], 0)
  {
    NewcomersGoLast(Custom, procs, 0);
  }

  /** What custom takes from the smart queue is determined by the input and the output so far: of
      all waiting processes the one with the highest ratio of two whole numbers, and of those with
      the highest the one that ran longest ago. */
  lemma ChoiceInWholeNumbers(procs: seq<ProcessInitial>, i: nat, j: nat, t: nat, had: nat, waited: nat, left: nat,
          had': nat, waited': nat, left': nat)
    requires ValidInput(procs) && i < |procs| && j < |procs| && i != j
    requires Stands(procs, i, t, had, waited, left) && Stands(procs, j, t, had', waited', left')
    requires PidAt(Custom, procs, t) == procs[i].pid && had % 4 == 2
    requires IsWaiting(Custom, procs, t, j)
    ensures had' % 4 == 2
    ensures var mine := (40 * (waited + 1) * (left + 1) + 48 * (had + left + 1) * (had + 1)
                         - 5 * (had + 6) * ((had + 1) * (left + 1))) * ((had' + 1) * (left' + 1));
            var other := (40 * (waited' + 1) * (left' + 1) + 48 * (had' + left' + 1) * (had' + 1)
                          - 5 * (had' + 6) * ((had' + 1) * (left' + 1))) * ((had + 1) * (left + 1));
            && mine >= other
            && (mine == other ==> LastRun(procs, procs[i].pid, t) < LastRun(procs, procs[j].pid, t))
  {
    hide WorldAt, PidAt, ArrivedIn, Score, IsWaiting, IsScore, LastRun;
    var a, b := TakenScoresBest(procs, i, j, t);
    var x := ScoreFromRun(procs, i, a, t, had, waited, left);
    var y := ScoreFromRun(procs, j, b, t, had', waited', left');
    CompareScores(x, y, had, waited, left, had', waited', left');
    SmartQueueByLastRun(procs, t);
  }

  // ----- the fast queue is in the order of arrival

  ghost predicate ArrivedFirst(p: ProcessInitial, q: ProcessInitial) {
    p.arrivalTime < q.arrivalTime || (p.arrivalTime == q.arrivalTime && p.pid < q.pid)
  }

  ghost predicate InArrivalOrder(q: seq<Process>) {
    forall a, b :: 0 <= a < b < |q| ==> ArrivedFirst(q[a].initial, q[b].initial)
  }

  lemma FastQueueAfter(s: State)
    requires |s.queues| == 2
    ensures var q := NextCustom(s).state.queues;
            |q| == 2 && (q[0] == s.queues[0] || (s.queues[0] != [] && q[0] == s.queues[0][1..]))
  {
    hide Scan, RecordScores, WaitAll;
  }

  lemma {:induction false} FastQueueByArrival(procs: seq<ProcessInitial>, t: nat)
    requires ValidInput(procs)
    ensures InArrivalOrder(ArrivedIn(Custom, procs, t).queues[0])
  {
    hide WorldAt, ArrivedIn, NextCustom;
    NewcomersGoLast(Custom, procs, t);
    if t == 0 {
      NoneAtStart(procs);
    } else {
      FastQueueByArrival(procs, t - 1);
      FastQueueAfter(ArrivedIn(Custom, procs, t - 1));
      var r := ChosenRuns(Custom, procs, t - 1);
    }
  }

  lemma NoneAtStart(procs: seq<ProcessInitial>)
    ensures WorldAt(Custom, procs, 0).sched.queues[0] == []
  {
  }

  /** Of the processes that have not run custom takes the one that arrived first, and of those that
      arrived together the one with the lowest PID. */
  lemma FreshInArrivalOrder(procs: seq<ProcessInitial>, i: nat, j: nat, t: nat)
    requires ValidInput(procs) && i < |procs| && j < |procs| && i != j
    requires PidAt(Custom, procs, t) == procs[i].pid && Progress(Custom, procs, i, t) == 0
    requires IsWaiting(Custom, procs, t, j) && Progress(Custom, procs, j, t) == 0
    ensures ArrivedFirst(procs[i], procs[j])
  {
    hide WorldAt, PidAt, ArrivedIn, Scan, RecordScores, IsWaiting, ArrivedFirst;
    var s := ArrivedIn(Custom, procs, t);
    HistoriesKeepStep(procs, t);
    var r := ChosenRuns(Custom, procs, t);
    assert r == i by {
      assert procs[i].pid > 0;
    }
    if s.current.Some? {
      CurrentHasRun(procs, t);
    }
    var k, m := WhereIs(Custom, procs, t, j);
    assert QueueOk(s.histories, k, s.queues[k], t);
    FastQueueByArrival(procs, t);
  }

  // ----- equal processes

  /** Two processes that the program can tell apart by their PIDs alone. */
  ghost predicate Equals(procs: seq<ProcessInitial>, i: nat, j: nat) {
    && i < |procs| && j < |procs| && procs[i].pid < procs[j].pid
    && procs[i].arrivalTime == procs[j].arrivalTime
    && procs[i].processingTime == procs[j].processingTime
  }

  lemma NewcomerAt(procs: seq<ProcessInitial>, i: nat) returns (m: nat)
    requires ValidInput(procs) && i < |procs|
    ensures var t := procs[i].arrivalTime;
            var w := WorldAt(Custom, procs, t);
            && m < |Newcomers(w.stats, t)| && Newcomers(w.stats, t)[m].initial == procs[i]
            && IsAt(Custom, procs, t, i, 0, |w.sched.queues[0]| + m)
  {
    hide WorldAt, ArrivedIn, Newcomers;
    var t := procs[i].arrivalTime;
    var stats := WorldAt(Custom, procs, t).stats;
    AlwaysAgree(Custom, procs, t);
    AgreesAt(Custom, procs, t);
    TickOf(Custom, procs, i, t);
    NewcomersGoLast(Custom, procs, t);
    NewcomersSorted(stats, t);
    assert ArrivesAt(stats, t, stats[i].initial);
    assert NewProcess(procs[i]) in Newcomers(stats, t);
    m :| 0 <= m < |Newcomers(stats, t)| && Newcomers(stats, t)[m] == NewProcess(procs[i]);
  }

  lemma ArriveInOrder(procs: seq<ProcessInitial>, i: nat, j: nat) returns (a: nat, b: nat)
    requires ValidInput(procs) && Equals(procs, i, j)
    ensures a < b
    ensures IsAt(Custom, procs, procs[i].arrivalTime, i, 0, a) && IsAt(Custom, procs, procs[i].arrivalTime, j, 0, b)
  {
    hide WorldAt, ArrivedIn, Newcomers, IsAt;
    var t := procs[i].arrivalTime;
    var m := NewcomerAt(procs, i);
    var n := NewcomerAt(procs, j);
    NewcomersGoLast(Custom, procs, t);
    var older := |WorldAt(Custom, procs, t).sched.queues[0]|;
    a, b := older + m, older + n;
  }

  /** Of two members of a queue with equal scores the one behind is not chosen. */
  lemma BehindNotChosen(s: State, k: nat, a: nat, b: nat)
    requires Shape(Custom, s) && HistoriesMatch(Custom, s) && Distinct(Held(s))
    requires k < 2 && a < b < |s.queues[k]|
    requires var q, h := s.queues[k], s.histories;
             q[a].initial.pid in h && q[b].initial.pid in h && ScoreAt(q, h, a) == ScoreAt(q, h, b)
    ensures var c := SelectCustom(s).current; c.Some? ==> c.value.initial.pid != s.queues[k][b].initial.pid
  {
    hide Held, Distinct, Score, Scan, RecordScores;
    QueueDistinct(s, k);
    if s.current.Some? {
      CurrentNotQueued(s, k);
    } else if s.queues[0] != [] {
      assert s.queues[0][0] in s.queues[0];
      InFirst(s.queues[k], s.queues[k][b]);
      if k == 0 {
        TwoInQueue(s.queues[0], 0, b);
      }
    } else {
      var r := SelectsFirstBest(s);
      if r < b {
        TwoInQueue(s.queues[1], r, b);
      } else if b < r {
        TwoInQueue(s.queues[1], b, r);
      }
    }
  }

  /** Equal processes with equal service have equal scores. */
  lemma EqualScores(procs: seq<ProcessInitial>, i: nat, j: nat, t: nat, k: nat, a: nat, b: nat)
    requires ValidInput(procs) && Equals(procs, i, j)
    requires IsAt(Custom, procs, t, i, k, a) && IsAt(Custom, procs, t, j, k, b)
    requires Progress(Custom, procs, i, t) == Progress(Custom, procs, j, t)
    ensures var s := ArrivedIn(Custom, procs, t);
            && procs[i].pid in s.histories && procs[j].pid in s.histories
            && ScoreAt(s.queues[k], s.histories, a) == ScoreAt(s.queues[k], s.histories, b)
  {
    hide WorldAt, ArrivedIn;
    var s := ArrivedIn(Custom, procs, t);
    HistoriesKeepStep(procs, t);
    assert QueueOk(s.histories, k, s.queues[k], t);
  }

  lemma BehindDoesNotRun(procs: seq<ProcessInitial>, i: nat, j: nat, t: nat, k: nat, a: nat, b: nat)
    requires ValidInput(procs) && Equals(procs, i, j) && a < b
    requires IsAt(Custom, procs, t, i, k, a) && IsAt(Custom, procs, t, j, k, b)
    requires Progress(Custom, procs, i, t) == Progress(Custom, procs, j, t)
    ensures PidAt(Custom, procs, t) != procs[j].pid
  {
    hide WorldAt, PidAt, ArrivedIn, SelectCustom, Held, Distinct, ScoreAt;
    var s := ArrivedIn(Custom, procs, t);
    ArrivedReady(Custom, procs, t);
    ReadyParts(s);
    EqualScores(procs, i, j, t, k, a, b);
    BehindNotChosen(s, k, a, b);
    var r := ChosenRuns(Custom, procs, t);
  }

  /** The one behind in service that catches up at the end of a quantum is requeued behind. */
  lemma CatchesUp(procs: seq<ProcessInitial>, i: nat, j: nat, t: nat) returns (a: nat, b: nat)
    requires ValidInput(procs) && Equals(procs, i, j) && PidAt(Custom, procs, t) == procs[j].pid
    requires Progress(Custom, procs, j, t) + 1 == Progress(Custom, procs, i, t) < procs[i].processingTime
    ensures a < b && IsAt(Custom, procs, t + 1, i, 1, a) && IsAt(Custom, procs, t + 1, j, 1, b)
  {
    hide WorldAt, PidAt, ArrivedIn, NextCustom, Closes;
    var m := WaitsInSmartQueue(procs, i, j, t);
    RequeuedLast(procs, j, t);
    var c := CallCloses(ArrivedIn(Custom, procs, t), 1);
    StaysAt(procs, i, t, 1, m, c);
    a, b := Closed(m, c), |ArrivedIn(Custom, procs, t + 1).queues[1]| - 1;
  }

  /** While another process runs, one that has run waits in the smart queue. */
  lemma WaitsInSmartQueue(procs: seq<ProcessInitial>, i: nat, j: nat, t: nat) returns (m: nat)
    requires ValidInput(procs) && i < |procs| && j < |procs| && procs[i].pid != procs[j].pid
    requires PidAt(Custom, procs, t) == procs[j].pid
    requires 0 < Progress(Custom, procs, i, t) < procs[i].processingTime
    ensures IsAt(Custom, procs, t, i, 1, m) && Progress(Custom, procs, i, t) % 4 == 2
  {
    hide WorldAt, PidAt, ArrivedIn, Scan, RecordScores;
    var s := ArrivedIn(Custom, procs, t);
    HistoriesKeepStep(procs, t);
    TickOf(Custom, procs, i, t);
    var r := ChosenRuns(Custom, procs, t);
    assert r == j by {
      assert procs[j].pid > 0;
    }
    var k, n := WhereIs(Custom, procs, t, i);
    assert QueueOk(s.histories, k, s.queues[k], t);
    m := n;
  }

  /** The later PID is not ahead in service, and at equal service it is behind in the same queue. */
  ghost predicate Follows(procs: seq<ProcessInitial>, i: nat, j: nat, t: nat)
    requires i < |procs| && j < |procs|
  {
    && Progress(Custom, procs, j, t) <= Progress(Custom, procs, i, t)
    && (procs[i].arrivalTime <= t &&
        Progress(Custom, procs, j, t) == Progress(Custom, procs, i, t) < procs[i].processingTime ==>
          exists k, a, b :: IsAt(Custom, procs, t, i, k, a) && IsAt(Custom, procs, t, j, k, b) && a < b)
  }

  lemma BothAt(procs: seq<ProcessInitial>, i: nat, j: nat, t: nat) returns (k: nat, a: nat, b: nat)
    requires Equals(procs, i, j) && Follows(procs, i, j, t) && procs[i].arrivalTime <= t
    requires Progress(Custom, procs, j, t) == Progress(Custom, procs, i, t) < procs[i].processingTime
    ensures IsAt(Custom, procs, t, i, k, a) && IsAt(Custom, procs, t, j, k, b) && a < b
  {
    k, a, b :| IsAt(Custom, procs, t, i, k, a) && IsAt(Custom, procs, t, j, k, b) && a < b;
  }

  lemma FollowsOnNext(procs: seq<ProcessInitial>, i: nat, j: nat, t: nat)
    requires ValidInput(procs) && Equals(procs, i, j) && Follows(procs, i, j, t) && procs[i].arrivalTime <= t
    ensures Follows(procs, i, j, t + 1)
  {
    hide WorldAt, PidAt, IsAt;
    TickOf(Custom, procs, i, t);
    TickOf(Custom, procs, j, t);
    var even := Progress(Custom, procs, j, t) == Progress(Custom, procs, i, t) < procs[i].processingTime;
    if even {
      var k, a, b := BothAt(procs, i, j, t);
      BehindDoesNotRun(procs, i, j, t, k, a, b);
      if PidAt(Custom, procs, t) != procs[i].pid {
        var a', b' := OrderKept(procs, i, j, t, k, a, b);
      }
    } else if PidAt(Custom, procs, t) == procs[j].pid &&
              Progress(Custom, procs, j, t) + 1 == Progress(Custom, procs, i, t) < procs[i].processingTime {
      var a, b := CatchesUp(procs, i, j, t);
    }
  }

  lemma {:induction false} AlwaysFollows(procs: seq<ProcessInitial>, i: nat, j: nat, t: nat)
    requires ValidInput(procs) && Equals(procs, i, j)
    ensures Follows(procs, i, j, t)
  {
    hide WorldAt, PidAt, IsAt;
    TickOf(Custom, procs, i, t);
    TickOf(Custom, procs, j, t);
    if t == procs[i].arrivalTime {
      var a, b := ArriveInOrder(procs, i, j);
    } else if t > procs[i].arrivalTime {
      AlwaysFollows(procs, i, j, t - 1);
      FollowsOnNext(procs, i, j, t - 1);
    }
  }

  /** Of two processes that arrive together and need the same, custom never gives the later PID more
      service by any tick, and never completes it first. */
  lemma PidOrderOfEquals(procs: seq<ProcessInitial>, i: nat, j: nat, t: nat)
    requires ValidInput(procs) && i < |procs| && j < |procs| && procs[i].pid < procs[j].pid
    requires procs[i].arrivalTime == procs[j].arrivalTime && procs[i].processingTime == procs[j].processingTime
    ensures Progress(Custom, procs, j, t) <= Progress(Custom, procs, i, t)
    ensures TicksOf(Custom, procs, procs[j].pid, 0, t) <= TicksOf(Custom, procs, procs[i].pid, 0, t)
    ensures Progress(Custom, procs, j, t) == procs[j].processingTime ==>
              EndTime(Custom, procs, i, t) < EndTime(Custom, procs, j, t)
  {
    hide WorldAt, PidAt, IsAt;
    AlwaysFollows(procs, i, j, t);
    TicksAreProgress(Custom, procs, i, t);
    TicksAreProgress(Custom, procs, j, t);
    TickOf(Custom, procs, i, t);
    if Progress(Custom, procs, j, t) == procs[j].processingTime {
      EndTimeIsLastTick(Custom, procs, i, t);
      EndTimeIsLastTick(Custom, procs, j, t);
      var end := EndTime(Custom, procs, j, t);
      TickOf(Custom, procs, j, end);
      AlwaysFollows(procs, i, j, end + 1);
      TickOf(Custom, procs, i, end + 1);
      if end < EndTime(Custom, procs, i, t) {
        ProgressMonotone(Custom, procs, i, end + 1, EndTime(Custom, procs, i, t));
      }
    }
  }
}
