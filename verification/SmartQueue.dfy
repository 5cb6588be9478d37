/** The choice custom makes in its smart queue, over exact reals. */
module SmartQueue {
  import opened Processes
  import opened ReadyQueue
  import opened Schedulers
  import opened SchedulerContract
  import opened Simulation
  import opened WholeRuns
  import opened CustomRuns
  import opened OrderIndependence
  import opened QueueOrder

  function ScoreAt(q: seq<Process>, h: map<nat, History>, k: nat): real
    requires k < |q| && q[k].initial.pid in h
  {
    Score(h[q[k].initial.pid], q[k])
  }

  ghost predicate AllKnown(q: seq<Process>, h: map<nat, History>) {
    forall i :: 0 <= i < |q| ==> q[i].initial.pid in h
  }

  /** Index r is the first of those with the highest score among the first n. */
  ghost predicate FirstBest(q: seq<Process>, h: map<nat, History>, n: nat, r: nat)
    requires AllKnown(q, h)
  {
    && r < n <= |q|
    && (forall i :: 0 <= i < n ==> ScoreAt(q, h, i) <= ScoreAt(q, h, r))
    && (forall i :: 0 <= i < r ==> ScoreAt(q, h, i) < ScoreAt(q, h, r))
  }

  lemma {:induction false} ScanFindsFirstBest(q: seq<Process>, h: map<nat, History>, k: nat, best: Option<nat>)
    requires AllKnown(q, h) && k <= |q| && q != []
    requires if best.Some? then FirstBest(q, h, k, best.value) else k == 0
    ensures Scan(q, h, k, best).Some? && FirstBest(q, h, |q|, Scan(q, h, k, best).value)
    decreases |q| - k
  {
    if k < |q| {
      assert q[k].initial.pid in h;
      if best.None? || ScoreAt(q, h, k) > ScoreAt(q, h, best.value) {
        ScanFindsFirstBest(q, h, k + 1, Some(k));
      } else {
        ScanFindsFirstBest(q, h, k + 1, best);
      }
    }
  }

  /** On a non-empty smart queue the selection takes the earliest process of maximal score and
      leaves the others in order. */
  lemma SelectsFirstBest(s: State) returns (k: nat)
    requires Shape(Custom, s) && HistoriesMatch(Custom, s)
    requires s.current.None? && s.queues[0] == [] && s.queues[1] != []
    ensures AllKnown(s.queues[1], s.histories) && FirstBest(s.queues[1], s.histories, |s.queues[1]|, k)
    ensures var d := SelectCustom(s);
            d.current == Some(s.queues[1][k]) && d.queues == [[], s.queues[1][..k] + s.queues[1][k + 1..]]
  {
    hide Held;
    var q := s.queues[1];
    forall i | 0 <= i < |q|
      ensures q[i].initial.pid in s.histories
    {
      HistoryPresent(s, 1, q[i]);
    }
    ScanFindsFirstBest(q, s.histories, 0, None);
    k := Scan(q, s.histories, 0, None).value;
  }

  lemma CancelFactor(x: real, y: real, f: real)
    requires f > 0.0 && x * f < y * f
    ensures x < y
  {
  }

  lemma FractionLess(a: real, b: real, c: real, d: real)
    requires b > 0.0 && d > 0.0 && a * d < c * b
    ensures a / b < c / d
  {
    assert (a / b) * b == a && (c / d) * d == c;
    assert a * d == (a / b) * (b * d) && c * b == (c / d) * (b * d);
    CancelFactor(a / b, c / d, b * d);
  }

  /** Once it has run, a shorter job has the larger share of itself behind it. */
  lemma ShorterIsFurther(short: nat, long: nat, received: nat)
    requires 0 < received < short < long
    ensures (short + 1) as real / (short - received + 1) as real > (long + 1) as real / (long - received + 1) as real
  {
    var a, c, r := (long + 1) as real, (short + 1) as real, received as real;
    assert a * (c - r) < c * (a - r) by {
      assert c * r < a * r;
    }
    FractionLess(a, a - r, c, c - r);
  }

  lemma DivideMonotone(a: real, b: real, c: real)
    requires a < b && c > 0.0
    ensures a / c < b / c
  {
  }

  /** x has had the same service, is no longer, has waited no less, and differs in one of these. */
  predicate Dominates(h: map<nat, History>, x: Process, y: Process) {
    && x.initial.pid in h && y.initial.pid in h
    && x.processedTime == y.processedTime
    && x.initial.processingTime <= y.initial.processingTime
    && h[x.initial.pid].waitTime >= h[y.initial.pid].waitTime
    && (x.initial.processingTime < y.initial.processingTime || h[x.initial.pid].waitTime > h[y.initial.pid].waitTime)
  }

  lemma DominatorScoresHigher(h: map<nat, History>, x: Process, y: Process)
    requires Dominates(h, x, y) && 0 < x.processedTime < x.initial.processingTime
    requires h[x.initial.pid].rescheduleCount == h[y.initial.pid].rescheduleCount
    ensures Score(h[x.initial.pid], x) > Score(h[y.initial.pid], y)
  {
    if x.initial.processingTime < y.initial.processingTime {
      ShorterIsFurther(x.initial.processingTime, y.initial.processingTime, x.processedTime);
    }
    var u, v := h[x.initial.pid].waitTime, h[y.initial.pid].waitTime;
    if u > v {
      DivideMonotone((v + 1) as real, (u + 1) as real, (x.processedTime + 1) as real);
    }
  }

  /** In no run does custom prefer a smart-queue process to one that dominates it. */
  lemma DominatedNeverChosen(procs: seq<ProcessInitial>, t: nat, k: nat)
    requires ValidInput(procs)
    requires var s := ArrivedIn(Custom, procs, t);
             s.current.None? && s.queues[0] == [] && k < |s.queues[1]|
    ensures var s := ArrivedIn(Custom, procs, t);
            SelectCustom(s).current.Some? && !Dominates(s.histories, s.queues[1][k], SelectCustom(s).current.value)
  {
    hide WorldAt, ArrivedIn, SelectCustom, Held, Score;
    var s := ArrivedIn(Custom, procs, t);
    var q := s.queues[1];
    HistoriesKeepStep(procs, t);
    ArrivedReady(Custom, procs, t);
    var b := SelectsFirstBest(s);
    QueueMember(s, 1, q[k]);
    assert CountsOk(s.histories, 1, q[k]) && CountsOk(s.histories, 1, q[b]);
    assert ScoreAt(q, s.histories, k) <= ScoreAt(q, s.histories, b);
    if Dominates(s.histories, q[k], q[b]) {
      DominatorScoresHigher(s.histories, q[k], q[b]);
    }
  }

  // ----- what the weights of the score are worth against each other

  /** A reschedule lowers the score; two of them are paid for by as many ticks of waiting as the
      process has had units, and one. */
  lemma ReschedulesForWaiting(h: History, p: Process)
    ensures Score(h.(rescheduleCount := h.rescheduleCount + 1), p) < Score(h, p)
    ensures Score(h.(rescheduleCount := h.rescheduleCount + 2, waitTime := h.waitTime + p.processedTime + 1), p)
         == Score(h, p)
  {
    var w, b := (h.waitTime + 1) as real, (p.processedTime + 1) as real;
    FractionPlus(w + b, b, w, b, 1.0);
  }

  /** Five times the whole time per unit left is worth twelve reschedules. */
  lemma ReschedulesForShare(h: History, x: Process, y: Process)
    requires x.processedTime == y.processedTime
    requires x.processedTime <= x.initial.processingTime && y.processedTime <= y.initial.processingTime
    requires var a, c := x.initial.processingTime + 1, y.initial.processingTime + 1;
             var b, d := a - x.processedTime, c - y.processedTime;
             a * d == c * b + 5 * (b * d)
    ensures Score(h.(rescheduleCount := h.rescheduleCount + 12), x) == Score(h, y)
  {
    var a, c := x.initial.processingTime + 1, y.initial.processingTime + 1;
    var b, d := a - x.processedTime, c - y.processedTime;
    assert (a * d) as real == (c * b) as real + 5.0 * (b * d) as real;
    FractionPlus(a as real, b as real, c as real, d as real, 5.0);
  }

  lemma FractionPlus(a: real, b: real, c: real, d: real, n: real)
    requires b > 0.0 && d > 0.0 && a * d == c * b + n * (b * d)
    ensures a / b == c / d + n
  {
    assert (a / b) * b == a && (c / d) * d == c;
    assert a * d == (a / b) * (b * d) && c * b == (c / d) * (b * d);
    assert (a / b - (c / d + n)) * (b * d) == 0.0;
  }

  // ----- the choice in whole numbers

  lemma WithoutFractions(x: real, w: real, b: real, c: real, e: real, n: real)
    requires b > 0.0 && e > 0.0 && x == w / b + (c / e) * 1.2 - n * 0.5
    ensures x * (b * e) == w * e + c * b * 1.2 - n * 0.5 * (b * e)
  {
    assert (w / b) * b == w && (c / e) * e == c;
    assert (w / b) * (b * e) == w * e;
    assert ((c / e) * 1.2) * (b * e) == c * b * 1.2;
  }

  /** The score of a smart-queue member, times a common denominator. */
  ghost predicate IsScore(x: real, had: int, waited: int, left: int) {
    x * (40 * ((had + 1) * (left + 1))) as real ==
    (40 * (waited + 1) * (left + 1) + 48 * (had + left + 1) * (had + 1)
     - 5 * (had + 6) * ((had + 1) * (left + 1))) as real
  }

  lemma ScoreInWholeNumbers(h: History, p: Process, left: nat)
    requires p.processedTime + left == p.initial.processingTime && 4 * h.rescheduleCount == p.processedTime + 2
    ensures IsScore(Score(h, p), p.processedTime, h.waitTime, left)
  {
    WithoutFractions(Score(h, p), (h.waitTime + 1) as real, (p.processedTime + 1) as real,
                     (p.initial.processingTime + 1) as real, (left + 1) as real, (h.rescheduleCount + 1) as real);
  }

  lemma CompareInWholeNumbers(x: real, y: real, m: int, n: int, b: int, c: int)
    requires b > 0 && c > 0 && x >= y && x * (40 * b) as real == m as real && y * (40 * c) as real == n as real
    ensures m * c >= n * b
    ensures x > y ==> m * c > n * b
  {
    assert x * (b as real * c as real) >= y * (b as real * c as real);
    assert x > y ==> x * (b as real * c as real) > y * (b as real * c as real);
    assert (m * c) as real == 40.0 * (x * (b as real * c as real));
    assert (n * b) as real == 40.0 * (y * (b as real * c as real));
  }

  lemma CompareScores(x: real, y: real, had: int, waited: int, left: int, had': int, waited': int, left': int)
    requires had >= 0 && left >= 0 && had' >= 0 && left' >= 0
    requires x >= y && IsScore(x, had, waited, left) && IsScore(y, had', waited', left')
    ensures (40 * (waited + 1) * (left + 1) + 48 * (had + left + 1) * (had + 1)
             - 5 * (had + 6) * ((had + 1) * (left + 1))) * ((had' + 1) * (left' + 1)) >=
            (40 * (waited' + 1) * (left' + 1) + 48 * (had' + left' + 1) * (had' + 1)
             - 5 * (had' + 6) * ((had' + 1) * (left' + 1))) * ((had + 1) * (left + 1))
    ensures x > y ==>
              (40 * (waited + 1) * (left + 1) + 48 * (had + left + 1) * (had + 1)
               - 5 * (had + 6) * ((had + 1) * (left + 1))) * ((had' + 1) * (left' + 1)) >
              (40 * (waited' + 1) * (left' + 1) + 48 * (had' + left' + 1) * (had' + 1)
               - 5 * (had' + 6) * ((had' + 1) * (left' + 1))) * ((had + 1) * (left + 1))
  {
    CompareInWholeNumbers(x, y,
      40 * (waited + 1) * (left + 1) + 48 * (had + left + 1) * (had + 1) - 5 * (had + 6) * ((had + 1) * (left + 1)),
      40 * (waited' + 1) * (left' + 1) + 48 * (had' + left' + 1) * (had' + 1)
      - 5 * (had' + 6) * ((had' + 1) * (left' + 1)),
      (had + 1) * (left + 1), (had' + 1) * (left' + 1));
  }

  lemma CurrentHasRun(procs: seq<ProcessInitial>, t: nat)
    requires ValidInput(procs) && ArrivedIn(Custom, procs, t).current.Some?
    ensures ArrivedIn(Custom, procs, t).current.value.quantumUsed > 0
  {
    hide WorldAt, ArrivedIn, SelectCustom, WaitAll;
    NewcomersGoLast(Custom, procs, t);
    if t == 0 {
      NobodyAtStart(procs);
    } else {
      var i := ChosenRuns(Custom, procs, t - 1);
    }
  }

  lemma NobodyAtStart(procs: seq<ProcessInitial>)
    ensures WorldAt(Custom, procs, 0).sched.current.None?
  {
  }

  /** A process that runs with 2, 6, 10, ... units behind it comes out of the smart queue, and the
      fast queue is empty. */
  lemma ComesFromSmartQueue(procs: seq<ProcessInitial>, i: nat, t: nat) returns (k: nat)
    requires ValidInput(procs) && i < |procs|
    requires PidAt(Custom, procs, t) == procs[i].pid && Progress(Custom, procs, i, t) % 4 == 2
    ensures var s := ArrivedIn(Custom, procs, t);
            && s.current.None? && s.queues[0] == [] && IsAt(Custom, procs, t, i, 1, k)
            && AllKnown(s.queues[1], s.histories) && FirstBest(s.queues[1], s.histories, |s.queues[1]|, k)
  {
    hide WorldAt, PidAt, ArrivedIn, Scan, RecordScores, Score, Held;
    var s := ArrivedIn(Custom, procs, t);
    HistoriesKeepStep(procs, t);
    var r := ChosenRuns(Custom, procs, t);
    assert r == i by {
      assert procs[i].pid > 0;
    }
    if s.current.Some? {
      CurrentHasRun(procs, t);
      assert false;
    }
    ArrivedReady(Custom, procs, t);
    k := SelectsFirstBest(s);
  }

  /** What a process has had, has waited and still needs on a tick of a run of custom. */
  ghost predicate Stands(procs: seq<ProcessInitial>, i: nat, t: nat, had: nat, waited: nat, left: nat)
    requires i < |procs|
  {
    && had == Progress(Custom, procs, i, t)
    && had + waited + procs[i].arrivalTime == t
    && had + left == procs[i].processingTime
  }

  /** The score of a smart-queue member of a run, in terms of the tick, the input and its service. */
  lemma ScoreFromRun(procs: seq<ProcessInitial>, i: nat, a: nat, t: nat, had: nat, waited: nat, left: nat)
    returns (x: real)
    requires ValidInput(procs) && i < |procs| && IsAt(Custom, procs, t, i, 1, a)
    requires Stands(procs, i, t, had, waited, left)
    ensures var s := ArrivedIn(Custom, procs, t);
            procs[i].pid in s.histories && x == ScoreAt(s.queues[1], s.histories, a)
    ensures had % 4 == 2 && IsScore(x, had, waited, left)
  {
    hide WorldAt, PidAt, ArrivedIn, Score, Held, IsScore;
    var s := ArrivedIn(Custom, procs, t);
    var p := s.queues[1][a];
    HistoriesKeepStep(procs, t);
    assert QueueOk(s.histories, 1, s.queues[1], t);
    ArrivedReady(Custom, procs, t);
    QueueMember(s, 1, p);
    x := ScoreAt(s.queues[1], s.histories, a);
    ScoreInWholeNumbers(s.histories[p.initial.pid], p, left);
  }

  /** The process custom takes and a waiting one are both in the smart queue, at a and b, and the
      one taken scores higher unless it is ahead. */
  lemma TakenScoresBest(procs: seq<ProcessInitial>, i: nat, j: nat, t: nat) returns (a: nat, b: nat)
    requires ValidInput(procs) && i < |procs| && j < |procs|
    requires PidAt(Custom, procs, t) == procs[i].pid && Progress(Custom, procs, i, t) % 4 == 2
    requires IsWaiting(Custom, procs, t, j)
    ensures IsAt(Custom, procs, t, i, 1, a) && IsAt(Custom, procs, t, j, 1, b)
    ensures var s := ArrivedIn(Custom, procs, t);
            && AllKnown(s.queues[1], s.histories)
            && ScoreAt(s.queues[1], s.histories, a) >= ScoreAt(s.queues[1], s.histories, b)
            && (a <= b || ScoreAt(s.queues[1], s.histories, a) > ScoreAt(s.queues[1], s.histories, b))
  {
    hide WorldAt, PidAt, ArrivedIn, Score, IsWaiting;
    a := ComesFromSmartQueue(procs, i, t);
    var k, m := WhereIs(Custom, procs, t, j);
    b := m;
  }

  /** Custom takes a process that has run from the smart queue only when every pending process has
      run. */
  lemma FreshFirst(procs: seq<ProcessInitial>, i: nat, j: nat, t: nat)
    requires ValidInput(procs) && i < |procs| && j < |procs|
    requires PidAt(Custom, procs, t) == procs[i].pid && ArrivedIn(Custom, procs, t).current.None?
    requires Progress(Custom, procs, i, t) > 0 && IsWaiting(Custom, procs, t, j)
    ensures Progress(Custom, procs, j, t) > 0
  {
    hide WorldAt, PidAt, ArrivedIn, IsWaiting, Scan, RecordScores;
    var s := ArrivedIn(Custom, procs, t);
    HistoriesKeepStep(procs, t);
    var r := ChosenRuns(Custom, procs, t);
    assert r == i by {
      assert procs[i].pid > 0;
    }
    var k, m := WhereIs(Custom, procs, t, j);
    assert QueueOk(s.histories, k, s.queues[k], t);
  }

  /** Away from the ends of its quanta (2, 6, 10, ... units) a process keeps the processor. */
  lemma NotPreemptedByCustom(procs: seq<ProcessInitial>, i: nat, t: nat)
    requires ValidInput(procs) && i < |procs|
    requires PidAt(Custom, procs, t) == procs[i].pid
    requires var d := Progress(Custom, procs, i, t) + 1; d < procs[i].processingTime && d % 4 != 2
    ensures PidAt(Custom, procs, t + 1) == procs[i].pid
  {
    hide WorldAt, PidAt, ArrivedIn, SelectCustom, WaitAll;
    var s := ArrivedIn(Custom, procs, t);
    HistoriesKeepStep(procs, t);
    var r := ChosenRuns(Custom, procs, t);
    assert r == i by {
      assert procs[i].pid > 0;
    }
    SelectedOk(s, t);
    QuantumOfCustom(SelectCustom(s), t);
    NewcomersGoLast(Custom, procs, t + 1);
    var r' := ChosenRuns(Custom, procs, t + 1);
    CurrentStays(ArrivedIn(Custom, procs, t + 1));
  }

  lemma QuantumOfCustom(d: State, t: nat)
    requires CustomOk(d, t) && d.current.Some?
    ensures var p := Served(d.current.value);
            p.quantumUsed >= Quantum(Custom, d.level) ==> p.processedTime % 4 == 2
  {
  }

  lemma CurrentStays(s: State)
    requires |s.queues| == 2 && s.current.Some?
    ensures SelectCustom(s) == s
  {
  }
}
