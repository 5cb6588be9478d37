/** `thread.c` as interleaved steps: any number of threads over any values, each computing its
    value, locking the mutex, loading and storing the total, and unlocking, while the main thread
    creates them and joins them in order. */
module Threads {
  import opened Sums

  datatype Pc = Compute | Lock | Load | Store | Unlock | Finished

  datatype Thread = Thread(pc: Pc, value: int, loaded: int)

  /** `owner` is the holder of the mutex, the number of threads when it is free. */
  datatype Program = Program(threads: seq<Thread>, owner: nat, total: int, created: nat, joined: nat)

  datatype Action = Run(i: nat) | Create | Join

  function Initial(values: seq<int>): Program {
    Program(seq(|values|, _ => Thread(Compute, 0, 0)), |values|, 0, 0, 0)
  }

  /** Who can move: a created thread unless it is finished or the mutex is taken, and the main
      thread when there is one to create or the next one to join is finished. */
  predicate Enabled(s: Program, a: Action) {
    match a
    case Run(i) =>
      && i < s.created && i < |s.threads|
      && s.threads[i].pc != Finished
      && (s.threads[i].pc == Lock ==> s.owner == |s.threads|)
    case Create => s.created < |s.threads|
    case Join => s.created == |s.threads| && s.joined < |s.threads| && s.threads[s.joined].pc == Finished
  }

  function Step(values: seq<int>, s: Program, a: Action): Program
    requires |s.threads| == |values| && Enabled(s, a)
  {
    match a
    case Create => s.(created := s.created + 1)
    case Join => s.(joined := s.joined + 1)
    case Run(i) =>
      var t := s.threads[i];
      match t.pc
      case Compute => s.(threads := s.threads[i := t.(pc := Lock, value := Value(values[i]))])
      case Lock => s.(threads := s.threads[i := t.(pc := Load)], owner := i)
      case Load => s.(threads := s.threads[i := t.(pc := Store, loaded := s.total)])
      case Store => s.(threads := s.threads[i := t.(pc := Unlock)], total := t.loaded + t.value)
      case Unlock => s.(threads := s.threads[i := t.(pc := Finished)], owner := |s.threads|)
      case Finished => s
  }

  predicate InCriticalSection(t: Thread) {
    t.pc == Load || t.pc == Store || t.pc == Unlock
  }

  /** The values of the first n threads that have stored. */
  function Stored(values: seq<int>, threads: seq<Thread>, n: nat): int
    requires n <= |threads| == |values|
  {
    if n == 0 then 0
    else
      Stored(values, threads, n - 1) +
      if threads[n - 1].pc == Unlock || threads[n - 1].pc == Finished then Value(values[n - 1]) else 0
  }

  function StepsLeft(t: Thread): nat {
    match t.pc
    case Compute => 5
    case Lock => 4
    case Load => 3
    case Store => 2
    case Unlock => 1
    case Finished => 0
  }

  function AllStepsLeft(threads: seq<Thread>, n: nat): nat
    requires n <= |threads|
  {
    if n == 0 then 0 else AllStepsLeft(threads, n - 1) + StepsLeft(threads[n - 1])
  }

  /** How many steps remain in any run from s. */
  function Rank(s: Program): int {
    AllStepsLeft(s.threads, |s.threads|) + (|s.threads| - s.created) + (|s.threads| - s.joined)
  }

  ghost predicate ThreadOk(values: seq<int>, s: Program, i: nat)
    requires i < |s.threads| == |values|
  {
    var t := s.threads[i];
    && (InCriticalSection(t) <==> s.owner == i)
    && (t.pc != Compute ==> t.value == Value(values[i]))
    && (t.pc == Store ==> t.loaded == s.total)
    && (i >= s.created ==> t.pc == Compute)
    && (i < s.joined ==> t.pc == Finished)
  }

  ghost predicate Invariant(values: seq<int>, s: Program) {
    && |s.threads| == |values|
    && s.joined <= s.created <= |values|
    && s.owner <= |values|
    && (forall i :: 0 <= i < |values| ==> ThreadOk(values, s, i))
    && s.total == Stored(values, s.threads, |values|)
  }

  lemma {:induction false} NothingStored(values: seq<int>, n: nat)
    requires n <= |values|
    ensures Stored(values, Initial(values).threads, n) == 0
    ensures AllStepsLeft(Initial(values).threads, n) == 5 * n
  {
    if n > 0 {
      NothingStored(values, n - 1);
    }
  }

  lemma {:induction false} ThreadMoves(values: seq<int>, threads: seq<Thread>, i: nat, t: Thread, n: nat)
    requires n <= |threads| == |values| && i < |threads|
    requires StepsLeft(t) + 1 == StepsLeft(threads[i])
    ensures Stored(values, threads[i := t], n) ==
            Stored(values, threads, n) + if i < n && t.pc == Unlock then Value(values[i]) else 0
    ensures AllStepsLeft(threads[i := t], n) + (if i < n then 1 else 0) == AllStepsLeft(threads, n)
  {
    if n > 0 {
      ThreadMoves(values, threads, i, t, n - 1);
    }
  }

  /** Every step, whoever takes it, keeps the invariant and uses up one of the steps left. */
  lemma StepKeeps(values: seq<int>, s: Program, a: Action)
    requires Invariant(values, s) && Enabled(s, a)
    ensures Invariant(values, Step(values, s, a))
    ensures Rank(Step(values, s, a)) + 1 == Rank(s)
  {
    var s' := Step(values, s, a);
    if a.Run? {
      assert ThreadOk(values, s, a.i);
      ThreadMoves(values, s.threads, a.i, s'.threads[a.i], |values|);
    }
    forall k | 0 <= k < |values|
      ensures ThreadOk(values, s', k)
    {
      assert ThreadOk(values, s, k);
    }
  }

  /** A run: each state follows from the one before by some enabled action. */
  ghost predicate IsRun(values: seq<int>, states: seq<Program>, actions: seq<Action>) {
    && |states| == |actions| + 1
    && states[0] == Initial(values)
    && forall k :: 0 <= k < |actions| ==>
         && |states[k].threads| == |values| && Enabled(states[k], actions[k])
         && states[k + 1] == Step(values, states[k], actions[k])
  }

  lemma {:induction false} EveryState(values: seq<int>, states: seq<Program>, actions: seq<Action>, k: nat)
    requires IsRun(values, states, actions) && k < |states|
    ensures Invariant(values, states[k])
    ensures Rank(states[k]) + k == 7 * |values|
  {
    if k == 0 {
      NothingStored(values, |values|);
    } else {
      EveryState(values, states, actions, k - 1);
      StepKeeps(values, states[k - 1], actions[k - 1]);
    }
  }

  /** At no point of any interleaving are two threads between locking and unlocking. */
  lemma MutualExclusion(values: seq<int>, states: seq<Program>, actions: seq<Action>, k: nat, i: nat, j: nat)
    requires IsRun(values, states, actions) && k < |states|
    requires i < |states[k].threads| && j < |states[k].threads|
    requires InCriticalSection(states[k].threads[i]) && InCriticalSection(states[k].threads[j])
    ensures i == j
  {
    EveryState(values, states, actions, k);
    assert ThreadOk(values, states[k], i) && ThreadOk(values, states[k], j);
  }

  predicate AllJoined(s: Program) {
    s.joined == |s.threads|
  }

  /** Until everything is joined someone can take a step: no deadlock. */
  lemma Progress(values: seq<int>, s: Program) returns (a: Action)
    requires Invariant(values, s) && !AllJoined(s)
    ensures Enabled(s, a)
  {
    if s.created < |s.threads| {
      a := Create;
    } else if s.owner < |s.threads| {
      assert ThreadOk(values, s, s.owner);
      a := Run(s.owner);
    } else {
      assert ThreadOk(values, s, s.joined);
      a := if s.threads[s.joined].pc == Finished then Join else Run(s.joined);
    }
  }

  lemma {:induction false} AllStored(values: seq<int>, threads: seq<Thread>, n: nat)
    requires n <= |threads| == |values|
    requires forall i :: 0 <= i < |threads| ==> threads[i].pc == Finished
    ensures Stored(values, threads, n) == Total(values[..n])
    ensures AllStepsLeft(threads, n) == 0
  {
    if n > 0 {
      AllStored(values, threads, n - 1);
      TotalStep(values, n - 1);
    }
  }

  /** Every run has at most 7 steps for each value; after the joins, and that is exactly when the
      steps are used up, the total is the one the sequential loop prints. */
  lemma EveryRunSums(values: seq<int>, states: seq<Program>, actions: seq<Action>)
    requires IsRun(values, states, actions)
    ensures |actions| <= 7 * |values|
    ensures var last := states[|actions|];
            && (AllJoined(last) <==> |actions| == 7 * |values|)
            && (AllJoined(last) ==> last.total == 8 * PlainSum(values) + 6 * |values|)
  {
    var last := states[|actions|];
    EveryState(values, states, actions, |actions|);
    if AllJoined(last) {
      forall i | 0 <= i < |values|
        ensures last.threads[i].pc == Finished
      {
        assert ThreadOk(values, last, i);
      }
      AllStored(values, last.threads, |values|);
      assert values[..|values|] == values;
      TotalClosedForm(values);
    }
  }
}
