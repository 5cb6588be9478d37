/** The five scheduling policies as transitions on values. One record holds the globals of
    any of the five source files: the priority queues, the process held outside them, the
    level it was taken from, and (custom only) the history of each process. */
module Schedulers {
  import opened Processes
  import opened ReadyQueue

  datatype Policy = Fcfs | RoundRobin | Constant | Exponential | Custom

  datatype History = History(waitTime: nat, rescheduleCount: nat, score: real)

  datatype State = State(queues: seq<seq<Process>>, current: Option<Process>, level: nat,
                         histories: map<nat, History>)

  /** What a call of `get_next_scheduled_process` leaves behind and returns. */
  datatype Slot = Slot(state: State, pid: nat)

  function QueueCount(policy: Policy): nat {
    match policy
    case Fcfs => 1
    case RoundRobin => 1
    case Constant => 4
    case Exponential => 4
    case Custom => 2
  }

  /** The quantum at a level; FCFS has none and never asks. */
  function Quantum(policy: Policy, level: nat): nat {
    match policy
    case Fcfs => 0
    case RoundRobin => 3
    case Constant => 3 * (level + 1)
    case Exponential => 2 * ((level + 1) * (level + 1))
    case Custom => (level + 1) * 2
  }

  function Initial(policy: Policy): State {
    State(seq(QueueCount(policy), _ => []), None, 0, map[])
  }

  function NewProcess(p: ProcessInitial): Process {
    Process(p, 0, 0)
  }

  function Served(p: Process): Process {
    p.(processedTime := p.processedTime + 1, quantumUsed := p.quantumUsed + 1)
  }

  predicate Done(p: Process) {
    p.processedTime == p.initial.processingTime
  }

  // ----- add_to_ready_queue

  function Add(policy: Policy, s: State, p: ProcessInitial): State
    requires s.queues != []
  {
    s.(queues := s.queues[0 := Insert(s.queues[0], NewProcess(p))],
       histories := if policy.Custom? then s.histories[p.pid := History(0, 0, 0.0)] else s.histories)
  }

  // ----- get_next_scheduled_process, one version for each source file

  function FirstUnfinished(q: seq<Process>, k: nat): (r: nat)
    requires k <= |q|
    ensures k <= r <= |q|
    ensures r < |q| ==> q[r].processedTime < q[r].initial.processingTime
    decreases |q| - k
  {
    if k < |q| && q[k].processedTime >= q[k].initial.processingTime then FirstUnfinished(q, k + 1) else k
  }

  function NextFcfs(s: State): Slot
    requires |s.queues| == 1
  {
    var q := s.queues[0];
    var k := FirstUnfinished(q, 0);
    if k == |q| then Slot(s, 0) else
    var p := q[k].(processedTime := q[k].processedTime + 1);
    Slot(s.(queues := [if Done(p) then q[..k] + q[k + 1..] else q[k := p]]), p.initial.pid)
  }

  function NextRoundRobin(s: State): Slot
    requires |s.queues| == 1
  {
    var q := s.queues[0];
    if q == [] then Slot(s, 0) else
    var p := Served(q[0]);
    var q' := if Done(p) then q[1..]
              else if p.quantumUsed == Quantum(RoundRobin, 0) then q[1..] + [p]
              else [p] + q[1..];
    Slot(s.(queues := [q']), p.initial.pid)
  }

  /** The first non-empty queue at or after level k. */
  function FirstNonEmpty(queues: seq<seq<Process>>, k: nat): (r: nat)
    requires k <= |queues|
    ensures k <= r <= |queues|
    ensures r < |queues| ==> queues[r] != []
    ensures forall i :: k <= i < r ==> queues[i] == []
    decreases |queues| - k
  {
    if k < |queues| && queues[k] == [] then FirstNonEmpty(queues, k + 1) else k
  }

  function SelectFeedback(s: State): State {
    var k := FirstNonEmpty(s.queues, 0);
    if s.current.Some? || k == |s.queues| then s
    else s.(queues := s.queues[k := s.queues[k][1..]], current := Some(s.queues[k][0]), level := k)
  }

  function Min(a: nat, b: nat): nat {
    if a < b then a else b
  }

  function NextFeedback(policy: Policy, s: State): Slot
    requires s.queues != []
  {
    var d := SelectFeedback(s);
    if d.current.None? then Slot(d, 0) else
    var p := Served(d.current.value);
    var next :=
      if Done(p) then d.(current := None)
      else if p.quantumUsed == Quantum(policy, d.level) then
        var level := Min(d.level + 1, |d.queues| - 1);
        d.(queues := d.queues[level := d.queues[level] + [p.(quantumUsed := 0)]], current := None)
      else d.(current := Some(p));
    Slot(next, p.initial.pid)
  }

  /** The score of a process, over exact reals. `processedTime` never exceeds
      `processingTime` for a queued process, so the second denominator is at least 1. */
  function Score(h: History, p: Process): real {
    var remaining := if p.processedTime <= p.initial.processingTime
                     then p.initial.processingTime - p.processedTime else 0;
    (h.waitTime + 1) as real / (p.processedTime + 1) as real
    + ((p.initial.processingTime + 1) as real / (remaining + 1) as real) * 1.2
    - (h.rescheduleCount + 1) as real * 0.5
  }

  /** The scan of the smart queue from index k; `best` is the candidate so far. */
  function Scan(q: seq<Process>, h: map<nat, History>, k: nat, best: Option<nat>): (r: Option<nat>)
    requires k <= |q|
    requires best.Some? ==> best.value < k && q[best.value].initial.pid in h
    ensures r.Some? ==> r.value < |q| && q[r.value].initial.pid in h
    decreases |q| - k
  {
    if k == |q| || q[k].initial.pid !in h then best
    else if best.None? || Score(h[q[k].initial.pid], q[k]) > Score(h[q[best.value].initial.pid], q[best.value])
    then Scan(q, h, k + 1, Some(k))
    else Scan(q, h, k + 1, best)
  }

  /** The scores the scan writes into the histories on its way. */
  function RecordScores(q: seq<Process>, h: map<nat, History>, k: nat): (r: map<nat, History>)
    requires k <= |q|
    ensures r.Keys == h.Keys
    decreases |q| - k
  {
    if k == |q| || q[k].initial.pid !in h then h
    else
      var pid := q[k].initial.pid;
      RecordScores(q, h[pid := h[pid].(score := Score(h[pid], q[k]))], k + 1)
  }

  function RemoveAt<T>(q: seq<T>, k: nat): seq<T>
    requires k < |q|
  {
    q[..k] + q[k + 1..]
  }

  function SelectCustom(s: State): State
    requires |s.queues| == 2
  {
    if s.current.Some? then s
    else if s.queues[0] != [] then
      s.(queues := s.queues[0 := s.queues[0][1..]], current := Some(s.queues[0][0]), level := 0)
    else if s.queues[1] != [] then
      var q := s.queues[1];
      var best := Scan(q, s.histories, 0, None);
      var d := s.(level := 1, histories := RecordScores(q, s.histories, 0));
      if best.None? then d
      else d.(queues := s.queues[1 := RemoveAt(q, best.value)], current := Some(q[best.value]))
    else s
  }

  function Waited(h: History): History {
    h.(waitTime := h.waitTime + 1)
  }

  function WaitQueue(q: seq<Process>, h: map<nat, History>, k: nat): (r: map<nat, History>)
    requires k <= |q|
    ensures r.Keys == h.Keys
    decreases |q| - k
  {
    if k == |q| then h
    else
      var pid := q[k].initial.pid;
      WaitQueue(q, if pid in h then h[pid := Waited(h[pid])] else h, k + 1)
  }

  /** `update_wait_times`. */
  function WaitAll(queues: seq<seq<Process>>, h: map<nat, History>, k: nat): (r: map<nat, History>)
    requires k <= |queues|
    ensures r.Keys == h.Keys
    decreases |queues| - k
  {
    if k == |queues| then h else WaitAll(queues, WaitQueue(queues[k], h, 0), k + 1)
  }

  function Rescheduled(h: map<nat, History>, pid: nat): (r: map<nat, History>)
    ensures r.Keys == h.Keys
  {
    if pid in h then h[pid := h[pid].(rescheduleCount := h[pid].rescheduleCount + 1)] else h
  }

  function NextCustom(s: State): Slot
    requires |s.queues| == 2
  {
    var d := SelectCustom(s);
    if d.current.None? then Slot(d, 0) else
    var p := Served(d.current.value);
    var pid := p.initial.pid;
    var h := WaitAll(d.queues, d.histories, 0);
    var next :=
      if Done(p) then d.(current := None, histories := h - {pid})
      else if p.quantumUsed >= Quantum(Custom, d.level) then
        d.(queues := d.queues[1 := d.queues[1] + [p.(quantumUsed := 0)]], current := None,
           histories := Rescheduled(h, pid))
      else d.(current := Some(p), histories := h);
    Slot(next, pid)
  }

  function Next(policy: Policy, s: State): (slot: Slot)
    requires |s.queues| == QueueCount(policy)
    ensures |slot.state.queues| == QueueCount(policy)
  {
    match policy
    case Fcfs => NextFcfs(s)
    case RoundRobin => NextRoundRobin(s)
    case Constant => NextFeedback(policy, s)
    case Exponential => NextFeedback(policy, s)
    case Custom => NextCustom(s)
  }

  // ----- what a scheduler holds

  function CurrentJob(s: State): multiset<Job> {
    if s.current.Some? then multiset{JobOf(s.current.value)} else multiset{}
  }

  /** Every live process of a scheduler, once for each record of it. */
  function Held(s: State): multiset<Job> {
    JobsIn(s.queues) + CurrentJob(s)
  }

  ghost predicate Shape(policy: Policy, s: State) {
    && |s.queues| == QueueCount(policy)
    && s.level < |s.queues|
    && (policy.Fcfs? || policy.RoundRobin? ==> s.current.None?)
  }

  ghost predicate AllUnfinished(jobs: multiset<Job>) {
    forall j :: j in jobs ==> Unfinished(j)
  }

  /** No PID is held twice. */
  ghost predicate Distinct(jobs: multiset<Job>) {
    && (forall j :: j in jobs ==> jobs[j] == 1)
    && (forall j, k :: j in jobs && k in jobs && j.initial.pid == k.initial.pid ==> j == k)
  }

  ghost predicate HasPid(jobs: multiset<Job>, pid: nat) {
    exists j :: j in jobs && j.initial.pid == pid
  }

  /** Custom's histories are in bijection with its live processes. */
  ghost predicate HistoriesMatch(policy: Policy, s: State) {
    policy.Custom? ==> forall pid :: pid in s.histories <==> HasPid(Held(s), pid)
  }

  ghost predicate Ready(policy: Policy, s: State) {
    && Shape(policy, s)
    && AllUnfinished(Held(s))
    && Distinct(Held(s))
    && HistoriesMatch(policy, s)
  }

  /** The process a call of Next will charge. */
  function Chosen(policy: Policy, s: State): Option<Process>
    requires |s.queues| == QueueCount(policy)
  {
    match policy
    case Fcfs =>
      var k := FirstUnfinished(s.queues[0], 0);
      if k == |s.queues[0]| then None else Some(s.queues[0][k])
    case RoundRobin => if s.queues[0] == [] then None else Some(s.queues[0][0])
    case Constant => SelectFeedback(s).current
    case Exponential => SelectFeedback(s).current
    case Custom => SelectCustom(s).current
  }

  function AfterService(j: Job): multiset<Job> {
    if j.processedTime + 1 == j.initial.processingTime then multiset{}
    else multiset{j.(processedTime := j.processedTime + 1)}
  }
}
