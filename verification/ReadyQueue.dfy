/** The queue a new process enters: the two skip loops of `add_to_ready_queue`, which all five
    schedulers share, and what they amount to when the simulator drives them. */
module ReadyQueue {
  import opened Processes

  /** First skip loop: past processes with an earlier arrival time. */
  function SkipEarlier(q: seq<Process>, p: Process, k: nat): (r: nat)
    requires k <= |q|
    ensures k <= r <= |q|
    decreases |q| - k
  {
    if k < |q| && q[k].initial.arrivalTime < p.initial.arrivalTime then SkipEarlier(q, p, k + 1) else k
  }

  /** Second skip loop: past processes with the same arrival time and an earlier PID. */
  function SkipSameTick(q: seq<Process>, p: Process, k: nat): (r: nat)
    requires k <= |q|
    ensures k <= r <= |q|
    decreases |q| - k
  {
    if k < |q| && q[k].initial.arrivalTime == p.initial.arrivalTime && q[k].initial.pid < p.initial.pid
    then SkipSameTick(q, p, k + 1) else k
  }

  function InsertAt(q: seq<Process>, k: nat, p: Process): seq<Process>
    requires k <= |q|
  {
    q[..k] + [p] + q[k..]
  }

  function Position(q: seq<Process>, p: Process): (k: nat)
    ensures k <= |q|
  {
    SkipSameTick(q, p, SkipEarlier(q, p, 0))
  }

  function Insert(q: seq<Process>, p: Process): seq<Process> {
    InsertAt(q, Position(q, p), p)
  }

  lemma InsertJobs(q: seq<Process>, p: Process)
    ensures Jobs(Insert(q, p)) == Jobs(q) + multiset{JobOf(p)}
  {
    var k := Position(q, p);
    var front, back := q[..k], q[k..];
    assert q == front + back;
    JobsAppend(front, back);
    JobsAppend(front, [p]);
    JobsAppend(front + [p], back);
    JobsSingleton(p);
  }

  ghost predicate ByPid(q: seq<Process>) {
    forall i, j :: 0 <= i < j < |q| ==> q[i].initial.pid < q[j].initial.pid
  }

  ghost predicate AllBefore(q: seq<Process>, t: nat) {
    forall i :: 0 <= i < |q| ==> q[i].initial.arrivalTime < t
  }

  ghost predicate AllAt(q: seq<Process>, t: nat) {
    forall i :: 0 <= i < |q| ==> q[i].initial.arrivalTime == t
  }

  lemma {:induction false} SkipsPrefix(older: seq<Process>, news: seq<Process>, p: Process, k: nat)
    requires k <= |older| && AllBefore(older, p.initial.arrivalTime) && AllAt(news, p.initial.arrivalTime)
    ensures SkipEarlier(older + news, p, k) == |older|
    decreases |older| - k
  {
    if k < |older| {
      SkipsPrefix(older, news, p, k + 1);
    }
  }

  lemma {:induction false} SkipShift(older: seq<Process>, news: seq<Process>, p: Process, k: nat)
    requires k <= |news|
    ensures SkipSameTick(older + news, p, |older| + k) == |older| + SkipSameTick(news, p, k)
    decreases |news| - k
  {
    if k < |news| && news[k].initial.arrivalTime == p.initial.arrivalTime && news[k].initial.pid < p.initial.pid {
      assert (older + news)[|older| + k] == news[k];
      SkipShift(older, news, p, k + 1);
    }
  }

  lemma {:induction false} SkipStops(news: seq<Process>, p: Process, k: nat)
    requires k <= |news| && AllAt(news, p.initial.arrivalTime)
    ensures forall i :: k <= i < SkipSameTick(news, p, k) ==> news[i].initial.pid < p.initial.pid
    ensures SkipSameTick(news, p, k) < |news| ==> news[SkipSameTick(news, p, k)].initial.pid >= p.initial.pid
    decreases |news| - k
  {
    if k < |news| && news[k].initial.pid < p.initial.pid {
      SkipStops(news, p, k + 1);
    }
  }

  lemma ByPidInsert(news: seq<Process>, k: nat, p: Process)
    requires k <= |news| && ByPid(news)
    requires forall i :: 0 <= i < k ==> news[i].initial.pid < p.initial.pid
    requires k < |news| ==> p.initial.pid < news[k].initial.pid
    ensures ByPid(InsertAt(news, k, p))
  {
    var q := InsertAt(news, k, p);
    forall i, j | 0 <= i < j < |q|
      ensures q[i].initial.pid < q[j].initial.pid
    {
      var a, b := if i < k then i else i - 1, if j < k then j else j - 1;
      assert i != k ==> q[i] == news[a];
      assert j != k ==> q[j] == news[b];
    }
  }

  lemma InsertAtShift(older: seq<Process>, news: seq<Process>, k: nat, p: Process)
    requires k <= |news|
    ensures InsertAt(older + news, |older| + k, p) == older + InsertAt(news, k, p)
  {
  }

  lemma AllAtInsert(news: seq<Process>, k: nat, p: Process)
    requires k <= |news| && AllAt(news, p.initial.arrivalTime)
    ensures AllAt(InsertAt(news, k, p), p.initial.arrivalTime)
  {
  }

  lemma PositionAmongNewcomers(older: seq<Process>, news: seq<Process>, p: Process) returns (k: nat)
    requires AllBefore(older, p.initial.arrivalTime) && AllAt(news, p.initial.arrivalTime)
    ensures k == Position(news, p) && Position(older + news, p) == |older| + k
    ensures forall i :: 0 <= i < k ==> news[i].initial.pid < p.initial.pid
    ensures k < |news| ==> news[k].initial.pid >= p.initial.pid
  {
    SkipsPrefix(older, news, p, 0);
    SkipsPrefix([], news, p, 0);
    assert [] + news == news;
    SkipShift(older, news, p, 0);
    SkipStops(news, p, 0);
    k := Position(news, p);
  }

  /** Whatever order the older processes are in, a newcomer goes behind all of them and takes
      its place, by PID, among those that arrived on the same tick. */
  lemma InsertAmongNewcomers(older: seq<Process>, news: seq<Process>, p: Process)
    requires AllBefore(older, p.initial.arrivalTime) && AllAt(news, p.initial.arrivalTime) && ByPid(news)
    requires forall i :: 0 <= i < |news| ==> news[i].initial.pid != p.initial.pid
    ensures Insert(older + news, p) == older + Insert(news, p)
    ensures ByPid(Insert(news, p)) && AllAt(Insert(news, p), p.initial.arrivalTime)
  {
    var k := PositionAmongNewcomers(older, news, p);
    InsertAtShift(older, news, k, p);
    ByPidInsert(news, k, p);
    AllAtInsert(news, k, p);
  }

  ghost predicate SameMembers(a: seq<Process>, b: seq<Process>) {
    forall p :: p in a <==> p in b
  }

  lemma SmallestFirst(a: seq<Process>, b: seq<Process>)
    requires ByPid(a) && ByPid(b) && SameMembers(a, b) && a != []
    ensures b != [] && a[0] == b[0]
  {
    assert a[0] in b;
    var i :| 0 <= i < |b| && b[i] == a[0];
    assert b[0] in a;
    var j :| 0 <= j < |a| && a[j] == b[0];
  }

  lemma TailMembers(q: seq<Process>)
    requires ByPid(q) && q != []
    ensures forall p :: p in q[1..] <==> p in q && p != q[0]
  {
    assert q == [q[0]] + q[1..];
  }

  /** A sequence in PID order is determined by its members. */
  lemma {:induction false} ByPidUnique(a: seq<Process>, b: seq<Process>)
    requires ByPid(a) && ByPid(b) && SameMembers(a, b)
    ensures a == b
  {
    if a == [] {
      if b != [] {
        SmallestFirst(b, a);
      }
    } else {
      SmallestFirst(a, b);
      TailMembers(a);
      TailMembers(b);
      ByPidUnique(a[1..], b[1..]);
    }
  }
}
