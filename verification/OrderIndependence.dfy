/** The order of the input lines is irrelevant: two runs on permuted arrays print the same
    output and record the same end times, for every policy. */
module OrderIndependence {
  import opened Processes
  import opened ReadyQueue
  import opened Schedulers
  import opened SchedulerContract
  import opened Simulation

  /** This tick's arrivals, as they end up in the ready queue. */
  function Newcomers(stats: seq<ProcessStats>, t: nat): seq<Process> {
    if stats == [] then []
    else
      var last := stats[|stats| - 1].initial;
      var q := Newcomers(stats[..|stats| - 1], t);
      if last.arrivalTime == t then Insert(q, NewProcess(last)) else q
  }

  ghost predicate ArrivesAt(stats: seq<ProcessStats>, t: nat, p: ProcessInitial) {
    exists i :: 0 <= i < |stats| && stats[i].initial == p && p.arrivalTime == t
  }

  ghost predicate PidArrives(stats: seq<ProcessStats>, t: nat, pid: nat) {
    exists p :: ArrivesAt(stats, t, p) && p.pid == pid
  }

  lemma ArrivesSplit(stats: seq<ProcessStats>, t: nat)
    requires stats != []
    ensures var n := |stats| - 1;
            forall p :: ArrivesAt(stats, t, p) <==>
                        ArrivesAt(stats[..n], t, p) || (p == stats[n].initial && p.arrivalTime == t)
  {
    var n := |stats| - 1;
    forall p | ArrivesAt(stats[..n], t, p)
      ensures ArrivesAt(stats, t, p)
    {
      var i :| 0 <= i < n && stats[..n][i].initial == p && p.arrivalTime == t;
      assert stats[i].initial == p;
    }
    forall p | ArrivesAt(stats, t, p)
      ensures ArrivesAt(stats[..n], t, p) || (p == stats[n].initial && p.arrivalTime == t)
    {
      var i :| 0 <= i < |stats| && stats[i].initial == p && p.arrivalTime == t;
      if i < n {
        assert stats[..n][i].initial == p;
      }
    }
  }

  lemma InsertMembers(q: seq<Process>, p: Process)
    ensures forall x :: x in Insert(q, p) <==> x in q || x == p
  {
    var k := Position(q, p);
    assert q == q[..k] + q[k..];
  }

  /** The arrivals of a tick, whatever order they are handed over in, form one block in PID order. */
  lemma {:induction false} NewcomersSorted(stats: seq<ProcessStats>, t: nat)
    requires UniquePids(stats)
    ensures ByPid(Newcomers(stats, t)) && AllAt(Newcomers(stats, t), t)
    ensures forall x: Process :: x in Newcomers(stats, t) <==> x == NewProcess(x.initial) && ArrivesAt(stats, t, x.initial)
  {
    if stats != [] {
      var n := |stats| - 1;
      var p := NewProcess(stats[n].initial);
      var q := Newcomers(stats[..n], t);
      NewcomersSorted(stats[..n], t);
      ArrivesSplit(stats, t);
      if stats[n].initial.arrivalTime == t {
        NewcomerDiffers(stats, t, q);
        InsertAmongNewcomers([], q, p);
        InsertMembers(q, p);
      }
    }
  }

  lemma NewcomerDiffers(stats: seq<ProcessStats>, t: nat, q: seq<Process>)
    requires UniquePids(stats) && stats != []
    requires forall x :: x in q ==> ArrivesAt(stats[..|stats| - 1], t, x.initial)
    ensures forall i :: 0 <= i < |q| ==> q[i].initial.pid != stats[|stats| - 1].initial.pid
  {
    var n := |stats| - 1;
    forall i | 0 <= i < |q|
      ensures q[i].initial.pid != stats[n].initial.pid
    {
      assert q[i] in q;
      var k :| 0 <= k < n && stats[..n][k].initial == q[i].initial && q[i].initial.arrivalTime == t;
    }
  }

  /** Handing over a tick's arrivals appends that block to the ready queue, whatever is in it. */
  lemma {:induction false} ArriveAppends(policy: Policy, s: State, stats: seq<ProcessStats>, t: nat)
    requires |s.queues| == QueueCount(policy) && UniquePids(stats) && AllBefore(s.queues[0], t)
    ensures var s' := Arrive(policy, s, stats, t);
            && s'.queues == s.queues[0 := s.queues[0] + Newcomers(stats, t)]
            && s'.current == s.current && s'.level == s.level
            && (!policy.Custom? ==> s'.histories == s.histories)
  {
    hide Insert, ByPid;
    if stats == [] {
      assert s.queues[0] + [] == s.queues[0];
    } else {
      var n := |stats| - 1;
      var last := stats[n].initial;
      ArriveAppends(policy, s, stats[..n], t);
      if last.arrivalTime == t {
        NewcomersSorted(stats[..n], t);
        NewcomerDiffers(stats, t, Newcomers(stats[..n], t));
        AddToBlock(policy, s, Arrive(policy, s, stats[..n], t), Newcomers(stats[..n], t), last);
      }
    }
  }

  lemma AddToBlock(policy: Policy, s: State, s1: State, news: seq<Process>, p: ProcessInitial)
    requires s.queues != [] && s1.queues == s.queues[0 := s.queues[0] + news]
    requires AllBefore(s.queues[0], p.arrivalTime) && AllAt(news, p.arrivalTime) && ByPid(news)
    requires forall i :: 0 <= i < |news| ==> news[i].initial.pid != p.pid
    ensures Add(policy, s1, p).queues == s.queues[0 := s.queues[0] + Insert(news, NewProcess(p))]
  {
    hide Insert, ByPid;
    InsertAmongNewcomers(s.queues[0], news, NewProcess(p));
  }

  /** And starts a blank history for each of them, in the custom scheduler. */
  lemma {:induction false} ArriveHistories(s: State, stats: seq<ProcessStats>, t: nat)
    requires |s.queues| == 2
    ensures var h := Arrive(Custom, s, stats, t).histories;
            && (forall pid :: pid in h <==> pid in s.histories || PidArrives(stats, t, pid))
            && (forall pid :: pid in h ==>
                  h[pid] == if PidArrives(stats, t, pid) then History(0, 0, 0.0) else s.histories[pid])
  {
    if stats != [] {
      var n := |stats| - 1;
      ArriveHistories(s, stats[..n], t);
      ArrivesSplit(stats, t);
      var last := stats[n].initial;
      forall pid
        ensures PidArrives(stats, t, pid) <==>
                PidArrives(stats[..n], t, pid) || (last.arrivalTime == t && last.pid == pid)
      {
        if PidArrives(stats[..n], t, pid) {
          var p :| ArrivesAt(stats[..n], t, p) && p.pid == pid;
          assert ArrivesAt(stats, t, p);
        }
        if last.arrivalTime == t && last.pid == pid {
          assert ArrivesAt(stats, t, last);
        }
      }
    }
  }

  // ----- two runs side by side

  ghost predicate SameRecords(a: seq<ProcessStats>, b: seq<ProcessStats>) {
    forall p :: p in a <==> p in b
  }

  lemma SameArrivals(a: seq<ProcessStats>, b: seq<ProcessStats>, t: nat)
    requires SameRecords(a, b)
    ensures forall p :: ArrivesAt(a, t, p) <==> ArrivesAt(b, t, p)
    ensures forall pid :: PidArrives(a, t, pid) <==> PidArrives(b, t, pid)
  {
    forall p
      ensures ArrivesAt(a, t, p) <==> ArrivesAt(b, t, p)
    {
      if ArrivesAt(a, t, p) {
        var i :| 0 <= i < |a| && a[i].initial == p && p.arrivalTime == t;
        assert a[i] in b;
        var j :| 0 <= j < |b| && b[j] == a[i];
        assert b[j].initial == p;
      }
      if ArrivesAt(b, t, p) {
        var i :| 0 <= i < |b| && b[i].initial == p && p.arrivalTime == t;
        assert b[i] in a;
        var j :| 0 <= j < |a| && a[j] == b[i];
        assert a[j].initial == p;
      }
    }
  }

  lemma SameNewcomers(a: seq<ProcessStats>, b: seq<ProcessStats>, t: nat)
    requires SameRecords(a, b) && UniquePids(a) && UniquePids(b)
    ensures Newcomers(a, t) == Newcomers(b, t)
  {
    hide ByPid, ArrivesAt;
    NewcomersSorted(a, t);
    NewcomersSorted(b, t);
    SameArrivals(a, b, t);
    ByPidUnique(Newcomers(a, t), Newcomers(b, t));
  }

  lemma SameArrive(policy: Policy, s: State, a: seq<ProcessStats>, b: seq<ProcessStats>, t: nat)
    requires |s.queues| == QueueCount(policy) && AllBefore(s.queues[0], t)
    requires SameRecords(a, b) && UniquePids(a) && UniquePids(b)
    ensures Arrive(policy, s, a, t) == Arrive(policy, s, b, t)
  {
    hide SameRecords, UniquePids, AllBefore, PidArrives;
    ArriveAppends(policy, s, a, t);
    ArriveAppends(policy, s, b, t);
    SameNewcomers(a, b, t);
    if policy.Custom? {
      ArriveHistories(s, a, t);
      ArriveHistories(s, b, t);
      SameArrivals(a, b, t);
      assert Arrive(policy, s, a, t).histories == Arrive(policy, s, b, t).histories;
    }
  }

  lemma UpdateMembers(a: seq<ProcessStats>, k: nat, p: ProcessStats)
    requires UniquePids(a) && k < |a|
    ensures forall x :: x in a[k := p] <==> (x in a && x != a[k]) || x == p
  {
    var a' := a[k := p];
    forall x | (x in a && x != a[k]) || x == p
      ensures x in a'
    {
      if x == p {
        assert a'[k] == p;
      } else {
        var i :| 0 <= i < |a| && a[i] == x;
        assert a'[i] == x;
      }
    }
  }

  lemma SamePosition(a: seq<ProcessStats>, b: seq<ProcessStats>, pid: nat)
    requires SameRecords(a, b) && UniquePids(a) && UniquePids(b)
    ensures var i, j := FindPid(a, pid, 0), FindPid(b, pid, 0);
            (i < |a| <==> j < |b|) && (i < |a| ==> a[i] == b[j])
  {
    var i, j := FindPid(a, pid, 0), FindPid(b, pid, 0);
    if i < |a| {
      assert a[i] in b;
      var k :| 0 <= k < |b| && b[k] == a[i];
      FoundAt(b, k);
    }
    if j < |b| {
      assert b[j] in a;
      var k :| 0 <= k < |a| && a[k] == b[j];
      FoundAt(a, k);
    }
  }

  lemma SameCharge(a: seq<ProcessStats>, b: seq<ProcessStats>, pid: nat, t: nat)
    requires SameRecords(a, b) && UniquePids(a) && UniquePids(b)
    ensures SameRecords(Charge(a, pid, t), Charge(b, pid, t))
  {
    SamePosition(a, b, pid);
    var i, j := FindPid(a, pid, 0), FindPid(b, pid, 0);
    if pid != 0 && i < |a| {
      UpdateMembers(a, i, Bump(a[i], t));
      UpdateMembers(b, j, Bump(b[j], t));
      forall p
        ensures p in Charge(a, pid, t) <==> p in Charge(b, pid, t)
      {
        assert p in a <==> p in b;
      }
    } else {
      assert Charge(a, pid, t) == a && Charge(b, pid, t) == b;
    }
  }

  /** Before the arrivals of tick t, everything in the ready queue arrived earlier. */
  lemma QueueIsOlder(policy: Policy, w: World, t: nat)
    requires |w.sched.queues| == QueueCount(policy) && Agree(policy, w, t)
    ensures AllBefore(w.sched.queues[0], t)
  {
    var q := w.sched.queues[0];
    forall i | 0 <= i < |q|
      ensures q[i].initial.arrivalTime < t
    {
      QueueMember(w.sched, 0, q[i]);
      var k := PendingIndex(w.stats, t, JobOf(q[i]));
    }
  }

  lemma AgreeUnique(policy: Policy, w: World, t: nat)
    requires Agree(policy, w, t)
    ensures UniquePids(w.stats)
  {
  }

  lemma FreshMembers(procs: seq<ProcessInitial>)
    ensures forall x: ProcessStats :: x in Fresh(procs) <==> x == ProcessStats(x.initial, 0, 0) && x.initial in procs
  {
    forall x: ProcessStats | x == ProcessStats(x.initial, 0, 0) && x.initial in procs
      ensures x in Fresh(procs)
    {
      var i :| 0 <= i < |procs| && procs[i] == x.initial;
      assert Fresh(procs)[i] == x;
    }
  }

  lemma {:induction false} SameWorlds(policy: Policy, procs: seq<ProcessInitial>, other: seq<ProcessInitial>, t: nat)
    requires ValidInput(procs) && ValidInput(other) && SameRecords(Fresh(procs), Fresh(other))
    ensures var v, w := WorldAt(policy, procs, t), WorldAt(policy, other, t);
            && v.sched == w.sched && SameRecords(v.stats, w.stats)
            && SlotIn(policy, v, t) == SlotIn(policy, w, t)
  {
    hide Agree, SameRecords, Charge, SlotIn, Fresh, ValidInput;
    if t > 0 {
      SameWorlds(policy, procs, other, t - 1);
      var v0, w0 := WorldAt(policy, procs, t - 1), WorldAt(policy, other, t - 1);
      AgreesAt(policy, procs, t - 1);
      AgreesAt(policy, other, t - 1);
      SameCharge(v0.stats, w0.stats, SlotIn(policy, v0, t - 1).pid, t - 1);
    }
    AgreesAt(policy, procs, t);
    AgreesAt(policy, other, t);
    AgreedArrive(policy, WorldAt(policy, procs, t), WorldAt(policy, other, t), t);
  }

  lemma AgreesAt(policy: Policy, procs: seq<ProcessInitial>, t: nat)
    requires ValidInput(procs)
    ensures Agree(policy, WorldAt(policy, procs, t), t) && UniquePids(WorldAt(policy, procs, t).stats)
  {
    hide WorldAt;
    AlwaysAgree(policy, procs, t);
  }

  lemma AgreedArrive(policy: Policy, v: World, w: World, t: nat)
    requires |v.sched.queues| == QueueCount(policy) && v.sched == w.sched
    requires Agree(policy, v, t) && Agree(policy, w, t) && SameRecords(v.stats, w.stats)
    ensures SlotIn(policy, v, t) == SlotIn(policy, w, t)
  {
    hide Agree, SameRecords, Arrive, Next;
    AgreeUnique(policy, v, t);
    AgreeUnique(policy, w, t);
    QueueIsOlder(policy, v, t);
    SameArrive(policy, v.sched, v.stats, w.stats, t);
  }

  lemma SameStart(procs: seq<ProcessInitial>, other: seq<ProcessInitial>)
    requires multiset(procs) == multiset(other)
    ensures SameRecords(Fresh(procs), Fresh(other))
  {
    FreshMembers(procs);
    FreshMembers(other);
    forall p
      ensures p in procs <==> p in other
    {
      assert p in procs <==> p in multiset(procs);
      assert p in other <==> p in multiset(other);
    }
  }

  lemma {:induction false} NoRepeats(procs: seq<ProcessInitial>, p: ProcessInitial)
    requires forall i, j :: 0 <= i < j < |procs| ==> procs[i].pid != procs[j].pid
    ensures multiset(procs)[p] <= 1
  {
    if procs != [] {
      NoRepeats(procs[1..], p);
      assert procs == [procs[0]] + procs[1..];
      assert procs[0] !in procs[1..];
    }
  }

  lemma TwoPlaces(procs: seq<ProcessInitial>, i: nat, j: nat)
    requires i < j < |procs| && procs[i] == procs[j]
    ensures multiset(procs)[procs[i]] >= 2
  {
    assert procs == procs[..j] + ([procs[j]] + procs[j + 1..]);
    assert procs[..j][i] in multiset(procs[..j]);
  }

  /** A permutation of a valid input is valid. */
  lemma PermutedValid(procs: seq<ProcessInitial>, other: seq<ProcessInitial>)
    requires ValidInput(procs) && multiset(procs) == multiset(other)
    ensures ValidInput(other)
  {
    forall i | 0 <= i < |other|
      ensures other[i] in procs
    {
      assert other[i] in multiset(procs);
    }
    forall i, j | 0 <= i < j < |other|
      ensures other[i].pid != other[j].pid
    {
      if other[i].pid == other[j].pid {
        assert other[i] in procs && other[j] in procs;
        TwoPlaces(other, i, j);
        NoRepeats(procs, other[i]);
      }
    }
  }

  /** Permuting the input changes neither the output nor any process's final record. */
  lemma OrderOfInputIsIrrelevant(policy: Policy, procs: seq<ProcessInitial>, other: seq<ProcessInitial>, t: nat)
    requires ValidInput(procs) && multiset(procs) == multiset(other)
    ensures PidAt(policy, procs, t) == PidAt(policy, other, t)
    ensures forall i, j :: 0 <= i < |procs| && 0 <= j < |other| && procs[i].pid == other[j].pid ==>
              WorldAt(policy, procs, t).stats[i] == WorldAt(policy, other, t).stats[j]
  {
    hide Agree, Charge, Arrive, WorldAt;
    PermutedValid(procs, other);
    SameStart(procs, other);
    SameWorlds(policy, procs, other, t);
    var v, w := WorldAt(policy, procs, t), WorldAt(policy, other, t);
    AlwaysAgree(policy, procs, t);
    AlwaysAgree(policy, other, t);
    AgreeUnique(policy, v, t);
    AgreeUnique(policy, w, t);
    forall i, j | 0 <= i < |procs| && 0 <= j < |other| && procs[i].pid == other[j].pid
      ensures v.stats[i] == w.stats[j]
    {
      SamePosition(v.stats, w.stats, procs[i].pid);
      FoundAt(v.stats, i);
      FoundAt(w.stats, j);
    }
  }

  /** The ready queue on tick t: what was there before, whatever its order, then the newcomers by PID. */
  lemma NewcomersGoLast(policy: Policy, procs: seq<ProcessInitial>, t: nat)
    requires ValidInput(procs)
    ensures var w := WorldAt(policy, procs, t);
            var news := Newcomers(w.stats, t);
            && ArrivedIn(policy, procs, t).queues == w.sched.queues[0 := w.sched.queues[0] + news]
            && ArrivedIn(policy, procs, t).current == w.sched.current
            && ArrivedIn(policy, procs, t).level == w.sched.level
            && AllBefore(w.sched.queues[0], t) && AllAt(news, t) && ByPid(news)
            && forall x: Process :: x in news ==> x == NewProcess(x.initial)
  {
    hide Agree, WorldAt;
    AgreesAt(policy, procs, t);
    var w := WorldAt(policy, procs, t);
    QueueIsOlder(policy, w, t);
    ArriveAppends(policy, w.sched, w.stats, t);
    NewcomersSorted(w.stats, t);
  }
}
