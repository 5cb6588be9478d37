/** The records shared by the simulator and the schedulers, and the view of them
    that both sides have in common: a multiset of jobs. */
module Processes {
  datatype Option<+T> = None | Some(value: T)

  /** What the simulator reads for one process. */
  datatype ProcessInitial = ProcessInitial(pid: nat, processingTime: nat, arrivalTime: nat)

  /** The simulator's own record of a process. */
  datatype ProcessStats = ProcessStats(initial: ProcessInitial, processedTime: nat, endTime: nat)

  /** A scheduler's own record of a process (without its link). */
  datatype Process = Process(initial: ProcessInitial, processedTime: nat, quantumUsed: nat)

  /** What a scheduler and the simulator must agree on about a live process. */
  datatype Job = Job(initial: ProcessInitial, processedTime: nat)

  predicate Unfinished(j: Job) {
    j.processedTime < j.initial.processingTime
  }

  function JobOf(p: Process): Job {
    Job(p.initial, p.processedTime)
  }

  /** The jobs in one queue. */
  function Jobs(q: seq<Process>): multiset<Job> {
    if q == [] then multiset{} else multiset{JobOf(q[0])} + Jobs(q[1..])
  }

  /** The jobs in a bank of queues. */
  function JobsIn(queues: seq<seq<Process>>): multiset<Job> {
    if queues == [] then multiset{} else Jobs(queues[0]) + JobsIn(queues[1..])
  }

  /** What `main` guarantees about its input: unique PIDs other than 0, and work to do. */
  ghost predicate ValidInput(procs: seq<ProcessInitial>) {
    && (forall i :: 0 <= i < |procs| ==> procs[i].pid > 0 && procs[i].processingTime > 0)
    && (forall i, j :: 0 <= i < j < |procs| ==> procs[i].pid != procs[j].pid)
  }

  lemma {:induction false} JobsAppend(a: seq<Process>, b: seq<Process>)
    ensures Jobs(a + b) == Jobs(a) + Jobs(b)
  {
    if a == [] {
      assert a + b == b;
    } else {
      assert (a + b)[1..] == a[1..] + b;
      JobsAppend(a[1..], b);
    }
  }

  lemma JobsSplit(q: seq<Process>, i: nat)
    requires i < |q|
    ensures Jobs(q) == Jobs(q[..i]) + multiset{JobOf(q[i])} + Jobs(q[i + 1..])
  {
    var front, back := q[..i], q[i..];
    assert q == front + back;
    JobsAppend(front, back);
    assert back[1..] == q[i + 1..];
  }

  lemma JobsSingleton(p: Process)
    ensures Jobs([p]) == multiset{JobOf(p)}
  {
    assert [p][1..] == [];
  }

  lemma Regroup(a: multiset<Job>, b: multiset<Job>, c: multiset<Job>, d: multiset<Job>, e: multiset<Job>)
    requires b + c == d + e
    ensures (a + b) + c == (a + d) + e
  {
    assert (a + b) + c == a + (b + c);
  }

  lemma {:induction false} JobsInUpdate(queues: seq<seq<Process>>, i: nat, q: seq<Process>)
    requires i < |queues|
    ensures JobsIn(queues[i := q]) + Jobs(queues[i]) == JobsIn(queues) + Jobs(q)
  {
    hide Jobs;
    var changed := queues[i := q];
    if i == 0 {
      assert changed[1..] == queues[1..];
      Regroup(multiset{}, Jobs(q) + JobsIn(queues[1..]), Jobs(queues[0]), Jobs(queues[0]) + JobsIn(queues[1..]),
            Jobs(q));
    } else {
      assert changed[1..] == queues[1..][i - 1 := q];
      JobsInUpdate(queues[1..], i - 1, q);
      assert changed[0] == queues[0] && queues[1..][i - 1] == queues[i];
      Regroup(Jobs(queues[0]), JobsIn(changed[1..]), Jobs(queues[i]), JobsIn(queues[1..]), Jobs(q));
    }
  }

  /** A job is in the bank exactly when some queue holds a process with that job. */
  lemma {:induction false} JobsMember(q: seq<Process>, j: Job)
    ensures j in Jobs(q) <==> exists p :: p in q && JobOf(p) == j
  {
    if q != [] {
      JobsMember(q[1..], j);
      assert forall p :: p in q <==> p == q[0] || p in q[1..];
    }
  }

  lemma {:induction false} JobsInMember(queues: seq<seq<Process>>, j: Job)
    ensures j in JobsIn(queues) <==> exists i, p :: 0 <= i < |queues| && p in queues[i] && JobOf(p) == j
  {
    if queues != [] {
      JobsMember(queues[0], j);
      JobsInMember(queues[1..], j);
      if j in JobsIn(queues) {
        if j in Jobs(queues[0]) {
        } else {
          var i, p :| 0 <= i < |queues[1..]| && p in queues[1..][i] && JobOf(p) == j;
          assert p in queues[i + 1];
        }
      }
      forall i, p | 0 <= i < |queues| && p in queues[i] && JobOf(p) == j
        ensures j in JobsIn(queues)
      {
        if i > 0 {
          assert p in queues[1..][i - 1];
        }
      }
    }
  }

  lemma MemberJob(queues: seq<seq<Process>>, i: nat, p: Process)
    requires i < |queues| && p in queues[i]
    ensures JobOf(p) in JobsIn(queues)
  {
    JobsInMember(queues, JobOf(p));
  }

  lemma {:induction false} NoJobs(queues: seq<seq<Process>>)
    ensures JobsIn(queues) == multiset{} <==> forall i :: 0 <= i < |queues| ==> queues[i] == []
  {
    if queues != [] {
      NoJobs(queues[1..]);
      assert forall i :: 1 <= i < |queues| ==> queues[i] == queues[1..][i - 1];
      assert forall i :: 0 <= i < |queues[1..]| ==> queues[1..][i] == queues[i + 1];
      if queues[0] != [] {
        assert JobOf(queues[0][0]) in JobsIn(queues);
      }
    }
  }
}
