/** The queue object of a node: from lock names to queues, created on demand, and the tasks on them (process-queue.ts,
    methods/queued-execution.ts). It goes through the states of LockQueues. */
module ProcessQueues {
  import opened LockQueues

  class ProcessQueue {
    var queues: map<Lock, seq<Job>>
    var tasks: seq<Task>

    ghost function View(): State
      reads this
    {
      State(tasks, queues)
    }

    constructor ()
      ensures View() == After([])
    {
      queues := map[];
      tasks := [];
    }

    /** `getOrCreateLockQueue` */
    method GetOrCreateLockQueue(lock: Lock)
      modifies this`queues
      ensures queues == if lock in old(queues) then old(queues) else old(queues)[lock := []]
    {
      if lock !in queues {
        queues := queues[lock := []];
      }
    }

    /** `addTask` up to the point where it waits: first all queues, then a job on each. */
    method AddTask(lockNames: seq<Lock>) returns (task: nat)
      modifies this
      ensures task == old(|tasks|)
      ensures View() == Happens(old(View()), Add(lockNames))
    {
      task := |tasks|;
      ghost var before := queues;
      for i := 0 to |lockNames|
        invariant tasks == old(tasks)
        invariant queues == Created(before, lockNames, i)
      {
        GetOrCreateLockQueue(lockNames[i]);
      }
      ghost var created := queues;
      tasks := tasks + [NewTask(lockNames)];
      for i := 0 to |lockNames|
        invariant tasks == old(tasks) + [NewTask(lockNames)]
        invariant queues == Enqueue(created, task, lockNames, i)
      {
        queues := queues[lockNames[i] := Queue(queues, lockNames[i]) + [Job(task, i)]];
      }
      EnqueueCreated(before, task, lockNames);
    }

    /** `runTaskWithMemoization`: the task itself is started by the first call only. */
    method RunTaskWithMemoization(task: nat) returns (ran: bool)
      requires task < |tasks|
      modifies this`tasks
      ensures tasks == old(tasks)[task := RunMemoized(old(tasks)[task])]
      ensures ran <==> old(tasks)[task].promise == NotRun
    {
      ran := tasks[task].promise == NotRun;
      var t := tasks[task].(calls := tasks[task].calls + 1);
      if ran {
        t := t.(promise := Running, runs := t.runs + 1);
      }
      tasks := tasks[task := t];
    }

    /** A job at the head of its queue: it resolves its deferred. */
    method StartJob(lock: Lock)
      requires Enabled(View(), LockQueues.StartJob(lock))
      modifies this`tasks
      ensures View() == Happens(old(View()), LockQueues.StartJob(lock))
    {
      var j := queues[lock][0];
      tasks := tasks[j.task := tasks[j.task].(started := tasks[j.task].started + {j.index})];
    }

    /** A job whose task has settled leaves its queue, on success and on failure. */
    method Release(lock: Lock)
      requires Enabled(View(), LockQueues.Release(lock))
      modifies this
      ensures View() == Happens(old(View()), LockQueues.Release(lock))
    {
      var j := queues[lock][0];
      tasks := tasks[j.task := tasks[j.task].(released := tasks[j.task].released + {j.index})];
      queues := queues[lock := queues[lock][1..]];
    }
  }

  /** The queues after those for the first n names have been created. */
  ghost function Created(queues: map<Lock, seq<Job>>, names: seq<Lock>, n: nat): map<Lock, seq<Job>>
    requires n <= |names|
  {
    if n == 0 then queues else
      var before := Created(queues, names, n - 1);
      if names[n - 1] in before then before else before[names[n - 1] := []]
  }

  lemma {:induction false} CreatedKeys(queues: map<Lock, seq<Job>>, names: seq<Lock>, n: nat)
    requires n <= |names|
    ensures forall l :: l in Created(queues, names, n) <==> l in queues || l in names[..n]
    ensures forall l :: Queue(Created(queues, names, n), l) == Queue(queues, l)
  {
    if n > 0 {
      CreatedKeys(queues, names, n - 1);
      assert names[..n] == names[..n - 1] + [names[n - 1]];
    }
  }

  lemma {:induction false} EnqueueKeys(queues: map<Lock, seq<Job>>, task: nat, names: seq<Lock>, n: nat)
    requires n <= |names|
    ensures forall l :: l in Enqueue(queues, task, names, n) <==> l in queues || l in names[..n]
  {
    if n > 0 {
      EnqueueKeys(queues, task, names, n - 1);
      assert names[..n] == names[..n - 1] + [names[n - 1]];
    }
  }

  /** Creating the queues beforehand makes no difference to where the jobs end up. */
  lemma EnqueueCreated(queues: map<Lock, seq<Job>>, task: nat, names: seq<Lock>)
    ensures Enqueue(Created(queues, names, |names|), task, names, |names|) == Enqueue(queues, task, names, |names|)
  {
    var n := |names|;
    var created := Created(queues, names, n);
    CreatedKeys(queues, names, n);
    EnqueueKeys(queues, task, names, n);
    EnqueueKeys(created, task, names, n);
    var q, q' := Enqueue(queues, task, names, n), Enqueue(created, task, names, n);
    forall l | l in q
      ensures l in q' && q[l] == q'[l]
    {
      EnqueueAppends(queues, task, names, n, l);
      EnqueueAppends(created, task, names, n, l);
      assert Queue(q, l) == q[l] && Queue(q', l) == q'[l];
    }
    assert q == q';
  }
}
