/** Tasks under several locks: one task is put on the queue of each of its locks, and runs once when it is at the
    head of all of them (methods/queued-execution.ts, process-queue.ts). */
module LockQueues {

  type Lock = string

  /** What one call to `addToManyQueues` puts on its index-th queue. */
  datatype Job = Job(task: nat, index: nat)

  /** The memoised promise. */
  datatype Promise = NotRun | Running | Done(ok: bool)

  /** A task by the names of its locks: which of its jobs have started, which have called the memoised runner and
      which are off their queues again; how often the task itself was run, and the runner called; and
      whether the caller has its answer. */
  datatype Task = Task(
    names: seq<Lock>,
    started: set<nat>,
    called: set<nat>,
    released: set<nat>,
    promise: Promise,
    runs: nat,
    calls: nat,
    returned: bool)
  {
    predicate AllIn(indices: set<nat>) {
      forall i :: 0 <= i < |names| ==> i in indices
    }
  }

  datatype State = State(tasks: seq<Task>, queues: map<Lock, seq<Job>>)

  datatype Event =
    | Add(names: seq<Lock>)
    | StartJob(lock: Lock)
    | CallRunner(task: nat, index: nat)
    | Complete(task: nat, ok: bool)
    | Release(lock: Lock)
    | Return(task: nat)

  function Queue(queues: map<Lock, seq<Job>>, lock: Lock): seq<Job> {
    if lock in queues then queues[lock] else []
  }

  /** The jobs for the first n locks, put on their queues one after the other; a missing queue is created. */
  function Enqueue(queues: map<Lock, seq<Job>>, task: nat, names: seq<Lock>, n: nat): map<Lock, seq<Job>>
    requires n <= |names|
  {
    if n == 0 then queues else
      var before := Enqueue(queues, task, names, n - 1);
      before[names[n - 1] := Queue(before, names[n - 1]) + [Job(task, n - 1)]]
  }

  function NewTask(names: seq<Lock>): Task {
    if names == [] then Task([], {}, {}, {}, Running, 1, 1, false) else Task(names, {}, {}, {}, NotRun, 0, 0, false)
  }

  predicate HeadIs(s: State, lock: Lock, j: Job) {
    Queue(s.queues, lock) != [] && Queue(s.queues, lock)[0] == j
  }

  function Head(s: State, lock: Lock): Job
    requires Queue(s.queues, lock) != []
  {
    Queue(s.queues, lock)[0]
  }

  predicate Enabled(s: State, e: Event) {
    match e
    case Add(_) => true
    case StartJob(lock) =>
      && Queue(s.queues, lock) != []
      && Head(s, lock).task < |s.tasks| && Head(s, lock).index !in s.tasks[Head(s, lock).task].started
    case CallRunner(t, i) =>
      t < |s.tasks| && i < |s.tasks[t].names| && s.tasks[t].AllIn(s.tasks[t].started) && i !in s.tasks[t].called
    case Complete(t, _) => t < |s.tasks| && s.tasks[t].promise == Running
    case Release(lock) =>
      && Queue(s.queues, lock) != []
      && Head(s, lock).task < |s.tasks| && Head(s, lock).index in s.tasks[Head(s, lock).task].called
      && s.tasks[Head(s, lock).task].promise.Done?
    case Return(t) =>
      && t < |s.tasks| && !s.tasks[t].returned && s.tasks[t].promise.Done?
      && (if s.tasks[t].promise.ok then s.tasks[t].AllIn(s.tasks[t].released)
          else s.tasks[t].names == [] || s.tasks[t].released != {})
  }

  /** `runTaskWithMemoization` */
  function RunMemoized(task: Task): Task {
    var counted := task.(calls := task.calls + 1);
    if task.promise == NotRun then counted.(promise := Running, runs := task.runs + 1) else counted
  }

  function Happens(s: State, e: Event): State
    requires Enabled(s, e)
  {
    match e
    case Add(names) => State(s.tasks + [NewTask(names)], Enqueue(s.queues, |s.tasks|, names, |names|))
    case StartJob(lock) =>
      var j := Head(s, lock);
      s.(tasks := s.tasks[j.task := s.tasks[j.task].(started := s.tasks[j.task].started + {j.index})])
    case CallRunner(t, i) =>
      s.(tasks := s.tasks[t := RunMemoized(s.tasks[t]).(called := s.tasks[t].called + {i})])
    case Complete(t, ok) => s.(tasks := s.tasks[t := s.tasks[t].(promise := Done(ok))])
    case Release(lock) =>
      var j := Head(s, lock);
      State(s.tasks[j.task := s.tasks[j.task].(released := s.tasks[j.task].released + {j.index})],
            s.queues[lock := Queue(s.queues, lock)[1..]])
    case Return(t) =>
      var answered := if s.tasks[t].promise.ok && s.tasks[t].names != [] then RunMemoized(s.tasks[t]) else s.tasks[t];
      s.(tasks := s.tasks[t := answered.(returned := true)])
  }

  /** The state after a run; events that are not possible are skipped. */
  function After(events: seq<Event>): State {
    if events == [] then State([], map[]) else
      var s, e := After(events[..|events| - 1]), events[|events| - 1];
      if Enabled(s, e) then Happens(s, e) else s
  }

  // ---- Invariants ----

  predicate Precedes(j: Job, j': Job) {
    j.task < j'.task || (j.task == j'.task && j.index < j'.index)
  }

  /** Every queue holds its jobs in the order in which the tasks were added. */
  ghost predicate Ordered(q: seq<Job>) {
    forall a, b :: 0 <= a < b < |q| ==> Precedes(q[a], q[b])
  }

  /** A queue holds exactly the jobs for its lock that were not released. */
  ghost predicate Holds(s: State, lock: Lock) {
    && Ordered(Queue(s.queues, lock))
    && forall j :: j in Queue(s.queues, lock) <==>
         j.task < |s.tasks| && j.index < |s.tasks[j.task].names| && s.tasks[j.task].names[j.index] == lock
         && j.index !in s.tasks[j.task].released
  }

  /** What the counters and flags of a task say of each other. */
  ghost predicate TaskOk(task: Task) {
    && (forall i :: i in task.started ==> i < |task.names|)
    && task.released <= task.called <= task.started
    && (task.called != {} ==> task.AllIn(task.started))
    && (task.names != [] ==> (task.promise == NotRun <==> task.called == {}))
    && (task.released != {} ==> task.promise.Done?)
    && task.runs == (if task.promise == NotRun then 0 else 1)
    && (task.returned ==> task.promise.Done?)
    && (task.returned && task.promise.ok ==> task.AllIn(task.released))
    && (task.names != [] ==> task.calls == |task.called| + if task.returned && task.promise.ok then 1 else 0)
    && (task.names == [] ==> task.promise != NotRun && task.calls == 1)
  }

  /** A job that has started and is not off its queue stays at the head. */
  ghost predicate StartedAtHead(s: State, t: nat) {
    t < |s.tasks| &&
    forall i :: i in s.tasks[t].started && i !in s.tasks[t].released && i < |s.tasks[t].names| ==> HeadIs(s, s.tasks[t].names[i], Job(t, i))
  }

  ghost predicate Valid(s: State) {
    && (forall lock :: Holds(s, lock))
    && (forall t :: 0 <= t < |s.tasks| ==> TaskOk(s.tasks[t]))
    && (forall t :: 0 <= t < |s.tasks| ==> StartedAtHead(s, t))
  }

  // ---- Every event keeps them ----

  /** The jobs of one task for one lock. */
  function JobsFor(task: nat, names: seq<Lock>, n: nat, lock: Lock): seq<Job>
    requires n <= |names|
  {
    if n == 0 then [] else JobsFor(task, names, n - 1, lock) + if names[n - 1] == lock then [Job(task, n - 1)] else []
  }

  lemma {:induction false} EnqueueAppends(queues: map<Lock, seq<Job>>, task: nat, names: seq<Lock>, n: nat, lock: Lock)
    requires n <= |names|
    ensures Queue(Enqueue(queues, task, names, n), lock) == Queue(queues, lock) + JobsFor(task, names, n, lock)
  {
    if n > 0 {
      EnqueueAppends(queues, task, names, n - 1, lock);
    }
  }

  lemma {:induction false} JobsForAre(task: nat, names: seq<Lock>, n: nat, lock: Lock)
    requires n <= |names|
    ensures Ordered(JobsFor(task, names, n, lock))
    ensures forall j :: j in JobsFor(task, names, n, lock) <==> j.task == task && j.index < n && names[j.index] == lock
  {
    if n > 0 {
      JobsForAre(task, names, n - 1, lock);
      var before := JobsFor(task, names, n - 1, lock);
      forall b | 0 <= b < |before|
        ensures Precedes(before[b], Job(task, n - 1))
      {
        assert before[b] in before;
      }
    }
  }

  lemma AddHolds(s: State, names: seq<Lock>, lock: Lock)
    requires Valid(s)
    ensures Holds(Happens(s, Add(names)), lock)
  {
    var s', t := Happens(s, Add(names)), |s.tasks|;
    EnqueueAppends(s.queues, t, names, |names|, lock);
    JobsForAre(t, names, |names|, lock);
    var q, more := Queue(s.queues, lock), JobsFor(t, names, |names|, lock);
    assert Holds(s, lock);
    forall a, b | 0 <= a < |q| && 0 <= b < |more|
      ensures Precedes(q[a], more[b])
    {
      assert q[a] in q && more[b] in more;
    }
    forall j
      ensures j in Queue(s'.queues, lock) <==>
              j.task < |s'.tasks| && j.index < |s'.tasks[j.task].names| && s'.tasks[j.task].names[j.index] == lock
              && j.index !in s'.tasks[j.task].released
    {
      assert j in q + more <==> j in q || j in more;
    }
  }

  lemma AddKeepsValid(s: State, names: seq<Lock>)
    requires Valid(s)
    ensures Valid(Happens(s, Add(names)))
  {
    var s', t := Happens(s, Add(names)), |s.tasks|;
    forall lock
      ensures Holds(s', lock)
    {
      AddHolds(s, names, lock);
    }
    forall u | 0 <= u < |s'.tasks|
      ensures StartedAtHead(s', u)
    {
      if u < t {
        assert StartedAtHead(s, u);
        forall i | i in s.tasks[u].started && i !in s.tasks[u].released && i < |s.tasks[u].names|
          ensures HeadIs(s', s.tasks[u].names[i], Job(u, i))
        {
          EnqueueAppends(s.queues, t, names, |names|, s.tasks[u].names[i]);
        }
      }
    }
  }

  /** Events that leave the queues alone. */
  lemma SameQueues(s: State, s': State, t: nat)
    requires Valid(s) && s'.queues == s.queues && t < |s.tasks|
    requires |s'.tasks| == |s.tasks| && s'.tasks == s.tasks[t := s'.tasks[t]]
    requires s'.tasks[t].names == s.tasks[t].names && s'.tasks[t].released == s.tasks[t].released
    requires TaskOk(s'.tasks[t]) && StartedAtHead(s', t)
    ensures Valid(s')
  {
    forall lock
      ensures Holds(s', lock)
    {
      assert Holds(s, lock);
    }
    forall u | 0 <= u < |s'.tasks|
      ensures StartedAtHead(s', u)
    {
      if u != t {
        assert StartedAtHead(s, u);
      }
    }
  }

  lemma StartKeepsValid(s: State, lock: Lock)
    requires Valid(s) && Enabled(s, StartJob(lock))
    ensures Valid(Happens(s, StartJob(lock)))
  {
    var j := Head(s, lock);
    assert Holds(s, lock) && j in Queue(s.queues, lock);
    assert TaskOk(s.tasks[j.task]) && StartedAtHead(s, j.task);
    SameQueues(s, Happens(s, StartJob(lock)), j.task);
  }

  lemma CallKeepsValid(s: State, t: nat, i: nat)
    requires Valid(s) && Enabled(s, CallRunner(t, i))
    ensures Valid(Happens(s, CallRunner(t, i)))
  {
    assert TaskOk(s.tasks[t]) && StartedAtHead(s, t);
    SameQueues(s, Happens(s, CallRunner(t, i)), t);
  }

  lemma AnswersKeepValid(s: State, e: Event, t: nat)
    requires Valid(s) && Enabled(s, e) && (e == Return(t) || (e.Complete? && e.task == t))
    ensures Valid(Happens(s, e))
  {
    assert TaskOk(s.tasks[t]) && StartedAtHead(s, t);
    SameQueues(s, Happens(s, e), t);
  }

  lemma ReleaseHolds(s: State, lock: Lock, lock': Lock)
    requires Valid(s) && Enabled(s, Release(lock))
    ensures Holds(Happens(s, Release(lock)), lock')
  {
    var s', q := Happens(s, Release(lock)), Queue(s.queues, lock);
    assert Holds(s, lock) && Holds(s, lock') && q[0] in q;
    if lock' == lock {
      forall j
        ensures j in q[1..] <==> j in q && j != q[0]
      {
        if j in q && j != q[0] {
          var a :| 0 <= a < |q| && q[a] == j;
          assert q[1..][a - 1] == j;
        }
      }
    }
  }

  lemma ReleaseKeepsValid(s: State, lock: Lock)
    requires Valid(s) && Enabled(s, Release(lock))
    ensures Valid(Happens(s, Release(lock)))
  {
    var s', q := Happens(s, Release(lock)), Queue(s.queues, lock);
    var j := q[0];
    assert Holds(s, lock) && j in q && TaskOk(s.tasks[j.task]);
    assert TaskOk(s'.tasks[j.task]);
    forall lock'
      ensures Holds(s', lock')
    {
      ReleaseHolds(s, lock, lock');
    }
    forall u | 0 <= u < |s'.tasks|
      ensures StartedAtHead(s', u)
    {
      assert StartedAtHead(s, u);
      forall i | i in s'.tasks[u].started && i !in s'.tasks[u].released && i < |s'.tasks[u].names|
        ensures HeadIs(s', s'.tasks[u].names[i], Job(u, i))
      {
        assert HeadIs(s, s.tasks[u].names[i], Job(u, i));
      }
    }
  }

  lemma StepKeepsValid(s: State, e: Event)
    requires Valid(s) && Enabled(s, e)
    ensures Valid(Happens(s, e))
  {
    match e {
      case Add(names) => AddKeepsValid(s, names);
      case StartJob(lock) => StartKeepsValid(s, lock);
      case CallRunner(t, i) => CallKeepsValid(s, t, i);
      case Complete(t, ok) => AnswersKeepValid(s, e, t);
      case Release(lock) => ReleaseKeepsValid(s, lock);
      case Return(t) => AnswersKeepValid(s, e, t);
    }
  }

  lemma {:induction false} AlwaysValid(events: seq<Event>)
    ensures Valid(After(events))
  {
    if events != [] {
      var before, e := After(events[..|events| - 1]), events[|events| - 1];
      AlwaysValid(events[..|events| - 1]);
      if Enabled(before, e) {
        StepKeepsValid(before, e);
      }
    }
  }

  // ---- Mutual exclusion, and once only ----

  /** Two tasks that share a lock never run at the same time. */
  lemma MutualExclusion(events: seq<Event>, t: nat, u: nat, i: nat, j: nat)
    requires var s := After(events);
             && t < |s.tasks| && u < |s.tasks| && i < |s.tasks[t].names| && j < |s.tasks[u].names|
             && s.tasks[t].names[i] == s.tasks[u].names[j]
             && s.tasks[t].promise == s.tasks[u].promise == Running
    ensures t == u
  {
    var s := After(events);
    AlwaysValid(events);
    assert TaskOk(s.tasks[t]) && TaskOk(s.tasks[u]) && StartedAtHead(s, t) && StartedAtHead(s, u);
    assert HeadIs(s, s.tasks[t].names[i], Job(t, i)) && HeadIs(s, s.tasks[u].names[j], Job(u, j));
  }

  lemma DoneStays(s: State, e: Event, t: nat)
    requires t < |s.tasks| && s.tasks[t].promise.Done? && Enabled(s, e)
    ensures t < |Happens(s, e).tasks| && Happens(s, e).tasks[t].promise == s.tasks[t].promise
  {
  }

  /** What a task comes to, good or bad, is what it stays at, in every run: later calls of the memoised runner are answered
      with it, and the task completes no second time. */
  lemma {:induction false} OutcomeKept(events: seq<Event>, i: nat, t: nat, ok: bool)
    requires i < |events| && events[i] == Complete(t, ok) && Enabled(After(events[..i]), events[i])
    ensures t < |After(events).tasks| && After(events).tasks[t].promise == Done(ok)
    ensures forall ok' :: !Enabled(After(events), Complete(t, ok'))
  {
    var n := |events| - 1;
    if i < n {
      assert events[..n][..i] == events[..i];
      OutcomeKept(events[..n], i, t, ok);
      if Enabled(After(events[..n]), events[n]) {
        DoneStays(After(events[..n]), events[n], t);
      }
    }
  }

  /** A task runs at most once, on success and on failure, and exactly once by the time it is done. A caller has a good
      answer only after the memoised runner was called once for each of the n locks and once more, and with every
      queue free of the task; a failure answers it earlier, without the last call. When all its jobs are
      released, on success or failure, there were n calls, not counting that last one, and no queue holds it. */
  lemma RunsOnce(events: seq<Event>, t: nat)
    requires t < |After(events).tasks|
    ensures var task := After(events).tasks[t];
            && task.runs <= 1
            && (task.promise.Done? ==> task.runs == 1)
            && (task.promise == Running || task.promise.Done? ==> task.AllIn(task.started))
            && (task.returned && task.promise == Done(true) && task.names != [] ==>
                  && task.calls == |task.names| + 1
                  && forall lock, i :: Job(t, i) !in Queue(After(events).queues, lock))
            && (task.promise.Done? && task.names != [] && task.AllIn(task.released) ==>
                  && task.calls == |task.names| + (if task.returned && task.promise.ok then 1 else 0)
                  && forall lock, i :: Job(t, i) !in Queue(After(events).queues, lock))
            && (task.names != [] ==> task.calls <= |task.names| + if task.returned && task.promise == Done(true) then 1 else 0)
            && (task.returned && task.names != [] && task.promise == Done(false) ==> task.calls > 0)
  {
    var s := After(events);
    var task := s.tasks[t];
    AlwaysValid(events);
    assert TaskOk(task);
    if task.names != [] {
      AtMost(task.called, |task.names|);
    }
    if task.promise.Done? && task.names != [] && task.AllIn(task.released) {
      AllOf(task.called, |task.names|);
      forall lock, i
        ensures Job(t, i) !in Queue(s.queues, lock)
      {
        assert Holds(s, lock);
      }
    }
  }

  lemma {:induction false} AllOf(indices: set<nat>, n: nat)
    requires forall i: nat :: i in indices <==> i < n
    ensures |indices| == n
  {
    if n == 0 {
      assert indices == {};
    } else {
      AllOf(indices - {n - 1}, n - 1);
    }
  }

  /** In every queue that two tasks share, they stand in the order in which they were added. */
  lemma SharedOrder(events: seq<Event>, lock: Lock, a: nat, b: nat)
    requires a < b < |Queue(After(events).queues, lock)|
    ensures Queue(After(events).queues, lock)[a].task <= Queue(After(events).queues, lock)[b].task
  {
    AlwaysValid(events);
    assert Holds(After(events), lock);
  }

  // ---- Progress ----

  ghost predicate DistinctNames(names: seq<Lock>) {
    forall i, j :: 0 <= i < j < |names| ==> names[i] != names[j]
  }

  /** Off all its queues, and the caller answered. */
  predicate Finished(task: Task) {
    task.AllIn(task.released) && task.returned
  }

  /** The task that an event other than an arrival belongs to. */
  function TaskOf(s: State, e: Event): nat
    requires Enabled(s, e) && !e.Add?
  {
    match e
    case StartJob(lock) => Head(s, lock).task
    case CallRunner(t, _) => t
    case Complete(t, _) => t
    case Release(lock) => Head(s, lock).task
    case Return(t) => t
  }

  /** A possible step of one of the first t + 1 tasks. */
  predicate StepUpTo(s: State, e: Event, t: nat) {
    Enabled(s, e) && !e.Add? && TaskOf(s, e) <= t
  }

  /** When the older tasks are off their queues, every job of this one that is not released is at the head. */
  lemma OldestAtHead(s: State, t: nat, i: nat)
    requires Valid(s) && t < |s.tasks| && i < |s.tasks[t].names| && DistinctNames(s.tasks[t].names)
    requires forall u :: 0 <= u < t ==> s.tasks[u].AllIn(s.tasks[u].released)
    requires i !in s.tasks[t].released
    ensures HeadIs(s, s.tasks[t].names[i], Job(t, i))
  {
    var lock := s.tasks[t].names[i];
    var q := Queue(s.queues, lock);
    assert Holds(s, lock) && Job(t, i) in q;
    assert forall a, c :: 0 <= a < c < |q| ==> Precedes(q[a], q[c]);
    var b :| 0 <= b < |q| && q[b] == Job(t, i);
    assert q[0] in q;
  }

  /** When the older tasks are off their queues, a task that is not finished can take a step itself, if its locks have
      different names and the task, once running, completes. */
  lemma OldestCanStep(s: State, t: nat) returns (e: Event)
    requires Valid(s) && t < |s.tasks| && DistinctNames(s.tasks[t].names) && !Finished(s.tasks[t])
    requires forall u :: 0 <= u < t ==> s.tasks[u].AllIn(s.tasks[u].released)
    ensures !e.Add? && Enabled(s, e) && TaskOf(s, e) == t
  {
    var task := s.tasks[t];
    assert TaskOk(task);
    if task.promise == Running {
      e := Complete(t, true);
    } else if !task.AllIn(task.started) {
      var i :| 0 <= i < |task.names| && i !in task.started;
      OldestAtHead(s, t, i);
      e := StartJob(task.names[i]);
    } else if !task.AllIn(task.called) {
      var i :| 0 <= i < |task.names| && i !in task.called;
      e := CallRunner(t, i);
    } else if !task.AllIn(task.released) {
      var i :| 0 <= i < |task.names| && i !in task.released;
      OldestAtHead(s, t, i);
      e := Release(task.names[i]);
    } else {
      e := Return(t);
      assert task.names != [] ==> 0 in task.released;
    }
  }

  ghost predicate DistinctUpTo(s: State, t: nat) {
    t < |s.tasks| && forall u :: 0 <= u <= t ==> DistinctNames(s.tasks[u].names)
  }

  /** No deadlock, and nobody is overtaken for good: in every reachable state, whatever has arrived since, a task that
      is not finished or one before it can take a step, when these name no lock twice. */
  lemma NoDeadlock(events: seq<Event>, t: nat) returns (e: Event)
    requires DistinctUpTo(After(events), t) && !Finished(After(events).tasks[t])
    ensures StepUpTo(After(events), e, t)
  {
    AlwaysValid(events);
    e := SomeCanStep(After(events), t);
  }

  lemma {:induction false} SomeCanStep(s: State, t: nat) returns (e: Event)
    requires Valid(s) && DistinctUpTo(s, t) && !Finished(s.tasks[t])
    ensures StepUpTo(s, e, t)
    decreases t
  {
    if u :| 0 <= u < t && !s.tasks[u].AllIn(s.tasks[u].released) {
      e := SomeCanStep(s, u);
    } else {
      e := OldestCanStep(s, t);
    }
  }

  /** How many steps a task has ahead of it, at most. */
  function Remaining(task: Task): int {
    3 * |task.names| - |task.started| - |task.called| - |task.released|
    + (match task.promise case NotRun => 2 case Running => 1 case Done(_) => 0)
    + if task.returned then 0 else 1
  }

  function Work(tasks: seq<Task>): int {
    if tasks == [] then 0 else Work(tasks[..|tasks| - 1]) + Remaining(tasks[|tasks| - 1])
  }

  lemma {:induction false} WorkUpdated(tasks: seq<Task>, t: nat, task: Task)
    requires t < |tasks|
    ensures Work(tasks[t := task]) == Work(tasks) - Remaining(tasks[t]) + Remaining(task)
  {
    var n := |tasks| - 1;
    if t < n {
      WorkUpdated(tasks[..n], t, task);
      assert tasks[t := task][..n] == tasks[..n][t := task];
    } else {
      assert tasks[t := task][..n] == tasks[..n];
    }
  }

  lemma {:induction false} AtMost(indices: set<nat>, n: nat)
    requires forall i: nat :: i in indices ==> i < n
    ensures |indices| <= n
  {
    if n == 0 {
      assert indices == {};
    } else {
      AtMost(indices - {n - 1}, n - 1);
      assert indices <= indices - {n - 1} + {n - 1};
      assert |indices| <= |indices - {n - 1}| + 1;
    }
  }

  lemma {:induction false} WorkNonNegative(tasks: seq<Task>)
    requires forall t :: 0 <= t < |tasks| ==> TaskOk(tasks[t])
    ensures Work(tasks) >= 0
  {
    if tasks != [] {
      var task := tasks[|tasks| - 1];
      WorkNonNegative(tasks[..|tasks| - 1]);
      assert TaskOk(task);
      AtMost(task.started, |task.names|);
      AtMost(task.called, |task.names|);
      AtMost(task.released, |task.names|);
    }
  }

  /** A step changes its own task only, and leaves it less to do. */
  lemma StepUsesRemaining(s: State, e: Event)
    requires Valid(s) && Enabled(s, e) && !e.Add?
    ensures var (s', u) := (Happens(s, e), TaskOf(s, e));
            && u < |s.tasks| && |s'.tasks| == |s.tasks|
            && s'.tasks == s.tasks[u := s'.tasks[u]] && Remaining(s'.tasks[u]) < Remaining(s.tasks[u])
  {
    assert TaskOk(s.tasks[TaskOf(s, e)]);
    if e.Release? {
      assert Holds(s, e.lock) && Head(s, e.lock) in Queue(s.queues, e.lock);
    }
  }

  /** A step of one of the first t + 1 tasks uses up work of these. */
  lemma StepUsesWork(s: State, e: Event, t: nat)
    requires Valid(s) && t < |s.tasks| && StepUpTo(s, e, t)
    ensures t < |Happens(s, e).tasks| && Work(Happens(s, e).tasks[..t + 1]) < Work(s.tasks[..t + 1])
  {
    StepUsesRemaining(s, e);
    UpdateUsesWork(s.tasks, t, TaskOf(s, e), Happens(s, e).tasks[TaskOf(s, e)]);
  }

  lemma UpdateUsesWork(tasks: seq<Task>, t: nat, u: nat, task: Task)
    requires u <= t < |tasks| && Remaining(task) < Remaining(tasks[u])
    ensures Work(tasks[u := task][..t + 1]) < Work(tasks[..t + 1])
  {
    assert tasks[u := task][..t + 1] == tasks[..t + 1][u := task];
    WorkUpdated(tasks[..t + 1], u, task);
  }

  /** Arrivals and steps of later tasks do not touch the first t + 1 tasks. */
  lemma LaterLeaveAlone(s: State, e: Event, t: nat)
    requires t < |s.tasks| && Enabled(s, e) && !StepUpTo(s, e, t)
    ensures t < |Happens(s, e).tasks| && Happens(s, e).tasks[..t + 1] == s.tasks[..t + 1]
  {
  }

  lemma NamesStay(s: State, e: Event, t: nat)
    requires t < |s.tasks| && Enabled(s, e)
    ensures t < |Happens(s, e).tasks| && Happens(s, e).tasks[t].names == s.tasks[t].names
    ensures Valid(s) && Finished(s.tasks[t]) ==> Finished(Happens(s, e).tasks[t])
  {
  }

  /** A run goes on from s; events that are not possible are skipped, and any number of tasks may arrive. */
  function Onward(s: State, events: seq<Event>): State {
    if events == [] then s else
      var before, e := Onward(s, events[..|events| - 1]), events[|events| - 1];
      if Enabled(before, e) then Happens(before, e) else before
  }

  /** How many of its events are steps of the first t + 1 tasks. */
  function StepsUpTo(s: State, events: seq<Event>, t: nat): nat {
    if events == [] then 0 else
      StepsUpTo(s, events[..|events| - 1], t) + if StepUpTo(Onward(s, events[..|events| - 1]), events[|events| - 1], t) then 1 else 0
  }

  lemma {:induction false} OnwardKeeps(s: State, events: seq<Event>, t: nat)
    requires Valid(s) && t < |s.tasks|
    ensures var s' := Onward(s, events);
            && Valid(s') && t < |s'.tasks|
            && (DistinctUpTo(s, t) ==> DistinctUpTo(s', t))
            && (Finished(s.tasks[t]) ==> Finished(s'.tasks[t]))
            && Work(s'.tasks[..t + 1]) + StepsUpTo(s, events, t) <= Work(s.tasks[..t + 1])
  {
    if events != [] {
      var before, e := Onward(s, events[..|events| - 1]), events[|events| - 1];
      OnwardKeeps(s, events[..|events| - 1], t);
      if Enabled(before, e) {
        StepKeepsValid(before, e);
        forall u | 0 <= u <= t
          ensures Happens(before, e).tasks[u].names == before.tasks[u].names
        {
          NamesStay(before, e, u);
        }
        NamesStay(before, e, t);
        if StepUpTo(before, e, t) {
          StepUsesWork(before, e, t);
        } else {
          LaterLeaveAlone(before, e, t);
        }
      }
    }
  }

  lemma WorkUpToNonNegative(s: State, t: nat)
    requires Valid(s) && t < |s.tasks|
    ensures Work(s.tasks[..t + 1]) >= 0
  {
    WorkNonNegative(s.tasks[..t + 1]);
  }

  /** Every task runs once its turn comes, whatever arrives behind it: from any reachable state, on any run, the first
      t + 1 tasks take at most as many steps as they have work, and when they can take no more step the task t is
      finished, if none of them names a lock twice. */
  lemma EveryTaskFinishes(events: seq<Event>, later: seq<Event>, t: nat)
    requires t < |After(events).tasks|
    ensures var (s, s') := (After(events), Onward(After(events), later));
            && t < |s'.tasks|
            && StepsUpTo(s, later, t) <= Work(s.tasks[..t + 1])
            && (DistinctUpTo(s, t) && (forall e :: !StepUpTo(s', e, t)) ==> Finished(s'.tasks[t]))
  {
    var s, s' := After(events), Onward(After(events), later);
    AlwaysValid(events);
    OnwardKeeps(s, later, t);
    WorkUpToNonNegative(s', t);
    if DistinctUpTo(s, t) && !Finished(s'.tasks[t]) {
      var e := SomeCanStep(s', t);
    }
  }

  /** A run in rounds, in each of which one of the first t + 1 tasks takes a step as long as the task t is not
      finished: any fair schedule, since such a step is always possible. */
  ghost predicate FairRounds(s: State, rounds: seq<seq<Event>>, t: nat)
    decreases |rounds|
  {
    rounds == [] ||
    (&& t < |Onward(s, rounds[0]).tasks| && t < |s.tasks|
     && (Finished(s.tasks[t]) || StepsUpTo(s, rounds[0], t) > 0)
     && FairRounds(Onward(s, rounds[0]), rounds[1..], t))
  }

  function AllRounds(s: State, rounds: seq<seq<Event>>): State
    decreases |rounds|
  {
    if rounds == [] then s else AllRounds(Onward(s, rounds[0]), rounds[1..])
  }

  /** So on a fair schedule a task is finished once there were more rounds than it and the tasks before it have work,
      however many tasks arrive meanwhile. */
  lemma {:induction false} FairlyScheduledFinishes(s: State, rounds: seq<seq<Event>>, t: nat)
    requires Valid(s) && t < |s.tasks| && FairRounds(s, rounds, t)
    requires |rounds| > Work(s.tasks[..t + 1])
    ensures t < |AllRounds(s, rounds).tasks| && Finished(AllRounds(s, rounds).tasks[t])
    decreases |rounds|
  {
    WorkUpToNonNegative(s, t);
    var next := Onward(s, rounds[0]);
    OnwardKeeps(s, rounds[0], t);
    if Finished(s.tasks[t]) {
      StaysFinished(next, rounds[1..], t);
    } else {
      FairlyScheduledFinishes(next, rounds[1..], t);
    }
  }

  lemma {:induction false} StaysFinished(s: State, rounds: seq<seq<Event>>, t: nat)
    requires Valid(s) && t < |s.tasks| && Finished(s.tasks[t])
    ensures t < |AllRounds(s, rounds).tasks| && Finished(AllRounds(s, rounds).tasks[t])
    decreases |rounds|
  {
    if rounds != [] {
      OnwardKeeps(s, rounds[0], t);
      StaysFinished(Onward(s, rounds[0]), rounds[1..], t);
    }
  }

  // ---- A lock named twice ----

  lemma NotBothStarted(s: State, t: nat, i: nat, j: nat)
    requires Valid(s) && t < |s.tasks| && i < j < |s.tasks[t].names| && s.tasks[t].names[i] == s.tasks[t].names[j]
    requires s.tasks[t].released == {}
    ensures !s.tasks[t].AllIn(s.tasks[t].started)
  {
    assert StartedAtHead(s, t);
    assert i in s.tasks[t].started ==> HeadIs(s, s.tasks[t].names[i], Job(t, i));
    assert j in s.tasks[t].started ==> HeadIs(s, s.tasks[t].names[j], Job(t, j));
  }

  /** A task that names a lock twice never runs, in any run: its second job waits behind the first, which waits for
      the second. */
  lemma {:induction false} NamedTwiceNeverRuns(events: seq<Event>, t: nat, i: nat, j: nat)
    requires t < |After(events).tasks| && i < j < |After(events).tasks[t].names|
    requires After(events).tasks[t].names[i] == After(events).tasks[t].names[j]
    ensures After(events).tasks[t].runs == 0 && After(events).tasks[t].promise == NotRun
  {
    var before, e := After(events[..|events| - 1]), events[|events| - 1];
    AlwaysValid(events[..|events| - 1]);
    AlwaysValid(events);
    if t < |before.tasks| {
      NamedTwiceNeverRuns(events[..|events| - 1], t, i, j);
      assert TaskOk(before.tasks[t]);
      NotBothStarted(before, t, i, j);
    }
  }
}
