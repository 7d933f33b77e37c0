/** The pool cell over the life of the process: a sequence of `dbQuery` calls
    and keep-alive pings, run one after another against the shared cell. */
module Lifecycle {
  import opened Driver
  import opened Trace
  import opened Classify
  import opened Executor

  /** The keep-alive ping statement. It is sent without a parameter array,
      which the driver treats as no parameters. */
  const KeepAliveQuery: Query := Query("SELECT 1", [])

  /** Something that uses the current pool: a `dbQuery` call with its driver
      script and the shape of `end` on the pool it may discard, or a tick of
      the keep-alive timer with the driver's reply to the ping. */
  datatype Task =
    | Call(query: Query, script: Script, hook: EndHook)
    | Tick(reply: Reply)

  /** The pool cell and the steps taken so far. */
  datatype Session = Session(pool: Pool, trace: seq<Step>)

  /** One task against the current pool. A tick sends `SELECT 1` straight to
      `pool.query`; its error is only logged, so it never replaces the pool. */
  function Perform(pool: Pool, task: Task): Session
  {
    match task
    case Call(q, script, hook) =>
      var run := DbQuery(pool, q, script, hook);
      Session(run.pool, run.trace)
    case Tick(_) =>
      Session(pool, [Attempt(pool.generation, KeepAliveQuery)])
  }

  /** The tasks in order, each seeing the pool the previous one left current. */
  function RunTasks(pool: Pool, tasks: seq<Task>): Session
    decreases |tasks|
  {
    if |tasks| == 0 then Session(pool, [])
    else
      var s1 := Perform(pool, tasks[0]);
      var s2 := RunTasks(s1.pool, tasks[1..]);
      Session(s2.pool, s1.trace + s2.trace)
  }

  /** A task that replaces the pool: a call whose first attempt failed transiently. */
  predicate Replaces(task: Task)
  {
    task.Call? && task.script.first.Failed? && IsClosed(task.script.first.err)
  }

  function CountReplacing(tasks: seq<Task>): nat
    decreases |tasks|
  {
    if |tasks| == 0 then 0
    else (if Replaces(tasks[0]) then 1 else 0) + CountReplacing(tasks[1..])
  }

  /** What one task does to the cell: one attempt, plus one retry and one
      replacement when it replaces; ticks never replace. */
  lemma PerformEffect(pool: Pool, task: Task)
    ensures var s := Perform(pool, task);
      && Consistent(pool.generation, s.trace)
      && CurrentAfter(pool.generation, s.trace) == s.pool.generation
      && s.pool.generation == pool.generation + (if Replaces(task) then 1 else 0)
      && CountCreates(s.trace) == (if Replaces(task) then 1 else 0)
      && |AttemptsOf(s.trace)| == 1 + (if Replaces(task) then 1 else 0)
  {
    if task.Tick? {
      var t := [Attempt(pool.generation, KeepAliveQuery)];
      assert t[1..] == [];
      assert CurrentAfter(pool.generation, t) == CurrentAfter(pool.generation, []);
    }
  }

  /** Over any sequence of tasks the cell's history stays consistent, the
      generation advances exactly once per replacing call, and the number of
      attempts is one per task plus one per replacement. */
  lemma {:induction false} RunTasksInvariant(pool: Pool, tasks: seq<Task>)
    ensures var s := RunTasks(pool, tasks);
      && Consistent(pool.generation, s.trace)
      && CurrentAfter(pool.generation, s.trace) == s.pool.generation
      && s.pool.generation == pool.generation + CountReplacing(tasks)
      && CountCreates(s.trace) == CountReplacing(tasks)
      && |AttemptsOf(s.trace)| == |tasks| + CountReplacing(tasks)
    decreases |tasks|
  {
    if |tasks| > 0 {
      var s1 := Perform(pool, tasks[0]);
      var s2 := RunTasks(s1.pool, tasks[1..]);
      PerformEffect(pool, tasks[0]);
      RunTasksInvariant(s1.pool, tasks[1..]);
      ConsistentConcat(pool.generation, s1.trace, s2.trace);
      CountCreatesConcat(s1.trace, s2.trace);
      AttemptsOfConcat(s1.trace, s2.trace);
    }
  }

  /** At most two attempts and one replacement per call, whatever the mix. */
  lemma AttemptsBounded(pool: Pool, tasks: seq<Task>)
    ensures CountCreates(RunTasks(pool, tasks).trace) <= |tasks|
    ensures |AttemptsOf(RunTasks(pool, tasks).trace)| <= 2 * |tasks|
  {
    RunTasksInvariant(pool, tasks);
    CountReplacingBounded(tasks);
  }

  lemma {:induction false} CountReplacingBounded(tasks: seq<Task>)
    ensures CountReplacing(tasks) <= |tasks|
    decreases |tasks|
  {
    if |tasks| > 0 {
      CountReplacingBounded(tasks[1..]);
    }
  }

  /** Keep-alive ticks alone never change the current pool. */
  lemma {:induction false} TicksKeepPool(pool: Pool, tasks: seq<Task>)
    requires forall k :: 0 <= k < |tasks| ==> tasks[k].Tick?
    ensures RunTasks(pool, tasks).pool == pool
    ensures CountCreates(RunTasks(pool, tasks).trace) == 0
    decreases |tasks|
  {
    if |tasks| > 0 {
      TicksKeepPool(pool, tasks[1..]);
      CountCreatesConcat(Perform(pool, tasks[0]).trace, RunTasks(pool, tasks[1..]).trace);
      assert [Attempt(pool.generation, KeepAliveQuery)][1..] == [];
    }
  }

  /** Over any sequence of calls and ticks, a pool once asked to end is never
      queried again, by a later call or by a keep-alive ping: every pool
      asked to end is older than the pool current at the end. */
  lemma {:induction false} EndedPoolsNeverQueried(pool: Pool, tasks: seq<Task>)
    ensures NoUseAfterEnd(RunTasks(pool, tasks).trace)
    ensures forall g :: g in EndsOf(RunTasks(pool, tasks).trace) ==> g < RunTasks(pool, tasks).pool.generation
    decreases |tasks|
  {
    if |tasks| > 0 {
      var s1 := Perform(pool, tasks[0]);
      var s2 := RunTasks(s1.pool, tasks[1..]);
      match tasks[0] {
        case Call(q, script, hook) =>
          NoQueryOnEndedPool(pool, q, script, hook);
        case Tick(_) =>
          assert s1.trace[1..] == [];
          assert EndsOf(s1.trace) == [];
      }
      EndedPoolsNeverQueried(s1.pool, tasks[1..]);
      RunTasksInvariant(s1.pool, tasks[1..]);
      AttemptsNotBefore(s1.pool.generation, s2.trace);
      NoUseAfterEndConcat(s1.trace, s2.trace, s1.pool.generation);
      EndsOfConcat(s1.trace, s2.trace);
    }
  }
}
