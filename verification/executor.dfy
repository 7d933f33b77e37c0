/** The `dbQuery` retry protocol: one attempt on the current pool; on a
    transient failure, replace the pool once and reissue the same query once. */
module Executor {
  import opened JsValues
  import opened Driver
  import opened Trace
  import opened Classify

  /** The result of one `dbQuery` call: how its promise settles (resolved
      rows or rejected error), the pool current afterwards, and the steps it
      took against the pools. */
  datatype Run = Run(outcome: Reply, pool: Pool, trace: seq<Step>)

  /** A pool replacement: the pool made current and the steps it took. */
  datatype Swap = Swap(pool: Pool, steps: seq<Step>)

  /** `createPool()` assigned to the cell: a pool of a generation never used before. */
  function CreatePool(previous: Pool): (p: Pool)
    ensures p.generation > previous.generation
  {
    Pool(previous.generation + 1)
  }

  /** The pool replacement: `pool.end?.(…)` inside a try whose catch ignores
      everything, then `pool = createPool()`. Whatever `end` does, the new
      pool becomes current. */
  function ReplacePool(current: Pool, hook: EndHook): (r: Swap)
    ensures r.pool.generation == current.generation + 1
    ensures AttemptsOf(r.steps) == [] && CountCreates(r.steps) == 1
    ensures Consistent(current.generation, r.steps)
    ensures CurrentAfter(current.generation, r.steps) == r.pool.generation
    // Only the pool being replaced is asked to end, and it is asked exactly
    // when it has an `end` to call.
    ensures forall k :: 0 <= k < |r.steps| && r.steps[k].EndOld? ==> r.steps[k].generation == current.generation
    ensures (exists k :: 0 <= k < |r.steps| && r.steps[k].EndOld?) <==> !hook.NoEnd?
    ensures EndsOf(r.steps) == if hook.NoEnd? then [] else [current.generation]
  {
    var ended := if hook.NoEnd? then [] else [EndOld(current.generation)];
    var created := CreatePool(current);
    var steps := ended + [Create(created.generation)];
    assert !hook.NoEnd? ==> steps[0].EndOld?;
    AttemptsOfConcat(ended, [Create(created.generation)]);
    EndsOfConcat(ended, [Create(created.generation)]);
    CountCreatesConcat(ended, [Create(created.generation)]);
    ConsistentConcat(current.generation, ended, [Create(created.generation)]);
    Swap(created, steps)
  }

  /** `dbQuery(sql, params)` against the pool cell `pool`, with the driver's
      replies scripted by `script` and the old pool's `end` shaped by `hook`. */
  function DbQuery(pool: Pool, q: Query, script: Script, hook: EndHook): (run: Run)
    // Success on the first attempt: its rows, one attempt, pool untouched.
    ensures script.first.Rows? ==>
      && run.outcome == script.first
      && run.pool == pool
      && AttemptsOf(run.trace) == [Attempt(pool.generation, q)]
      && CountCreates(run.trace) == 0
    // A non-transient failure: that same error, no retry, no replacement.
    ensures script.first.Failed? && !IsClosed(script.first.err) ==>
      && run.outcome == Failed(script.first.err)
      && run.pool == pool
      && AttemptsOf(run.trace) == [Attempt(pool.generation, q)]
      && CountCreates(run.trace) == 0
    // A transient failure: one replacement, the identical query reissued once
    // on the fresh pool, and the retry's reply is the outcome.
    ensures script.first.Failed? && IsClosed(script.first.err) ==>
      && run.outcome == script.retry
      && run.pool.generation == pool.generation + 1
      && AttemptsOf(run.trace) == [Attempt(pool.generation, q), Attempt(run.pool.generation, q)]
      && CountCreates(run.trace) == 1
    // Every call: at most two attempts and one replacement, each attempt on
    // the pool current at that moment.
    ensures 1 <= |AttemptsOf(run.trace)| <= 2 && CountCreates(run.trace) <= 1
    ensures Consistent(pool.generation, run.trace)
    ensures CurrentAfter(pool.generation, run.trace) == run.pool.generation
    // Without a replacement the call is its one attempt and nothing else: no
    // pool is asked to end. With one, only the pool being replaced is asked
    // to end, and only when it has an `end` to call.
    ensures !(script.first.Failed? && IsClosed(script.first.err)) ==> run.trace == [Attempt(pool.generation, q)]
    ensures EndsOf(run.trace) ==
      if script.first.Failed? && IsClosed(script.first.err) && !hook.NoEnd? then [pool.generation] else []
  {
    var firstTry := [Attempt(pool.generation, q)];
    assert firstTry[1..] == [];
    assert AttemptsOf(firstTry) == firstTry;
    assert CountCreates(firstTry) == 0;
    assert EndsOf(firstTry) == [];
    assert Consistent(pool.generation, firstTry) && CurrentAfter(pool.generation, firstTry) == pool.generation;
    match script.first
    case Rows(_) => Run(script.first, pool, firstTry)
    case Failed(err) =>
      if IsClosed(err) then
        var Swap(created, swap) := ReplacePool(pool, hook);
        var retry := [Attempt(created.generation, q)];
        assert retry[1..] == [];
        assert AttemptsOf(retry) == retry;
        assert CountCreates(retry) == 0;
        assert EndsOf(retry) == [];
        assert Consistent(created.generation, retry);
        assert CurrentAfter(created.generation, retry) == CurrentAfter(created.generation, []);
        AttemptsOfConcat(firstTry, swap);
        AttemptsOfConcat(firstTry + swap, retry);
        EndsOfConcat(firstTry, swap);
        EndsOfConcat(firstTry + swap, retry);
        CountCreatesConcat(firstTry, swap);
        CountCreatesConcat(firstTry + swap, retry);
        ConsistentConcat(pool.generation, firstTry, swap);
        ConsistentConcat(pool.generation, firstTry + swap, retry);
        Run(script.retry, created, firstTry + swap + retry)
      else
        Run(script.first, pool, firstTry)
  }

  /** A throw (or absence) of `end` on the old pool cannot stop or alter the
      replacement: the outcome and the new current pool do not depend on it. */
  lemma EndCannotBlockReplacement(pool: Pool, q: Query, script: Script, h1: EndHook, h2: EndHook)
    ensures DbQuery(pool, q, script, h1).outcome == DbQuery(pool, q, script, h2).outcome
    ensures DbQuery(pool, q, script, h1).pool == DbQuery(pool, q, script, h2).pool
  {
  }

  /** The first error of a transient failure reaches the caller only if the
      retry fails with that very error: after a retry the caller sees the
      retry's reply and nothing else. */
  lemma OriginalErrorNeverSurfaced(pool: Pool, q: Query, first: DbError, retry: Reply, hook: EndHook)
    requires IsClosed(first)
    ensures DbQuery(pool, q, Script(Failed(first), retry), hook).outcome == Failed(first) <==> retry == Failed(first)
    ensures retry.Rows? ==> DbQuery(pool, q, Script(Failed(first), retry), hook).outcome == retry
  {
  }

  /** The pool is replaced by a call exactly when its first attempt failed
      with a transient error. */
  lemma ReplacedIffTransient(pool: Pool, q: Query, script: Script, hook: EndHook)
    ensures DbQuery(pool, q, script, hook).pool != pool <==> script.first.Failed? && IsClosed(script.first.err)
  {
  }

  /** A call asks a pool to end only when it replaces that pool, and then
      only the pool it replaces, and only when that pool has an `end`. */
  lemma EndOnlyOnReplacement(pool: Pool, q: Query, script: Script, hook: EndHook)
    ensures var t := DbQuery(pool, q, script, hook).trace;
      && (forall k :: 0 <= k < |t| && t[k].EndOld? ==> t[k].generation == pool.generation)
      && ((exists k :: 0 <= k < |t| && t[k].EndOld?) <==>
            script.first.Failed? && IsClosed(script.first.err) && !hook.NoEnd?)
  {
    var t := DbQuery(pool, q, script, hook).trace;
    forall k | 0 <= k < |t| && t[k].EndOld?
      ensures t[k].generation == pool.generation
    {
      EndsOfNamesEndSteps(t, t[k].generation);
    }
    if script.first.Failed? && IsClosed(script.first.err) && !hook.NoEnd? {
      EndsOfNamesEndSteps(t, pool.generation);
    }
  }

  /** Within one call, the pool asked to end is never queried afterwards, and
      it is older than the pool the call leaves current. */
  lemma NoQueryOnEndedPool(pool: Pool, q: Query, script: Script, hook: EndHook)
    ensures NoUseAfterEnd(DbQuery(pool, q, script, hook).trace)
    ensures forall g :: g in EndsOf(DbQuery(pool, q, script, hook).trace) ==> g < DbQuery(pool, q, script, hook).pool.generation
  {
    var run := DbQuery(pool, q, script, hook);
    if script.first.Failed? && IsClosed(script.first.err) {
      var g := pool.generation;
      if hook.NoEnd? {
        assert run.trace == [Attempt(g, q), Create(g + 1), Attempt(g + 1, q)];
      } else {
        assert run.trace == [Attempt(g, q), EndOld(g), Create(g + 1), Attempt(g + 1, q)];
      }
    }
  }
}
